/**
  The text conventions of Rust's standard library that the tool relies on
  when it talks to the kernel's control files: `str::trim`, `u8`'s `FromStr`
  (`from_str_radix` in base 10) and `u8`'s `Display` (`to_string`).
*/
module Decimal {
  import opened Wrappers

  /** Rust's `u8`. */
  type U8 = x: int | 0 <= x < 256

  /** `char::is_whitespace`: the characters with the Unicode White_Space property. */
  predicate IsWhitespace(c: char) {
    var n := c as int;
    (9 <= n <= 13) || n == 0x20 || n == 0x85 || n == 0xA0 || n == 0x1680
    || (0x2000 <= n <= 0x200A) || n == 0x2028 || n == 0x2029 || n == 0x202F
    || n == 0x205F || n == 0x3000
  }

  predicate AllWhitespace(s: string) {
    forall i :: 0 <= i < |s| ==> IsWhitespace(s[i])
  }

  /** `str::trim_start`: drops the leading whitespace and nothing else. */
  function TrimStart(s: string): (r: string)
    ensures |r| <= |s| && r == s[|s| - |r|..]
    ensures AllWhitespace(s[..|s| - |r|])
    ensures r != [] ==> !IsWhitespace(r[0])
  {
    if s != [] && IsWhitespace(s[0]) then
      var r := TrimStart(s[1..]);
      DropFirst(s, r);
      r
    else s
  }

  /** `str::trim_end`: drops the trailing whitespace and nothing else. */
  function TrimEnd(s: string): (r: string)
    ensures |r| <= |s| && r == s[..|r|]
    ensures AllWhitespace(s[|r|..])
    ensures r != [] ==> !IsWhitespace(r[|r| - 1])
  {
    if s != [] && IsWhitespace(s[|s| - 1]) then
      var r := TrimEnd(s[..|s| - 1]);
      DropLast(s, r);
      r
    else s
  }

  /** One more leading whitespace character in front of what `trim_start` dropped. */
  lemma DropFirst(s: string, r: string)
    requires s != [] && IsWhitespace(s[0])
    requires |r| <= |s| - 1 && r == s[1..][|s| - 1 - |r|..]
    requires AllWhitespace(s[1..][..|s| - 1 - |r|])
    ensures r == s[|s| - |r|..] && AllWhitespace(s[..|s| - |r|])
  {
    assert s[..|s| - |r|] == [s[0]] + s[1..][..|s| - 1 - |r|];
  }

  /** One more trailing whitespace character behind what `trim_end` dropped. */
  lemma DropLast(s: string, r: string)
    requires s != [] && IsWhitespace(s[|s| - 1])
    requires |r| <= |s| - 1 && r == s[..|s| - 1][..|r|]
    requires AllWhitespace(s[..|s| - 1][|r|..])
    ensures r == s[..|r|] && AllWhitespace(s[|r|..])
  {
    assert s[|r|..] == s[..|s| - 1][|r|..] + [s[|s| - 1]];
  }

  /** The number of whitespace characters `trim_start` drops. */
  function Leading(s: string): (k: nat)
    ensures k <= |s|
  {
    |s| - |TrimStart(s)|
  }

  /**
    `r` is the part of `s` that starts at `k`, with nothing but whitespace
    before it and after it in `s`, and it neither starts nor ends with
    whitespace itself.
  */
  predicate Middle(s: string, k: nat, r: string) {
    && k + |r| <= |s|
    && r == s[k..k + |r|]
    && AllWhitespace(s[..k])
    && AllWhitespace(s[k + |r|..])
    && (r != [] ==> !IsWhitespace(r[0]) && !IsWhitespace(r[|r| - 1]))
  }

  /**
    `str::trim`: the middle part of the text, after the leading and before
    the trailing whitespace.
  */
  function Trim(s: string): (r: string)
    ensures Middle(s, Leading(s), r)
  {
    MiddleOf(s, Leading(s), TrimStart(s), TrimEnd(TrimStart(s)));
    TrimEnd(TrimStart(s))
  }

  /**
    What `trim_end` keeps of the suffix `t` of `s` that `trim_start` left
    from `k` on is the middle part of `s`.
  */
  lemma MiddleOf(s: string, k: nat, t: string, r: string)
    requires k <= |s| && t == s[k..] && AllWhitespace(s[..k])
    requires |r| <= |t| && r == t[..|r|] && AllWhitespace(t[|r|..])
    requires t != [] ==> !IsWhitespace(t[0])
    requires r != [] ==> !IsWhitespace(r[|r| - 1])
    ensures Middle(s, k, r)
  {
    assert t[|r|..] == s[k + |r|..];
  }

  predicate IsDigit(c: char) {
    '0' <= c <= '9'
  }

  predicate AllDigits(s: string) {
    forall i :: 0 <= i < |s| ==> IsDigit(s[i])
  }

  function DigitValue(c: char): (d: nat)
    requires IsDigit(c)
    ensures d < 10
  {
    c as int - '0' as int
  }

  function DigitChar(d: nat): (c: char)
    requires d < 10
    ensures IsDigit(c) && DigitValue(c) == d
  {
    ('0' as int + d) as char
  }

  /** The number a string of decimal digits denotes, read left to right from `acc`. */
  function Value(acc: nat, s: string): nat
    requires AllDigits(s)
    decreases |s|
  {
    if s == [] then acc else Value(acc * 10 + DigitValue(s[0]), s[1..])
  }

  /** The ways `u8::from_str` can fail (`IntErrorKind`). */
  datatype IntErrorKind = Empty | InvalidDigit | PosOverflow

  /**
    The digit loop of `from_str_radix`: each step multiplies the `u8`
    accumulator by ten and adds the next digit; a non-digit is reported as
    soon as it is reached, and so is a step that leaves the range of `u8`.
  */
  function ScanDigits(acc: U8, s: string): Result<U8, IntErrorKind>
    decreases |s|
  {
    if s == [] then Ok(acc)
    else if !IsDigit(s[0]) then Err(InvalidDigit)
    else if acc * 10 + DigitValue(s[0]) > 255 then Err(PosOverflow)
    else ScanDigits(acc * 10 + DigitValue(s[0]), s[1..])
  }

  /** `u8::from_str`: an optional leading `+`, then one or more decimal digits. */
  function ParseU8(s: string): Result<U8, IntErrorKind>
  {
    if s == [] then Err(Empty)
    else if s == "+" || s == "-" then Err(InvalidDigit)
    else if s[0] == '+' then ScanDigits(0, s[1..])
    else ScanDigits(0, s)
  }

  /** The digits `from_str_radix` reads: the text after one optional leading `+`. */
  function Unsigned(s: string): string {
    if s != [] && s[0] == '+' then s[1..] else s
  }

  /** `u8`'s `to_string`: the shortest decimal form, with no sign and no leading zero. */
  function DecimalString(n: nat): (r: string)
    ensures r != [] && AllDigits(r)
    ensures |r| > 1 ==> r[0] != '0'
  {
    if n < 10 then [DigitChar(n)] else DecimalString(n / 10) + [DigitChar(n % 10)]
  }

  lemma {:induction false} ValueAtLeast(acc: nat, s: string)
    requires AllDigits(s)
    ensures Value(acc, s) >= acc
    decreases |s|
  {
    if s != [] {
      ValueAtLeast(acc * 10 + DigitValue(s[0]), s[1..]);
    }
  }

  lemma {:induction false} ValueSnoc(acc: nat, s: string, c: char)
    requires AllDigits(s) && IsDigit(c)
    ensures AllDigits(s + [c])
    ensures Value(acc, s + [c]) == Value(acc, s) * 10 + DigitValue(c)
    decreases |s|
  {
    if s == [] {
      assert [c][1..] == [];
    } else {
      assert (s + [c])[1..] == s[1..] + [c];
      ValueSnoc(acc * 10 + DigitValue(s[0]), s[1..], c);
    }
  }

  /** The digit loop succeeds exactly when every character is a digit and the number fits in a `u8`. */
  lemma {:induction false} ScanDigitsMeaning(acc: U8, s: string)
    ensures ScanDigits(acc, s).Ok? <==> AllDigits(s) && Value(acc, s) <= 255
    ensures ScanDigits(acc, s).Ok? ==> ScanDigits(acc, s).value == Value(acc, s)
    decreases |s|
  {
    if s != [] {
      if !IsDigit(s[0]) {
      } else {
        var next := acc * 10 + DigitValue(s[0]);
        if AllDigits(s[1..]) {
          ValueAtLeast(next, s[1..]);
        }
        if next <= 255 {
          ScanDigitsMeaning(next, s[1..]);
        }
        assert AllDigits(s) <==> AllDigits(s[1..]) by {
          if AllDigits(s[1..]) {
            forall i | 0 <= i < |s| ensures IsDigit(s[i]) {
              if i > 0 { assert s[i] == s[1..][i - 1]; }
            }
          }
        }
      }
    }
  }

  /**
    `u8::from_str` accepts exactly the texts that, after one optional `+`,
    are a non-empty run of decimal digits denoting at most 255, and returns
    that number.
  */
  lemma ParseU8Meaning(s: string)
    ensures ParseU8(s).Ok? <==>
      Unsigned(s) != [] && AllDigits(Unsigned(s)) && Value(0, Unsigned(s)) <= 255
    ensures ParseU8(s).Ok? ==> ParseU8(s).value == Value(0, Unsigned(s))
    ensures s == [] ==> ParseU8(s) == Err(Empty)
  {
    if s != [] {
      ScanDigitsMeaning(0, Unsigned(s));
      if s[0] == '-' {
        assert !AllDigits(Unsigned(s)) by { assert !IsDigit(Unsigned(s)[0]); }
      }
    }
  }

  /** `to_string` and `from_str` agree on the value: the decimal form denotes `n`. */
  lemma {:induction false} DecimalStringValue(n: nat)
    ensures Value(0, DecimalString(n)) == n
  {
    if n >= 10 {
      DecimalStringValue(n / 10);
      ValueSnoc(0, DecimalString(n / 10), DigitChar(n % 10));
    }
  }

  /** Round trip: `n.to_string().parse::<u8>() == Ok(n)`. */
  lemma DecimalRoundTrip(n: U8)
    ensures ParseU8(DecimalString(n)) == Ok(n)
  {
    var s := DecimalString(n);
    DecimalStringValue(n);
    ScanDigitsMeaning(0, s);
    assert s[0] != '+' && s != "-";
  }

  lemma {:induction false} TrimStartSkips(w: string, x: string)
    requires AllWhitespace(w)
    ensures TrimStart(w + x) == TrimStart(x)
  {
    if w != [] {
      assert (w + x)[0] == w[0] && IsWhitespace(w[0]);
      assert (w + x)[1..] == w[1..] + x;
      assert AllWhitespace(w[1..]);
      TrimStartSkips(w[1..], x);
    } else {
      assert w + x == x;
    }
  }

  lemma {:induction false} TrimEndSkips(x: string, w: string)
    requires AllWhitespace(w)
    ensures TrimEnd(x + w) == TrimEnd(x)
    decreases |w|
  {
    if w != [] {
      assert (x + w)[|x + w| - 1] == w[|w| - 1] && IsWhitespace(w[|w| - 1]);
      assert (x + w)[..|x + w| - 1] == x + w[..|w| - 1];
      assert AllWhitespace(w[..|w| - 1]);
      TrimEndSkips(x, w[..|w| - 1]);
    } else {
      assert x + w == x;
    }
  }

  /** Whitespace around a text that neither starts nor ends with whitespace is exactly what `trim` removes. */
  lemma TrimPadded(before: string, core: string, after: string)
    requires AllWhitespace(before) && AllWhitespace(after)
    requires core != [] && !IsWhitespace(core[0]) && !IsWhitespace(core[|core| - 1])
    ensures Trim(before + core + after) == core
  {
    assert before + core + after == before + (core + after);
    TrimStartSkips(before, core + after);
    assert TrimStart(core + after) == core + after;
    TrimEndSkips(core, after);
  }

  /**
    What the tool writes to a control file, read back with surrounding
    whitespace (the kernel's trailing newline, say) and then trimmed and
    parsed, is the number that was written.
  */
  lemma ReadBackDecimal(n: U8, before: string, after: string)
    requires AllWhitespace(before) && AllWhitespace(after)
    ensures ParseU8(Trim(before + DecimalString(n) + after)) == Ok(n)
  {
    var s := DecimalString(n);
    assert !IsWhitespace(s[0]) && !IsWhitespace(s[|s| - 1]) by {
      assert IsDigit(s[0]) && IsDigit(s[|s| - 1]);
    }
    TrimPadded(before, s, after);
    DecimalRoundTrip(n);
  }
}
