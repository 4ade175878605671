/**
  The state probe: the fan-profile index and the turbo flag as the kernel
  reports them when a command starts, and their human and JSON renderings.
  A `State` is a value; nothing changes it once it has been read.
*/
module StateProbe {
  import opened Wrappers
  import opened Decimal

  /** Why reading the state failed: a control file could not be read, or its trimmed text is not a `u8`. */
  datatype StateError = Unreadable | Malformed(kind: IntErrorKind)

  /**
    One control file's contribution to the state: its text (`None` when the
    read fails), trimmed and parsed as a `u8`. There is no range check.
  */
  function ReadU8(text: Option<string>): Result<U8, StateError>
  {
    match text
    case None => Err(Unreadable)
    case Some(t) =>
      match ParseU8(Trim(t))
      case Ok(n) => Ok(n)
      case Err(kind) => Err(Malformed(kind))
  }

  /** The names of the three fan profiles, by index. */
  function ProfileName(index: U8): (name: string)
    requires index < 3
    ensures name == "normal" || name == "boost" || name == "silent"
  {
    match index
    case 0 => "normal"
    case 1 => "boost"
    case 2 => "silent"
  }

  /** Rust's `Display` for `bool`. */
  function BoolText(b: bool): string {
    if b then "true" else "false"
  }

  datatype State = State(fanProfile: U8, turbo: bool) {

    /** The textual form of the fan profile; the source panics on an index above 2. */
    function FanProfileStr(): string
      requires fanProfile < 3
    {
      ProfileName(fanProfile)
    }

    /** The machine rendering: a one-line JSON object with the keys `fan_profile` and `turbo`, in that order. */
    function JsonString(): string
      requires fanProfile < 3
    {
      "{\"fan_profile\": \"" + FanProfileStr() + "\", \"turbo\": " + BoolText(turbo) + "}"
    }

    /** The human rendering (`Display`). */
    function DisplayString(): string
      requires fanProfile < 3
    {
      "Fan profile: " + FanProfileStr() + ", Turbo: " + BoolText(turbo)
    }
  }

  /**
    `State::from_system`, given what reading the fan-profile file and the
    turbo file returned: the fan-profile file is read and parsed first, and
    its failure stops the probe before the turbo file is considered; turbo
    is on exactly when its number is not zero.
  */
  function FromSystem(fanText: Option<string>, turboText: Option<string>): Result<State, StateError>
  {
    match ReadU8(fanText)
    case Err(e) => Err(e)
    case Ok(fanProfile) =>
      match ReadU8(turboText)
      case Err(e) => Err(e)
      case Ok(turbo) => Ok(State(fanProfile, turbo != 0))
  }

  // ----- Reading the renderings back -----

  const JsonOpen: string := "{\"fan_profile\": \""
  const JsonMid: string := "\", \"turbo\": "
  const JsonClose: string := "}"
  const DisplayOpen: string := "Fan profile: "
  const DisplayMid: string := ", Turbo: "
  const DisplayClose: string := ""

  predicate StartsWith(s: string, prefix: string) {
    |prefix| <= |s| && s[..|prefix|] == prefix
  }

  /** The profile name a text starts with, and the text after it. */
  function ReadName(s: string): Option<(U8, string)>
  {
    if StartsWith(s, "normal") then Some((0, s[6..]))
    else if StartsWith(s, "boost") then Some((1, s[5..]))
    else if StartsWith(s, "silent") then Some((2, s[6..]))
    else None
  }

  /**
    A reader for texts of the shape `open` name `mid` `true|false` `close`,
    the shape both renderings have; it recovers the state they were made from.
  */
  function ReadRendered(open: string, mid: string, close: string, text: string): Option<State>
  {
    if !StartsWith(text, open) then None
    else
      match ReadName(text[|open|..])
      case None => None
      case Some((index, afterName)) =>
        if !StartsWith(afterName, mid) then None
        else if afterName[|mid|..] == "true" + close then Some(State(index, true))
        else if afterName[|mid|..] == "false" + close then Some(State(index, false))
        else None
  }

  // ----- Properties -----

  /** The name of index `i` is read back as `i`, whatever follows it. */
  lemma ReadNameOf(i: U8, rest: string)
    requires i < 3
    ensures ReadName(ProfileName(i) + rest) == Some((i, rest))
  {
    var s := ProfileName(i) + rest;
    assert s[..|ProfileName(i)|] == ProfileName(i);
    assert s[|ProfileName(i)|..] == rest;
    assert s[0] == ProfileName(i)[0];
  }

  lemma ReadRenderedOf(open: string, mid: string, close: string, s: State)
    requires s.fanProfile < 3
    ensures ReadRendered(open, mid, close,
      open + ProfileName(s.fanProfile) + mid + BoolText(s.turbo) + close) == Some(s)
  {
    var name := ProfileName(s.fanProfile);
    var b := BoolText(s.turbo);
    var text := open + name + mid + b + close;
    assert text == open + (name + (mid + (b + close)));
    assert text[..|open|] == open;
    assert text[|open|..] == name + (mid + (b + close));
    ReadNameOf(s.fanProfile, mid + (b + close));
    var afterName := mid + (b + close);
    assert afterName[..|mid|] == mid;
    assert afterName[|mid|..] == b + close;
    assert s.turbo ==> b + close != "false" + close by {
      if s.turbo { assert (b + close)[0] == 't'; }
    }
  }

  /** Round trip: the JSON that `info --json` prints reads back as the state it was made from. */
  lemma JsonRoundTrip(s: State)
    requires s.fanProfile < 3
    ensures ReadRendered(JsonOpen, JsonMid, JsonClose, s.JsonString()) == Some(s)
  {
    ReadRenderedOf(JsonOpen, JsonMid, JsonClose, s);
  }

  /** Round trip: the line that `info` prints reads back as the state it was made from. */
  lemma DisplayRoundTrip(s: State)
    requires s.fanProfile < 3
    ensures ReadRendered(DisplayOpen, DisplayMid, DisplayClose, s.DisplayString()) == Some(s)
  {
    assert s.DisplayString() == s.DisplayString() + DisplayClose;
    ReadRenderedOf(DisplayOpen, DisplayMid, DisplayClose, s);
  }

  /** Distinct states print distinct JSON, so a consumer loses nothing. */
  lemma JsonInjective(s: State, t: State)
    requires s.fanProfile < 3 && t.fanProfile < 3
    requires s.JsonString() == t.JsonString()
    ensures s == t
  {
    JsonRoundTrip(s);
    JsonRoundTrip(t);
  }

  /** Distinct states print distinct human lines. */
  lemma DisplayInjective(s: State, t: State)
    requires s.fanProfile < 3 && t.fanProfile < 3
    requires s.DisplayString() == t.DisplayString()
    ensures s == t
  {
    DisplayRoundTrip(s);
    DisplayRoundTrip(t);
  }

  /** The profile names are pairwise distinct, so the index-to-name mapping is injective. */
  lemma ProfileNameInjective(i: U8, j: U8)
    requires i < 3 && j < 3
    ensures ProfileName(i) == ProfileName(j) <==> i == j
  {
    if i != j {
      assert ProfileName(i)[0] != ProfileName(j)[0];
    }
  }

  /**
    The probe succeeds exactly when both files were read and both trimmed
    texts parse as a `u8`; the fan profile is the first number, unchecked
    against the three profiles, and turbo is on exactly when the second is
    not zero. An unreadable or malformed fan-profile file is reported
    whatever the turbo file holds.
  */
  lemma FromSystemMeaning(fanText: Option<string>, turboText: Option<string>)
    ensures FromSystem(fanText, turboText).Ok? <==>
      fanText.Some? && turboText.Some? &&
      ParseU8(Trim(fanText.value)).Ok? && ParseU8(Trim(turboText.value)).Ok?
    ensures FromSystem(fanText, turboText).Ok? ==>
      FromSystem(fanText, turboText).value.fanProfile == ParseU8(Trim(fanText.value)).value &&
      (FromSystem(fanText, turboText).value.turbo <==> ParseU8(Trim(turboText.value)).value != 0)
    ensures fanText.None? ==> FromSystem(fanText, turboText) == Err(Unreadable)
    ensures fanText.Some? && ParseU8(Trim(fanText.value)).Err? ==>
      FromSystem(fanText, turboText) == Err(Malformed(ParseU8(Trim(fanText.value)).error))
  {
  }

  /** A control file holding a decimal number and the kernel's newline reads as that number. */
  lemma ReadBackWritten(n: U8)
    ensures ReadU8(Some(DecimalString(n) + "\n")) == Ok(n)
  {
    var text := DecimalString(n) + "\n";
    assert text == "" + DecimalString(n) + "\n";
    ReadBackDecimal(n, "", "\n");
    assert ParseU8(Trim(text)) == Ok(n);
  }

  /** Any `u8` is accepted as a fan profile, including the ones with no name. */
  lemma FromSystemNoRangeCheck(n: U8, t: U8)
    ensures FromSystem(Some(DecimalString(n) + "\n"), Some(DecimalString(t) + "\n"))
      == Ok(State(n, t != 0))
  {
    ReadBackWritten(n);
    ReadBackWritten(t);
  }
}
