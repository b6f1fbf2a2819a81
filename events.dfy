/** Ball events. The scoring screen hands the engine a short string per delivery:
    a run count ("0".."6"), an extra with its additional runs ("Wd+2", "Nb+4"), a wicket
    ("W") or a short run "<scored>S<attempted>". The engine reads such a string with a
    regular expression for short runs, `split('+')` and `parseInt`; `ReadEvent` is that
    reading. `BallEvent` is the vocabulary the buttons produce, `Encode` the string each
    button sends and `Decode` the way back. */
module Events {
  import opened Common

  // ---------------------------------------------------------------- vocabulary

  datatype ExtraKind = Wide | NoBall

  datatype BallEvent =
    | Runs(n: nat)                       // "0".."6", and "0".."5" from the run-out flow
    | Extra(kind: ExtraKind, k: nat)     // "Wd+k", "Nb+k"
    | Wicket                             // "W"
    | ShortRun(scored: nat, attempted: nat)

  function ExtraLabel(kind: ExtraKind): (s: string)
    ensures |s| == 2
  {
    match kind
    case Wide => "Wd"
    case NoBall => "Nb"
  }

  /** The string each scoring button sends. */
  function Encode(e: BallEvent): (s: string)
    ensures |s| > 0
  {
    match e
    case Runs(n) => NatToString(n)
    case Extra(kind, k) => ExtraLabel(kind) + "+" + NatToString(k)
    case Wicket => "W"
    case ShortRun(scored, attempted) => NatToString(scored) + "S" + NatToString(attempted)
  }

  // ---------------------------------------------------------------- reading a string

  /** Position of the first `c` in `s`, or `|s|` when there is none. */
  function IndexOf(s: string, c: char): (i: nat)
    ensures i <= |s|
    ensures i < |s| ==> s[i] == c
    ensures forall j :: 0 <= j < i ==> s[j] != c
  {
    if s == [] then 0 else if s[0] == c then 0 else 1 + IndexOf(s[1..], c)
  }

  /** `s.split('+')[0]`. */
  function BaseEvent(s: string): (b: string)
    ensures '+' !in b
    ensures '+' !in s ==> b == s
  {
    s[..IndexOf(s, '+')]
  }

  /** `s.split('+')[1]`, defined when `s` contains a '+'. */
  function ExtraSegment(s: string): (seg: string)
    requires '+' in s
    ensures '+' !in seg
  {
    var rest := s[IndexOf(s, '+') + 1..];
    rest[..IndexOf(rest, '+')]
  }

  /** Length of the run of decimal digits at the front of `s`. */
  function LeadingDigits(s: string): (n: nat)
    ensures n <= |s|
    ensures AllDigits(s[..n])
    ensures n < |s| ==> !IsDigit(s[n])
  {
    if s == [] || !IsDigit(s[0]) then 0
    else
      var n := 1 + LeadingDigits(s[1..]);
      assert s[..n] == [s[0]] + s[1..][..n - 1];
      n
  }

  /** `parseInt(s, 10)` on a string that starts with its digits: `None` stands for NaN. */
  function ParseLeadingInt(s: string): (r: Option<nat>)
    ensures r.None? <==> (s == [] || !IsDigit(s[0]))
  {
    var n := LeadingDigits(s);
    if n == 0 then None else Some(ParseDigits(s[..n]))
  }

  datatype RunPair = RunPair(scored: nat, attempted: nat)

  /** `s` is a non-empty digit run, an 'S' at index `i`, and a non-empty digit run. */
  predicate SplitsAtS(s: string, i: int) {
    0 < i < |s| - 1 && AllDigits(s[..i]) && s[i] == 'S' && AllDigits(s[i + 1..])
  }

  /** The match of `/^(\d+)S(\d+)$/`: it succeeds exactly on the strings made of a digit run,
      an 'S' and a digit run, and yields the numbers the two runs spell. */
  function ShortRunMatch(s: string): (r: Option<RunPair>)
    ensures r.Some? <==> exists i :: SplitsAtS(s, i)
    ensures forall i :: SplitsAtS(s, i) ==> r == Some(RunPair(ParseDigits(s[..i]), ParseDigits(s[i + 1..])))
  {
    var i := LeadingDigits(s);
    if SplitsAtS(s, i) then Some(RunPair(ParseDigits(s[..i]), ParseDigits(s[i + 1..]))) else None
  }

  /** What the engine reads from an event string before it touches the ledger. */
  datatype EventReading = EventReading(shortRun: Option<RunPair>, base: string, extraRuns: Option<nat>)

  /** `extraRuns` is 0 without a '+', else `parseInt` of the second '+'-segment. */
  function ReadEvent(s: string): (r: EventReading)
    ensures r.base == BaseEvent(s)
    ensures '+' !in s ==> r.extraRuns == Some(0)
  {
    EventReading(ShortRunMatch(s), BaseEvent(s), if '+' in s then ParseLeadingInt(ExtraSegment(s)) else Some(0))
  }

  /** Every string the engine can score: an extra part, when present, starts with a digit
      (otherwise `parseInt` yields NaN and the score becomes NaN). */
  predicate WellFormedEvent(s: string) {
    ReadEvent(s).extraRuns.Some?
  }

  // ---------------------------------------------------------------- the engine's vocabulary

  /** `['Wd', 'Nb'].includes(base)`. */
  predicate IsExtraBase(base: string) {
    base == "Wd" || base == "Nb"
  }

  /** `['0', '1', '2', '3', '4', '6'].includes(base) ? parseInt(base) : none`; "5" is
      deliberately absent from that list. */
  function BaseRunValue(base: string): (v: Option<nat>)
    ensures v.Some? ==> v.value <= 6 && v.value != 5 && base == NatToString(v.value)
  {
    if base == "0" then Some(0)
    else if base == "1" then Some(1)
    else if base == "2" then Some(2)
    else if base == "3" then Some(3)
    else if base == "4" then Some(4)
    else if base == "6" then Some(6)
    else None
  }

  /** A delivery counts towards the over unless it is a wide or a no-ball. */
  predicate IsLegalReading(r: EventReading) {
    !IsExtraBase(r.base)
  }

  /** The number of runs the bat is credited with: the completed runs of a short run,
      the value of a run-count base, otherwise the caller's `runsScored` option. */
  function RunsScored(r: EventReading, optionRuns: nat): (n: nat)
    ensures r.shortRun.Some? ==> n == r.shortRun.value.scored
    ensures r.shortRun.None? && BaseRunValue(r.base).Some? ==> n == BaseRunValue(r.base).value
    ensures r.shortRun.None? && BaseRunValue(r.base).None? ==> n == optionRuns
  {
    if r.shortRun.Some? then r.shortRun.value.scored
    else if BaseRunValue(r.base).Some? then BaseRunValue(r.base).value
    else optionRuns
  }

  /** The count whose parity decides whether the batters change ends on a non-wicket
      ball: attempted runs of a short run, the run value, the extra runs of Wd/Nb, else 0. */
  function RotationRuns(r: EventReading): nat
    requires r.extraRuns.Some?
  {
    if r.shortRun.Some? then r.shortRun.value.attempted
    else if BaseRunValue(r.base).Some? then BaseRunValue(r.base).value
    else if IsExtraBase(r.base) then r.extraRuns.value
    else 0
  }

  /** The number of legal deliveries among `events`
      (`events.filter(e => !['Wd', 'Nb'].includes(e.split('+')[0])).length`). */
  function LegalCount(events: seq<string>): (n: nat)
    ensures n <= |events|
  {
    if events == [] then 0
    else LegalCount(events[..|events| - 1]) + (if IsExtraBase(BaseEvent(events[|events| - 1])) then 0 else 1)
  }

  // ---------------------------------------------------------------- decoding

  /** The event the engine's reading finds in a string, before any check that a button
      could have sent it (a bare "Wd" or "Nb" reads as no extra runs, "007" as seven). */
  function ReadBack(s: string): (r: Option<BallEvent>)
    ensures r.Some? ==> WellFormedEvent(s)
  {
    var reading := ReadEvent(s);
    if reading.shortRun.Some? then
      if '+' in s then None else Some(ShortRun(reading.shortRun.value.scored, reading.shortRun.value.attempted))
    else if reading.extraRuns.None? then None
    else if reading.base == "Wd" then Some(Extra(Wide, reading.extraRuns.value))
    else if reading.base == "Nb" then Some(Extra(NoBall, reading.extraRuns.value))
    else if '+' in s then None
    else if s == "W" then Some(Wicket)
    else if s != [] && AllDigits(s) then Some(Runs(ParseDigits(s)))
    else None
  }

  /** The event a string denotes: only the strings a scoring button sends decode, each to
      the button that sends it. */
  function Decode(s: string): (r: Option<BallEvent>)
    ensures r.Some? ==> WellFormedEvent(s) && Encode(r.value) == s
  {
    var r := ReadBack(s);
    if r.Some? && Encode(r.value) == s then r else None
  }

  /** How the engine reads the string of each button. */
  function ExpectedReading(e: BallEvent): EventReading {
    match e
    case Runs(n) => EventReading(None, NatToString(n), Some(0))
    case Extra(kind, k) => EventReading(None, ExtraLabel(kind), Some(k))
    case Wicket => EventReading(None, "W", Some(0))
    case ShortRun(scored, attempted) => EventReading(Some(RunPair(scored, attempted)), Encode(e), Some(0))
  }

  lemma DigitsHaveNoLetters(s: string)
    requires AllDigits(s)
    ensures '+' !in s && 'S' !in s
  {
    forall i | 0 <= i < |s| ensures s[i] != '+' && s[i] != 'S' { assert IsDigit(s[i]); }
  }

  lemma LeadingDigitsOfDigits(d: string, rest: string)
    requires AllDigits(d)
    requires rest == [] || !IsDigit(rest[0])
    ensures LeadingDigits(d + rest) == |d|
    decreases |d|
  {
    if d != [] {
      assert (d + rest)[1..] == d[1..] + rest;
      LeadingDigitsOfDigits(d[1..], rest);
    } else {
      assert d + rest == rest;
    }
  }

  /** `parseInt` reads the number written at the front of a string, whatever non-digit
      text follows it. */
  lemma ParseLeadingIntReads(n: nat, rest: string)
    requires rest == [] || !IsDigit(rest[0])
    ensures ParseLeadingInt(NatToString(n) + rest) == Some(n)
  {
    var d := NatToString(n);
    LeadingDigitsOfDigits(d, rest);
    assert (d + rest)[..|d|] == d;
    ParseNatToString(n);
  }

  lemma ReadEncodeRuns(n: nat)
    ensures ReadEvent(Encode(Runs(n))) == ExpectedReading(Runs(n))
  {
    var s := NatToString(n);
    DigitsHaveNoLetters(s);
    LeadingDigitsOfDigits(s, []);
    assert s + [] == s;
    assert ShortRunMatch(s).None?;
  }

  lemma ReadEncodeExtra(kind: ExtraKind, k: nat)
    ensures ReadEvent(Encode(Extra(kind, k))) == ExpectedReading(Extra(kind, k))
  {
    var s, tag, digits := Encode(Extra(kind, k)), ExtraLabel(kind), NatToString(k);
    DigitsHaveNoLetters(digits);
    assert s == tag + "+" + digits;
    assert IndexOf(s, '+') == 2 by {
      assert s[2] == '+' && s[0] != '+' && s[1] != '+';
    }
    assert BaseEvent(s) == tag;
    assert s[3..] == digits;
    assert IndexOf(digits, '+') == |digits|;
    assert digits[..|digits|] == digits;
    assert ExtraSegment(s) == digits;
    LeadingDigitsOfDigits(digits, []);
    assert digits + [] == digits;
    ParseNatToString(k);
    assert ParseLeadingInt(digits) == Some(k);
    assert LeadingDigits(s) == 0 by { assert !IsDigit(s[0]); }
  }

  lemma ReadEncodeShortRun(scored: nat, attempted: nat)
    ensures ReadEvent(Encode(ShortRun(scored, attempted))) == ExpectedReading(ShortRun(scored, attempted))
  {
    var s, a, b := Encode(ShortRun(scored, attempted)), NatToString(scored), NatToString(attempted);
    DigitsHaveNoLetters(a);
    DigitsHaveNoLetters(b);
    assert s == a + ("S" + b);
    LeadingDigitsOfDigits(a, "S" + b);
    assert s[..|a|] == a;
    assert s[|a|] == 'S';
    assert s[|a| + 1..] == b;
    ParseNatToString(scored);
    ParseNatToString(attempted);
    assert ShortRunMatch(s) == Some(RunPair(scored, attempted));
    forall i | 0 <= i < |s| ensures s[i] != '+' {
      if i < |a| { assert s[i] == a[i]; } else if i > |a| { assert s[i] == b[i - |a| - 1]; }
    }
    assert BaseEvent(s) == s;
  }

  /** The engine reads each button's string as that button means it. */
  lemma ReadEncode(e: BallEvent)
    ensures ReadEvent(Encode(e)) == ExpectedReading(e)
  {
    match e
    case Runs(n) => ReadEncodeRuns(n);
    case Wicket => assert ShortRunMatch("W").None? by { assert LeadingDigits("W") == 0; }
    case Extra(kind, k) => ReadEncodeExtra(kind, k);
    case ShortRun(scored, attempted) => ReadEncodeShortRun(scored, attempted);
  }

  /** The engine's reading of each button's string finds that button. */
  lemma {:induction false} ReadBackEncode(e: BallEvent)
    ensures ReadBack(Encode(e)) == Some(e)
  {
    ReadEncode(e);
    var s := Encode(e);
    match e
    case Runs(n) =>
      DigitsHaveNoLetters(s);
      ParseNatToString(n);
      assert s != "W" by { assert IsDigit(s[0]); }
    case Wicket =>
    case Extra(kind, k) =>
      assert '+' in s by { assert s[2] == '+'; }
    case ShortRun(scored, attempted) =>
  }

  /** Every button's string decodes back to that button. */
  lemma {:induction false} DecodeEncode(e: BallEvent)
    ensures Decode(Encode(e)) == Some(e)
  {
    ReadBackEncode(e);
  }

  /** Decoding is exactly the inverse of the buttons' encoding: a string decodes to an event
      if and only if it is that event's string. */
  lemma DecodeExactly(s: string, e: BallEvent)
    ensures Decode(s) == Some(e) <==> Encode(e) == s
  {
    if Encode(e) == s {
      DecodeEncode(e);
    }
  }

  /** A string the engine counts as a legal ball is exactly the string of a button other than Wd/Nb. */
  lemma LegalityOfEncode(e: BallEvent)
    ensures IsLegalReading(ReadEvent(Encode(e))) <==> !e.Extra?
  {
    ReadEncode(e);
    match e
    case Runs(n) =>
      assert IsDigit(NatToString(n)[0]);
    case ShortRun(scored, attempted) =>
      assert IsDigit(Encode(e)[0]);
    case Wicket =>
    case Extra(kind, k) =>
  }
}
