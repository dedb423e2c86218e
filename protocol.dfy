/**
 * The Light Symphony iPort text protocol: which requests are valid, and the
 * command line each valid request becomes (lib/LightSymphonyiPort.js).
 */
module Protocol {
  import opened Wrappers
  import opened Decimal

  const MAX_NO_AREAS: int := 29
  const MAX_INTENSITY: int := 10

  /** Every error a caller's callback can receive from the iPort layer. */
  datatype Error =
    | InvalidArea(area: int)
    | InvalidIntensity(intensity: int)
    | DiscoverTimedOut
    | SocketError(cause: string)

  /** A request the iPort layer turns into one command line. */
  datatype Command =
    | AllLights(on: bool)
    | AreaLights(area: nat, on: bool)
    | AreaIntensity(area: nat, intensity: nat)

  predicate ValidArea(area: int) {
    1 <= area <= MAX_NO_AREAS
  }

  predicate ValidIntensity(intensity: int) {
    1 <= intensity <= MAX_INTENSITY
  }

  /** The commands the validating operations can produce. */
  predicate WellFormed(c: Command) {
    match c
    case AllLights(_) => true
    case AreaLights(a, _) => ValidArea(a)
    case AreaIntensity(a, i) => ValidArea(a) && ValidIntensity(i)
  }

  function OnOff(on: bool): string {
    if on then "on" else "off"
  }

  /** The protocol text of a command, without the line terminator. */
  function Text(c: Command): string {
    match c
    case AllLights(on) => "all_" + OnOff(on)
    case AreaLights(a, on) => "area_" + OnOff(on) + " " + NatToString(a)
    case AreaIntensity(a, i) => "inten_" + NatToString(a) + "_" + NatToString(i)
  }

  /** `setAll`: always accepted. */
  function SetAll(on: bool): (c: Command)
    ensures WellFormed(c)
    ensures Text(c) == if on then "all_on" else "all_off"
  {
    AllLights(on)
  }

  /** `setArea`: the area must lie in [1, 29]. */
  function SetArea(area: int, on: bool): (r: Result<Command, Error>)
    ensures r.Success? <==> ValidArea(area)
    ensures r.Failure? ==> r.error == InvalidArea(area)
    ensures r.Success? ==> WellFormed(r.value)
    ensures r.Success? ==> Text(r.value) == (if on then "area_on " else "area_off ") + NatToString(area)
  {
    if area < 1 || area > MAX_NO_AREAS then Failure(InvalidArea(area))
    else Success(AreaLights(area, on))
  }

  /** `setIntensity`: the area is checked first, then the intensity in [1, 10]. */
  function SetIntensity(area: int, intensity: int): (r: Result<Command, Error>)
    ensures r.Success? <==> ValidArea(area) && ValidIntensity(intensity)
    ensures !ValidArea(area) ==> r == Failure(InvalidArea(area))
    ensures ValidArea(area) && !ValidIntensity(intensity) ==> r == Failure(InvalidIntensity(intensity))
    ensures r.Success? ==> WellFormed(r.value)
    ensures r.Success? ==> Text(r.value) == "inten_" + NatToString(area) + "_" + NatToString(intensity)
  {
    if area < 1 || area > MAX_NO_AREAS then Failure(InvalidArea(area))
    else if intensity < 1 || intensity > MAX_INTENSITY then Failure(InvalidIntensity(intensity))
    else Success(AreaIntensity(area, intensity))
  }

  /** First position of `c` in `s`, or `|s|` when there is none. */
  function IndexOf(s: string, c: char): (k: nat)
    ensures k <= |s|
    ensures k < |s| ==> s[k] == c
    ensures forall j :: 0 <= j < k ==> s[j] != c
  {
    if s == [] then 0
    else if s[0] == c then 0
    else 1 + IndexOf(s[1..], c)
  }

  /** Reads "<area>_<intensity>", the part of an intensity command after "inten_". */
  function ParseIntensity(rest: string): Option<Command> {
    var k := IndexOf(rest, '_');
    if 0 < k < |rest| - 1 && AllDigits(rest[..k]) && AllDigits(rest[k + 1..])
    then Some(AreaIntensity(Value(rest[..k]), Value(rest[k + 1..])))
    else None
  }

  /** An independent reader of command lines, proved to invert `Text`. */
  function ParseCommand(s: string): Option<Command> {
    if s == "all_on" then Some(AllLights(true))
    else if s == "all_off" then Some(AllLights(false))
    else if |s| > 8 && s[..8] == "area_on " && AllDigits(s[8..]) then Some(AreaLights(Value(s[8..]), true))
    else if |s| > 9 && s[..9] == "area_off " && AllDigits(s[9..]) then Some(AreaLights(Value(s[9..]), false))
    else if |s| > 6 && s[..6] == "inten_" then ParseIntensity(s[6..])
    else None
  }

  lemma IndexOfFirst(a: string, b: string, c: char)
    requires forall j :: 0 <= j < |a| ==> a[j] != c
    ensures IndexOf(a + [c] + b, c) == |a|
  {
    var s := a + [c] + b;
    assert s[|a|] == c;
    assert forall j :: 0 <= j < |a| ==> s[j] == a[j];
  }

  lemma ParseAreaText(a: nat, on: bool)
    ensures ParseCommand(Text(AreaLights(a, on))) == Some(AreaLights(a, on))
  {
    var s, n := Text(AreaLights(a, on)), NatToString(a);
    ValueOfNatToString(a);
    assert s[1] == 'r';
    if on {
      assert s == "area_on " + n;
      assert s[..8] == "area_on " && s[8..] == n;
    } else {
      assert s == "area_off " + n;
      assert s[..8] != "area_on " by { assert s[7] == 'f'; }
      assert s[..9] == "area_off " && s[9..] == n;
    }
  }

  lemma ParseIntensityOf(na: string, ni: string)
    requires |na| >= 1 && |ni| >= 1 && AllDigits(na) && AllDigits(ni)
    ensures ParseIntensity(na + ['_'] + ni) == Some(AreaIntensity(Value(na), Value(ni)))
  {
    var rest := na + ['_'] + ni;
    IndexOfFirst(na, ni, '_');
    assert rest[..|na|] == na;
    assert rest[|na| + 1..] == ni;
  }

  lemma ParseIntensityText(a: nat, i: nat)
    ensures ParseCommand(Text(AreaIntensity(a, i))) == Some(AreaIntensity(a, i))
  {
    var na, ni := NatToString(a), NatToString(i);
    var rest := na + ['_'] + ni;
    var s := "inten_" + rest;
    assert Text(AreaIntensity(a, i)) == s;
    assert s[1] == 'n';
    assert s[..6] == "inten_" && s[6..] == rest;
    assert ParseCommand(s) == ParseIntensity(rest);
    ParseIntensityOf(na, ni);
    ValueOfNatToString(a);
    ValueOfNatToString(i);
  }

  /** Every command's text reads back as that command. */
  lemma ParseText(c: Command)
    ensures ParseCommand(Text(c)) == Some(c)
  {
    match c
    case AllLights(on) =>
    case AreaLights(a, on) => ParseAreaText(a, on);
    case AreaIntensity(a, i) => ParseIntensityText(a, i);
  }

  /** Distinct commands never share a protocol line. */
  lemma TextInjective(c: Command, d: Command)
    requires Text(c) == Text(d)
    ensures c == d
  {
    ParseText(c);
    ParseText(d);
  }
}
