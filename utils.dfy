/** route_planner/utils.py: the path length of a polyline, the coordinate
    parser, the request validator and the unit choice of the two formatters.
    The haversine distance and Python's float() are parameters. */
module Utils {
  import opened Base
  import opened Geo

  // ---------------------------------------------------------------
  // calculate_distance

  /** The sum of the great-circle legs between consecutive points, built
      leg by leg from the end, as the accumulating loop sees it. */
  function PathLength(hav: Distance, points: seq<Pos>): real
  {
    if |points| < 2 then 0.0
    else PathLength(hav, points[..|points| - 1]) + hav(points[|points| - 2], points[|points| - 1])
  }

  /** An independent reading: the first leg plus the length of the rest. */
  function PathLengthFromStart(hav: Distance, points: seq<Pos>): real
  {
    if |points| < 2 then 0.0 else hav(points[0], points[1]) + PathLengthFromStart(hav, points[1..])
  }

  /** calculate_distance. */
  method CalculateDistance(hav: Distance, points: seq<Pos>) returns (total: real)
    ensures total == PathLength(hav, points)
  {
    total := 0.0;
    if |points| == 0 {
      return;
    }
    var i := 0;
    while i < |points| - 1
      invariant 0 <= i < |points|
      invariant total == PathLength(hav, points[..i + 1])
    {
      assert points[..i + 2][..i + 1] == points[..i + 1];
      total := total + hav(points[i], points[i + 1]);
      i := i + 1;
    }
    assert points[..i + 1] == points;
  }

  /** Appending one point adds exactly one leg. */
  lemma PathLengthAppend(hav: Distance, points: seq<Pos>, p: Pos)
    requires |points| >= 1
    ensures PathLength(hav, points + [p]) == PathLength(hav, points) + hav(points[|points| - 1], p)
  {
    assert (points + [p])[..|points|] == points;
  }

  lemma {:induction false} PathLengthConsecutive(hav: Distance, points: seq<Pos>)
    ensures PathLength(hav, points) == PathLengthFromStart(hav, points)
    decreases |points|
  {
    if |points| >= 3 {
      var n := |points|;
      PathLengthConsecutive(hav, points[..n - 1]);
      PathLengthConsecutive(hav, points[1..]);
      PathLengthConsecutive(hav, points[1..][..n - 2]);
      assert points[..n - 1][1..] == points[1..][..n - 2];
      assert points[1..][..n - 2] == points[1..n - 1];
    }
  }

  /** Fewer than two points have length 0; a great-circle distance gives a
      non-negative length. */
  lemma {:induction false} PathLengthNonNegative(hav: Distance, points: seq<Pos>)
    requires IsDistance(hav)
    ensures PathLength(hav, points) >= 0.0
    ensures |points| < 2 ==> PathLength(hav, points) == 0.0
    decreases |points|
  {
    if |points| >= 2 {
      PathLengthNonNegative(hav, points[..|points| - 1]);
    }
  }

  // ---------------------------------------------------------------
  // Strings

  /** The characters Python's str.strip() removes by default. */
  predicate IsPyWhitespace(c: char)
  {
    c == ' ' || c == '\t' || c == '\n' || c == '\r' || c == '\U{000B}' || c == '\U{000C}' ||
    ('\U{001C}' <= c <= '\U{001F}') || c == '\U{0085}' || c == '\U{00A0}' || c == '\U{1680}' ||
    ('\U{2000}' <= c <= '\U{200A}') || c == '\U{2028}' || c == '\U{2029}' || c == '\U{202F}' ||
    c == '\U{205F}' || c == '\U{3000}'
  }

  function TrimStart(s: string): (r: string)
    ensures |r| <= |s| && r == s[|s| - |r|..]
    ensures r == [] || !IsPyWhitespace(r[0])
    ensures forall i :: 0 <= i < |s| - |r| ==> IsPyWhitespace(s[i])
  {
    if s != [] && IsPyWhitespace(s[0]) then TrimStart(s[1..]) else s
  }

  function TrimEnd(s: string): (r: string)
    ensures |r| <= |s| && r == s[..|r|]
    ensures r == [] || !IsPyWhitespace(r[|r| - 1])
    ensures forall i :: |r| <= i < |s| ==> IsPyWhitespace(s[i])
  {
    if s != [] && IsPyWhitespace(s[|s| - 1]) then TrimEnd(s[..|s| - 1]) else s
  }

  /** str.strip(). */
  function Strip(s: string): string
  {
    TrimEnd(TrimStart(s))
  }

  /** str.replace(" ", ""). */
  function RemoveSpaces(s: string): (r: string)
    ensures forall i :: 0 <= i < |r| ==> r[i] != ' '
    ensures |r| <= |s|
  {
    if s == [] then [] else (if s[0] == ' ' then [] else [s[0]]) + RemoveSpaces(s[1..])
  }

  function CountChar(s: string, c: char): nat
  {
    if s == [] then 0 else (if s[0] == c then 1 else 0) + CountChar(s[1..], c)
  }

  /** str.split(sep) with an explicit separator: the empty string gives one
      empty part, and every separator starts a new part. */
  function Split(s: string, sep: char): (r: seq<string>)
    ensures |r| >= 1
  {
    if s == [] then [""]
    else
      var rest := Split(s[1..], sep);
      if s[0] == sep then [""] + rest else [[s[0]] + rest[0]] + rest[1..]
  }

  /** sep.join(parts). */
  function Join(parts: seq<string>, sep: char): string
    requires |parts| >= 1
  {
    if |parts| == 1 then parts[0] else parts[0] + [sep] + Join(parts[1..], sep)
  }

  /** Splitting yields one part more than there are separators. */
  lemma {:induction false} SplitCount(s: string, sep: char)
    ensures |Split(s, sep)| == CountChar(s, sep) + 1
  {
    if s != [] {
      SplitCount(s[1..], sep);
    }
  }

  /** No part contains the separator, and joining the parts gives back the
      string. */
  lemma {:induction false} SplitJoin(s: string, sep: char)
    ensures forall k :: 0 <= k < |Split(s, sep)| ==> sep !in Split(s, sep)[k]
    ensures Join(Split(s, sep), sep) == s
  {
    if s != [] {
      SplitJoin(s[1..], sep);
      var rest := Split(s[1..], sep);
      if s[0] != sep {
        var r := Split(s, sep);
        assert r[0] == [s[0]] + rest[0];
        forall k | 0 <= k < |r| ensures sep !in r[k] {
          if k > 0 { assert r[k] == rest[k]; }
        }
        if |rest| == 1 {
          assert r == [[s[0]] + rest[0]];
        } else {
          assert r[1..] == rest[1..];
          assert Join(rest, sep) == rest[0] + [sep] + Join(rest[1..], sep);
        }
        assert s == [s[0]] + s[1..];
      } else {
        assert Split(s, sep)[1..] == rest;
        assert s == [sep] + s[1..];
      }
    }
  }

  lemma TrimStartAllWhitespace(s: string)
    requires forall i :: 0 <= i < |s| ==> IsPyWhitespace(s[i])
    ensures TrimStart(s) == []
  {
  }

  // ---------------------------------------------------------------
  // parse_coordinates

  /** The five ValueError messages of parse_coordinates, in check order. */
  datatype CoordError = NotSpecified | BadFormat | NotNumbers | LatitudeRange | LongitudeRange

  /** float() on one part: a number, or None where it raises ValueError. */
  type FloatParser = string -> Option<real>

  /** The string the parser splits: stripped, then without spaces. */
  function Cleaned(s: string): string
  {
    RemoveSpaces(Strip(s))
  }

  function CheckRanges(lat: real, lng: real): (r: Result<Pos, CoordError>)
  {
    if lat < -90.0 || lat > 90.0 then Failure(LatitudeRange)
    else if lng < -180.0 || lng > 180.0 then Failure(LongitudeRange)
    else Success(Pos(lat, lng))
  }

  /** parse_coordinates. */
  function ParseCoordinates(s: string, parseFloat: FloatParser): (r: Result<Pos, CoordError>)
    ensures s == [] <==> r == Failure(NotSpecified)
  {
    if s == [] then Failure(NotSpecified)
    else
      var parts := Split(Cleaned(s), ',');
      if |parts| != 2 then Failure(BadFormat)
      else match (parseFloat(parts[0]), parseFloat(parts[1]))
        case (Some(lat), Some(lng)) => CheckRanges(lat, lng)
        case _ => Failure(NotNumbers)
  }

  /** A non-empty string is accepted iff its cleaned form has exactly one
      comma, both sides parse, and both coordinates lie within their
      closed ranges; the result is then the pair read in order. */
  lemma ParseCoordinatesAccepts(s: string, parseFloat: FloatParser)
    ensures ParseCoordinates(s, parseFloat).Success? <==>
      s != [] &&
      var parts := Split(Cleaned(s), ',');
      |parts| == 2 && parseFloat(parts[0]).Some? && parseFloat(parts[1]).Some? &&
      -90.0 <= parseFloat(parts[0]).value <= 90.0 &&
      -180.0 <= parseFloat(parts[1]).value <= 180.0
    ensures ParseCoordinates(s, parseFloat).Success? ==>
      var parts := Split(Cleaned(s), ',');
      |parts| == 2 &&
      ParseCoordinates(s, parseFloat).value == Pos(parseFloat(parts[0]).value, parseFloat(parts[1]).value)
  {
  }

  /** A wrong number of commas is a format error, before any number is read. */
  lemma ParseCoordinatesFormat(s: string, parseFloat: FloatParser)
    requires s != []
    ensures ParseCoordinates(s, parseFloat) == Failure(BadFormat) <==> CountChar(Cleaned(s), ',') != 1
  {
    SplitCount(Cleaned(s), ',');
  }

  /** A blank, non-empty string passes the emptiness test but is a format
      error: once stripped it splits into a single empty part. */
  lemma ParseBlank(s: string, parseFloat: FloatParser)
    requires s != [] && forall i :: 0 <= i < |s| ==> IsPyWhitespace(s[i])
    ensures ParseCoordinates(s, parseFloat) == Failure(BadFormat)
  {
    TrimStartAllWhitespace(s);
    assert Strip(s) == [];
  }

  /** The latitude is checked first: an out-of-range latitude is reported
      whatever the longitude. */
  lemma ParseLatitudeFirst(s: string, parseFloat: FloatParser)
    requires s != []
    requires var parts := Split(Cleaned(s), ',');
      |parts| == 2 && parseFloat(parts[0]).Some? && parseFloat(parts[1]).Some? &&
      (parseFloat(parts[0]).value < -90.0 || parseFloat(parts[0]).value > 90.0)
    ensures ParseCoordinates(s, parseFloat) == Failure(LatitudeRange)
  {
  }

  // ---------------------------------------------------------------
  // validate_input

  /** The result of float() on a request field. */
  datatype Numeric = Number(value: real) | NotANumber

  /** The fields of the request body that validate_input reads; None is a
      missing key. */
  datatype Request = Request(
    startPoint: Option<string>, endPoint: Option<string>,
    pipeDiameter: Option<Numeric>, maxPressure: Option<Numeric>)

  /** The messages validate_input can return. */
  datatype Message =
    | FieldRequired(field: string)
    | StartPointError(error: CoordError)
    | EndPointError(error: CoordError)
    | SamePoints
    | DiameterRange
    | DiameterNotNumber
    | PressureRange
    | PressureNotNumber
    | Ok

  datatype Validation = Validation(valid: bool, message: Message)

  /** `field not in data or not data[field]` for a string field. */
  predicate Missing(f: Option<string>)
  {
    f.None? || f.value == []
  }

  function CheckDiameter(d: Option<Numeric>): Option<Message>
  {
    match d
    case None => None
    case Some(NotANumber) => Some(DiameterNotNumber)
    case Some(Number(v)) => if v < 100.0 || v > 2000.0 then Some(DiameterRange) else None
  }

  function CheckPressure(p: Option<Numeric>): Option<Message>
  {
    match p
    case None => None
    case Some(NotANumber) => Some(PressureNotNumber)
    case Some(Number(v)) => if v < 1.0 || v > 100.0 then Some(PressureRange) else None
  }

  /** parse_coordinates on a field that is present; a missing field is
      never parsed, since the presence checks come first. */
  function ParseField(f: Option<string>, parseFloat: FloatParser): Result<Pos, CoordError>
  {
    match f
    case Some(s) => ParseCoordinates(s, parseFloat)
    case None => Failure(NotSpecified)
  }

  /** The decision of validate_input, given what parsing the two points
      yields. */
  function Decide(req: Request, start: Result<Pos, CoordError>, end: Result<Pos, CoordError>): (r: Validation)
    ensures r.valid <==> r.message == Ok
  {
    if Missing(req.startPoint) then Validation(false, FieldRequired("startPoint"))
    else if Missing(req.endPoint) then Validation(false, FieldRequired("endPoint"))
    else if start.Failure? then Validation(false, StartPointError(start.error))
    else if end.Failure? then Validation(false, EndPointError(end.error))
    else if start.value == end.value then Validation(false, SamePoints)
    else if CheckDiameter(req.pipeDiameter).Some? then Validation(false, CheckDiameter(req.pipeDiameter).value)
    else if CheckPressure(req.maxPressure).Some? then Validation(false, CheckPressure(req.maxPressure).value)
    else Validation(true, Ok)
  }

  /** validate_input. */
  function ValidateInput(req: Request, parseFloat: FloatParser): (r: Validation)
    ensures r.valid <==> r.message == Ok
  {
    Decide(req, ParseField(req.startPoint, parseFloat), ParseField(req.endPoint, parseFloat))
  }

  /** Check k of validate_input, on its own. Checks 2 to 4 read the parsed
      points, and are only consulted once the checks before them pass. */
  predicate Passes(k: nat, req: Request, start: Result<Pos, CoordError>, end: Result<Pos, CoordError>)
  {
    match k
    case 0 => !Missing(req.startPoint)
    case 1 => !Missing(req.endPoint)
    case 2 => start.Success?
    case 3 => end.Success?
    case 4 => start != end
    case 5 => CheckDiameter(req.pipeDiameter).None?
    case 6 => CheckPressure(req.maxPressure).None?
    case _ => true
  }

  /** Which check a message reports. */
  function CheckOf(m: Message): nat
  {
    match m
    case FieldRequired(f) => if f == "startPoint" then 0 else 1
    case StartPointError(_) => 2
    case EndPointError(_) => 3
    case SamePoints => 4
    case DiameterRange => 5
    case DiameterNotNumber => 5
    case PressureRange => 6
    case PressureNotNumber => 6
    case Ok => 7
  }

  lemma DecideFirstFailure(req: Request, start: Result<Pos, CoordError>, end: Result<Pos, CoordError>)
    ensures var r := Decide(req, start, end);
      (r.valid <==> forall k: nat :: k < 7 ==> Passes(k, req, start, end)) &&
      (!r.valid ==> CheckOf(r.message) < 7 && !Passes(CheckOf(r.message), req, start, end) &&
                    forall k: nat :: k < CheckOf(r.message) ==> Passes(k, req, start, end))
  {
    var r := Decide(req, start, end);
    var first: nat :=
      if !Passes(0, req, start, end) then 0
      else if !Passes(1, req, start, end) then 1
      else if !Passes(2, req, start, end) then 2
      else if !Passes(3, req, start, end) then 3
      else if !Passes(4, req, start, end) then 4
      else if !Passes(5, req, start, end) then 5
      else if !Passes(6, req, start, end) then 6
      else 7;
    assert CheckOf(r.message) == first;
    forall k: nat | k < first ensures Passes(k, req, start, end) {
      assert k <= 6;
    }
  }

  /** The checks run in order and the first failing one is reported: the
      request is valid iff all seven pass, and otherwise the reported check
      fails while every earlier one passes. */
  lemma ValidateInputFirstFailure(req: Request, parseFloat: FloatParser)
    ensures var start := ParseField(req.startPoint, parseFloat);
      var end := ParseField(req.endPoint, parseFloat);
      var r := ValidateInput(req, parseFloat);
      (r.valid <==> forall k: nat :: k < 7 ==> Passes(k, req, start, end)) &&
      (!r.valid ==> CheckOf(r.message) < 7 && !Passes(CheckOf(r.message), req, start, end) &&
                    forall k: nat :: k < CheckOf(r.message) ==> Passes(k, req, start, end))
  {
    DecideFirstFailure(req, ParseField(req.startPoint, parseFloat), ParseField(req.endPoint, parseFloat));
  }

  /** The diameter is accepted iff it is absent or a number in [100, 2000];
      the pressure iff it is absent or a number in [1, 100]. */
  lemma NumericFieldRanges(req: Request)
    ensures CheckDiameter(req.pipeDiameter).None? <==>
      (req.pipeDiameter.None? || (req.pipeDiameter.value.Number? && 100.0 <= req.pipeDiameter.value.value <= 2000.0))
    ensures CheckPressure(req.maxPressure).None? <==>
      (req.maxPressure.None? || (req.maxPressure.value.Number? && 1.0 <= req.maxPressure.value.value <= 100.0))
  {
  }

  // ---------------------------------------------------------------
  // format_distance and format_cost (the branch and the number shown)

  /** What format_distance prints: whole metres, or kilometres to be shown
      with two decimals. */
  datatype DistanceText = Meters(m: int) | Kilometers(km: real)

  function FormatDistance(distance: real): DistanceText
  {
    if distance < 1.0 then Meters(Trunc(distance * 1000.0)) else Kilometers(distance)
  }

  /** What format_cost prints: whole thousands, or millions to be shown with
      two decimals. */
  datatype CostText = Thousands(t: int) | Millions(mln: real)

  function FormatCost(cost: real): CostText
  {
    if cost < 1.0 then Thousands(Trunc(cost * 1000.0)) else Millions(cost)
  }

  /** Metres are used exactly below 1 km; below 1 km the metre count is
      truncated toward zero, so a non-negative distance shows between 0 and
      999 metres and never rounds up. */
  lemma FormatDistanceUnits(distance: real)
    ensures FormatDistance(distance).Meters? <==> distance < 1.0
    ensures FormatDistance(distance).Kilometers? ==> FormatDistance(distance).km == distance
    ensures 0.0 <= distance < 1.0 ==>
      0 <= FormatDistance(distance).m <= 999 &&
      FormatDistance(distance).m as real <= distance * 1000.0 < FormatDistance(distance).m as real + 1.0
    ensures distance < 0.0 ==>
      FormatDistance(distance).m <= 0 &&
      FormatDistance(distance).m as real - 1.0 < distance * 1000.0 <= FormatDistance(distance).m as real
  {
  }

  /** The same rule for costs, in thousands below one million. */
  lemma FormatCostUnits(cost: real)
    ensures FormatCost(cost).Thousands? <==> cost < 1.0
    ensures FormatCost(cost).Millions? ==> FormatCost(cost).mln == cost
    ensures 0.0 <= cost < 1.0 ==>
      0 <= FormatCost(cost).t <= 999 &&
      FormatCost(cost).t as real <= cost * 1000.0 < FormatCost(cost).t as real + 1.0
    ensures cost < 0.0 ==>
      FormatCost(cost).t <= 0 &&
      FormatCost(cost).t as real - 1.0 < cost * 1000.0 <= FormatCost(cost).t as real
  {
  }
}
