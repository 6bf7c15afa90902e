/**
 * The pinned minimum API version and the helpers that parse a
 * "major.minor.patch" string into a triple and compare two triples the way
 * Python compares tuples.
 */
module VersionConfig {
  import opened Wrappers
  import opened Text

  /** The minimum API version the library needs for full functionality. */
  const MinimumApiVersion: string := "0.2.0"

  datatype Version = Version(major: nat, minor: nat, patch: nat)

  function InvalidFormat(s: string): string
  {
    "Invalid version format: " + s
  }

  /** The three dot-separated parts are each a decimal number. */
  predicate WellFormed(parts: seq<string>)
  {
    |parts| == 3 && IsDecimal(parts[0]) && IsDecimal(parts[1]) && IsDecimal(parts[2])
  }

  /**
   * `parse_version`: split on "." into exactly three parts and convert each
   * with `int()`; any other shape fails with the same message.
   */
  function ParseVersion(s: string): (r: Result<Version, string>)
    ensures r.Success? <==> WellFormed(Split(s, '.'))
    ensures r.Failure? ==> r.error == InvalidFormat(s)
  {
    var parts := Split(s, '.');
    if |parts| != 3 then Failure(InvalidFormat(s))
    else if !WellFormed(parts) then Failure(InvalidFormat(s))
    else Success(Version(DigitsValue(parts[0]), DigitsValue(parts[1]), DigitsValue(parts[2])))
  }

  /** The canonical spelling of a version triple. */
  function FormatVersion(v: Version): string
  {
    NatToString(v.major) + "." + NatToString(v.minor) + "." + NatToString(v.patch)
  }

  /** Three decimal strings joined by dots parse to their values. */
  lemma ParseDecimalTriple(a: string, b: string, c: string)
    requires IsDecimal(a) && IsDecimal(b) && IsDecimal(c)
    ensures ParseVersion(a + "." + b + "." + c)
         == Success(Version(DigitsValue(a), DigitsValue(b), DigitsValue(c)))
  {
    var parts, s := [a, b, c], a + "." + b + "." + c;
    DecimalExcludes(a, '.');
    DecimalExcludes(b, '.');
    DecimalExcludes(c, '.');
    assert Join([b, c], '.') == b + "." + c by { assert [b, c][1..] == [c]; }
    assert Join(parts, '.') == s by { assert parts[1..] == [b, c]; }
    SplitJoin(parts, '.');
    assert Split(s, '.') == parts;
  }

  /** Formatting a triple and parsing it back gives the triple. */
  lemma ParseFormatRoundTrip(v: Version)
    ensures ParseVersion(FormatVersion(v)) == Success(v)
  {
    NatToStringValue(v.major);
    NatToStringValue(v.minor);
    NatToStringValue(v.patch);
    ParseDecimalTriple(NatToString(v.major), NatToString(v.minor), NatToString(v.patch));
  }

  /** The test suite's examples of a wrong number of parts: "1.2", "1.2.3.4" and "" are rejected. */
  lemma RejectedExamples()
    ensures ParseVersion("1.2") == Failure(InvalidFormat("1.2"))
    ensures ParseVersion("1.2.3.4") == Failure(InvalidFormat("1.2.3.4"))
    ensures ParseVersion("") == Failure(InvalidFormat(""))
  {
    SplitJoin(["1", "2"], '.');
    assert Join(["1", "2"], '.') == "1.2" by { assert ["1", "2"][1..] == ["2"]; }
    SplitJoin(["1", "2", "3", "4"], '.');
    assert Join(["1", "2", "3", "4"], '.') == "1.2.3.4" by {
      assert ["1", "2", "3", "4"][1..] == ["2", "3", "4"];
      assert ["2", "3", "4"][1..] == ["3", "4"];
      assert ["3", "4"][1..] == ["4"];
    }
  }

  /** The test suite's example of a part that is not a number: "1.a.3" is rejected. */
  lemma RejectedLetterExample()
    ensures ParseVersion("1.a.3") == Failure(InvalidFormat("1.a.3"))
  {
    SplitJoin(["1", "a", "3"], '.');
    assert Join(["1", "a", "3"], '.') == "1.a.3" by {
      assert ["1", "a", "3"][1..] == ["a", "3"];
      assert ["a", "3"][1..] == ["3"];
    }
    assert !IsDigit("a"[0]);
  }

  /**
   * Python's ordering of int tuples: the first position where they differ
   * decides, and a proper prefix comes first.
   */
  predicate TupleLe(x: seq<int>, y: seq<int>)
    decreases |x|
  {
    |x| == 0 || (|y| > 0 && (x[0] < y[0] || (x[0] == y[0] && TupleLe(x[1..], y[1..]))))
  }

  function AsTuple(v: Version): seq<int>
  {
    [v.major, v.minor, v.patch]
  }

  /** `a` is at least `b`, position by position from the major number down. */
  predicate AtLeast(a: Version, b: Version)
  {
    a.major > b.major
    || (a.major == b.major && a.minor > b.minor)
    || (a.major == b.major && a.minor == b.minor && a.patch >= b.patch)
  }

  /**
   * `is_version_compatible(api, min)`: parse both (the API version first, so
   * its error wins) and compare the triples as tuples.
   */
  function IsVersionCompatible(api: string, min: string): (r: Result<bool, string>)
    ensures r.Success? <==> ParseVersion(api).Success? && ParseVersion(min).Success?
    ensures ParseVersion(api).Failure? ==> r == Failure(InvalidFormat(api))
    ensures ParseVersion(api).Success? && ParseVersion(min).Failure? ==> r == Failure(InvalidFormat(min))
  {
    match ParseVersion(api)
    case Failure(e) => Failure(e)
    case Success(a) =>
      match ParseVersion(min)
      case Failure(e) => Failure(e)
      case Success(m) => Success(TupleLe(AsTuple(m), AsTuple(a)))
  }

  /** Compatibility is exactly "at least the minimum", for any two valid version strings. */
  lemma CompatibleIffAtLeast(api: string, min: string)
    requires ParseVersion(api).Success? && ParseVersion(min).Success?
    ensures IsVersionCompatible(api, min) == Success(AtLeast(ParseVersion(api).value, ParseVersion(min).value))
  {
    TupleLeTriple(ParseVersion(min).value, ParseVersion(api).value);
  }

  /** On triples, the tuple order is the position-by-position comparison. */
  lemma TupleLeTriple(m: Version, a: Version)
    ensures TupleLe(AsTuple(m), AsTuple(a)) <==> AtLeast(a, m)
  {
    var x, y := AsTuple(m), AsTuple(a);
    assert x[1..] == [m.minor, m.patch] && y[1..] == [a.minor, a.patch];
    assert x[1..][1..] == [m.patch] && y[1..][1..] == [a.patch];
    assert TupleLe(x[1..][1..][1..], y[1..][1..][1..]);
    assert TupleLe(x[1..][1..], y[1..][1..]) <==> m.patch <= a.patch;
    assert TupleLe(x[1..], y[1..]) <==> m.minor < a.minor || (m.minor == a.minor && m.patch <= a.patch);
  }

  lemma {:induction false} TupleLeReflexive(x: seq<int>)
    ensures TupleLe(x, x)
    decreases |x|
  {
    if |x| > 0 { TupleLeReflexive(x[1..]); }
  }

  lemma {:induction false} TupleLeTransitive(x: seq<int>, y: seq<int>, z: seq<int>)
    requires TupleLe(x, y) && TupleLe(y, z)
    ensures TupleLe(x, z)
    decreases |x|
  {
    if |x| > 0 && x[0] == y[0] && y[0] == z[0] {
      TupleLeTransitive(x[1..], y[1..], z[1..]);
    }
  }

  lemma {:induction false} TupleLeTotal(x: seq<int>, y: seq<int>)
    ensures TupleLe(x, y) || TupleLe(y, x)
    decreases |x|
  {
    if |x| > 0 && |y| > 0 && x[0] == y[0] {
      TupleLeTotal(x[1..], y[1..]);
    }
  }

  /** Every valid version is compatible with itself. */
  lemma CompatibleReflexive(v: string)
    requires ParseVersion(v).Success?
    ensures IsVersionCompatible(v, v) == Success(true)
  {
    TupleLeReflexive(AsTuple(ParseVersion(v).value));
  }

  /** A version compatible with one compatible with a minimum is compatible with that minimum. */
  lemma CompatibleTransitive(a: string, b: string, c: string)
    requires IsVersionCompatible(a, b) == Success(true)
    requires IsVersionCompatible(b, c) == Success(true)
    ensures IsVersionCompatible(a, c) == Success(true)
  {
    TupleLeTransitive(AsTuple(ParseVersion(c).value), AsTuple(ParseVersion(b).value), AsTuple(ParseVersion(a).value));
  }

  /** Of two valid versions, at least one is compatible with the other. */
  lemma CompatibleTotal(a: string, b: string)
    requires ParseVersion(a).Success? && ParseVersion(b).Success?
    ensures IsVersionCompatible(a, b) == Success(true) || IsVersionCompatible(b, a) == Success(true)
  {
    TupleLeTotal(AsTuple(ParseVersion(a).value), AsTuple(ParseVersion(b).value));
  }

  /** `get_minimum_version()`: the pinned constant, which is the triple (0, 2, 0). */
  function GetMinimumVersion(): (r: string)
    ensures r == MinimumApiVersion
    ensures ParseVersion(r) == Success(Version(0, 2, 0))
  {
    ParseFormatRoundTrip(Version(0, 2, 0));
    assert NatToString(0) == "0" && NatToString(2) == "2";
    assert FormatVersion(Version(0, 2, 0)) == MinimumApiVersion;
    MinimumApiVersion
  }

  /** `is_version_compatible(api)` with the default minimum. */
  function IsCompatibleWithMinimum(api: string): (r: Result<bool, string>)
    ensures ParseVersion(api).Failure? ==> r == Failure(InvalidFormat(api))
    ensures ParseVersion(api).Success? ==> r == Success(AtLeast(ParseVersion(api).value, Version(0, 2, 0)))
  {
    var m := GetMinimumVersion();
    if ParseVersion(api).Success? then CompatibleIffAtLeast(api, m); IsVersionCompatible(api, m)
    else IsVersionCompatible(api, m)
  }
}
