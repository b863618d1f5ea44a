/** API version strings and the "older than 0.4.0" test.

    Both variants compare the release segment numerically, component by component,
    padding the shorter one with zeros (packaging.version in render3.py,
    NormalizedVersion in render.py). Only release segments are modelled: a string
    that is not dot-separated decimal numbers is rejected with VersionError. */
module Version {
  import opened Options
  import opened Values
  import Decimal
  import Text

  /** `s.split(sep)` for a one-character separator. */
  function Split(s: string, sep: char): (parts: seq<string>)
    ensures |parts| >= 1
    decreases |s|
  {
    if s == [] then [""]
    else
      var rest := Split(s[1..], sep);
      if s[0] == sep then [""] + rest
      else [[s[0]] + rest[0]] + rest[1..]
  }

  lemma {:induction false} SplitPrefix(x: string, t: string, sep: char)
    requires sep !in x
    ensures Split(x + t, sep) == [x + Split(t, sep)[0]] + Split(t, sep)[1..]
    decreases |x|
  {
    if x != [] {
      assert x[0] in x && x[0] != sep;
      assert (x + t)[1..] == x[1..] + t;
      assert x == [x[0]] + x[1..];
      SplitPrefix(x[1..], t, sep);
      assert [x[0]] + (x[1..] + Split(t, sep)[0]) == x + Split(t, sep)[0];
    } else {
      var parts := Split(t, sep);
      assert x + t == t && x + parts[0] == parts[0];
      assert parts == [parts[0]] + parts[1..];
    }
  }

  /** Splitting undoes joining, as long as no part holds the separator. */
  lemma {:induction false} SplitJoin(parts: seq<string>, sep: char)
    requires |parts| >= 1
    requires forall i :: 0 <= i < |parts| ==> sep !in parts[i]
    ensures Split(Text.Join(parts, [sep]), sep) == parts
    decreases |parts|
  {
    if |parts| == 1 {
      SplitPrefix(parts[0], "", sep);
      assert parts[0] + "" == parts[0];
    } else {
      var j := Text.Join(parts[1..], [sep]);
      SplitJoin(parts[1..], sep);
      assert ([sep] + j)[1..] == j;
      assert Split([sep] + j, sep) == [""] + parts[1..];
      SplitPrefix(parts[0], [sep] + j, sep);
      assert parts[0] + [sep] + j == parts[0] + ([sep] + j);
      assert parts[0] + "" == parts[0];
      assert parts == [parts[0]] + parts[1..];
    }
  }

  /** The release segment of a version string: its dot-separated numbers. */
  function ParseRelease(s: string): (r: Option<seq<nat>>)
    ensures r.Some? ==> |r.value| == |Split(s, '.')| >= 1
  {
    var parts := Split(s, '.');
    if forall i :: 0 <= i < |parts| ==> |parts[i]| > 0 && Decimal.AllDigits(parts[i])
    then Some(seq(|parts|, i requires 0 <= i < |parts| => Decimal.DigitsValue(parts[i])))
    else None
  }

  /** The canonical text of a release segment, e.g. [0, 4, 0] as "0.4.0". */
  function FormatRelease(v: seq<nat>): string
  {
    Text.Join(seq(|v|, i requires 0 <= i < |v| => Decimal.NatToStr(v[i])), ".")
  }

  lemma ParseFormat(v: seq<nat>)
    requires |v| >= 1
    ensures ParseRelease(FormatRelease(v)) == Some(v)
  {
    var parts := seq(|v|, i requires 0 <= i < |v| => Decimal.NatToStr(v[i]));
    forall i | 0 <= i < |parts|
      ensures '.' !in parts[i]
      ensures Decimal.DigitsValue(parts[i]) == v[i]
    {
      Decimal.NatRoundTrip(v[i]);
    }
    SplitJoin(parts, '.');
    assert Split(FormatRelease(v), '.') == parts;
    var values := seq(|parts|, i requires 0 <= i < |parts| => Decimal.DigitsValue(parts[i]));
    assert values == v;
  }

  /** The digits of each component, for the concrete versions below. */
  lemma DigitsFormat(v: seq<nat>, digits: seq<string>)
    requires |v| == |digits|
    requires forall i :: 0 <= i < |v| ==> digits[i] == Decimal.NatToStr(v[i])
    ensures FormatRelease(v) == Text.Join(digits, ".")
  {
    assert seq(|v|, i requires 0 <= i < |v| => Decimal.NatToStr(v[i])) == digits;
  }

  /** Release segments compared numerically, the shorter padded with zeros:
      negative, zero or positive as `a` is older than, equal to or newer than `b`. */
  function Compare(a: seq<nat>, b: seq<nat>): (c: int)
    ensures -1 <= c <= 1
    decreases |a| + |b|
  {
    if a == [] && b == [] then 0
    else
      var x := if a == [] then 0 else a[0];
      var y := if b == [] then 0 else b[0];
      if x < y then -1
      else if x > y then 1
      else Compare(if a == [] then [] else a[1..], if b == [] then [] else b[1..])
  }

  lemma {:induction false} CompareAntisymmetric(a: seq<nat>, b: seq<nat>)
    ensures Compare(a, b) == -Compare(b, a)
    decreases |a| + |b|
  {
    if a != [] || b != [] {
      CompareAntisymmetric(if a == [] then [] else a[1..], if b == [] then [] else b[1..]);
    }
  }

  /** Trailing zero components do not change the order: "0.4" is "0.4.0". */
  lemma {:induction false} CompareZeroPadding(a: seq<nat>, b: seq<nat>)
    ensures Compare(a + [0], b) == Compare(a, b)
    decreases |a| + |b|
  {
    if a == [] {
      assert a + [0] == [0];
      CompareZeroPaddingEmpty(b);
    } else {
      assert (a + [0])[1..] == a[1..] + [0];
      CompareZeroPadding(a[1..], if b == [] then [] else b[1..]);
    }
  }

  lemma {:induction false} CompareZeroPaddingEmpty(b: seq<nat>)
    ensures Compare([0], b) == Compare([], b)
    decreases |b|
  {
    var z: seq<nat> := [0];
    assert z[1..] == [];
    if b != [] {
      CompareZeroPaddingEmpty(b[1..]);
    }
  }

  lemma {:induction false} CompareReflexive(a: seq<nat>)
    ensures Compare(a, a) == 0
    decreases |a|
  {
    if a != [] {
      CompareReflexive(a[1..]);
    }
  }

  lemma {:induction false} CompareTransitive(a: seq<nat>, b: seq<nat>, c: seq<nat>)
    requires Compare(a, b) < 0 && Compare(b, c) < 0
    ensures Compare(a, c) < 0
    decreases |a| + |b| + |c|
  {
    var x := if a == [] then 0 else a[0];
    var y := if b == [] then 0 else b[0];
    var z := if c == [] then 0 else c[0];
    if x == y && y == z {
      CompareTransitive(if a == [] then [] else a[1..], if b == [] then [] else b[1..], if c == [] then [] else c[1..]);
    }
  }

  /** The release segment of "0.4.0", the version the warning threshold is. */
  const Threshold: seq<nat> := [0, 4, 0]

  /** render3.py: `version.parse(api) < version.parse("0.4.0")`. */
  function OlderThanThreshold(api: string): (r: Result<bool>)
    ensures r.Ok? <==> ParseRelease(api).Some?
    ensures r.Ok? ==> (r.value <==> Compare(ParseRelease(api).value, Threshold) < 0)
  {
    match ParseRelease(api)
    case Some(v) => Ok(Compare(v, Threshold) < 0)
    case None => Err(VersionError)
  }

  /** render.py: `NormalizedVersion(api) < NormalizedVersion('0.4.0')`;
      NormalizedVersion wants at least a major and a minor number. */
  function NormalizedOlderThanThreshold(api: string): (r: Result<bool>)
    ensures r.Ok? <==> ParseRelease(api).Some? && |ParseRelease(api).value| >= 2
    ensures r.Ok? ==> r == OlderThanThreshold(api)
  {
    match ParseRelease(api)
    case Some(v) => if |v| >= 2 then Ok(Compare(v, Threshold) < 0) else Err(VersionError)
    case None => Err(VersionError)
  }

  /** "0.3.5" is older than 0.4.0, so a clean 0.3.5 record is warned about. */
  lemma OldVersionWarns()
    ensures OlderThanThreshold("0.3.5") == Ok(true)
    ensures NormalizedOlderThanThreshold("0.3.5") == Ok(true)
  {
    ParseFormat([0, 3, 5]);
    assert FormatRelease([0, 3, 5]) == "0.3.5" by {
      DigitsFormat([0, 3, 5], ["0", "3", "5"]);
    }
  }

  /** "0.10.0" is not older than 0.4.0, although it sorts before "0.4.0" as a string. */
  lemma NumericNotLexicographic()
    ensures OlderThanThreshold("0.10.0") == Ok(false)
    ensures NormalizedOlderThanThreshold("0.10.0") == Ok(false)
    ensures Text.StrLe("0.10.0", "0.4.0") && "0.10.0" != "0.4.0"
  {
    TenNotOld();
    TenSortsFirst();
  }

  lemma TenNotOld()
    ensures OlderThanThreshold("0.10.0") == Ok(false)
    ensures NormalizedOlderThanThreshold("0.10.0") == Ok(false)
  {
    var v: seq<nat> := [0, 10, 0];
    assert ParseRelease("0.10.0") == Some(v) by {
      ParseFormat(v);
      TenFormat();
    }
    assert Compare(v, Threshold) == 1 by {
      assert v[1..] == [10, 0] && Threshold[1..] == [4, 0];
      assert Compare([10, 0], [4, 0]) == 1;
    }
  }

  lemma TenFormat()
    ensures FormatRelease([0, 10, 0]) == "0.10.0"
  {
    DigitsFormat([0, 10, 0], ["0", "10", "0"]);
  }

  lemma TenSortsFirst()
    ensures Text.StrLe("0.10.0", "0.4.0") && "0.10.0" != "0.4.0"
  {
    assert "0.10.0"[2..] == "10.0" && "0.4.0"[2..] == "4.0";
    assert Text.StrLe("10.0", "4.0");
  }

  /** "0.4" and "0.4.0" are the same version: neither is too old. */
  lemma ShortFormNotOld()
    ensures OlderThanThreshold("0.4") == Ok(false)
  {
    ParseFormat([0, 4]);
    assert FormatRelease([0, 4]) == "0.4" by {
      DigitsFormat([0, 4], ["0", "4"]);
    }
    CompareZeroPadding([0, 4], Threshold);
    assert [0, 4] + [0] == Threshold;
    CompareReflexive(Threshold);
  }
}
