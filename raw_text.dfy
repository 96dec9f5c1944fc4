/**
 * The helpers that build raw DQL text instead of asking Doctrine's expression
 * factory: `TIMESTAMPDIFF` calls, the earth-distance formula and the
 * `IS_CONTAINED_BY` / `CONTAINS` / `ILIKE` predicates. Each passes its text
 * through `dql` with no parameters, which leaves the builder unchanged
 * (`DqlHelper.Dql.Dql`), so here they are plain functions.
 */
module RawText {

  // ---------------------------------------------------------------------------
  // Timestamp differences
  // ---------------------------------------------------------------------------

  /**
   * A timestamp argument: a `\DateTime`, represented by the text its
   * `format('Y-m-d H:i:s')` gives, or a raw DQL expression.
   */
  datatype Moment = DateTime(ymdHis: string) | Expression(dql: string)

  /** How an argument is written: a date-time is quoted, an expression is written as it is. */
  function Operand(m: Moment): (r: string)
    ensures m.DateTime? ==> |r| == |m.ymdHis| + 2 && r[0] == '\'' && r[|r| - 1] == '\'' && r[1..|r| - 1] == m.ymdHis
    ensures m.Expression? ==> r == m.dql
  {
    match m
    case DateTime(t) => "'" + t + "'"
    case Expression(e) => e
  }

  /** `TIMESTAMPDIFF(part, v1, v2)`: the time from `v1` to `v2`, counted in `part`. */
  function TimeStampDiff(v1: Moment, v2: Moment, part: string): (r: string)
    ensures |r| == 14 + |part| + 2 + |Operand(v1)| + 2 + |Operand(v2)| + 1
    ensures r[..14] == "TIMESTAMPDIFF(" && r[|r| - 1] == ')'
    ensures r[14..14 + |part|] == part && r[14 + |part|] == ','
    ensures r[16 + |part|..16 + |part| + |Operand(v1)|] == Operand(v1)
    ensures r[|r| - 1 - |Operand(v2)|..|r| - 1] == Operand(v2)
  {
    DiffLayout(part, Operand(v1), Operand(v2));
    "TIMESTAMPDIFF(" + part + ", " + Operand(v1) + ", " + Operand(v2) + ")"
  }

  /** Where the unit and the two operands sit in a `TIMESTAMPDIFF` text. */
  lemma DiffLayout(part: string, x: string, y: string)
    ensures var r := "TIMESTAMPDIFF(" + part + ", " + x + ", " + y + ")";
      && |r| == 14 + |part| + 2 + |x| + 2 + |y| + 1
      && r[..14] == "TIMESTAMPDIFF(" && r[|r| - 1] == ')'
      && r[14..14 + |part|] == part && r[14 + |part|] == ','
      && r[16 + |part|..16 + |part| + |x|] == x
      && r[|r| - 1 - |y|..|r| - 1] == y
  {
    var head := "TIMESTAMPDIFF(" + part + ", ";
    ThreeParts("TIMESTAMPDIFF(", part, ", ");
    SliceOfSlice(head, 0, |head|, 0, 14);
    ThreeParts(head, x, ", " + y + ")");
    ThreeParts(head + x + ", ", y, ")");
  }

  /** The time from `a` to `b`: `a` is the first moment written, `b` the second. */
  function TimestampFromAToB(a: Moment, b: Moment, part: string): (r: string)
    ensures |r| == 14 + |part| + 2 + |Operand(a)| + 2 + |Operand(b)| + 1
    ensures r[..14] == "TIMESTAMPDIFF(" && r[14..14 + |part|] == part
    ensures r[14 + |part|] == ',' && r[|r| - 1] == ')'
    ensures r[16 + |part|..16 + |part| + |Operand(a)|] == Operand(a)
    ensures r[|r| - 1 - |Operand(b)|..|r| - 1] == Operand(b)
  {
    TimeStampDiff(a, b, part)
  }

  /** `a` minus `b`: the same primitive with the two moments swapped. */
  function TimestampAMinusB(a: Moment, b: Moment, part: string): (r: string)
    ensures r == TimestampFromAToB(b, a, part)
  {
    TimeStampDiff(b, a, part)
  }

  /** The units of the public wrappers (`secondsFromAToB` ... `yearsAMinusB`). */
  datatype TimeUnit = Second | Minute | Hour | Day | Week | Month | Quarter | Year

  function UnitKeyword(u: TimeUnit): (k: string)
    ensures 3 <= |k| <= 7
    ensures forall i :: 0 <= i < |k| ==> 'A' <= k[i] <= 'Z'
  {
    match u
    case Second => "SECOND"
    case Minute => "MINUTE"
    case Hour => "HOUR"
    case Day => "DAY"
    case Week => "WEEK"
    case Month => "MONTH"
    case Quarter => "QUARTER"
    case Year => "YEAR"
  }

  /** `secondsFromAToB`, `minutesFromAToB`, ..., `yearsFromAToB`. */
  function FromAToB(u: TimeUnit, a: Moment, b: Moment): (r: string)
    ensures |r| == 14 + |UnitKeyword(u)| + 2 + |Operand(a)| + 2 + |Operand(b)| + 1
    ensures r[..14] == "TIMESTAMPDIFF(" && r[14..14 + |UnitKeyword(u)|] == UnitKeyword(u)
    ensures r[14 + |UnitKeyword(u)|] == ',' && r[|r| - 1] == ')'
    ensures r[16 + |UnitKeyword(u)|..16 + |UnitKeyword(u)| + |Operand(a)|] == Operand(a)
    ensures r[|r| - 1 - |Operand(b)|..|r| - 1] == Operand(b)
  {
    var k := UnitKeyword(u);
    TimestampFromAToB(a, b, k)
  }

  /** `secondsAMinusB`, `minutesAMinusB`, ..., `yearsAMinusB`. */
  function AMinusB(u: TimeUnit, a: Moment, b: Moment): (r: string)
    ensures r == FromAToB(u, b, a)
  {
    TimestampAMinusB(a, b, UnitKeyword(u))
  }

  lemma UnitKeywordInjective(u1: TimeUnit, u2: TimeUnit)
    requires UnitKeyword(u1) == UnitKeyword(u2)
    ensures u1 == u2
  {
  }

  /**
   * The unit can be read back from the text: two calls with different units
   * never produce the same text, whatever their moments.
   */
  lemma UnitsGiveDifferentTexts(u1: TimeUnit, a1: Moment, b1: Moment, u2: TimeUnit, a2: Moment, b2: Moment)
    requires u1 != u2
    ensures TimeStampDiff(a1, b1, UnitKeyword(u1)) != TimeStampDiff(a2, b2, UnitKeyword(u2))
  {
    var k1, k2 := UnitKeyword(u1), UnitKeyword(u2);
    assert k1 != k2 by {
      if k1 == k2 { UnitKeywordInjective(u1, u2); }
    }
    DifferentPartsDiffer(k1, Operand(a1), Operand(b1), k2, Operand(a2), Operand(b2));
  }

  /** Two `TIMESTAMPDIFF` texts whose units differ and hold no comma are different. */
  lemma DifferentPartsDiffer(p1: string, x1: string, y1: string, p2: string, x2: string, y2: string)
    requires p1 != p2
    requires forall i :: 0 <= i < |p1| ==> p1[i] != ','
    requires forall i :: 0 <= i < |p2| ==> p2[i] != ','
    ensures "TIMESTAMPDIFF(" + p1 + ", " + x1 + ", " + y1 + ")" != "TIMESTAMPDIFF(" + p2 + ", " + x2 + ", " + y2 + ")"
  {
    var r1, r2 := "TIMESTAMPDIFF(" + p1 + ", " + x1 + ", " + y1 + ")", "TIMESTAMPDIFF(" + p2 + ", " + x2 + ", " + y2 + ")";
    DiffLayout(p1, x1, y1);
    DiffLayout(p2, x2, y2);
    if |p1| < |p2| {
      assert r1[14 + |p1|] == ',' && r2[14 + |p1|] == r2[14..14 + |p2|][|p1|] == p2[|p1|];
    } else if |p2| < |p1| {
      assert r2[14 + |p2|] == ',' && r1[14 + |p2|] == r1[14..14 + |p1|][|p2|] == p1[|p2|];
    } else {
      assert r1[14..14 + |p1|] == p1 && r2[14..14 + |p2|] == p2;
    }
  }

  // ---------------------------------------------------------------------------
  // Earth distance
  // ---------------------------------------------------------------------------

  /**
   * A coordinate argument: a number (`is_numeric`), represented by the text
   * `number_format($coord, 6, '.', '')` gives for it, or anything else, which
   * is used verbatim as a column or expression reference.
   */
  datatype Coord = Number(sixDecimals: string) | Reference(dql: string)

  function CoordText(c: Coord): string
  {
    match c
    case Number(s) => s
    case Reference(e) => e
  }

  /** `LL_TO_EARTH(lat, lon)`. */
  function EarthPoint(lat: Coord, lon: Coord): (r: string)
    ensures |r| == 12 + |CoordText(lat)| + 2 + |CoordText(lon)| + 1
    ensures r[..12] == "LL_TO_EARTH(" && r[|r| - 1] == ')'
    ensures r[12..12 + |CoordText(lat)|] == CoordText(lat)
    ensures r[|r| - 1 - |CoordText(lon)|..|r| - 1] == CoordText(lon)
  {
    "LL_TO_EARTH(" + CoordText(lat) + ", " + CoordText(lon) + ")"
  }

  /** The distance in metres between point A and point B. */
  function Distance(latA: Coord, lonA: Coord, latB: Coord, lonB: Coord): (r: string)
    ensures |r| == 16 + |EarthPoint(latA, lonA)| + 2 + |EarthPoint(latB, lonB)| + 2
    ensures r[..16] == "EARTH_DISTANCE( " && r[|r| - 2..] == " )"
    ensures r[16..16 + |EarthPoint(latA, lonA)|] == EarthPoint(latA, lonA)
    ensures r[|r| - 2 - |EarthPoint(latB, lonB)|..|r| - 2] == EarthPoint(latB, lonB)
  {
    "EARTH_DISTANCE( " + EarthPoint(latA, lonA) + ", " + EarthPoint(latB, lonB) + " )"
  }

  /**
   * Each coordinate lands at its own place in the whole formula: a reference
   * appears there verbatim, a number as its six-decimal text.
   */
  lemma DistancePlacesCoordinates(latA: Coord, lonA: Coord, latB: Coord, lonB: Coord)
    ensures var r, pa := Distance(latA, lonA, latB, lonB), EarthPoint(latA, lonA);
      && r[28..28 + |CoordText(latA)|] == CoordText(latA)
      && r[15 + |pa| - |CoordText(lonA)|..15 + |pa|] == CoordText(lonA)
      && r[30 + |pa|..30 + |pa| + |CoordText(latB)|] == CoordText(latB)
      && r[|r| - 3 - |CoordText(lonB)|..|r| - 3] == CoordText(lonB)
  {
    var r, pa, pb := Distance(latA, lonA, latB, lonB), EarthPoint(latA, lonA), EarthPoint(latB, lonB);
    SliceOfSlice(r, 16, 16 + |pa|, 12, 12 + |CoordText(latA)|);
    SliceOfSlice(r, 16, 16 + |pa|, |pa| - 1 - |CoordText(lonA)|, |pa| - 1);
    SliceOfSlice(r, 18 + |pa|, |r| - 2, 12, 12 + |CoordText(latB)|);
    SliceOfSlice(r, 18 + |pa|, |r| - 2, |pb| - 1 - |CoordText(lonB)|, |pb| - 1);
  }

  // ---------------------------------------------------------------------------
  // Extension predicates
  // ---------------------------------------------------------------------------

  /** The vendor functions behind `isContainedBy`, `contains` and `ilike`. */
  datatype ExtFunction = IsContainedBy | Contains | ILike

  function FunctionName(f: ExtFunction): string
  {
    match f
    case IsContainedBy => "IS_CONTAINED_BY"
    case Contains => "CONTAINS"
    case ILike => "ILIKE"
  }

  /**
   * `NAME(left, right) = TRUE` for `isContainedBy`, `contains` and `ilike`;
   * `... = FALSE` for `isNotContainedBy`, `notContains` and `notIlike`.
   */
  function ExtensionPredicate(f: ExtFunction, left: string, right: string, expected: bool): (r: string)
    ensures |r| == |FunctionName(f)| + 1 + |left| + 2 + |right| + (if expected then 8 else 9)
    ensures r[..|FunctionName(f)| + 1] == FunctionName(f) + "("
    ensures expected ==> r[|r| - 8..] == ") = TRUE"
    ensures !expected ==> r[|r| - 9..] == ") = FALSE"
    ensures r[|FunctionName(f)| + 1..|FunctionName(f)| + 1 + |left|] == left
    ensures expected ==> r[|r| - 8 - |right|..|r| - 8] == right
    ensures !expected ==> r[|r| - 9 - |right|..|r| - 9] == right
  {
    var tail := if expected then ") = TRUE" else ") = FALSE";
    PredicateLayout(FunctionName(f), left, right, tail);
    FunctionName(f) + "(" + left + ", " + right + tail
  }

  /** Where the function name and the two operands sit in a predicate text. */
  lemma PredicateLayout(name: string, left: string, right: string, tail: string)
    ensures var r := name + "(" + left + ", " + right + tail;
      && |r| == |name| + 1 + |left| + 2 + |right| + |tail|
      && r[..|name| + 1] == name + "("
      && r[|name| + 1..|name| + 1 + |left|] == left
      && r[|r| - |tail|..] == tail
      && r[|r| - |tail| - |right|..|r| - |tail|] == right
  {
    var head := name + "(";
    ThreeParts(head, left, ", " + right + tail);
    ThreeParts(head + left + ", ", right, tail);
  }

  /** A positive predicate and a negated one never read the same, whatever their operands. */
  lemma NegatedFormDiffers(f: ExtFunction, l1: string, r1: string, g: ExtFunction, l2: string, r2: string)
    ensures ExtensionPredicate(f, l1, r1, true) != ExtensionPredicate(g, l2, r2, false)
  {
    var pos, neg := ExtensionPredicate(f, l1, r1, true), ExtensionPredicate(g, l2, r2, false);
    assert pos[|pos| - 8..][3] == ' ';
    assert neg[|neg| - 9..][4] == 'F';
  }

  /** The vendor function can be read back from the text, whatever the operands. */
  lemma FunctionNameDiffers(f: ExtFunction, l1: string, r1: string, e1: bool,
                            g: ExtFunction, l2: string, r2: string, e2: bool)
    requires f != g
    ensures ExtensionPredicate(f, l1, r1, e1) != ExtensionPredicate(g, l2, r2, e2)
  {
    var t1, t2 := ExtensionPredicate(f, l1, r1, e1), ExtensionPredicate(g, l2, r2, e2);
    assert t1[0] == FunctionName(f)[0] && t1[1] == FunctionName(f)[1];
    assert t2[0] == FunctionName(g)[0] && t2[1] == FunctionName(g)[1];
  }

  // ---------------------------------------------------------------------------
  // Slicing helpers
  // ---------------------------------------------------------------------------

  /** Where each of three concatenated parts sits. */
  lemma ThreeParts<T>(h: seq<T>, m: seq<T>, t: seq<T>)
    ensures (h + m + t)[..|h|] == h
    ensures (h + m + t)[|h|..|h| + |m|] == m
    ensures (h + m + t)[|h| + |m|..] == t
  {
  }

  /** A slice of a slice is a slice of the whole. */
  lemma SliceOfSlice<T>(s: seq<T>, i: int, j: int, k: int, l: int)
    requires 0 <= i <= j <= |s| && 0 <= k <= l <= j - i
    ensures s[i..j][k..l] == s[i + k..i + l]
  {
    forall n | 0 <= n < l - k
      ensures s[i..j][k..l][n] == s[i + k..i + l][n]
    {
      assert s[i..j][k..l][n] == s[i..j][k + n] == s[i + k + n];
    }
  }
}
