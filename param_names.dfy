/**
 * The names `Dql::generateParamName` builds:
 *   "var" + slug(varName) + "_" + uniqid() + counter
 * where the slug is empty for a PHP-falsy name and otherwise "_" followed by
 * the name with `.` turned into `_` and every non-word character removed.
 */
module ParamNames {

  /** What `uniqid('', false)` returns: a 13-character token, produced outside the model. */
  type Token = s: string | |s| == 13 witness "0000000000000"

  /** A member of PCRE's `\w` class (no Unicode mode): ASCII letters, digits and `_`. */
  predicate IsWordChar(c: char)
  {
    'a' <= c <= 'z' || 'A' <= c <= 'Z' || '0' <= c <= '9' || c == '_'
  }

  /** A string PHP treats as false in a boolean context. */
  predicate IsFalsy(s: string)
  {
    s == "" || s == "0"
  }

  /** `str_replace('.', '_', s)`. */
  function DotsToUnderscores(s: string): (r: string)
    ensures |r| == |s|
    ensures forall k :: 0 <= k < |s| ==> r[k] == (if s[k] == '.' then '_' else s[k])
  {
    if s == [] then []
    else DotsToUnderscores(s[..|s| - 1]) + [if s[|s| - 1] == '.' then '_' else s[|s| - 1]]
  }

  /** `preg_replace('/\W+/', '', s)`: every character outside `\w` is removed. */
  function WordCharsOnly(s: string): (r: string)
    ensures |r| <= |s|
    ensures forall k :: 0 <= k < |r| ==> IsWordChar(r[k])
    ensures (forall k :: 0 <= k < |s| ==> IsWordChar(s[k])) ==> r == s
  {
    if s == [] then []
    else WordCharsOnly(s[..|s| - 1]) + (if IsWordChar(s[|s| - 1]) then [s[|s| - 1]] else [])
  }

  /** `str_replace` works character by character: it commutes with concatenation. */
  lemma {:induction false} DotsToUnderscoresAppend(a: string, b: string)
    ensures DotsToUnderscores(a + b) == DotsToUnderscores(a) + DotsToUnderscores(b)
  {
    var l, r := DotsToUnderscores(a + b), DotsToUnderscores(a) + DotsToUnderscores(b);
    assert |l| == |r|;
    forall k | 0 <= k < |l|
      ensures l[k] == r[k]
    {
      if k < |a| {
        assert (a + b)[k] == a[k];
      } else {
        assert (a + b)[k] == b[k - |a|];
      }
    }
  }

  /** The filter keeps the word characters of each part, in order: it commutes with concatenation. */
  lemma {:induction false} WordCharsOnlyAppend(a: string, b: string)
    ensures WordCharsOnly(a + b) == WordCharsOnly(a) + WordCharsOnly(b)
    decreases |b|
  {
    if b == [] {
      assert a + b == a;
    } else {
      var init := b[..|b| - 1];
      assert (a + b)[..|a + b| - 1] == a + init;
      assert (a + b)[|a + b| - 1] == b[|b| - 1];
      WordCharsOnlyAppend(a, init);
    }
  }

  /** A single character survives the filter exactly when it is a word character. */
  lemma WordCharsOnlySingle(c: char)
    ensures WordCharsOnly([c]) == if IsWordChar(c) then [c] else []
  {
    assert [c][..0] == [];
  }

  /** The readable part of a generated name. */
  function Slug(varName: string): (r: string)
    ensures IsFalsy(varName) ==> r == ""
    ensures !IsFalsy(varName) ==> 1 <= |r| <= |varName| + 1 && r[0] == '_'
    ensures forall k :: 1 <= k < |r| ==> IsWordChar(r[k])
    ensures !IsFalsy(varName) && (forall k :: 0 <= k < |varName| ==> IsWordChar(varName[k]) || varName[k] == '.')
            ==> r == "_" + DotsToUnderscores(varName)
  {
    if IsFalsy(varName) then "" else "_" + WordCharsOnly(DotsToUnderscores(varName))
  }

  /**
   * Each character of a (truthy) name contributes to the slug in place: a
   * word character stays, a dot becomes `_`, anything else is dropped.
   */
  lemma SlugOneCharacter(a: string, c: char, b: string)
    requires !IsFalsy(a + [c] + b)
    ensures Slug(a + [c] + b)
            == "_" + WordCharsOnly(DotsToUnderscores(a))
               + (if IsWordChar(c) then [c] else if c == '.' then "_" else "")
               + WordCharsOnly(DotsToUnderscores(b))
  {
    var da, db := DotsToUnderscores(a), DotsToUnderscores(b);
    var d := DotsToUnderscores([c]);
    var keep := if IsWordChar(c) then [c] else if c == '.' then "_" else "";
    DotsToUnderscoresSingle(c);
    WordCharsOnlySingle(d[0]);
    assert WordCharsOnly(d) == keep;
    DotsToUnderscoresAppend(a + [c], b);
    DotsToUnderscoresAppend(a, [c]);
    assert DotsToUnderscores(a + [c] + b) == da + d + db;
    WordCharsOnlyAppend(da + d, db);
    WordCharsOnlyAppend(da, d);
    var w := WordCharsOnly(DotsToUnderscores(a + [c] + b));
    assert w == WordCharsOnly(da) + keep + WordCharsOnly(db);
    assert Slug(a + [c] + b) == "_" + w;
    ConcatAssoc("_", WordCharsOnly(da), keep, WordCharsOnly(db));
  }

  /** Regrouping a four-part concatenation (kept apart to keep the slug proof small). */
  lemma ConcatAssoc(p: string, q: string, r: string, t: string)
    ensures p + (q + r + t) == p + q + r + t
  {
  }

  /** One character through `str_replace('.', '_', ...)`. */
  lemma DotsToUnderscoresSingle(c: char)
    ensures DotsToUnderscores([c]) == [if c == '.' then '_' else c]
  {
  }

  /** The decimal digit for `d`. */
  function Digit(d: nat): (c: char)
    requires d < 10
    ensures '0' <= c <= '9'
  {
    (48 + d) as char
  }

  /** PHP's string conversion of a non-negative integer. */
  function Decimal(n: nat): (r: string)
    ensures 1 <= |r|
    ensures forall k :: 0 <= k < |r| ==> '0' <= r[k] <= '9'
    ensures (n < 10) == (|r| == 1)
    decreases n
  {
    if n < 10 then [Digit(n)] else Decimal(n / 10) + [Digit(n % 10)]
  }

  /** Different numbers are written differently. */
  lemma {:induction false} DecimalInjective(a: nat, b: nat)
    requires Decimal(a) == Decimal(b)
    ensures a == b
    decreases a
  {
    var ra, rb := Decimal(a), Decimal(b);
    assert Digit(a % 10) == ra[|ra| - 1] == rb[|rb| - 1] == Digit(b % 10);
    if 10 <= a {
      assert ra[..|ra| - 1] == Decimal(a / 10);
      assert rb[..|rb| - 1] == Decimal(b / 10);
      DecimalInjective(a / 10, b / 10);
    }
  }

  /** The name `generateParamName` returns once the counter holds `counter`. */
  function ParamName(varName: string, token: Token, counter: nat): (r: string)
    ensures |r| == 3 + |Slug(varName)| + 1 + |token| + |Decimal(counter)|
    ensures r[..3] == "var"
    ensures r[|r| - |Decimal(counter)|..] == Decimal(counter)
  {
    "var" + Slug(varName) + "_" + token + Decimal(counter)
  }

  /**
   * Two names whose slugs have the same length (in particular two names for
   * the same variable) differ as soon as their counter values differ, whatever
   * the two tokens were.
   */
  lemma ParamNamesDistinct(v1: string, t1: Token, c1: nat, v2: string, t2: Token, c2: nat)
    requires |Slug(v1)| == |Slug(v2)|
    requires c1 != c2
    ensures ParamName(v1, t1, c1) != ParamName(v2, t2, c2)
  {
    if ParamName(v1, t1, c1) == ParamName(v2, t2, c2) {
      var n := ParamName(v1, t1, c1);
      var p := 3 + |Slug(v1)| + 1 + 13;
      assert n == ("var" + Slug(v1) + "_" + t1) + Decimal(c1);
      assert n == ("var" + Slug(v2) + "_" + t2) + Decimal(c2);
      assert n[p..] == Decimal(c1);
      assert n[p..] == Decimal(c2);
      DecimalInjective(c1, c2);
    }
  }
}
