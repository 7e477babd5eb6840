/**
 * JSON values as Python's `json` module decodes them, together with the
 * Python operations the integration applies to decoded values: truthiness,
 * the `in` operator, dictionary lookup and iteration, `==`, and `str()`.
 */
module Json {
  import opened Wrappers

  /** A decoded JSON value. An object keeps its members in document order,
      repeated keys included; numbers are integers. */
  datatype Json =
    | JNull
    | JBool(b: bool)
    | JNum(n: int)
    | JStr(s: string)
    | JArr(elems: seq<Json>)
    | JObj(fields: seq<(string, Json)>)

  /** Python truthiness: `not j` holds exactly when `!Truthy(j)`. The
      falsy values are None, False, zero and the empty containers. */
  function Truthy(j: Json): (t: bool)
    ensures !t <==> j in {JNull, JBool(false), JNum(0), JStr([]), JArr([]), JObj([])}
  {
    match j
    case JNull => false
    case JBool(b) => b
    case JNum(n) => n != 0
    case JStr(s) => s != []
    case JArr(xs) => xs != []
    case JObj(fs) => fs != []
  }

  /** The value a decoded dict holds for `k`: `json.loads` keeps the last of
      repeated members. */
  function Find(fs: seq<(string, Json)>, k: string): (r: Option<Json>)
    ensures r.Some? <==> exists i :: 0 <= i < |fs| && fs[i].0 == k
    ensures r.Some? ==> r.value in Members(fs)
  {
    if fs == [] then None
    else if fs[|fs| - 1].0 == k then Some(fs[|fs| - 1].1)
    else Find(fs[..|fs| - 1], k)
  }

  /** The member values of an object, in document order. */
  function Members(fs: seq<(string, Json)>): (vs: seq<Json>)
    ensures |vs| == |fs| && forall i :: 0 <= i < |fs| ==> vs[i] == fs[i].1
  {
    seq(|fs|, i requires 0 <= i < |fs| => fs[i].1)
  }

  /** Position `i` holds the member that the decoded dict keeps for its key. */
  predicate Kept(fs: seq<(string, Json)>, i: int)
    requires 0 <= i < |fs|
  {
    forall j :: i < j < |fs| ==> fs[j].0 != fs[i].0
  }

  lemma {:induction false} FindKept(fs: seq<(string, Json)>, i: int)
    requires 0 <= i < |fs| && Kept(fs, i)
    ensures Find(fs, fs[i].0) == Some(fs[i].1)
  {
    if i < |fs| - 1 {
      assert fs[|fs| - 1].0 != fs[i].0;
      var init := fs[..|fs| - 1];
      assert init[i] == fs[i];
      FindKept(init, i);
    }
  }

  /** `j[k]` / `j.get(k)` on a decoded value: only objects have members. */
  function Get(j: Json, k: string): Option<Json> {
    if j.JObj? then Find(j.fields, k) else None
  }

  /** The keys of a decoded dict in iteration order: each key once, where it
      first occurs. */
  function Keys(fs: seq<(string, Json)>): (ks: seq<string>)
    ensures forall k :: k in ks <==> Find(fs, k).Some?
    ensures forall i, j :: 0 <= i < j < |ks| ==> ks[i] != ks[j]
    ensures forall i, j :: 0 <= i < j < |ks| ==> FirstAt(fs, ks[i]) < FirstAt(fs, ks[j])
  {
    if fs == [] then []
    else
      var ks := Keys(fs[..|fs| - 1]);
      AppendKey(fs, ks);
      if fs[|fs| - 1].0 in ks then ks else ks + [fs[|fs| - 1].0]
  }

  /** The position of the first member named `k`, or `|fs|` when there is
      none. */
  function FirstAt(fs: seq<(string, Json)>, k: string): (p: nat)
    ensures p <= |fs| && (p < |fs| ==> fs[p].0 == k)
    ensures forall q :: 0 <= q < p ==> fs[q].0 != k
  {
    if fs == [] then 0 else if fs[0].0 == k then 0 else 1 + FirstAt(fs[1..], k)
  }

  /** Dropping the last member keeps the first occurrence of every name that
      occurs before it. */
  lemma FirstAtPrefix(fs: seq<(string, Json)>, k: string)
    requires fs != []
    ensures Find(fs[..|fs| - 1], k).Some? ==> FirstAt(fs, k) == FirstAt(fs[..|fs| - 1], k) < |fs| - 1
    ensures Find(fs[..|fs| - 1], k).None? && fs[|fs| - 1].0 == k ==> FirstAt(fs, k) == |fs| - 1
  {
    var init := fs[..|fs| - 1];
    assert forall q :: 0 <= q < |init| ==> init[q] == fs[q];
  }

  /** The step of `Keys`: appending a new name keeps the keys in order of
      first occurrence. */
  lemma AppendKey(fs: seq<(string, Json)>, ks: seq<string>)
    requires fs != []
    requires forall k :: k in ks <==> Find(fs[..|fs| - 1], k).Some?
    requires forall i, j :: 0 <= i < j < |ks| ==> ks[i] != ks[j]
    requires forall i, j :: 0 <= i < j < |ks| ==> FirstAt(fs[..|fs| - 1], ks[i]) < FirstAt(fs[..|fs| - 1], ks[j])
    ensures var ks' := if fs[|fs| - 1].0 in ks then ks else ks + [fs[|fs| - 1].0];
      (forall k :: k in ks' <==> Find(fs, k).Some?) &&
      (forall i, j :: 0 <= i < j < |ks'| ==> ks'[i] != ks'[j]) &&
      (forall i, j :: 0 <= i < j < |ks'| ==> FirstAt(fs, ks'[i]) < FirstAt(fs, ks'[j]))
  {
    var last := fs[|fs| - 1].0;
    var ks' := if last in ks then ks else ks + [last];
    forall k | k in ks ensures FirstAt(fs, k) == FirstAt(fs[..|fs| - 1], k) < |fs| - 1 {
      FirstAtPrefix(fs, k);
    }
    FirstAtPrefix(fs, last);
    forall i, j | 0 <= i < j < |ks'| ensures FirstAt(fs, ks'[i]) < FirstAt(fs, ks'[j]) {
      assert ks'[i] == ks[i];
      if j < |ks| {
        assert ks'[j] == ks[j];
      }
    }
  }

  /** In an object whose member names are pairwise different, each name
      reads back its own value. */
  lemma FindDistinct(fs: seq<(string, Json)>, i: int)
    requires forall i, j :: 0 <= i < j < |fs| ==> fs[i].0 != fs[j].0
    requires 0 <= i < |fs|
    ensures Find(fs, fs[i].0) == Some(fs[i].1)
  {
    FindKept(fs, i);
  }

  /** Keys of an object whose member names are pairwise different are those
      names, in order. */
  lemma {:induction false} KeysDistinct(fs: seq<(string, Json)>)
    requires forall i, j :: 0 <= i < j < |fs| ==> fs[i].0 != fs[j].0
    ensures |Keys(fs)| == |fs| && forall i :: 0 <= i < |fs| ==> Keys(fs)[i] == fs[i].0
  {
    if fs != [] {
      var init := fs[..|fs| - 1];
      KeysDistinct(init);
      var last := fs[|fs| - 1].0;
      assert Find(init, last).None? by {
        forall i | 0 <= i < |init| ensures init[i].0 != last {
          assert init[i] == fs[i];
        }
      }
      var ks := Keys(init);
      assert last !in ks;
      assert Keys(fs) == ks + [last];
      forall i | 0 <= i < |fs| ensures Keys(fs)[i] == fs[i].0 {
        if i < |init| {
          assert init[i] == fs[i];
        }
      }
    }
  }

  /** Python's `k in j` for a string `k`, where it does not raise: a dict
      tests its keys, a list its elements, a string its substrings. */
  function Contains(j: Json, k: string): (r: bool)
    ensures j.JObj? ==> (r <==> k in Keys(j.fields))
    ensures j.JArr? ==> (r <==> exists i :: 0 <= i < |j.elems| && j.elems[i] == JStr(k))
    ensures j.JStr? ==> (r <==> exists i :: 0 <= i <= |j.s| && k <= j.s[i..])
    ensures ContainsRaises(j) ==> !r
  {
    match j
    case JObj(fs) => Find(fs, k).Some?
    case JArr(xs) => JStr(k) in xs
    case JStr(s) => SubstringAt(k, s); Substring(k, s)
    case _ => false
  }

  /** `k in j` raises TypeError on None, booleans and numbers. */
  predicate ContainsRaises(j: Json) {
    j.JNull? || j.JBool? || j.JNum?
  }

  predicate Substring(k: string, s: string) {
    k <= s || (s != [] && Substring(k, s[1..]))
  }

  /** `k` occurs in `s` exactly when `s` has a suffix that starts with `k`. */
  lemma {:induction false} SubstringAt(k: string, s: string)
    ensures Substring(k, s) <==> exists i :: 0 <= i <= |s| && k <= s[i..]
  {
    assert s[0..] == s;
    if s != [] {
      SubstringAt(k, s[1..]);
      if Substring(k, s) && !(k <= s) {
        var i :| 0 <= i <= |s| - 1 && k <= s[1..][i..];
        assert s[1..][i..] == s[i + 1..];
      }
      if !Substring(k, s) {
        forall i | 1 <= i <= |s| ensures !(k <= s[i..]) {
          assert s[1..][i - 1..] == s[i..];
        }
      }
    }
  }

  /** What `for x in j` visits, or None where iteration raises TypeError:
      list elements, dict keys, the characters of a string. */
  function Iterate(j: Json): (r: Option<seq<Json>>)
    ensures r.Some? <==> !ContainsRaises(j)
    ensures j.JObj? ==>
      |r.value| == |Keys(j.fields)| && forall x :: x in r.value <==> x.JStr? && Contains(j, x.s)
  {
    match j
    case JArr(xs) => Some(xs)
    case JObj(fs) =>
      var ks := Keys(fs);
      var xs := seq(|ks|, i requires 0 <= i < |ks| => JStr(ks[i]));
      assert forall k :: k in ks ==> JStr(k) in xs by {
        forall k | k in ks ensures JStr(k) in xs {
          var i :| 0 <= i < |ks| && ks[i] == k;
          assert xs[i] == JStr(k);
        }
      }
      Some(xs)
    case JStr(s) => Some(seq(|s|, i requires 0 <= i < |s| => JStr([s[i]])))
    case _ => None
  }

  /** Booleans and integers compare as numbers in Python (`True == 1`). */
  predicate Numeric(j: Json) {
    j.JBool? || j.JNum?
  }

  function NumberOf(j: Json): int
    requires Numeric(j)
  {
    if j.JBool? then (if j.b then 1 else 0) else j.n
  }

  /** Python's `a == b` on decoded values. Apart from booleans against
      integers, only values of the same type compare equal, and None and
      strings only to themselves. */
  function PyEq(a: Json, b: Json): (r: bool)
    ensures r ==> a.JNull? == b.JNull? && a.JStr? == b.JStr? && a.JArr? == b.JArr? && a.JObj? == b.JObj?
    ensures a.JNull? || a.JStr? ==> (r <==> a == b)
    decreases a
  {
    if Numeric(a) || Numeric(b) then Numeric(a) && Numeric(b) && NumberOf(a) == NumberOf(b)
    else match a
      case JNull => b.JNull?
      case JStr(s) => b == JStr(s)
      case JArr(xs) =>
        b.JArr? && |xs| == |b.elems| &&
        forall i :: 0 <= i < |xs| ==> PyEq(xs[i], b.elems[i])
      case JObj(fs) =>
        b.JObj? &&
        (forall k :: k in Keys(fs) ==> k in Keys(b.fields)) &&
        (forall k :: k in Keys(b.fields) ==> k in Keys(fs)) &&
        forall i :: 0 <= i < |fs| && Kept(fs, i) ==>
          Find(b.fields, fs[i].0).Some? && PyEq(fs[i].1, Find(b.fields, fs[i].0).value)
  }

  /** Python's `== 0`, the test applied to `message_code`. */
  predicate IsZero(j: Json) {
    PyEq(j, JNum(0))
  }

  lemma IsZeroCases(j: Json)
    ensures IsZero(j) <==> j == JNum(0) || j == JBool(false)
  {
  }

  /** Every decoded value equals itself under Python's `==`. */
  lemma {:induction false} PyEqReflexive(a: Json)
    ensures PyEq(a, a)
    decreases a
  {
    match a
    case JArr(xs) =>
      forall i | 0 <= i < |xs| ensures PyEq(xs[i], xs[i]) {
        PyEqReflexive(xs[i]);
      }
    case JObj(fs) =>
      forall i | 0 <= i < |fs| && Kept(fs, i)
        ensures Find(fs, fs[i].0).Some? && PyEq(fs[i].1, Find(fs, fs[i].0).value)
      {
        FindKept(fs, i);
        PyEqReflexive(fs[i].1);
      }
    case _ =>
  }

  /** `==` on decoded values is symmetric. */
  lemma {:induction false} PyEqSymmetric(a: Json, b: Json)
    requires PyEq(a, b)
    ensures PyEq(b, a)
    decreases a
  {
    if !Numeric(a) && !Numeric(b) {
      match a
      case JArr(xs) =>
        forall i | 0 <= i < |xs| ensures PyEq(b.elems[i], xs[i]) {
          PyEqSymmetric(xs[i], b.elems[i]);
        }
      case JObj(fs) =>
        var gs := b.fields;
        forall j | 0 <= j < |gs| && Kept(gs, j)
          ensures Find(fs, gs[j].0).Some? && PyEq(gs[j].1, Find(fs, gs[j].0).value)
        {
          FindKept(gs, j);
          assert gs[j].0 in Keys(gs);
          var i := FindAt(fs, gs[j].0);
          PyEqSymmetric(fs[i].1, gs[j].1);
        }
      case _ =>
    }
  }

  /** The member a successful lookup reads is the kept one for its name. */
  lemma {:induction false} FindAt(fs: seq<(string, Json)>, k: string) returns (i: int)
    requires Find(fs, k).Some?
    ensures 0 <= i < |fs| && fs[i].0 == k && Kept(fs, i) && Find(fs, k) == Some(fs[i].1)
  {
    var init := fs[..|fs| - 1];
    if fs[|fs| - 1].0 == k {
      i := |fs| - 1;
    } else {
      i := FindAt(init, k);
      forall j | i < j < |fs| ensures fs[j].0 != fs[i].0 {
        if j < |fs| - 1 {
          assert init[j] == fs[j];
        }
      }
    }
  }

  /** Decimal digits of a natural number, most significant first. */
  function Digits(n: nat): (s: string)
    ensures |s| >= 1 && forall i :: 0 <= i < |s| ==> '0' <= s[i] <= '9'
  {
    if n < 10 then [DigitChar(n)] else Digits(n / 10) + [DigitChar(n % 10)]
  }

  function DigitChar(d: nat): (c: char)
    requires d < 10
    ensures '0' <= c <= '9' && c as int - '0' as int == d
  {
    (d + '0' as int) as char
  }

  /** `str(n)` for an integer. */
  function Decimal(n: int): string {
    if n < 0 then "-" + Digits(-n) else Digits(n)
  }

  /** Distinct naturals have distinct decimal renderings. */
  lemma {:induction false} DigitsInjective(a: nat, b: nat)
    requires Digits(a) == Digits(b)
    ensures a == b
  {
    var da, db := Digits(a), Digits(b);
    assert da[|da| - 1] == db[|db| - 1];
    if a >= 10 && b >= 10 {
      assert Digits(a / 10) == da[..|da| - 1] == db[..|db| - 1] == Digits(b / 10);
      DigitsInjective(a / 10, b / 10);
    }
  }

  /** `str(n)` starts with a minus sign exactly for negative `n`. */
  lemma DecimalSign(n: int)
    ensures |Decimal(n)| >= 1 && (Decimal(n)[0] == '-' <==> n < 0)
  {
  }

  /** Distinct integers have distinct `str()` renderings. */
  lemma DecimalInjective(a: int, b: int)
    requires Decimal(a) == Decimal(b)
    ensures a == b
  {
    DecimalSign(a);
    DecimalSign(b);
    if a < 0 {
      assert Digits(-a) == Decimal(a)[1..] == Decimal(b)[1..] == Digits(-b);
      DigitsInjective(-a, -b);
    } else {
      DigitsInjective(a, b);
    }
  }

  /** Python's `repr()`; string escapes are not modelled. A dict prints
      each key once, in first-occurrence order, with the value `json.loads`
      kept for it. */
  function Repr(j: Json): string
    decreases j, 1
  {
    match j
    case JNull => "None"
    case JBool(b) => if b then "True" else "False"
    case JNum(n) => Decimal(n)
    case JStr(s) => "'" + s + "'"
    case JArr(xs) => "[" + JoinReprs(j, xs) + "]"
    case JObj(fs) => "{" + JoinMembers(j, fs, Keys(fs)) + "}"
  }

  function JoinReprs(ghost parent: Json, xs: seq<Json>): string
    requires forall x :: x in xs ==> x < parent
    decreases parent, 0, |xs|
  {
    if xs == [] then ""
    else
      assert xs[0] in xs;
      if |xs| == 1 then Repr(xs[0])
      else
        assert forall x :: x in xs[1..] ==> x in xs;
        Repr(xs[0]) + ", " + JoinReprs(parent, xs[1..])
  }

  /** The `key: value` items of a dict, for the keys `ks` of `fs`. */
  function JoinMembers(ghost parent: Json, fs: seq<(string, Json)>, ks: seq<string>): string
    requires forall i :: 0 <= i < |fs| ==> fs[i].1 < parent
    requires forall k :: k in ks ==> Find(fs, k).Some?
    decreases parent, 0, |ks|
  {
    if ks == [] then ""
    else
      var v := Find(fs, ks[0]).value;
      assert v < parent by {
        var i :| 0 <= i < |fs| && Members(fs)[i] == v;
      }
      var m := "'" + ks[0] + "': " + Repr(v);
      if |ks| == 1 then m else m + ", " + JoinMembers(parent, fs, ks[1..])
  }

  lemma {:induction false} JoinMembersView(p: Json, fs: seq<(string, Json)>, q: Json, gs: seq<(string, Json)>, ks: seq<string>)
    requires forall i :: 0 <= i < |fs| ==> fs[i].1 < p
    requires forall i :: 0 <= i < |gs| ==> gs[i].1 < q
    requires forall k :: k in ks ==> Find(fs, k).Some? && Find(fs, k) == Find(gs, k)
    ensures JoinMembers(p, fs, ks) == JoinMembers(q, gs, ks)
    decreases |ks|
  {
    if |ks| > 1 {
      JoinMembersView(p, fs, q, gs, ks[1..]);
    }
  }

  /** `repr()` of a dict depends only on the dict `json.loads` builds: its
      keys in order and the value kept for each. Repeated members print
      once, with the last value. */
  lemma ReprDictView(fs: seq<(string, Json)>, gs: seq<(string, Json)>)
    requires Keys(fs) == Keys(gs)
    requires forall k :: Find(fs, k) == Find(gs, k)
    ensures Repr(JObj(fs)) == Repr(JObj(gs))
  {
    JoinMembersView(JObj(fs), fs, JObj(gs), gs, Keys(fs));
  }

  /** The object `{"a": 1, "a": 2}` prints as `{'a': 2}`. */
  lemma RepeatedKeyPrintsLast()
    ensures PyStr(JObj([("a", JNum(1)), ("a", JNum(2))])) == PyStr(JObj([("a", JNum(2))])) == "{'a': 2}"
  {
    var fs, gs := [("a", JNum(1)), ("a", JNum(2))], [("a", JNum(2))];
    assert fs[..1] == [("a", JNum(1))];
    assert Keys(fs) == Keys(gs) == ["a"];
    ReprDictView(fs, gs);
    assert Digits(2) == "2";
  }

  /** Python's `str()`: a string is itself, anything else its `repr()`. */
  function PyStr(j: Json): string {
    if j.JStr? then j.s else Repr(j)
  }
}
