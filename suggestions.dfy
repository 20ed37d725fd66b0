/** The search box's suggestion list: from the records whose body id starts with the
    typed prefix, take each record's body id, keep the first occurrence of each, drop
    missing and empty ids, keep the first ten and sort them. */
module Suggestions {
  import opened Wrappers
  import opened Elucidate

  /** At most this many suggestions are shown. */
  const MaxSuggestions: nat := 10

  /** A JavaScript-truthy id: present and not the empty string. */
  predicate IsTruthyId(id: Option<string>) {
    id.Some? && id.value != ""
  }

  /** `bodies.find(b => b.id)?.id`: the id of the first body whose id is truthy. */
  function FirstTruthyId(bodies: seq<Body>): (r: Option<string>)
    ensures r.Some? ==> exists i :: 0 <= i < |bodies| && bodies[i].id == r
                          && forall j :: 0 <= j < i ==> !IsTruthyId(bodies[j].id)
    ensures r.Some? ==> r.value != ""
    ensures r.None? ==> forall j :: 0 <= j < |bodies| ==> !IsTruthyId(bodies[j].id)
  {
    if bodies == [] then None
    else if IsTruthyId(bodies[0].id) then bodies[0].id
    else
      var r := FirstTruthyId(bodies[1..]);
      assert r.Some? ==> exists i :: 1 <= i < |bodies| && bodies[i].id == r
                           && forall j :: 0 <= j < i ==> !IsTruthyId(bodies[j].id) by {
        if r.Some? {
          var i :| 0 <= i < |bodies[1..]| && bodies[1..][i].id == r
                   && forall j :: 0 <= j < i ==> !IsTruthyId(bodies[1..][j].id);
          assert bodies[i + 1].id == r;
          assert forall j :: 0 <= j < i + 1 ==> !IsTruthyId(bodies[j].id) by {
            forall j | 0 <= j < i + 1 ensures !IsTruthyId(bodies[j].id) {
              if j > 0 { assert bodies[j] == bodies[1..][j - 1]; }
            }
          }
        }
      }
      r
  }

  /** The id a record contributes: for an array body the first truthy body id, for a
      single body that body's id (possibly missing or empty). */
  function BodyId(rec: ExternalAnnotation): Option<string> {
    match rec.body
    case SingleBody(b) => b.id
    case BodyList(bs) => FirstTruthyId(bs)
  }

  function BodyIds(found: seq<ExternalAnnotation>): (ids: seq<Option<string>>)
    ensures |ids| == |found|
    ensures forall i :: 0 <= i < |found| ==> ids[i] == BodyId(found[i])
  {
    seq(|found|, i requires 0 <= i < |found| => BodyId(found[i]))
  }

  predicate Distinct<T(==)>(s: seq<T>) {
    forall i, j :: 0 <= i < j < |s| ==> s[i] != s[j]
  }

  /** The position of the first occurrence of `x` in `xs`. */
  function FirstIndex<T(==)>(xs: seq<T>, x: T): (k: nat)
    requires x in xs
    ensures k < |xs| && xs[k] == x && forall j :: 0 <= j < k ==> xs[j] != x
  {
    if xs[0] == x then 0 else 1 + FirstIndex(xs[1..], x)
  }

  /** `Array.from(new Set(xs))`: the distinct values of `xs` in first-occurrence order. */
  function Dedupe<T(==,!new)>(xs: seq<T>): (r: seq<T>)
    ensures forall x :: x in r <==> x in xs
    ensures Distinct(r)
    ensures |r| <= |xs|
  {
    if xs == [] then []
    else
      var r := Dedupe(xs[..|xs| - 1]);
      assert xs == xs[..|xs| - 1] + [xs[|xs| - 1]];
      if xs[|xs| - 1] in r then r else r + [xs[|xs| - 1]]
  }

  /** A value occurring in a prefix first occurs at the same position in the whole. */
  lemma FirstIndexPrefix<T>(p: seq<T>, x: T, y: T)
    requires y in p
    ensures FirstIndex(p + [x], y) == FirstIndex(p, y)
  {
    var k := FirstIndex(p, y);
    var k' := FirstIndex(p + [x], y);
    assert (p + [x])[k] == y;
    assert k' <= k;
    assert p[k'] == y;
  }

  /** Deduplication keeps first-occurrence order: an earlier entry of the result first
      occurs earlier in the input. */
  lemma {:induction false} DedupeOrder<T(!new)>(xs: seq<T>, i: nat, j: nat)
    requires i < j < |Dedupe(xs)|
    ensures FirstIndex(xs, Dedupe(xs)[i]) < FirstIndex(xs, Dedupe(xs)[j])
  {
    var n := |xs|;
    var p := xs[..n - 1];
    var last := xs[n - 1];
    var r := Dedupe(p);
    assert xs == p + [last];
    var d := Dedupe(xs);
    if last in r {
      assert d == r;
      DedupeOrder(p, i, j);
      FirstIndexPrefix(p, last, d[i]);
      FirstIndexPrefix(p, last, d[j]);
    } else if j < |r| {
      assert d == r + [last];
      assert d[i] == r[i] && d[j] == r[j];
      DedupeOrder(p, i, j);
      FirstIndexPrefix(p, last, d[i]);
      FirstIndexPrefix(p, last, d[j]);
    } else {
      assert d == r + [last] && d[j] == last && d[i] == r[i];
      assert r[i] in r;
      FirstIndexPrefix(p, last, d[i]);
      assert last !in p;
      assert FirstIndex(xs, last) == n - 1;
    }
  }

  /** `.filter(i => i)`: the truthy ids, in order. */
  function TruthyIds(xs: seq<Option<string>>): (r: seq<string>)
    ensures |r| <= |xs|
  {
    if xs == [] then []
    else (if IsTruthyId(xs[0]) then [xs[0].value] else []) + TruthyIds(xs[1..])
  }

  /** Where the `i`-th surviving id sits in the filter's input. */
  function TruthyIndex(xs: seq<Option<string>>, i: nat): (k: nat)
    requires i < |TruthyIds(xs)|
    ensures k < |xs| && xs[k] == Some(TruthyIds(xs)[i])
  {
    var rest := TruthyIds(xs[1..]);
    if IsTruthyId(xs[0]) then
      assert TruthyIds(xs) == [xs[0].value] + rest;
      if i == 0 then 0 else 1 + TruthyIndex(xs[1..], i - 1)
    else
      assert TruthyIds(xs) == rest;
      1 + TruthyIndex(xs[1..], i)
  }

  /** The filter keeps the order of its input. */
  lemma {:induction false} TruthyIndexIncreasing(xs: seq<Option<string>>, i: nat, j: nat)
    requires i < j < |TruthyIds(xs)|
    ensures TruthyIndex(xs, i) < TruthyIndex(xs, j)
  {
    var rest := TruthyIds(xs[1..]);
    if IsTruthyId(xs[0]) {
      assert TruthyIds(xs) == [xs[0].value] + rest;
      if i > 0 {
        TruthyIndexIncreasing(xs[1..], i - 1, j - 1);
        assert TruthyIndex(xs, i) == 1 + TruthyIndex(xs[1..], i - 1);
        assert TruthyIndex(xs, j) == 1 + TruthyIndex(xs[1..], j - 1);
      }
    } else {
      assert TruthyIds(xs) == rest;
      TruthyIndexIncreasing(xs[1..], i, j);
      assert TruthyIndex(xs, i) == 1 + TruthyIndex(xs[1..], i);
      assert TruthyIndex(xs, j) == 1 + TruthyIndex(xs[1..], j);
    }
  }

  /** Every id the filter keeps is non-empty and present in its input. */
  lemma {:induction false} TruthyIdsSound(xs: seq<Option<string>>, s: string)
    requires s in TruthyIds(xs)
    ensures s != "" && Some(s) in xs
  {
    if !(IsTruthyId(xs[0]) && xs[0].value == s) {
      TruthyIdsSound(xs[1..], s);
    }
  }

  /** Every truthy id of the input survives the filter. */
  lemma {:induction false} TruthyIdsComplete(xs: seq<Option<string>>, s: string)
    requires Some(s) in xs && s != ""
    ensures s in TruthyIds(xs)
  {
    if xs[0] != Some(s) {
      TruthyIdsComplete(xs[1..], s);
    }
  }

  /** Filtering distinct ids leaves them distinct. */
  lemma {:induction false} TruthyIdsDistinct(xs: seq<Option<string>>)
    requires Distinct(xs)
    ensures Distinct(TruthyIds(xs))
  {
    if xs != [] {
      assert Distinct(xs[1..]) by {
        forall i, j | 0 <= i < j < |xs[1..]| ensures xs[1..][i] != xs[1..][j] {
          assert xs[1..][i] == xs[i + 1] && xs[1..][j] == xs[j + 1];
        }
      }
      TruthyIdsDistinct(xs[1..]);
      var rest := TruthyIds(xs[1..]);
      if IsTruthyId(xs[0]) {
        assert xs[0] !in xs[1..];
        if xs[0].value in rest {
          TruthyIdsSound(xs[1..], xs[0].value);
        }
        var r := [xs[0].value] + rest;
        forall i, j | 0 <= i < j < |r| ensures r[i] != r[j] {
          if i == 0 { assert r[j] == rest[j - 1] && rest[j - 1] in rest; }
          else { assert r[i] == rest[i - 1] && r[j] == rest[j - 1]; }
        }
      }
    }
  }

  /** `.slice(0, n)`: the first `n` entries, or all of them when there are fewer. */
  function Take<T>(s: seq<T>, n: nat): (r: seq<T>)
    ensures |r| == if |s| <= n then |s| else n
    ensures r == s[..|r|]
  {
    if |s| <= n then s else s[..n]
  }

  /** Strings ordered by comparing characters from the left, a prefix first: the order
      of JavaScript's default `sort` on strings. */
  predicate LessEq(a: string, b: string)
    decreases |a|
  {
    |a| == 0 || (|b| != 0 && (a[0] < b[0] || (a[0] == b[0] && LessEq(a[1..], b[1..]))))
  }

  lemma {:induction false} LessEqTotal(a: string, b: string)
    ensures LessEq(a, b) || LessEq(b, a)
    decreases |a|
  {
    if |a| != 0 && |b| != 0 && a[0] == b[0] {
      LessEqTotal(a[1..], b[1..]);
    }
  }

  lemma {:induction false} LessEqTransitive(a: string, b: string, c: string)
    requires LessEq(a, b) && LessEq(b, c)
    ensures LessEq(a, c)
    decreases |a|
  {
    if |a| != 0 && a[0] == b[0] && b[0] == c[0] {
      LessEqTransitive(a[1..], b[1..], c[1..]);
    }
  }

  lemma {:induction false} LessEqAntisymmetric(a: string, b: string)
    requires LessEq(a, b) && LessEq(b, a)
    ensures a == b
    decreases |a|
  {
    if |a| != 0 {
      LessEqAntisymmetric(a[1..], b[1..]);
      assert a == [a[0]] + a[1..] && b == [b[0]] + b[1..];
    }
  }

  predicate Sorted(s: seq<string>) {
    forall i, j :: 0 <= i < j < |s| ==> LessEq(s[i], s[j])
  }

  /** Putting a value below every entry in front of a sorted list keeps it sorted. */
  lemma ConsSorted(y: string, rest: seq<string>)
    requires Sorted(rest)
    requires forall z :: z in rest ==> LessEq(y, z)
    ensures Sorted([y] + rest)
  {
    var r := [y] + rest;
    forall i, j | 0 <= i < j < |r| ensures LessEq(r[i], r[j]) {
      if i == 0 {
        assert r[j] == rest[j - 1] && rest[j - 1] in rest;
      } else {
        assert r[i] == rest[i - 1] && r[j] == rest[j - 1];
      }
    }
  }

  /** A value not above the head of a sorted list is below all of it. */
  lemma BelowHead(x: string, s: seq<string>)
    requires Sorted(s) && s != [] && LessEq(x, s[0])
    ensures forall z :: z in s ==> LessEq(x, z)
  {
    forall z | z in s ensures LessEq(x, z) {
      var j :| 0 <= j < |s| && s[j] == z;
      if j > 0 {
        LessEqTransitive(x, s[0], s[j]);
      }
    }
  }

  /** The recursive case of insertion: the head stays in front of the rest. */
  lemma InsertStep(x: string, s: seq<string>, rest: seq<string>)
    requires s != [] && Sorted(s) && !LessEq(x, s[0])
    requires Sorted(rest) && multiset(rest) == multiset(s[1..]) + multiset{x}
    ensures Sorted([s[0]] + rest)
    ensures multiset([s[0]] + rest) == multiset(s) + multiset{x}
  {
    LessEqTotal(x, s[0]);
    assert s == [s[0]] + s[1..];
    forall y | y in rest ensures LessEq(s[0], y) {
      assert y in multiset(rest);
      if y != x {
        assert y in multiset(s[1..]);
        var j :| 0 <= j < |s[1..]| && s[1..][j] == y;
        assert s[j + 1] == y;
      }
    }
    ConsSorted(s[0], rest);
  }

  /** Inserts `x` into a sorted list, before the first entry it is not above. */
  function Insert(x: string, s: seq<string>): (r: seq<string>)
    requires Sorted(s)
    ensures Sorted(r)
    ensures |r| == |s| + 1
    ensures multiset(r) == multiset(s) + multiset{x}
  {
    if s == [] then [x]
    else if LessEq(x, s[0]) then
      BelowHead(x, s);
      ConsSorted(x, s);
      [x] + s
    else
      var rest := Insert(x, s[1..]);
      InsertStep(x, s, rest);
      [s[0]] + rest
  }

  /** `.sort()`: an ascending permutation of its input. */
  function Sort(s: seq<string>): (r: seq<string>)
    ensures Sorted(r)
    ensures |r| == |s|
    ensures multiset(r) == multiset(s)
  {
    if s == [] then []
    else
      assert s == [s[0]] + s[1..];
      Insert(s[0], Sort(s[1..]))
  }

  /** The first distinct truthy body ids in first-occurrence order, before truncation. */
  function DistinctIds(found: seq<ExternalAnnotation>): seq<string> {
    TruthyIds(Dedupe(BodyIds(found)))
  }

  /** The suggestion list the search box shows for the records `found`. */
  function SuggestionsFor(found: seq<ExternalAnnotation>): (r: seq<string>)
    ensures Sorted(r) && |r| <= MaxSuggestions
    ensures multiset(r) == multiset(Take(DistinctIds(found), MaxSuggestions))
  {
    Sort(Take(DistinctIds(found), MaxSuggestions))
  }

  /** The distinct ids are distinct, truthy, body ids of the records, each truthy body id
      occurs, and they come in first-occurrence order of the records' body ids. */
  lemma DistinctIdsProperties(found: seq<ExternalAnnotation>)
    ensures Distinct(DistinctIds(found))
    ensures forall s :: s in DistinctIds(found) <==> s != "" && Some(s) in BodyIds(found)
  {
    var d := Dedupe(BodyIds(found));
    TruthyIdsDistinct(d);
    forall s ensures s in DistinctIds(found) <==> s != "" && Some(s) in BodyIds(found) {
      if s in DistinctIds(found) {
        TruthyIdsSound(d, s);
      }
      if s != "" && Some(s) in BodyIds(found) {
        TruthyIdsComplete(d, s);
      }
    }
  }

  /** The distinct ids come in the order in which they first occur among the records'
      body ids. */
  lemma DistinctIdsOrder(found: seq<ExternalAnnotation>, i: nat, j: nat)
    requires i < j < |DistinctIds(found)|
    ensures Some(DistinctIds(found)[i]) in BodyIds(found) && Some(DistinctIds(found)[j]) in BodyIds(found)
    ensures FirstIndex(BodyIds(found), Some(DistinctIds(found)[i]))
            < FirstIndex(BodyIds(found), Some(DistinctIds(found)[j]))
  {
    var d := Dedupe(BodyIds(found));
    TruthyIdsSound(d, DistinctIds(found)[i]);
    TruthyIdsSound(d, DistinctIds(found)[j]);
    var a := TruthyIndex(d, i);
    var b := TruthyIndex(d, j);
    TruthyIndexIncreasing(d, i, j);
    DedupeOrder(BodyIds(found), a, b);
  }

  /** Suggestions have no duplicates and no empty values, number at most ten, are in
      ascending order, and are exactly the first ten distinct ids (truncation happens
      before sorting). */
  lemma SuggestionsProperties(found: seq<ExternalAnnotation>)
    ensures Distinct(SuggestionsFor(found))
    ensures forall s :: s in SuggestionsFor(found) ==> s != "" && Some(s) in BodyIds(found)
    ensures |SuggestionsFor(found)| <= MaxSuggestions
    ensures Sorted(SuggestionsFor(found))
    ensures multiset(SuggestionsFor(found)) == multiset(Take(DistinctIds(found), MaxSuggestions))
  {
    var d := DistinctIds(found);
    var t := Take(d, MaxSuggestions);
    var r := SuggestionsFor(found);
    DistinctIdsProperties(found);
    assert forall s :: s in t ==> s in d by {
      forall s | s in t ensures s in d {
        var i :| 0 <= i < |t| && t[i] == s;
        assert t[i] == d[i];
      }
    }
    assert |r| == |t| by {
      assert |multiset(r)| == |multiset(t)|;
    }
    forall s | s in r ensures s in t {
      assert s in multiset(r);
    }
    assert Distinct(t) by {
      forall i, j | 0 <= i < j < |t| ensures t[i] != t[j] {
        assert t[i] == d[i] && t[j] == d[j];
      }
    }
    DistinctPermutation(t, r);
  }

  /** A permutation of a list without duplicates has none either. */
  lemma DistinctPermutation(t: seq<string>, r: seq<string>)
    requires Distinct(t) && multiset(r) == multiset(t)
    ensures Distinct(r)
  {
    forall i, j | 0 <= i < j < |r| ensures r[i] != r[j] {
      if r[i] == r[j] {
        var x := r[i];
        assert multiset(r)[x] >= 2 by {
          assert r == r[..i] + [x] + r[i + 1..j] + [x] + r[j + 1..];
        }
        DistinctCount(t, x);
      }
    }
  }

  /** In a list without duplicates every value occurs at most once. */
  lemma {:induction false} DistinctCount(t: seq<string>, x: string)
    requires Distinct(t)
    ensures multiset(t)[x] <= 1
  {
    if t != [] {
      assert t == [t[0]] + t[1..];
      assert Distinct(t[1..]) by {
        forall i, j | 0 <= i < j < |t[1..]| ensures t[1..][i] != t[1..][j] {
          assert t[1..][i] == t[i + 1] && t[1..][j] == t[j + 1];
        }
      }
      DistinctCount(t[1..], x);
      if t[0] == x {
        assert x !in t[1..];
      }
    }
  }
}
