/** The list-refresh pipeline of the viewer: of the annotations fetched from the store,
    drop the structural ones and those outside the window, and convert the survivors to
    window-relative offsets. */
module AnnotationLists {
  import opened Annotations

  /** Entity types imported from layout analysis; never shown as user annotations. */
  const StructuralTypes: set<string> := {"line", "textregion", "column", "scanpage"}

  predicate IsStructural(a: Annotation) {
    a.entityType in StructuralTypes
  }

  /** Both filters of the pipeline: not structural, and inside `[beginRange, endRange]`. */
  predicate Keep(a: Annotation, beginRange: int, endRange: int) {
    !IsStructural(a) && a.beginAnchor >= beginRange && a.endAnchor <= endRange
  }

  /** The fetched annotations that pass both filters, in fetched order. */
  function Kept(found: seq<Annotation>, beginRange: int, endRange: int): (r: seq<Annotation>)
    ensures |r| <= |found|
    ensures forall a :: a in r ==> a in found && Keep(a, beginRange, endRange)
  {
    if found == [] then []
    else (if Keep(found[0], beginRange, endRange) then [found[0]] else [])
         + Kept(found[1..], beginRange, endRange)
  }

  /** Every fetched annotation that passes both filters survives. */
  lemma {:induction false} KeptComplete(found: seq<Annotation>, beginRange: int, endRange: int, a: Annotation)
    requires a in found && Keep(a, beginRange, endRange)
    ensures a in Kept(found, beginRange, endRange)
  {
    if found[0] != a {
      KeptComplete(found[1..], beginRange, endRange, a);
    }
  }

  /** Filtering commutes with concatenation, so survivors keep their fetched order. */
  lemma {:induction false} KeptAppend(s: seq<Annotation>, t: seq<Annotation>, beginRange: int, endRange: int)
    ensures Kept(s + t, beginRange, endRange) == Kept(s, beginRange, endRange) + Kept(t, beginRange, endRange)
  {
    if s == [] {
      assert s + t == t;
    } else {
      assert (s + t)[0] == s[0] && (s + t)[1..] == s[1..] + t;
      KeptAppend(s[1..], t, beginRange, endRange);
    }
  }

  /** The `map(setRelativeOffsets)` step: every annotation shifted by `offset`. */
  function RelativeAll(s: seq<Annotation>, offset: int): (r: seq<Annotation>)
    ensures |r| == |s|
    ensures forall i :: 0 <= i < |s| ==> r[i] == Relative(s[i], offset)
  {
    if s == [] then [] else [Relative(s[0], offset)] + RelativeAll(s[1..], offset)
  }

  /** The list the refresh installs for fetched annotations `found` and the window
      `[beginRange, endRange]`. */
  function Visible(found: seq<Annotation>, beginRange: int, endRange: int): (r: seq<Annotation>)
    ensures |r| <= |found|
  {
    RelativeAll(Kept(found, beginRange, endRange), beginRange)
  }

  /** Every listed annotation lies inside the window in relative offsets:
      `0 <= begin` and `end <= endRange - beginRange`. */
  lemma VisibleWithinWindow(found: seq<Annotation>, beginRange: int, endRange: int)
    ensures forall x :: x in Visible(found, beginRange, endRange) ==>
              0 <= x.beginAnchor && x.endAnchor <= endRange - beginRange
  {
    var k := Kept(found, beginRange, endRange);
    var v := Visible(found, beginRange, endRange);
    forall x | x in v
      ensures 0 <= x.beginAnchor && x.endAnchor <= endRange - beginRange
    {
      var i :| 0 <= i < |v| && v[i] == x;
      assert k[i] in k;
    }
  }

  /** A fetched annotation is listed (in relative offsets) exactly when it is not
      structural and lies inside the window; nothing else is listed. */
  lemma VisibleExactly(found: seq<Annotation>, beginRange: int, endRange: int, a: Annotation)
    ensures Relative(a, beginRange) in Visible(found, beginRange, endRange)
            <==> a in found && Keep(a, beginRange, endRange)
  {
    var k := Kept(found, beginRange, endRange);
    var v := Visible(found, beginRange, endRange);
    if Relative(a, beginRange) in v {
      var i :| 0 <= i < |v| && v[i] == Relative(a, beginRange);
      RelativeInjective(k[i], a, beginRange);
      assert k[i] in k;
    }
    if a in found && Keep(a, beginRange, endRange) {
      KeptComplete(found, beginRange, endRange, a);
      var i :| 0 <= i < |k| && k[i] == a;
      assert v[i] == Relative(a, beginRange);
    }
  }

  /** Everything listed is the relative form of some fetched annotation. */
  lemma VisibleFromFound(found: seq<Annotation>, beginRange: int, endRange: int, x: Annotation)
    requires x in Visible(found, beginRange, endRange)
    ensures Absolute(x, beginRange) in found && Keep(Absolute(x, beginRange), beginRange, endRange)
  {
    RoundTrip(x, beginRange);
    VisibleExactly(found, beginRange, endRange, Absolute(x, beginRange));
  }

  /** The pipeline commutes with concatenation of the fetched list (order is kept). */
  lemma VisibleAppend(s: seq<Annotation>, t: seq<Annotation>, beginRange: int, endRange: int)
    ensures Visible(s + t, beginRange, endRange) == Visible(s, beginRange, endRange) + Visible(t, beginRange, endRange)
  {
    KeptAppend(s, t, beginRange, endRange);
  }

  /** The worked example of the window `[10, 50]`: of three non-structural annotations at
      `{5,9}`, `{12,40}` and `{45,55}` only the middle one is listed, at `{2,30}`;
      a `line` annotation inside the window is dropped. */
  lemma WindowExample(x: Annotation, y: Annotation, z: Annotation, w: Annotation)
    requires x.beginAnchor == 5 && x.endAnchor == 9 && !IsStructural(x)
    requires y.beginAnchor == 12 && y.endAnchor == 40 && !IsStructural(y)
    requires z.beginAnchor == 45 && z.endAnchor == 55 && !IsStructural(z)
    requires w.beginAnchor == 20 && w.endAnchor == 30 && w.entityType == "line"
    ensures Visible([x, y, z, w], 10, 50) == [y.(beginAnchor := 2, endAnchor := 30)]
  {
    assert [x, y, z, w][1..] == [y, z, w];
    assert [y, z, w][1..] == [z, w];
    assert [z, w][1..] == [w];
    assert Kept([w], 10, 50) == [] by {
      assert "line" in StructuralTypes;
    }
    assert Kept([z, w], 10, 50) == [];
    assert Kept([y, z, w], 10, 50) == [y];
    assert Kept([x, y, z, w], 10, 50) == [y];
    assert RelativeAll([y], 10) == [Relative(y, 10)];
  }
}
