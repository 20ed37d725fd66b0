/** The viewer's annotation entity and the two offset conversions between the coordinate
    space of the loaded text window and that of the whole text resource. Which space an
    annotation is in is not recorded anywhere; callers keep track of it. */
module Annotations {

  /** An annotation as the viewer holds it (the result of converting a remote record). */
  datatype Annotation = Annotation(
    id: string,
    creator: string,
    entityType: string,
    beginAnchor: int,
    endAnchor: int,
    body: string)

  /** `setRelativeOffsets` on a value: both anchors move down by `offset`. */
  function Relative(a: Annotation, offset: int): (r: Annotation)
    ensures r.endAnchor - r.beginAnchor == a.endAnchor - a.beginAnchor
    ensures r.(beginAnchor := a.beginAnchor, endAnchor := a.endAnchor) == a
  {
    a.(beginAnchor := a.beginAnchor - offset, endAnchor := a.endAnchor - offset)
  }

  /** `setAbsoluteOffsets` on a value: both anchors move up by `offset`. */
  function Absolute(a: Annotation, offset: int): (r: Annotation)
    ensures r.endAnchor - r.beginAnchor == a.endAnchor - a.beginAnchor
    ensures r.(beginAnchor := a.beginAnchor, endAnchor := a.endAnchor) == a
  {
    a.(beginAnchor := a.beginAnchor + offset, endAnchor := a.endAnchor + offset)
  }

  /** The two conversions undo each other, in both orders and for every offset. */
  lemma RoundTrip(a: Annotation, offset: int)
    ensures Relative(Absolute(a, offset), offset) == a
    ensures Absolute(Relative(a, offset), offset) == a
  {
  }

  /** Converting to window-relative offsets loses nothing: distinct annotations stay distinct. */
  lemma RelativeInjective(a: Annotation, b: Annotation, offset: int)
    ensures Relative(a, offset) == Relative(b, offset) <==> a == b
  {
    RoundTrip(a, offset);
    RoundTrip(b, offset);
  }

  /** The mutable annotation object that the text-selection widget hands to the viewer. */
  class AnnotationRef {
    var id: string
    var creator: string
    var entityType: string
    var beginAnchor: int
    var endAnchor: int
    var body: string

    /** The object's current contents as a value. */
    function Value(): Annotation
      reads this
    {
      Annotation(id, creator, entityType, beginAnchor, endAnchor, body)
    }

    constructor (a: Annotation)
      ensures Value() == a
    {
      id, creator, entityType := a.id, a.creator, a.entityType;
      beginAnchor, endAnchor, body := a.beginAnchor, a.endAnchor, a.body;
    }
  }

  /** Moves the anchors of `a` to window-relative space in place and returns the same object. */
  method SetRelativeOffsets(a: AnnotationRef, offset: int) returns (r: AnnotationRef)
    modifies a
    ensures r == a
    ensures a.Value() == Relative(old(a.Value()), offset)
  {
    a.beginAnchor := a.beginAnchor - offset;
    a.endAnchor := a.endAnchor - offset;
    r := a;
  }

  /** Moves the anchors of `a` to absolute space in place and returns the same object. */
  method SetAbsoluteOffsets(a: AnnotationRef, offset: int) returns (r: AnnotationRef)
    modifies a
    ensures r == a
    ensures a.Value() == Absolute(old(a.Value()), offset)
  {
    a.beginAnchor := a.beginAnchor + offset;
    a.endAnchor := a.endAnchor + offset;
    r := a;
  }

  /** Shifting an object to absolute space and back with the same offset restores it. */
  method AbsoluteThenRelative(a: AnnotationRef, offset: int)
    modifies a
    ensures a.Value() == old(a.Value())
  {
    var b := SetAbsoluteOffsets(a, offset);
    b := SetRelativeOffsets(b, offset);
    RoundTrip(old(a.Value()), offset);
  }
}
