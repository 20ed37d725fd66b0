/** The viewer's top-level state and its three state-changing steps: refreshing the
    annotation list, resolving a searched annotation into a text window, and adding a
    new annotation. Remote responses are parameters; each step returns the request it
    sends, so that what it asks the remote stores for is part of its contract. */
module App {
  import opened Wrappers
  import opened Annotations
  import opened Elucidate
  import opened TargetResolution
  import opened AnnotationLists

  /** A selection in the displayed text, window-relative. */
  datatype AnnRange = AnnRange(start: int, end: int)

  /** Which annotations are listed: the current creator's, or all within the window. */
  datatype AnnotationListType = User | Range

  /** The annotation-store query the refresh sends. */
  datatype Fetch = ByCreator(creator: string) | ByRange(targetId: string, begin: int, end: int)

  /** The text-store query a successful search sends. */
  datatype TextRequest = TextRequest(versionId: string, start: int, end: int)

  /** The annotation-store create call: collection (version id) and the submitted annotation. */
  datatype CreateRequest = CreateRequest(versionId: string, annotation: Annotation)

  /** How a search ends. `Unhandled` is the case the viewer does not check: no text target,
      or a text target without a selector, makes reading `selector.start` throw. */
  datatype SearchOutcome =
    | NotFound
    | TargetsUnresolved
    | NoVersionId
    | Unhandled
    | Loaded(request: TextRequest)

  const NotFoundMessage: string := "No elucidate annotation found"
  const VersionNotSetMessage: string := "Cannot save annotation when version id is not set"

  function TargetsMessage(bodyId: string): string {
    "Could not find img and txt targets in annotation with body id: " + bodyId
  }

  function NoVersionIdMessage(annotationId: string): string {
    "No version ID found in " + annotationId
  }

  class AppState {
    var error: Option<string>
    var regionLinks: seq<string>
    var annotatableText: seq<string>
    var selectionRange: Option<AnnRange>
    var annotations: seq<Annotation>
    var annotationType: AnnotationListType
    var annotationId: Option<string>
    var targetId: string
    var beginRange: int
    var endRange: int
    var versionId: Option<string>
    var currentCreator: string

    /** The initial state; `creator` is the configured default creator. */
    constructor (creator: string)
      ensures error.None? && regionLinks == [] && annotatableText == []
      ensures selectionRange.None? && annotations == [] && annotationType == User
      ensures annotationId.None? && targetId == "" && beginRange == 0 && endRange == 0
      ensures versionId.None? && currentCreator == creator
    {
      error, regionLinks, annotatableText := None, [], [];
      selectionRange, annotations, annotationType := None, [], User;
      annotationId, targetId, beginRange, endRange := None, "", 0, 0;
      versionId, currentCreator := None, creator;
    }

    /** The query the list refresh sends in the current state, if any: none unless the
        target id, the creator, both range ends and the text are all truthy (so a window
        starting at offset 0 is never refreshed); by creator in `User` mode, otherwise by
        range. */
    function RefreshRequest(): (f: Option<Fetch>)
      reads this
      ensures f.Some? <==> targetId != "" && currentCreator != "" && beginRange != 0
                           && endRange != 0 && |annotatableText| != 0
      ensures f.Some? ==> (f.value.ByCreator? <==> annotationType == User)
      ensures f.Some? && f.value.ByCreator? ==> f.value.creator == currentCreator
      ensures f.Some? && f.value.ByRange? ==> f.value == ByRange(targetId, beginRange, endRange)
    {
      if !(targetId != "" && currentCreator != "" && beginRange != 0 && endRange != 0
           && |annotatableText| != 0) then None
      else if annotationType == User then Some(ByCreator(currentCreator))
      else Some(ByRange(targetId, beginRange, endRange))
    }

    /** `setAnnotationType`, the list widget's mode switch. */
    method SetAnnotationType(t: AnnotationListType)
      modifies this`annotationType
      ensures annotationType == t
    {
      annotationType := t;
    }

    /** `setCurrentCreator`, the creator field's callback. */
    method SetCurrentCreator(creator: string)
      modifies this`currentCreator
      ensures currentCreator == creator
    {
      currentCreator := creator;
    }

    /** The list-refresh effect. `found` is the converted response to the query it sends.
        When it sends one, the whole list is replaced by the visible part of the response. */
    method RefreshAnnotations(found: seq<Annotation>) returns (request: Option<Fetch>)
      modifies this`annotations
      ensures request == RefreshRequest()
      ensures request.None? ==> annotations == old(annotations)
      ensures request.Some? ==> annotations == Visible(found, beginRange, endRange)
      ensures request.Some? ==> forall x :: x in annotations ==>
                0 <= x.beginAnchor && x.endAnchor <= endRange - beginRange
    {
      request := RefreshRequest();
      if request.None? {
        return;
      }
      annotations := Visible(found, beginRange, endRange);
      VisibleWithinWindow(found, beginRange, endRange);
    }

    /** `setAnnotationId`, the search box's callback, with the effect it drives: a search
        runs when the id changes to a non-empty value. */
    method SetAnnotationId(id: string) returns (search: bool)
      modifies this`annotationId
      ensures annotationId == Some(id)
      ensures search <==> id != "" && old(annotationId) != Some(id)
    {
      search := id != "" && annotationId != Some(id);
      annotationId := Some(id);
    }

    /** `searchAnnotation`: `found` is the store's answer for `bodyId`, `grid` the text
        store's answer to the returned request. The fields change step by step as in the
        viewer: the image links are replaced before the version id is checked. */
    method SearchAnnotation(bodyId: string, found: Option<ExternalAnnotation>, grid: seq<string>)
      returns (outcome: SearchOutcome)
      modifies this`error, this`regionLinks, this`targetId, this`beginRange, this`endRange,
               this`annotatableText, this`versionId
      // no record, or a record whose target is a bare URI: error set, nothing else changes
      ensures found.None? <==> outcome == NotFound
      ensures found.None? ==> error == Some(NotFoundMessage)
      ensures found.Some? && found.value.target.TargetUri? <==> outcome == TargetsUnresolved
      ensures outcome == TargetsUnresolved ==> error == Some(TargetsMessage(bodyId))
      ensures outcome in {NotFound, TargetsUnresolved} ==> regionLinks == old(regionLinks)
      // otherwise the image links are replaced, whatever happens next
      ensures found.Some? && found.value.target.Targets? ==>
                regionLinks == ImageLinks(found.value.target.targets)
      ensures outcome == NoVersionId <==>
                found.Some? && found.value.target.Targets? && VersionIdOf(found.value.id).None?
      ensures outcome == NoVersionId ==> error == Some(NoVersionIdMessage(found.value.id))
      ensures outcome == Unhandled <==>
                found.Some? && found.value.target.Targets? && VersionIdOf(found.value.id).Some?
                && var k := FindTextTarget(found.value.target.targets);
                   (k.None? || found.value.target.targets[k.value].selector.None?)
      ensures outcome == Unhandled ==> error == old(error)
      // every failure leaves the window as it was
      ensures !outcome.Loaded? ==>
                targetId == old(targetId) && beginRange == old(beginRange) && endRange == old(endRange)
                && annotatableText == old(annotatableText) && versionId == old(versionId)
      // success: the window is the first text target's selector range
      ensures outcome.Loaded? ==>
                found.Some? && found.value.target.Targets? && error == old(error)
                && var ts := found.value.target.targets;
                   var k := FindTextTarget(ts);
                   k.Some? && ts[k.value].selector.Some?
                   && var sel := ts[k.value].selector.value;
                      outcome.request == TextRequest(VersionIdOf(found.value.id).value, sel.start, sel.end)
                      && targetId == ts[k.value].source && beginRange == sel.start && endRange == sel.end
                      && annotatableText == grid && versionId == VersionIdOf(found.value.id)
    {
      if found.None? {
        error := Some(NotFoundMessage);
        return NotFound;
      }
      var foundAnn := found.value;
      if foundAnn.target.TargetUri? {
        error := Some(TargetsMessage(bodyId));
        return TargetsUnresolved;
      }
      var target := foundAnn.target.targets;
      regionLinks := ImageLinks(target);

      var foundVersionId := VersionIdOf(foundAnn.id);
      if foundVersionId.None? {
        error := Some(NoVersionIdMessage(foundAnn.id));
        return NoVersionId;
      }

      var k := FindTextTarget(target);
      if k.None? || target[k.value].selector.None? {
        return Unhandled;
      }
      var selectorTarget := target[k.value];
      var selector := selectorTarget.selector.value;
      outcome := Loaded(TextRequest(foundVersionId.value, selector.start, selector.end));
      targetId := selectorTarget.source;
      beginRange := selector.start;
      endRange := selector.end;
      annotatableText := grid;
      versionId := foundVersionId;
    }

    /** `addAnnotation`: `draft` is the widget's annotation in relative offsets, `created`
        the store's reply to the returned request. The draft object itself is shifted to
        absolute offsets; the reply is appended in relative offsets. */
    method AddAnnotation(draft: AnnotationRef, created: Annotation) returns (request: Option<CreateRequest>)
      modifies this`error, this`selectionRange, this`annotations, draft
      ensures request.None? <==> versionId.None? || versionId == Some("")
      ensures request.None? ==>
                error == Some(VersionNotSetMessage) && annotations == old(annotations)
                && selectionRange == old(selectionRange) && draft.Value() == old(draft.Value())
      ensures request.Some? ==>
                request.value == CreateRequest(versionId.value, Absolute(old(draft.Value()), beginRange))
                && draft.Value() == request.value.annotation
                && error == old(error) && selectionRange.None?
                && annotations == old(annotations) + [Relative(created, beginRange)]
    {
      if versionId.None? || versionId.value == "" {
        error := Some(VersionNotSetMessage);
        return None;
      }
      var ann := SetAbsoluteOffsets(draft, beginRange);
      request := Some(CreateRequest(versionId.value, ann.Value()));
      selectionRange := None;
      annotations := annotations + [Relative(created, beginRange)];
    }
  }

  /** The search walk-through: a record with one image target and one text target over
      `[100, 200]` loads that window and lists the image. */
  method SearchExample(app: AppState, bodyId: string, grid: seq<string>)
    modifies app
  {
    var text := Target("T1", None, Some(Selector(100, 200)));
    var image := Target("img1", Some("Image"), None);
    var id := "http://x" + W3cMarker + ExampleVersion + "/" + ExampleAnnotation;
    VersionIdExample();
    var record := ExternalAnnotation(id, SingleBody(Body(Some(bodyId))), Targets([image, text]));
    assert FindTextTarget([image, text]) == Some(1) by {
      assert !IsTextTarget(image) && IsTextTarget(text);
      assert FindTextTargetFrom([image, text], 1) == Some(1);
    }
    assert ImageLinks([image, text]) == ["img1"] by {
      assert [image, text][1..] == [text];
      assert [text][1..] == [];
    }
    var outcome := app.SearchAnnotation(bodyId, Some(record), grid);
    assert outcome == Loaded(TextRequest(ExampleVersion, 100, 200));
    assert app.beginRange == 100 && app.endRange == 200;
    assert app.regionLinks == ["img1"] && app.targetId == "T1" && app.annotatableText == grid;
  }

  /** The refresh walk-through on the window `[100, 200]` of target `T1`: in creator mode
      the creator's annotations are fetched; after switching to range mode, a fetched
      annotation at `{110, 120}` is listed at `{10, 20}` and nothing else remains listed. */
  method RefreshExample(app: AppState, a: Annotation, mine: seq<Annotation>)
    requires app.targetId == "T1" && app.beginRange == 100 && app.endRange == 200
    requires |app.annotatableText| == 5 && app.currentCreator == "me" && app.annotationType == User
    requires a.beginAnchor == 110 && a.endAnchor == 120 && a.entityType == "comment"
    modifies app
  {
    var request := app.RefreshAnnotations(mine);
    assert request == Some(ByCreator("me"));

    app.SetAnnotationType(Range);
    request := app.RefreshAnnotations([a]);
    assert request == Some(ByRange("T1", 100, 200));
    assert Kept([a], 100, 200) == [a] by {
      assert "comment" !in StructuralTypes;
    }
    assert app.annotations == [a.(beginAnchor := 10, endAnchor := 20)];
  }
}
