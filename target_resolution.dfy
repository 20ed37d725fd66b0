/** Reading a found annotation record: which targets are image regions, which target
    carries the text selector, and which text version the record's id names. */
module TargetResolution {
  import opened Wrappers
  import opened Elucidate

  /** An image-region target: type `Image` and no selector. */
  predicate IsImageTarget(t: Target) {
    t.selector.None? && t.targetType == Some("Image")
  }

  /** A text target: type left undefined or `Text`. */
  predicate IsTextTarget(t: Target) {
    t.targetType.None? || t.targetType == Some("Text")
  }

  /** The sources of the image-region targets, in target order. */
  function ImageLinks(ts: seq<Target>): (links: seq<string>)
    ensures |links| <= |ts|
    ensures forall l :: l in links ==> exists t :: t in ts && IsImageTarget(t) && t.source == l
  {
    if ts == [] then []
    else (if IsImageTarget(ts[0]) then [ts[0].source] else []) + ImageLinks(ts[1..])
  }

  /** Every image target's source is among the links, whichever position it holds. */
  lemma {:induction false} ImageLinksComplete(ts: seq<Target>, i: nat)
    requires i < |ts| && IsImageTarget(ts[i])
    ensures ts[i].source in ImageLinks(ts)
  {
    if i > 0 {
      ImageLinksComplete(ts[1..], i - 1);
    }
  }

  /** Collecting links commutes with splitting the target array: order is kept. */
  lemma {:induction false} ImageLinksAppend(s: seq<Target>, t: seq<Target>)
    ensures ImageLinks(s + t) == ImageLinks(s) + ImageLinks(t)
  {
    if s != [] {
      assert (s + t)[0] == s[0] && (s + t)[1..] == s[1..] + t;
      ImageLinksAppend(s[1..], t);
    } else {
      assert s + t == t;
    }
  }

  /** `Array.prototype.find` for text targets, searching from index `from`: the index
      of the first text target, if there is one. */
  function FindTextTargetFrom(ts: seq<Target>, from: nat): (k: Option<nat>)
    requires from <= |ts|
    ensures k.Some? ==> from <= k.value < |ts| && IsTextTarget(ts[k.value])
    ensures k.Some? ==> forall j :: from <= j < k.value ==> !IsTextTarget(ts[j])
    ensures k.None? ==> forall j :: from <= j < |ts| ==> !IsTextTarget(ts[j])
    decreases |ts| - from
  {
    if from == |ts| then None
    else if IsTextTarget(ts[from]) then Some(from)
    else FindTextTargetFrom(ts, from + 1)
  }

  /** The index of the first text target. */
  function FindTextTarget(ts: seq<Target>): (k: Option<nat>)
    ensures k.Some? ==> k.value < |ts| && IsTextTarget(ts[k.value])
    ensures k.Some? ==> forall j :: 0 <= j < k.value ==> !IsTextTarget(ts[j])
    ensures k.None? ==> forall j :: 0 <= j < |ts| ==> !IsTextTarget(ts[j])
  {
    FindTextTargetFrom(ts, 0)
  }

  /** Length of a UUID as the id pattern matches it. */
  const UuidLength: nat := 36

  /** The marker that precedes the version UUID in a record id. */
  const W3cMarker: string := "/w3c/"

  /** Characters of the class `[0-9a-f-]`. */
  predicate IsUuidChar(c: char) {
    ('0' <= c <= '9') || ('a' <= c <= 'f') || c == '-'
  }

  /** A string of 36 UUID characters: what `[0-9a-f-]{36}` matches. */
  predicate IsUuid(u: string) {
    |u| == UuidLength && forall k :: 0 <= k < |u| ==> IsUuidChar(u[k])
  }

  /** `s[i..i+36]` is a UUID. */
  predicate IsUuidAt(s: string, i: nat) {
    i + UuidLength <= |s| && IsUuid(s[i..i + UuidLength])
  }

  /** The id pattern `/w3c/<uuid>/<uuid>` occurs at position `i` of `s`. */
  predicate MatchesAt(s: string, i: nat) {
    i + |W3cMarker| + 2 * UuidLength + 1 <= |s|
    && s[i..i + |W3cMarker|] == W3cMarker
    && IsUuidAt(s, i + |W3cMarker|)
    && s[i + |W3cMarker| + UuidLength] == '/'
    && IsUuidAt(s, i + |W3cMarker| + UuidLength + 1)
  }

  /** The greatest position below `n` where the id pattern occurs. */
  function LastMatchBelow(s: string, n: nat): (r: Option<nat>)
    requires n <= |s|
    ensures r.Some? ==> r.value < n && MatchesAt(s, r.value)
    ensures r.Some? ==> forall j :: r.value < j < n ==> !MatchesAt(s, j)
    ensures r.None? ==> forall j :: 0 <= j < n ==> !MatchesAt(s, j)
  {
    if n == 0 then None
    else if MatchesAt(s, n - 1) then Some(n - 1)
    else LastMatchBelow(s, n - 1)
  }

  /** The position of the occurrence the greedy `.*` prefix selects: the last one. */
  function LastMatch(s: string): (r: Option<nat>)
    ensures r.Some? ==> MatchesAt(s, r.value) && forall j :: r.value < j <= |s| ==> !MatchesAt(s, j)
    ensures r.None? ==> forall j :: 0 <= j <= |s| ==> !MatchesAt(s, j)
  {
    LastMatchBelow(s, |s|)
  }

  /** The version id a record id names: the first UUID of the last `/w3c/<uuid>/<uuid>`
      occurrence, or nothing when the pattern does not occur. */
  function VersionIdOf(id: string): (v: Option<string>)
    ensures v.Some? <==> exists i :: 0 <= i <= |id| && MatchesAt(id, i)
    ensures v.Some? ==> IsUuid(v.value)
  {
    match LastMatch(id)
    case None => None
    case Some(i) => Some(id[i + |W3cMarker|..i + |W3cMarker| + UuidLength])
  }

  /** A record id whose last occurrence of the pattern is at position `i` names the UUID
      right after the marker there. */
  lemma VersionIdOfLastMatch(id: string, i: nat)
    requires MatchesAt(id, i)
    requires forall j :: i < j <= |id| ==> !MatchesAt(id, j)
    ensures VersionIdOf(id) == Some(id[i + |W3cMarker|..i + |W3cMarker| + UuidLength])
  {
  }

  /** An id ending in `/w3c/<v>/<a>` names `v`, whatever precedes it, even another
      occurrence of the pattern: the greedy `.*` selects the last occurrence. */
  lemma VersionIdOfSuffix(prefix: string, v: string, a: string)
    requires IsUuid(v) && IsUuid(a)
    ensures VersionIdOf(prefix + W3cMarker + v + "/" + a) == Some(v)
  {
    var id := prefix + W3cMarker + v + "/" + a;
    var i := |prefix|;
    assert id[i..i + |W3cMarker|] == W3cMarker;
    assert id[i + |W3cMarker|..i + |W3cMarker| + UuidLength] == v;
    assert id[i + |W3cMarker| + UuidLength] == '/';
    assert id[i + |W3cMarker| + UuidLength + 1..] == a;
    assert MatchesAt(id, i);
    VersionIdOfLastMatch(id, i);
  }

  const ExampleVersion: string := "11111111-1111-1111-1111-111111111111"
  const ExampleAnnotation: string := "22222222-2222-2222-2222-222222222222"

  /** `http://x/w3c/<version>/<annotation>` names the version UUID. */
  lemma VersionIdExample()
    ensures VersionIdOf("http://x" + W3cMarker + ExampleVersion + "/" + ExampleAnnotation) == Some(ExampleVersion)
  {
    VersionIdOfSuffix("http://x", ExampleVersion, ExampleAnnotation);
  }

  /** An id without the pattern names no version. */
  lemma NoVersionIdExample()
    ensures VersionIdOf("http://x/annotations/" + ExampleVersion).None?
  {
  }
}
