/** The shapes of the records the remote annotation store returns, as far as the viewer
    reads them. A field JavaScript may leave `undefined` is an `Option`. */
module Elucidate {
  import opened Wrappers

  /** The text range a text target points at, in absolute offsets. */
  datatype Selector = Selector(start: int, end: int)

  /** One entry of an annotation's `target` array. */
  datatype Target = Target(source: string, targetType: Option<string>, selector: Option<Selector>)

  /** An annotation's `target`: a bare URI string or an array of targets. */
  datatype TargetField = TargetUri(uri: string) | Targets(targets: seq<Target>)

  /** One annotation body; its `id` may be missing. */
  datatype Body = Body(id: Option<string>)

  /** An annotation's `body`: one body or an array of them. */
  datatype BodyField = SingleBody(single: Body) | BodyList(list: seq<Body>)

  /** A remote annotation record; its `id` is a URI that embeds the text version's UUID. */
  datatype ExternalAnnotation = ExternalAnnotation(id: string, body: BodyField, target: TargetField)
}
