/** MusicElementFactory.createElement: a type tag selects the library node to
    construct; synths and drums are routed to the output sink, effects are not. */
module ElementFactory {
  import opened Wrappers
  import opened Env

  /** A node made by the factory, with the kind it was made as. */
  datatype Element = Element(node: NodeId, kind: ElementKind)

  /** The tag that selects each kind. */
  function TagOf(kind: ElementKind): string
  {
    match kind
    case Synth => "synth"
    case MembraneSynth => "drum"
    case Effect => "effect"
  }

  /** Whether construction also routes the node to the destination. */
  predicate RoutedOnCreation(kind: ElementKind)
  {
    kind != Effect
  }

  /** The switch on the tag: the kind of node to construct, or the error for any other tag. */
  function KindOf(tag: string): (r: Result<ElementKind>)
    ensures r.Ok? <==> tag in {"synth", "drum", "effect"}
    ensures r.Ok? ==> TagOf(r.value) == tag
    ensures r.Err? ==> r.error == UnknownElementType
  {
    match tag
    case "synth" => Ok(Synth)
    case "drum" => Ok(MembraneSynth)
    case "effect" => Ok(Effect)
    case _ => Err(UnknownElementType)
  }

  /** Every kind is reached by its own tag, so the switch covers the three kinds. */
  lemma KindOfTagOf(kind: ElementKind)
    ensures KindOf(TagOf(kind)) == Ok(kind)
  {
  }

  /** The calls made while constructing element `e` with `options`. */
  function CreationTrace(e: Element, options: Options): (r: seq<Event>)
    ensures |r| == if RoutedOnCreation(e.kind) then 2 else 1
    ensures r[0] == Created(e.node, e.kind, options)
    ensures Routed(e.node) in r <==> e.kind in {Synth, MembraneSynth}
    ensures forall ev :: ev in r ==> ev == Created(e.node, e.kind, options) || ev == Routed(e.node)
  {
    [Created(e.node, e.kind, options)] + (if RoutedOnCreation(e.kind) then [Routed(e.node)] else [])
  }

  /** createElement(type, options): constructs the node the tag names, routing synth and drum
      nodes to the destination; any other tag fails before any node is constructed. */
  method CreateElement(tag: string, options: Options, env: Environment) returns (r: Result<Element>)
    modifies env
    ensures r.Ok? <==> KindOf(tag).Ok?
    ensures r.Err? ==>
              && r.error == UnknownElementType
              && env.log == old(env.log)
              && env.nextNode == old(env.nextNode)
    ensures r.Ok? ==>
              && r.value == Element(old(env.nextNode), KindOf(tag).value)
              && env.nextNode == old(env.nextNode) + 1
              && env.log == old(env.log) + CreationTrace(r.value, options)
  {
    var kind :- KindOf(tag);
    var n := env.NewNode(kind, options);
    if RoutedOnCreation(kind) {
      env.ToDestination(n);
    }
    r := Ok(Element(n, kind));
  }
}
