/** The Track capability (anything with start/stop) and EffectDecorator, its
    second implementer: a plain library node, or a node wrapped with an effect. */
module Tracks {
  import opened Wrappers
  import opened Env

  /** `Plain(node)` is a library node played directly; `Decorated(node, effect)` is an
      EffectDecorator whose wrapped track is `node` and whose effect is `effect`.
      Only NewEffectDecorator should make a `Decorated` value, after logging its wiring. */
  datatype Track = Plain(node: NodeId) | Decorated(node: NodeId, effect: NodeId)

  /** The one call that `t.start()` makes on the library. */
  function StartCall(t: Track): Event
  {
    Started(t.node)
  }

  /** The one call that `t.stop()` makes on the library. */
  function StopCall(t: Track): Event
  {
    Stopped(t.node)
  }

  /** A decorator starts and stops exactly as the track it wraps, and never touches its effect. */
  lemma DecoratorDelegates(node: NodeId, effect: NodeId)
    requires node != effect
    ensures StartCall(Decorated(node, effect)) == StartCall(Plain(node)) != Started(effect)
    ensures StopCall(Decorated(node, effect)) == StopCall(Plain(node)) != Stopped(effect)
  {
  }

  /** The calls the EffectDecorator constructor makes: track.connect(effect), then effect.toDestination(). */
  function WiringTrace(node: NodeId, effect: NodeId): seq<Event>
  {
    [Connected(node, effect), Routed(effect)]
  }

  /** track.start(), dispatched on the kind of track; a decorator delegates to its wrapped track. */
  method StartTrack(t: Track, env: Environment)
    modifies env`log
    ensures env.log == old(env.log) + [StartCall(t)]
    decreases t.Decorated?
  {
    match t
    case Plain(n) => env.Start(n);
    case Decorated(n, _) => StartTrack(Plain(n), env);
  }

  /** track.stop(), dispatched on the kind of track; a decorator delegates to its wrapped track. */
  method StopTrack(t: Track, env: Environment)
    modifies env`log
    ensures env.log == old(env.log) + [StopCall(t)]
    decreases t.Decorated?
  {
    match t
    case Plain(n) => env.Stop(n);
    case Decorated(n, _) => StopTrack(Plain(n), env);
  }

  /** new EffectDecorator(track, effect): wires the track into the effect and the effect into
      the destination, once. A decorator has no `connect`, so wrapping one fails with nothing logged. */
  method NewEffectDecorator(track: Track, effect: NodeId, env: Environment) returns (r: Result<Track>)
    modifies env`log
    ensures r.Ok? <==> track.Plain?
    ensures r.Ok? ==>
              && r.value == Decorated(track.node, effect)
              && env.log == old(env.log) + WiringTrace(track.node, effect)
    ensures r.Err? ==> r.error == MissingOperation("connect") && env.log == old(env.log)
  {
    match track
    case Decorated(_, _) =>
      r := Err(MissingOperation("connect"));
    case Plain(n) =>
      env.Connect(n, effect);
      env.ToDestination(effect);
      r := Ok(Decorated(n, effect));
  }
}
