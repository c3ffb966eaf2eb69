/** The collaborators App.js talks to, seen only through the calls made on them.
    Library nodes (synths, effects), the shared transport clock, listeners and
    command targets are abstract ids; every call on them appends one Event to a log. */
module Env {

  type NodeId = nat
  type ListenerId = nat
  type ObjectId = nat
  type OpId = nat
  /** An options record handed to a library constructor; opaque to this layer. */
  type Options = nat
  /** An event payload passed to listeners; untyped and opaque to this layer. */
  type Payload = nat

  /** The three node classes the factory can construct: Tone.Synth, Tone.MembraneSynth, Tone.Effect. */
  datatype ElementKind = Synth | MembraneSynth | Effect

  /** The two pattern generators, RandomPattern and AlgorithmicPattern. */
  datatype Generator = RandomPattern | AlgorithmicPattern

  /** One interaction with a collaborator. */
  datatype Event =
    | Created(node: NodeId, kind: ElementKind, options: Options)  // new Tone.X(options)
    | Routed(node: NodeId)                                        // node.toDestination()
    | Connected(source: NodeId, sink: NodeId)                     // source.connect(sink)
    | Started(node: NodeId)                                       // node.start()
    | Stopped(node: NodeId)                                       // node.stop()
    | TransportStarted                                            // Tone.Transport.start()
    | TransportStopped                                            // Tone.Transport.stop()
    | Updated(listener: ListenerId, payload: Payload)             // listener.update(payload)
    | Invoked(target: ObjectId, operation: OpId)                  // target[action]()
    | Generated(generator: Generator, value: real)               // generator.generate() returned value

  /** The outside world: the audio library and the application objects the layer
      calls into. `log` records, in order, every call the layer has made on it. */
  class Environment {
    ghost var log: seq<Event>
    var nextNode: NodeId

    constructor()
      ensures log == [] && nextNode == 0
    {
      log := [];
      nextNode := 0;
    }

    /** Constructs a library node of the given kind; the new node gets a fresh id. */
    method NewNode(kind: ElementKind, options: Options) returns (n: NodeId)
      modifies this
      ensures n == old(nextNode) && nextNode == n + 1
      ensures log == old(log) + [Created(n, kind, options)]
    {
      n := nextNode;
      nextNode := nextNode + 1;
      log := log + [Created(n, kind, options)];
    }

    method ToDestination(n: NodeId)
      modifies this`log
      ensures log == old(log) + [Routed(n)]
    {
      log := log + [Routed(n)];
    }

    method Connect(source: NodeId, sink: NodeId)
      modifies this`log
      ensures log == old(log) + [Connected(source, sink)]
    {
      log := log + [Connected(source, sink)];
    }

    method Start(n: NodeId)
      modifies this`log
      ensures log == old(log) + [Started(n)]
    {
      log := log + [Started(n)];
    }

    method Stop(n: NodeId)
      modifies this`log
      ensures log == old(log) + [Stopped(n)]
    {
      log := log + [Stopped(n)];
    }

    method TransportStart()
      modifies this`log
      ensures log == old(log) + [TransportStarted]
    {
      log := log + [TransportStarted];
    }

    method TransportStop()
      modifies this`log
      ensures log == old(log) + [TransportStopped]
    {
      log := log + [TransportStopped];
    }

    method Update(l: ListenerId, p: Payload)
      modifies this`log
      ensures log == old(log) + [Updated(l, p)]
    {
      log := log + [Updated(l, p)];
    }

    method Invoke(target: ObjectId, op: OpId)
      modifies this`log
      ensures log == old(log) + [Invoked(target, op)]
    {
      log := log + [Invoked(target, op)];
    }

    /** A call of the generator's generate(). What it returns depends on randomness or the
        clock, which are not modelled: any value may come back, and the log records it. */
    method Generate(g: Generator) returns (v: real)
      modifies this`log
      ensures log == old(log) + [Generated(g, v)]
    {
      v := *;
      log := log + [Generated(g, v)];
    }
  }
}
