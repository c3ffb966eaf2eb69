/** MusicContext: a constructor guard that makes every construction return the first instance. */
module Singleton {
  import opened Env

  datatype Option<+T> = None | Some(value: T)

  /** What `MusicContext.instance` holds once the slot `slot` meets a newly allocated `candidate`. */
  function Installed<T>(slot: Option<T>, candidate: T): T
  {
    if slot.Some? then slot.value else candidate
  }

  /** The instances returned by a series of constructions that allocate `candidates` in turn. */
  function Constructions<T>(slot: Option<T>, candidates: seq<T>): (r: seq<T>)
    ensures |r| == |candidates|
    decreases candidates
  {
    if candidates == [] then []
    else
      var first := Installed(slot, candidates[0]);
      [first] + Constructions(Some(first), candidates[1..])
  }

  /** However many constructions are made, every one returns the first instance installed. */
  lemma {:induction false} EveryConstructionReturnsFirst<T>(slot: Option<T>, candidates: seq<T>, i: nat)
    requires i < |candidates|
    ensures Constructions(slot, candidates)[i] == Installed(slot, candidates[0])
    decreases i
  {
    if i > 0 {
      var first := Installed(slot, candidates[0]);
      EveryConstructionReturnsFirst(Some(first), candidates[1..], i - 1);
    }
  }

  class MusicContext {
    var transport: Environment?

    /** The part of `new MusicContext()` before the guard: a new, empty object. */
    constructor()
      ensures transport == null
    {
      transport := null;
    }
  }

  /** The slot's content as an Option, so that `Installed` and `Constructions` describe it. */
  function SlotOf(instance: MusicContext?): Option<MusicContext>
  {
    if instance == null then None else Some(instance)
  }

  /** The static field `MusicContext.instance`, empty until the first construction. */
  class ContextSlot {
    var instance: MusicContext?

    constructor()
      ensures instance == null
    {
      instance := null;
    }

    /** new MusicContext(): the first call binds a new context to the transport and installs it;
        every later call returns that same instance and leaves it as it was. `candidate` is
        the object each call allocates; the slot then holds `Installed` of it, one step of
        `Constructions`, so a series of calls returns what EveryConstructionReturnsFirst says. */
    method Construct(transport: Environment) returns (c: MusicContext, ghost candidate: MusicContext)
      modifies this
      ensures old(instance) != null ==> c == old(instance) && instance == old(instance)
      ensures old(instance) == null ==> fresh(c) && instance == c && c.transport == transport
      ensures fresh(candidate)
      ensures c == Installed(SlotOf(old(instance)), candidate) && SlotOf(instance) == Some(c)
    {
      var made := new MusicContext();
      candidate := made;
      if instance == null {
        made.transport := transport;
        instance := made;
      }
      c := instance;
    }
  }
}
