# Pattern-composition layer of simple-generative-music, modelled in Dafny

App.js puts a few object-oriented design patterns on top of the Tone.js audio library:
- a factory that builds synth, drum and effect nodes;
- a singleton music context;
- a composition of tracks;
- an effect decorator;
- a player facade over the shared transport clock;
- an event manager (observer);
- a user-action command;
- a pattern strategy.

This model keeps the library opaque. Nodes, listeners and command targets are abstract ids. Every call the layer makes on them is recorded in order in the ghost log of an `Env.Environment`:
- constructing a node;
- `toDestination`, `connect`, `start` and `stop`;
- transport start and stop;
- `listener.update(event)`;
- invoking a command's operation;
- a pattern generator's `generate()`, with the value it returned.

Each operation's postcondition says how it extends that log, using a pure trace function. Lemmas about the trace functions state the ordering guarantees: exactly once, in order, and nothing else.

Modules:
- `Wrappers`: the `Result` type, and the layer's two errors. `UnknownElementType` is the factory's error. `MissingOperation(name)` is the TypeError JavaScript raises when a method is looked up and not found.
- `Env`: ids, `Event`, and the `Environment` class. Its methods stand for the calls into Tone.js and into application objects.
- `Broadcast`: `ForEachCall`, the trace of a `forEach` loop, with its lemmas.
- `ElementFactory`: `MusicElementFactory.createElement`.
- `Singleton`: `MusicContext` and its static `instance` slot.
- `Tracks`: the Track capability and `EffectDecorator`.
- `Composition`: `MusicComposition`.
- `PlayerFacade`: `MusicPlayerFacade`.
- `Observer`: `EventManager`.
- `Command`: `UserActionCommand`.
- `Strategy`: `PatternStrategy`.

A track is anything with `start`/`stop`. Dafny traits are not used, so the capability is the datatype `Track = Plain(node) | Decorated(node, effect)`. `StartTrack` and `StopTrack` dispatch on it: a decorator delegates to the node it wraps.

A mirrored order might be expected for `MusicPlayerFacade.stop`, tracks first and transport last. The code (App.js:80-81) stops the transport first, and the model follows the code. `PlayerFacade.StopOrder` states that order.

## Model

| member | source | states |
|---|---|---|
| ElementFactory.KindOf | App.js:4-14 | the tag selects a node kind exactly when it is "synth", "drum" or "effect", each tag its own kind; any other tag is the UnknownElementType error |
| ElementFactory.KindOfTagOf | App.js:5-11 | each of the three kinds is selected by its own tag, so the switch can build synth, drum and effect nodes |
| ElementFactory.CreationTrace | App.js:6-11 | constructing an element first constructs its node; the node is routed to the destination iff it is a synth or drum; no other call is made |
| ElementFactory.CreateElement | App.js:4-15 | succeeds iff the tag is known, returning a node of that kind with the next node id and logging exactly its creation trace; an unknown tag fails with UnknownElementType, logs nothing and allocates no node |
| Singleton.Constructions | App.js:19-25 | a series of constructions returns one instance per construction |
| Singleton.EveryConstructionReturnsFirst | App.js:19-25 | every construction in any series returns the first instance ever installed |
| Singleton.ContextSlot.Construct | App.js:19-25 | the first construction installs a new context bound to the transport; later ones return that instance and leave the slot unchanged; each call is one step of `Constructions` on the object it allocates, so every call returns the first instance |
| Broadcast.ForEachCall | App.js:39-45 | a forEach over n elements logs exactly n calls |
| Broadcast.ForEachCallSnoc | App.js:35-40 | visiting one more element appends exactly its call at the end, so later additions never change earlier calls |
| Broadcast.ForEachCallAt | App.js:39-45 | the i-th logged call is the call on the i-th element, so the order is insertion order |
| Broadcast.ForEachCallOnly | App.js:94-96 | a call is logged iff it is the call on some element of the list |
| Tracks.DecoratorDelegates | App.js:56-62 | a decorator's start and stop are the wrapped track's, and never a start or stop of its effect |
| Tracks.StartTrack | App.js:56-58 | track.start() logs exactly one start, of the track's own node (the wrapped node for a decorator) |
| Tracks.StopTrack | App.js:60-62 | track.stop() logs exactly one stop, of the track's own node (the wrapped node for a decorator) |
| Tracks.NewEffectDecorator | App.js:49-54 | decorating a plain track logs exactly connect(track, effect) then effect.toDestination() and yields a decorator of that track; decorating a decorator fails (no connect method) and logs nothing |
| Composition.StartAllInOrder | App.js:39-41 | start logs one start per track, the i-th for the i-th track, and no other kind of call |
| Composition.StopAllInOrder | App.js:43-45 | stop logs one stop per track, the i-th for the i-th track, and no other kind of call |
| Composition.MusicComposition.constructor | App.js:31-33 | a new composition has no tracks |
| Composition.MusicComposition.AddTrack | App.js:35-37 | the track list afterwards is the old list with the one track appended |
| Composition.MusicComposition.Start | App.js:39-41 | appends exactly the start trace of the track list to the log and leaves the track list unchanged |
| Composition.MusicComposition.Stop | App.js:43-45 | appends exactly the stop trace of the track list to the log and leaves the track list unchanged |
| PlayerFacade.StartOrder | App.js:74-77 | the transport is started exactly once, before any track, then each track once in insertion order; the transport is never stopped |
| PlayerFacade.StopOrder | App.js:79-82 | the transport is stopped exactly once, before any track, then each track once in insertion order; the transport is never started |
| PlayerFacade.MusicPlayerFacade.constructor | App.js:66-68 | a new facade owns a new, empty composition |
| PlayerFacade.MusicPlayerFacade.AddTrack | App.js:70-72 | only appends the track to the owned composition |
| PlayerFacade.MusicPlayerFacade.Start | App.js:74-77 | appends exactly the facade start trace of the composition's tracks; the tracks are unchanged |
| PlayerFacade.MusicPlayerFacade.Stop | App.js:79-82 | appends exactly the facade stop trace of the composition's tracks; the tracks are unchanged |
| Observer.NotifyInOrder | App.js:94-96 | notify(e) logs one update(e) per subscribed listener, in subscription order, and nothing more |
| Observer.NotifyReachesSubscribersOnly | App.js:94-96 | a listener gets update(q) from notify(e) iff it is subscribed and q is e |
| Observer.NotifyExactlyOnce | App.js:94-96 | each listener is updated exactly as many times as it appears in the listener list |
| Observer.EventManager.constructor | App.js:86-88 | a new event manager has no listeners |
| Observer.EventManager.Subscribe | App.js:90-92 | the listener list afterwards is the old list with the one listener appended |
| Observer.EventManager.Notify | App.js:94-96 | appends exactly the notify trace of the current listeners to the log and leaves the list unchanged |
| Command.ExecuteTrace | App.js:105-107 | one execute logs at most one call: the named operation on the command's own target, logged iff the target has that operation |
| Command.Execute | App.js:105-107 | succeeds iff the target has the action, logging exactly that one invocation; otherwise fails with MissingOperation and logs nothing |
| Strategy.GeneratePattern | App.js:115-117 | makes exactly one generate() call, on the held strategy and no other, and returns the value that call produced unchanged |

## Left out

- server.js (the static HTTP file server) is pure I/O and is not part of this model.
- `RandomPattern.generate` (App.js:122) and `AlgorithmicPattern.generate` (App.js:128) are not modelled. They are floating point and depend on randomness or the transport clock. A call of either is a logged interaction that may return any value.
- Strategy.GeneratePattern: states the delegation only; the value ranges of the two generators, [0, 100) and [-1, 1], are outside the model for the reason above.
- What Tone.js does with nodes is not modelled: synthesis, effect processing, audio routing and transport timing. Its calls appear only as logged events on abstract ids. The options records are opaque ids.
- Library calls never fail in this model. In the code, an exception from one track's `start`/`stop` or from a listener's `update` aborts the rest of the `forEach`, and the model does not capture that partial run.
- The layer calls out to listeners and command targets. Those calls are logged and do not re-enter the layer. A callback that, say, subscribes a listener during `notify` is not modelled.
- `Object.freeze(musicContext)` (App.js:28) is not modelled. Neither is the module-level `musicContext` constant (App.js:27) beyond what `ContextSlot.Construct` says about any construction.
- `this.target[this.action]` is modelled only as found or not found. A property that exists but is not a function throws in JavaScript; the model treats every named operation as callable.
- The global `Tone.Transport` is the `Environment` object passed to each operation, not a hidden global.
- A `Tracks.Decorated` value can be written down directly, without its wiring having been logged. In App.js:48-54 a decorator exists only after its constructor has made both calls. Only `Tracks.NewEffectDecorator` makes decorators in this model, and nothing else should.
- A command's target is an immutable value, so its operations are fixed when the command is built. App.js:106 looks the action up on the live target object when `execute()` runs. The model takes the lookup against that snapshot, and does not capture a target gaining or losing operations between construction and execution.
