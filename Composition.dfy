/** MusicComposition: an append-only list of tracks whose start and stop are
    broadcast to every track in insertion order. */
module Composition {
  import opened Env
  import opened Broadcast
  import opened Tracks

  /** The calls made by composition.start() over `tracks`. */
  function StartAllTrace(tracks: seq<Track>): seq<Event>
  {
    ForEachCall(tracks, StartCall)
  }

  /** The calls made by composition.stop() over `tracks`. */
  function StopAllTrace(tracks: seq<Track>): seq<Event>
  {
    ForEachCall(tracks, StopCall)
  }

  /** start() starts every track exactly once, in insertion order, and stops none. */
  lemma StartAllInOrder(tracks: seq<Track>)
    ensures |StartAllTrace(tracks)| == |tracks|
    ensures forall i :: 0 <= i < |tracks| ==> StartAllTrace(tracks)[i] == Started(tracks[i].node)
    ensures forall e :: e in StartAllTrace(tracks) ==> e.Started?
  {
    forall i | 0 <= i < |tracks| ensures StartAllTrace(tracks)[i] == Started(tracks[i].node) {
      ForEachCallAt(tracks, StartCall, i);
    }
  }

  /** stop() stops every track exactly once, in insertion order, and starts none. */
  lemma StopAllInOrder(tracks: seq<Track>)
    ensures |StopAllTrace(tracks)| == |tracks|
    ensures forall i :: 0 <= i < |tracks| ==> StopAllTrace(tracks)[i] == Stopped(tracks[i].node)
    ensures forall e :: e in StopAllTrace(tracks) ==> e.Stopped?
  {
    forall i | 0 <= i < |tracks| ensures StopAllTrace(tracks)[i] == Stopped(tracks[i].node) {
      ForEachCallAt(tracks, StopCall, i);
    }
  }

  class MusicComposition {
    var tracks: seq<Track>

    constructor()
      ensures tracks == []
    {
      tracks := [];
    }

    /** Appends one track at the end; earlier tracks are untouched, no duplicate check. */
    method AddTrack(track: Track)
      modifies this
      ensures tracks == old(tracks) + [track]
    {
      tracks := tracks + [track];
    }

    /** Starts every track once, in insertion order. */
    method Start(env: Environment)
      modifies env`log
      ensures tracks == old(tracks)
      ensures env.log == old(env.log) + StartAllTrace(tracks)
    {
      var i := 0;
      while i < |tracks|
        invariant 0 <= i <= |tracks|
        invariant env.log == old(env.log) + StartAllTrace(tracks[..i])
      {
        StartTrack(tracks[i], env);
        ForEachCallSnoc(tracks[..i], tracks[i], StartCall);
        assert tracks[..i + 1] == tracks[..i] + [tracks[i]];
        i := i + 1;
      }
      assert tracks[..i] == tracks;
    }

    /** Stops every track once, in insertion order. */
    method Stop(env: Environment)
      modifies env`log
      ensures tracks == old(tracks)
      ensures env.log == old(env.log) + StopAllTrace(tracks)
    {
      var i := 0;
      while i < |tracks|
        invariant 0 <= i <= |tracks|
        invariant env.log == old(env.log) + StopAllTrace(tracks[..i])
      {
        StopTrack(tracks[i], env);
        ForEachCallSnoc(tracks[..i], tracks[i], StopCall);
        assert tracks[..i + 1] == tracks[..i] + [tracks[i]];
        i := i + 1;
      }
      assert tracks[..i] == tracks;
    }
  }
}
