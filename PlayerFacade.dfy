/** MusicPlayerFacade: one start/stop surface over the shared transport clock and
    an owned composition. */
module PlayerFacade {
  import opened Env
  import opened Tracks
  import opened Composition

  /** The calls made by facade.start(): the transport first, then every track in order. */
  function StartTrace(tracks: seq<Track>): seq<Event>
  {
    [TransportStarted] + StartAllTrace(tracks)
  }

  /** The calls made by facade.stop(): the transport first, then every track in order. */
  function StopTrace(tracks: seq<Track>): seq<Event>
  {
    [TransportStopped] + StopAllTrace(tracks)
  }

  /** start() starts the transport once, before any track, then each track once in insertion order. */
  lemma StartOrder(tracks: seq<Track>)
    ensures |StartTrace(tracks)| == |tracks| + 1
    ensures StartTrace(tracks)[0] == TransportStarted
    ensures StartTrace(tracks)[1..] == StartAllTrace(tracks)
    ensures forall j :: 1 <= j <= |tracks| ==> StartTrace(tracks)[j] == Started(tracks[j - 1].node)
    ensures TransportStarted !in StartTrace(tracks)[1..]
    ensures TransportStopped !in StartTrace(tracks)
  {
    StartAllInOrder(tracks);
    assert StartTrace(tracks)[1..] == StartAllTrace(tracks);
  }

  /** stop() stops the transport once and BEFORE any track, then each track once in insertion
      order; so for a non-empty composition the tracks are stopped after the clock, not before. */
  lemma StopOrder(tracks: seq<Track>)
    ensures |StopTrace(tracks)| == |tracks| + 1
    ensures StopTrace(tracks)[0] == TransportStopped
    ensures StopTrace(tracks)[1..] == StopAllTrace(tracks)
    ensures forall j :: 1 <= j <= |tracks| ==> StopTrace(tracks)[j] == Stopped(tracks[j - 1].node)
    ensures TransportStopped !in StopTrace(tracks)[1..]
    ensures TransportStarted !in StopTrace(tracks)
  {
    StopAllInOrder(tracks);
    assert StopTrace(tracks)[1..] == StopAllTrace(tracks);
  }

  class MusicPlayerFacade {
    const composition: MusicComposition

    constructor()
      ensures fresh(composition) && composition.tracks == []
    {
      composition := new MusicComposition();
    }

    /** Forwards to the owned composition, which appends the track and changes nothing else. */
    method AddTrack(track: Track)
      modifies composition
      ensures composition.tracks == old(composition.tracks) + [track]
    {
      composition.AddTrack(track);
    }

    /** Tone.Transport.start(), then composition.start(). */
    method Start(env: Environment)
      modifies env`log
      ensures composition.tracks == old(composition.tracks)
      ensures env.log == old(env.log) + StartTrace(composition.tracks)
    {
      env.TransportStart();
      composition.Start(env);
    }

    /** Tone.Transport.stop(), then composition.stop(). */
    method Stop(env: Environment)
      modifies env`log
      ensures composition.tracks == old(composition.tracks)
      ensures env.log == old(env.log) + StopTrace(composition.tracks)
    {
      env.TransportStop();
      composition.Stop(env);
    }
  }
}
