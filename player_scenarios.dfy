/**
  Whole runs of the playback coordinator from a fresh, idle player, each event
  delivered as one step, with the messages it publishes and the backend calls it
  makes.
*/
module PlayerScenarios {
  import opened Wrappers
  import opened PlayerTypes
  import opened Player
  import TrackQueue

  /**
    Enqueue A into an idle, empty player and let the backend accept and start it:
    exactly one `playTrack(A)`, A republished as the current song with nothing
    after it, then "playing" and the announcement naming A.
  */
  method StartOne(a: Track) returns (p: MusicPlayer)
    ensures fresh(p) && p.Valid()
    ensures p.queue == TrackQueue.Queue([a], 0) && !p.startPending && p.awaiting == []
    ensures p.currentDisconnectionTimeout == None && !p.playing && !p.paused
    ensures p.dispatchers == [Dispatcher(Some(a), false, true)]
    ensures p.backendCalls == [PlayTrack(Some(a))]
    ensures p.published == Republished(TrackQueue.Queue([a], 0)) +
      [Message(Status, NowPlayingStatus, NoData), Message(Info, NowPlaying(a.title), NoData)]
  {
    p := new MusicPlayer(false, false);
    p.Enqueue(a);
    assert p.queue == TrackQueue.Queue([a], 0) && p.startPending;
    assert p.backendCalls == [PlayTrack(Some(a))] && p.awaiting == [Some(a)];
    p.PlayTrackSettled(0, Ok);
    p.OnStart(0);
  }

  /**
    With A playing, enqueue B: B is republished as the queue behind A and no second
    `playTrack` is made. The backend then stops playing A.
  */
  method EnqueueWhilePlaying(a: Track, b: Track) returns (p: MusicPlayer)
    ensures fresh(p) && p.Valid()
    ensures p.queue == TrackQueue.Queue([a, b], 0) && !p.startPending && p.awaiting == []
    ensures p.currentDisconnectionTimeout == None && !p.playing && !p.paused
    ensures p.dispatchers == [Dispatcher(Some(a), false, true)]
    ensures p.backendCalls == [PlayTrack(Some(a))]
    ensures p.published == Republished(TrackQueue.Queue([a], 0)) +
      [Message(Status, NowPlayingStatus, NoData), Message(Info, NowPlaying(a.title), NoData)] +
      Republished(TrackQueue.Queue([a, b], 0))
  {
    p := StartOne(a);
    p.BackendReports(true, false);
    p.Enqueue(b);
    assert p.queue == TrackQueue.Queue([a, b], 0);
    p.BackendReports(false, false);
  }

  /** A, with B queued behind it, ends naturally: the cursor moves to B, which is republished and started. */
  method RollOver(a: Track, b: Track) returns (calls: seq<BackendCall>, published: seq<Message>)
    ensures calls == [PlayTrack(Some(a)), PlayTrack(Some(b))]
    ensures published == [
      Message(Status, CurrentSong, SongData(Some(a))), Message(Status, CurrentQueue, QueueData([])),
      Message(Status, NowPlayingStatus, NoData), Message(Info, NowPlaying(a.title), NoData),
      Message(Status, CurrentSong, SongData(Some(a))), Message(Status, CurrentQueue, QueueData([b])),
      Message(Info, Played(a.title), NoData),
      Message(Status, CurrentSong, SongData(Some(b))), Message(Status, CurrentQueue, QueueData([]))]
  {
    var p := EnqueueWhilePlaying(a, b);
    assert TrackQueue.Size(p.queue) == 1 && Advances(Natural, 1);
    p.OnEnd(0, Natural);
    assert p.queue == TrackQueue.Queue([a, b], 1);
    assert TrackQueue.Remaining(p.queue) == [];
    assert TrackQueue.Remaining(TrackQueue.Queue([a, b], 0)) == [b];
    calls, published := p.backendCalls, p.published;
  }

  /** Two queue changes before the backend confirms the start: the guard lets only one `playTrack` through. */
  method TwoChangesBeforeStart(a: Track, b: Track) returns (calls: seq<BackendCall>)
    ensures calls == [PlayTrack(Some(a))]
  {
    var p := new MusicPlayer(false, false);
    p.Enqueue(a);
    p.Enqueue(b);
    calls := p.backendCalls;
  }

  /**
    The handle reports an error before it ever starts, then ends: the guard stays
    raised, so a track enqueued afterwards is not started automatically.
  */
  method ErrorBeforeStartKeepsGuard(a: Track, b: Track, error: string) returns (calls: seq<BackendCall>, pending: bool)
    ensures calls == [PlayTrack(Some(a))]
    ensures pending
  {
    var p := GuardLeftRaised(a, b, error);
    calls, pending := p.backendCalls, p.startPending;
  }

  /** The run of `ErrorBeforeStartKeepsGuard`, handing back the player. */
  method GuardLeftRaised(a: Track, b: Track, error: string) returns (p: MusicPlayer)
    ensures fresh(p) && p.Valid()
    ensures p.queue == TrackQueue.Queue([a, b], 0) && p.startPending && p.awaiting == []
    ensures !p.playing && !p.paused && |p.dispatchers| == 1
    ensures p.backendCalls == [PlayTrack(Some(a))]
  {
    p := new MusicPlayer(false, false);
    p.Enqueue(a);
    assert p.queue == TrackQueue.Queue([a], 0) && p.startPending && p.backendCalls == [PlayTrack(Some(a))];
    p.PlayTrackSettled(0, Ok);
    p.OnError(0, error);
    assert TrackQueue.Size(p.queue) == 0;
    p.OnEnd(0, Natural);
    assert p.startPending && p.backendCalls == [PlayTrack(Some(a))];
    p.Enqueue(b);
    assert p.queue == TrackQueue.Queue([a, b], 0);
  }

  /**
    The guard left raised by an error before `start` is cleared by a later start:
    `resumeStream` ignores the guard and starts A again; when that stream's `start`
    fires the guard drops, so when A then ends naturally B is started automatically.
  */
  method ResumeClearsGuard(a: Track, b: Track, error: string) returns (calls: seq<BackendCall>)
    ensures calls == [PlayTrack(Some(a)), PlayTrack(Some(a)), PlayTrack(Some(b))]
  {
    var p := GuardLeftRaised(a, b, error);
    assert TrackQueue.Size(p.queue) == 1;
    p.ResumeStream(Ok);
    assert p.awaiting == [Some(a)];
    p.PlayTrackSettled(0, Ok);
    assert p.dispatchers[1] == Dispatcher(Some(a), true, true);
    p.OnStart(1);
    assert !p.startPending && p.backendCalls == [PlayTrack(Some(a)), PlayTrack(Some(a))];
    p.OnEnd(1, Natural);
    assert p.queue == TrackQueue.Queue([a, b], 1);
    calls := p.backendCalls;
  }

  /** The start request itself fails: one error message naming the track, and the guard is down again. */
  method StartFails(a: Track, error: string) returns (calls: seq<BackendCall>, published: seq<Message>, pending: bool)
    ensures calls == [PlayTrack(Some(a))]
    ensures !pending
    ensures published == Republished(TrackQueue.Queue([a], 0)) + [Message(Error, StartFailed(a.title, error), NoData)]
  {
    var p := new MusicPlayer(false, false);
    p.Enqueue(a);
    p.PlayTrackSettled(0, Throws(error));
    calls, published, pending := p.backendCalls, p.published, p.startPending;
  }

  /**
    The only track ends naturally with nothing queued: the idle timer is armed. When
    it fires as the code is written, nothing is published and `disconnect()` is never
    called, although the queue is still empty.
  */
  method IdleTimerAsWritten(a: Track) returns (calls: seq<BackendCall>, last: Message, empty: bool)
    ensures empty
    ensures calls == [PlayTrack(Some(a))]
    ensures last == Message(Info, Played(a.title), NoData)
  {
    var p := StartOne(a);
    p.OnEnd(0, Natural);
    p.TimerFire();
    calls, last, empty := p.backendCalls, p.published[|p.published| - 1], TrackQueue.Size(p.queue) == 0;
  }

  /** The same run with the timer callback bound to the player: one farewell and one `disconnect()`. */
  method IdleTimerBound(a: Track) returns (calls: seq<BackendCall>, last: Message)
    ensures calls == [PlayTrack(Some(a)), Disconnect]
    ensures last == Message(Info, Farewell, NoData)
  {
    var p := StartOne(a);
    p.OnEnd(0, Natural);
    var thrown := p.TimerFireBound(Ok);
    calls, last := p.backendCalls, p.published[|p.published| - 1];
  }

  /**
    The only track ends naturally, so the cursor stays on it; then B is enqueued.
    The cursor is not moved by the append, so the finished track is current again
    and is started a second time, before B.
  */
  method EnqueueAfterLastEnded(a: Track, b: Track) returns (calls: seq<BackendCall>, current: Option<Track>)
    ensures calls == [PlayTrack(Some(a)), PlayTrack(Some(a))]
    ensures current == Some(a)
  {
    var p := StartOne(a);
    p.OnEnd(0, Natural);
    assert p.queue == TrackQueue.Queue([a], 0) && !p.startPending;
    p.Enqueue(b);
    assert p.queue == TrackQueue.Queue([a, b], 0);
    calls, current := p.backendCalls, TrackQueue.Current(p.queue);
  }

  /**
    A is playing; a skip back by one rewinds the queue before its start, and the
    skip ends A. `resumeStream` then sees one track remaining and hands
    `undefined` to `playTrack`; when that request fails, the guard is cleared but
    no error message is published.
  */
  method ResumeAfterRewind(a: Track, error: string) returns (calls: seq<BackendCall>, pending: bool, silent: bool)
    ensures calls == [PlayTrack(Some(a)), SkipCurrent, PlayTrack(None)]
    ensures !pending
    ensures silent
  {
    var p := StartOne(a);
    var thrown := p.SkipPrevious(1, -1, Ok);
    assert p.queue == TrackQueue.Queue([a], -1);
    assert TrackQueue.Size(p.queue) == 1;
    p.OnEnd(0, Skip);
    p.ResumeStream(Ok);
    assert p.awaiting == [None];
    var before := p.published;
    p.PlayTrackSettled(0, Throws(error));
    calls, pending, silent := p.backendCalls, p.startPending, p.published == before;
  }

  /** Resuming a paused player resumes the backend, reports it, and starts nothing. */
  method ResumeWhilePaused(a: Track) returns (calls: seq<BackendCall>, last: Message)
    ensures calls == [PlayTrack(Some(a)), Resume]
    ensures last == Message(Status, ResumedStatus, NoData)
  {
    var p := StartOne(a);
    p.BackendReports(false, true);
    p.ResumeStream(Ok);
    calls, last := p.backendCalls, p.published[|p.published| - 1];
  }
}
