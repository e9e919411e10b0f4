/**
  The playback coordinator. It owns a track queue and a handle on the stream
  backend, decides on every queue change whether to start the current track,
  reacts to the backend's start/end/error events, keeps a single idle-disconnect
  timer and publishes everything on one outbound message stream.

  Every event is one atomic step. The queue's change callback runs synchronously
  inside the mutating call; `startStreaming` runs synchronously up to its first
  `await` (the `playTrack` call), and `PlayTrackSettled` is that await resuming.
*/
module Player {
  import opened Wrappers
  import opened PlayerTypes
  import TrackQueue

  /** The idle-disconnect delay: 1000 * 60 * 15 milliseconds. */
  const DisconnectDelayMs: nat := 900_000

  /** A Node timer handle: it outlives its firing, and `refresh()` re-arms it with its delay. */
  datatype Timeout = Timeout(delayMs: nat, armed: bool)

  /**
    The listeners attached to one playback handle, for the track `startStreaming`
    was given (`None` when it was `undefined`); `start` and `end` are one-shot,
    `error` is not.
  */
  datatype Dispatcher = Dispatcher(track: Option<Track>, startListening: bool, endListening: bool)

  /** The queue-change guard: start only when there is a current track and nothing is pending, playing or paused. */
  predicate StartGate(current: Option<Track>, startPending: bool, playing: bool, paused: bool) {
    current.Some? && !startPending && !playing && !paused
  }

  /** The two status messages republished after every queue change. */
  function Republished(q: TrackQueue.Queue): (ms: seq<Message>)
    requires TrackQueue.Valid(q)
    ensures |ms| == 2 && ms[0].messageType == Status && ms[1].messageType == Status
    ensures ms[0].data == SongData(TrackQueue.Current(q)) && ms[1].data == QueueData(TrackQueue.Remaining(q))
  {
    [Message(Status, CurrentSong, SongData(TrackQueue.Current(q))),
     Message(Status, CurrentQueue, QueueData(TrackQueue.Remaining(q)))]
  }

  /** What a caught backend call publishes: `success` when it returned, one error message when it threw. */
  function Reported(result: Outcome, success: seq<Message>): (ms: seq<Message>)
    ensures result.Ok? ==> ms == success
    ensures result.Throws? ==> ms == [Message(Error, Raw(result.error), NoData)]
  {
    match result
    case Ok => success
    case Throws(e) => [Message(Error, Raw(e), NoData)]
  }

  /** The end handler moves the cursor itself only after an end that is neither a forced stop nor a skip, and only while tracks remain. */
  predicate Advances(reason: EndReason, size: nat) {
    reason != ForceStop && reason != Skip && size > 0
  }

  class MusicPlayer {
    var queue: TrackQueue.Queue
    var startPending: bool
    var currentDisconnectionTimeout: Option<Timeout>
    /** `playing` and `paused` as the stream backend reports them; the player only reads them. */
    var playing: bool
    var paused: bool
    /** Tracks (or `undefined`) whose `playTrack` promise is still being awaited, oldest first. */
    var awaiting: seq<Option<Track>>
    /** The playback handles the player has attached its listeners to. */
    var dispatchers: seq<Dispatcher>
    /** Everything published on the outbound message stream, in order. */
    var published: seq<Message>
    /** Every call made on the stream backend, in order. */
    var backendCalls: seq<BackendCall>
    /** How many timer handles have ever been created. */
    ghost var timeoutsCreated: nat

    /** The queue is well formed, and a timer handle (with the idle delay) exists exactly when one was created: so at most one ever exists. */
    ghost predicate Valid()
      reads this`queue, this`currentDisconnectionTimeout, this`timeoutsCreated
    {
      && TrackQueue.Valid(queue)
      && timeoutsCreated == (if currentDisconnectionTimeout.Some? then 1 else 0)
      && (currentDisconnectionTimeout.Some? ==> currentDisconnectionTimeout.value.delayMs == DisconnectDelayMs)
    }

    /**
      The effect of one run of the queue-change callback on the current queue, given
      the guard, backend calls, awaited requests and messages from just before it ran.
    */
    ghost predicate Notified(pending0: bool, calls0: seq<BackendCall>, awaiting0: seq<Option<Track>>, published0: seq<Message>)
      reads this
      requires TrackQueue.Valid(queue)
    {
      var current := TrackQueue.Current(queue);
      var starts := StartGate(current, pending0, playing, paused);
      && startPending == (pending0 || starts)
      && backendCalls == calls0 + (if starts then [PlayTrack(current)] else [])
      && awaiting == awaiting0 + (if starts then [current] else [])
      && published == published0 + Republished(queue)
    }

    constructor (playing: bool, paused: bool)
      ensures Valid()
      ensures queue == TrackQueue.Empty && !startPending && currentDisconnectionTimeout == None
      ensures this.playing == playing && this.paused == paused
      ensures awaiting == [] && dispatchers == [] && published == [] && backendCalls == []
    {
      queue := TrackQueue.Empty;
      startPending := false;
      currentDisconnectionTimeout := None;
      this.playing := playing;
      this.paused := paused;
      awaiting := [];
      dispatchers := [];
      published := [];
      backendCalls := [];
      timeoutsCreated := 0;
    }

    /** The backend's own state changed (it is not the player that changes it). */
    method BackendReports(playing: bool, paused: bool)
      modifies this`playing, this`paused
      ensures this.playing == playing && this.paused == paused
    {
      this.playing := playing;
      this.paused := paused;
    }

    /** The queue subscription: maybe start the current track, then always republish current and remaining. */
    method QueueChanged()
      requires Valid()
      modifies this`startPending, this`awaiting, this`published, this`backendCalls
      ensures Valid()
      ensures Notified(old(startPending), old(backendCalls), old(awaiting), old(published))
    {
      var current := TrackQueue.Current(queue);
      var msgs := Republished(queue);
      ghost var calls0, awaiting0 := backendCalls, awaiting;
      if current.Some? && !startPending && !playing && !paused {
        StartStreaming(current);
      } else {
        assert backendCalls == calls0 + [] && awaiting == awaiting0 + [];
      }
      published := published + msgs;
    }

    /**
      `startStreaming` up to its `await`: raise the guard, then ask the backend for a
      playback handle for `track`, which is `None` when the caller passed `undefined`.
    */
    method StartStreaming(track: Option<Track>)
      modifies this`startPending, this`awaiting, this`backendCalls
      ensures startPending
      ensures backendCalls == old(backendCalls) + [PlayTrack(track)]
      ensures awaiting == old(awaiting) + [track]
    {
      startPending := true;
      backendCalls := backendCalls + [PlayTrack(track)];
      awaiting := awaiting + [track];
    }

    /**
      The `await` of request `i` resumes. On success the start, end and error
      listeners are attached; on failure the guard is cleared and one error
      message naming the track is published. For an `undefined` track, building
      that message reads `title` of `undefined` and throws out of the `catch`: the
      guard is cleared and nothing is published.
    */
    method PlayTrackSettled(i: nat, result: Outcome)
      requires i < |awaiting|
      modifies this`awaiting, this`dispatchers, this`startPending, this`published
      ensures awaiting == old(awaiting[..i] + awaiting[i + 1..])
      ensures result.Ok? ==>
        && dispatchers == old(dispatchers) + [Dispatcher(old(awaiting[i]), true, true)]
        && startPending == old(startPending)
        && published == old(published)
      ensures result.Throws? ==>
        && dispatchers == old(dispatchers)
        && !startPending
        && (old(awaiting[i]).Some? ==>
              published == old(published) + [Message(Error, StartFailed(old(awaiting[i]).value.title, result.error), NoData)])
        && (old(awaiting[i]).None? ==> published == old(published))
    {
      var track := awaiting[i];
      awaiting := awaiting[..i] + awaiting[i + 1..];
      match result
      case Ok =>
        dispatchers := dispatchers + [Dispatcher(track, true, true)];
      case Throws(e) =>
        startPending := false;
        if track.Some? {
          published := published + [Message(Error, StartFailed(track.value.title, e), NoData)];
        }
    }

    /**
      The `start` listener of handle `d`: clear the guard, announce the track. For an
      `undefined` track the announcement reads `title` of `undefined` and throws,
      after "playing" was published.
    */
    method OnStart(d: nat)
      requires d < |dispatchers| && dispatchers[d].startListening
      modifies this`startPending, this`published, this`dispatchers
      ensures !startPending
      ensures old(dispatchers[d].track).Some? ==>
        published == old(published) + [Message(Status, NowPlayingStatus, NoData), Message(Info, NowPlaying(old(dispatchers[d].track).value.title), NoData)]
      ensures old(dispatchers[d].track).None? ==> published == old(published) + [Message(Status, NowPlayingStatus, NoData)]
      ensures dispatchers == old(dispatchers)[d := Dispatcher(old(dispatchers[d].track), false, old(dispatchers[d].endListening))]
    {
      var track := dispatchers[d].track;
      dispatchers := dispatchers[d := Dispatcher(track, false, dispatchers[d].endListening)];
      startPending := false;
      published := published + [Message(Status, NowPlayingStatus, NoData)];
      if track.Some? {
        published := published + [Message(Info, NowPlaying(track.value.title), NoData)];
      }
    }

    /**
      The `end` listener of handle `d`: announce the track as played; with nothing
      remaining create the one timer if there is none and (re)arm it; after an end
      that is neither a forced stop nor a skip, move forward by one if tracks remain.
      For an `undefined` track the announcement throws first and nothing else happens.
    */
    method OnEnd(d: nat, reason: EndReason)
      requires Valid() && d < |dispatchers| && dispatchers[d].endListening
      modifies this`dispatchers, this`published, this`currentDisconnectionTimeout, this`timeoutsCreated,
        this`queue, this`startPending, this`awaiting, this`backendCalls
      ensures Valid()
      ensures dispatchers == old(dispatchers)[d := Dispatcher(old(dispatchers[d].track), old(dispatchers[d].startListening), false)]
      ensures old(currentDisconnectionTimeout).Some? ==> timeoutsCreated == old(timeoutsCreated)
      ensures old(dispatchers[d].track).None? ==>
        && queue == old(queue) && published == old(published)
        && currentDisconnectionTimeout == old(currentDisconnectionTimeout)
        && startPending == old(startPending) && awaiting == old(awaiting) && backendCalls == old(backendCalls)
      ensures old(dispatchers[d].track).Some? && TrackQueue.Size(old(queue)) == 0 ==>
        currentDisconnectionTimeout == Some(Timeout(DisconnectDelayMs, true))
      ensures TrackQueue.Size(old(queue)) > 0 ==> currentDisconnectionTimeout == old(currentDisconnectionTimeout)
      ensures old(dispatchers[d].track).Some? && Advances(reason, TrackQueue.Size(old(queue))) ==>
        && queue == TrackQueue.MovedTo(old(queue), old(queue).cursor + 1)
        && Notified(old(startPending), old(backendCalls), old(awaiting), old(published) + [Message(Info, Played(old(dispatchers[d].track).value.title), NoData)])
      ensures old(dispatchers[d].track).Some? && !Advances(reason, TrackQueue.Size(old(queue))) ==>
        && queue == old(queue)
        && published == old(published) + [Message(Info, Played(old(dispatchers[d].track).value.title), NoData)]
        && startPending == old(startPending)
        && awaiting == old(awaiting)
        && backendCalls == old(backendCalls)
    {
      var track := dispatchers[d].track;
      dispatchers := dispatchers[d := Dispatcher(track, dispatchers[d].startListening, false)];
      if track.None? {
        return;
      }
      published := published + [Message(Info, Played(track.value.title), NoData)];
      if TrackQueue.Size(queue) == 0 {
        ArmIdleTimer();
      }
      if Advances(reason, TrackQueue.Size(queue)) {
        // with a track remaining, moveForward() lands one step on (TrackQueue.AdvanceOne)
        queue := TrackQueue.MovedTo(queue, queue.cursor + 1);
        QueueChanged();
      }
    }

    /** Create the idle timer if there is none, then `refresh()` it: the one handle is (re)armed, never a second one created. */
    method ArmIdleTimer()
      requires Valid()
      modifies this`currentDisconnectionTimeout, this`timeoutsCreated
      ensures Valid()
      ensures currentDisconnectionTimeout == Some(Timeout(DisconnectDelayMs, true))
      ensures old(currentDisconnectionTimeout).Some? ==> timeoutsCreated == old(timeoutsCreated)
    {
      if currentDisconnectionTimeout.None? {
        currentDisconnectionTimeout := Some(Timeout(DisconnectDelayMs, true));
        timeoutsCreated := timeoutsCreated + 1;
      }
      currentDisconnectionTimeout := Some(Timeout(currentDisconnectionTimeout.value.delayMs, true));
    }

    /** The `error` listener of handle `d`: publish the error; the guard is left as it is. */
    method OnError(d: nat, error: string)
      requires d < |dispatchers|
      modifies this`published
      ensures published == old(published) + [Message(Error, Raw(error), NoData)]
      ensures startPending == old(startPending)
    {
      published := published + [Message(Error, Raw(error), NoData)];
    }

    /**
      `disconnectIfReasonable` called on the player: farewell and disconnect only when
      nothing remains. `disconnect()` is not caught: `thrown` is what it throws.
    */
    method DisconnectIfReasonable(disconnect: Outcome) returns (thrown: Outcome)
      requires Valid()
      modifies this`published, this`backendCalls
      ensures TrackQueue.Size(queue) == 0 ==>
        && published == old(published) + [Message(Info, Farewell, NoData)]
        && backendCalls == old(backendCalls) + [Disconnect]
        && thrown == disconnect
      ensures TrackQueue.Size(queue) > 0 ==> published == old(published) && backendCalls == old(backendCalls) && thrown == Ok
    {
      thrown := Ok;
      if TrackQueue.Size(queue) == 0 {
        published := published + [Message(Info, Farewell, NoData)];
        backendCalls := backendCalls + [Disconnect];
        thrown := disconnect;
      }
    }

    /**
      The idle timer fires, as the code is written: the callback was handed to the
      timer without its receiver, so it runs with `this` bound to the timer handle,
      finds no `queue` there and does nothing.
    */
    method TimerFire()
      requires Valid() && currentDisconnectionTimeout.Some? && currentDisconnectionTimeout.value.armed
      modifies this`currentDisconnectionTimeout
      ensures Valid()
      ensures currentDisconnectionTimeout == Some(Timeout(DisconnectDelayMs, false))
      ensures published == old(published) && backendCalls == old(backendCalls)
    {
      currentDisconnectionTimeout := Some(Timeout(currentDisconnectionTimeout.value.delayMs, false));
    }

    /**
      The idle timer fires with the callback bound to the player, as evidently
      intended; `disconnect` is what the backend's `disconnect()` does.
    */
    method TimerFireBound(disconnect: Outcome) returns (thrown: Outcome)
      requires Valid() && currentDisconnectionTimeout.Some? && currentDisconnectionTimeout.value.armed
      modifies this`currentDisconnectionTimeout, this`published, this`backendCalls
      ensures Valid()
      ensures currentDisconnectionTimeout == Some(Timeout(DisconnectDelayMs, false))
      ensures TrackQueue.Size(queue) == 0 ==>
        && published == old(published) + [Message(Info, Farewell, NoData)]
        && backendCalls == old(backendCalls) + [Disconnect]
        && thrown == disconnect
      ensures TrackQueue.Size(queue) > 0 ==> published == old(published) && backendCalls == old(backendCalls) && thrown == Ok
    {
      currentDisconnectionTimeout := Some(Timeout(currentDisconnectionTimeout.value.delayMs, false));
      thrown := DisconnectIfReasonable(disconnect);
    }

    /** `setVolume`: forward to the backend; a failure is published as an error and nothing else happens. */
    method SetVolume(volume: int, result: Outcome)
      modifies this`published, this`backendCalls
      ensures backendCalls == old(backendCalls) + [ChangeVolume(volume)]
      ensures published == old(published) + Reported(result, [])
    {
      backendCalls := backendCalls + [ChangeVolume(volume)];
      if result.Throws? {
        published := published + [Message(Error, Raw(result.error), NoData)];
      }
    }

    /** `pauseStream`: "paused" only when the backend's `pause()` returned, otherwise a single error. */
    method PauseStream(result: Outcome)
      modifies this`published, this`backendCalls
      ensures backendCalls == old(backendCalls) + [Pause]
      ensures published == old(published) + Reported(result, [Message(Status, PausedStatus, NoData)])
    {
      backendCalls := backendCalls + [Pause];
      match result
      case Ok =>
        published := published + [Message(Status, PausedStatus, NoData)];
      case Throws(e) =>
        published := published + [Message(Error, Raw(e), NoData)];
    }

    /**
      `resumeStream`: when paused, resume the backend and report it; otherwise, when
      tracks remain, start the current track whatever the guard says (`undefined`
      when the queue was rewound before its start); otherwise nothing.
      `result` is what the backend's `resume()` does.
    */
    method ResumeStream(result: Outcome)
      requires Valid()
      modifies this`published, this`backendCalls, this`startPending, this`awaiting
      ensures Valid()
      ensures paused ==>
        && backendCalls == old(backendCalls) + [Resume]
        && published == old(published) + Reported(result, [Message(Status, ResumedStatus, NoData)])
        && startPending == old(startPending) && awaiting == old(awaiting)
      ensures !paused && TrackQueue.Size(queue) > 0 ==>
        && startPending
        && backendCalls == old(backendCalls) + [PlayTrack(TrackQueue.Current(queue))]
        && awaiting == old(awaiting) + [TrackQueue.Current(queue)]
        && published == old(published)
      ensures !paused && TrackQueue.Size(queue) == 0 ==>
        && backendCalls == old(backendCalls) && published == old(published)
        && startPending == old(startPending) && awaiting == old(awaiting)
    {
      if paused {
        backendCalls := backendCalls + [Resume];
        match result
        case Ok =>
          published := published + [Message(Status, ResumedStatus, NoData)];
        case Throws(e) =>
          published := published + [Message(Error, Raw(e), NoData)];
      } else if |TrackQueue.Remaining(queue)| > 0 {
        StartStreaming(TrackQueue.Current(queue));
      }
    }

    /**
      `stopStream`: announce, then `stop()` and `disconnect()` in that order whatever
      the player's state. Neither call is caught: an error from `stop()` propagates
      before `disconnect()` is reached, and `thrown` is what propagates.
    */
    method StopStream(stop: Outcome, disconnect: Outcome) returns (thrown: Outcome)
      modifies this`published, this`backendCalls
      ensures published == old(published) + [Message(Info, Stopping, NoData)]
      ensures stop.Throws? ==> backendCalls == old(backendCalls) + [Stop] && thrown == stop
      ensures stop.Ok? ==> backendCalls == old(backendCalls) + [Stop, Disconnect] && thrown == disconnect
    {
      published := published + [Message(Info, Stopping, NoData)];
      backendCalls := backendCalls + [Stop];
      if stop.Throws? {
        return stop;
      }
      backendCalls := backendCalls + [Disconnect];
      thrown := disconnect;
    }

    /** `enqueue`: append one track; the queue then notifies the player. */
    method Enqueue(track: Track)
      requires Valid()
      modifies this`queue, this`startPending, this`awaiting, this`published, this`backendCalls
      ensures Valid()
      ensures queue == TrackQueue.AddAll(old(queue), [track])
      ensures Notified(old(startPending), old(backendCalls), old(awaiting), old(published))
    {
      queue := TrackQueue.AddAll(queue, [track]);
      QueueChanged();
    }

    /** `enqueueAll`: append the tracks in order; the queue then notifies the player. */
    method EnqueueAll(tracks: seq<Track>)
      requires Valid()
      modifies this`queue, this`startPending, this`awaiting, this`published, this`backendCalls
      ensures Valid()
      ensures queue == TrackQueue.AddAll(old(queue), tracks)
      ensures Notified(old(startPending), old(backendCalls), old(awaiting), old(published))
    {
      queue := TrackQueue.AddAll(queue, tracks);
      QueueChanged();
    }

    /** `clear`: empty the queue; the queue then notifies the player, which can start nothing. */
    method Clear()
      requires Valid()
      modifies this`queue, this`startPending, this`awaiting, this`published, this`backendCalls
      ensures Valid()
      ensures queue == TrackQueue.Empty
      ensures startPending == old(startPending) && awaiting == old(awaiting) && backendCalls == old(backendCalls)
      ensures published == old(published) + Republished(TrackQueue.Empty)
    {
      queue := TrackQueue.Cleared(queue);
      QueueChanged();
    }

    /** `shuffle`, given the order the queue chose for the remaining tracks. */
    method Shuffle(order: seq<Track>)
      requires Valid() && multiset(order) == multiset(TrackQueue.Remaining(queue))
      modifies this`queue, this`startPending, this`awaiting, this`published, this`backendCalls
      ensures Valid()
      ensures queue == TrackQueue.Shuffled(old(queue), order)
      ensures Notified(old(startPending), old(backendCalls), old(awaiting), old(published))
    {
      queue := TrackQueue.Shuffled(queue, order);
      QueueChanged();
    }

    /**
      `skipForward(amount)`: the backend's `skip()` first, then the cursor moves to
      `landing`, where the queue puts it (see `TrackQueue.ForwardLanding`).
      An error from `skip()` is not caught: it propagates and the cursor stays.
    */
    method SkipForward(amount: nat, landing: int, skip: Outcome) returns (thrown: Outcome)
      requires Valid() && TrackQueue.ForwardLanding(queue, amount, landing)
      modifies this`queue, this`startPending, this`awaiting, this`published, this`backendCalls
      ensures Valid()
      ensures thrown == skip
      ensures skip.Throws? ==>
        && queue == old(queue) && backendCalls == old(backendCalls) + [SkipCurrent]
        && published == old(published) && startPending == old(startPending) && awaiting == old(awaiting)
      ensures skip.Ok? ==>
        && queue == TrackQueue.MovedTo(old(queue), landing)
        && Notified(old(startPending), old(backendCalls) + [SkipCurrent], old(awaiting), old(published))
    {
      backendCalls := backendCalls + [SkipCurrent];
      if skip.Throws? {
        return skip;
      }
      queue := TrackQueue.MovedTo(queue, landing);
      QueueChanged();
      thrown := skip;
    }

    /** `skipPrevious(amount)`: as `SkipForward`, moving back to `landing` (see `TrackQueue.BackLanding`). */
    method SkipPrevious(amount: nat, landing: int, skip: Outcome) returns (thrown: Outcome)
      requires Valid() && TrackQueue.BackLanding(queue, amount, landing)
      modifies this`queue, this`startPending, this`awaiting, this`published, this`backendCalls
      ensures Valid()
      ensures thrown == skip
      ensures skip.Throws? ==>
        && queue == old(queue) && backendCalls == old(backendCalls) + [SkipCurrent]
        && published == old(published) && startPending == old(startPending) && awaiting == old(awaiting)
      ensures skip.Ok? ==>
        && queue == TrackQueue.MovedTo(old(queue), landing)
        && Notified(old(startPending), old(backendCalls) + [SkipCurrent], old(awaiting), old(published))
    {
      backendCalls := backendCalls + [SkipCurrent];
      if skip.Throws? {
        return skip;
      }
      queue := TrackQueue.MovedTo(queue, landing);
      QueueChanged();
      thrown := skip;
    }
  }
}
