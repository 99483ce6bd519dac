/** The native audio bridge as it runs: the module-level variables are the
    fields of one AudioBridge object, and each exported handler is a method that
    reassigns them step by step. Every method's new state is the one the
    matching transition of module Coordinator gives, so the properties proved
    there hold of the object; the handlers that the invariant survives say so. */
module Bridge {
  import opened Wrappers
  import opened Queue
  import Engine
  import C = Coordinator
  import Session

  class AudioBridge {
    var player: bool
    var setupDone: bool
    var queue: seq<QueueTrack>
    var currentIndex: int
    var currentRate: real
    var lastFinishTime: int
    var notifyWebView: Option<C.Subscriber>
    /** Every call made into the engine and the audio session, in order. */
    var commands: seq<Engine.Command>
    /** Every notification handed to a host callback, in order. */
    var sent: seq<C.Delivery>

    function State(): C.State
      reads this
    {
      C.State(player, setupDone, queue, currentIndex, currentRate, lastFinishTime, notifyWebView, commands, sent)
    }

    ghost predicate Valid()
      reads this
    {
      C.Valid(State())
    }

    constructor ()
      ensures State() == C.Init() && Valid()
    {
      player := false;
      setupDone := false;
      queue := [];
      currentIndex := -1;
      currentRate := 1.0;
      lastFinishTime := 0;
      notifyWebView := None;
      commands := [];
      sent := [];
    }

    method GetOrCreatePlayer()
      modifies this
      ensures State() == C.GetOrCreatePlayer(old(State()))
      ensures old(Valid()) ==> Valid()
    {
      ghost var s0 := State();
      if !player {
        commands := commands + [Engine.CreatePlayer];
        player := true;
      }
      if C.Valid(s0) { Session.GetOrCreateKeepsValid(s0); }
    }

    method PlayTrack(track: QueueTrack)
      modifies this
      ensures State() == C.PlayTrack(old(State()), track)
      ensures old(Valid()) ==> Valid()
    {
      ghost var s0 := State();
      commands := commands + [Engine.Replace(Some(Engine.Source(track.uri, track.headers)))];
      commands := commands + [Engine.SetPlaybackRate(currentRate)];
      commands := commands + [Engine.SetActiveForLockScreen(true, Some(Engine.LockScreenInfo(track.title, track.artist, track.artworkUrl)))];
      commands := commands + [Engine.Play];
      if C.Valid(s0) { Session.PlayTrackKeepsValid(s0, track); }
    }

    method Notify(e: Engine.Event)
      modifies this
      ensures State() == C.Notify(old(State()), e)
      ensures old(Valid()) ==> Valid()
    {
      if notifyWebView.Some? {
        sent := sent + [C.Delivery(notifyWebView.value, e)];
      }
    }

    method SetupPlayer()
      modifies this
      ensures State() == C.SetupPlayer(old(State()))
      ensures old(Valid()) ==> Valid()
    {
      ghost var s0 := State();
      if !setupDone {
        setupDone := true;
        commands := commands + [C.AudioMode];
        GetOrCreatePlayer();
      }
      if C.Valid(s0) { Session.SetupKeepsValid(s0); }
    }

    /** doLoad, with the cookie store's answer passed in; `ok` is false when
        the start index has no entry and the load fails. */
    method DoLoad(msg: LoadMessage, lookup: CookieLookup) returns (ok: bool)
      modifies this
      ensures State() == C.DoLoad(old(State()), msg, lookup)
      ensures ok == C.LoadSucceeds(msg)
      ensures old(Valid()) && ok ==> Valid()
    {
      ghost var s0 := State();
      SetupPlayer();
      GetOrCreatePlayer();
      var headers := HeadersFor(msg.tracks, lookup);
      queue := BuildQueue(msg.tracks, headers, msg.metadata);
      currentIndex := msg.startIndex;
      currentRate := msg.rate;
      lastFinishTime := 0;
      ok := 0 <= currentIndex < |queue|;
      if ok {
        PlayTrack(queue[currentIndex]);
      }
      if C.Valid(s0) && ok { Session.LoadKeepsValid(s0, msg, lookup); }
    }

    method HandlePause()
      modifies this
      ensures State() == C.HandlePause(old(State()))
      ensures old(Valid()) ==> Valid()
    {
      ghost var s0 := State();
      if player {
        commands := commands + [Engine.Pause];
      }
      if C.Valid(s0) { Session.StepPreservesValid(s0, Session.Pause); }
    }

    method HandleResume()
      modifies this
      ensures State() == C.HandleResume(old(State()))
      ensures old(Valid()) ==> Valid()
    {
      ghost var s0 := State();
      if player {
        commands := commands + [Engine.Play];
      }
      if C.Valid(s0) { Session.StepPreservesValid(s0, Session.Resume); }
    }

    method HandleStop()
      modifies this
      ensures State() == C.HandleStop(old(State()))
      ensures old(player) ==> queue == [] && currentIndex == -1
      ensures old(Valid()) ==> Valid()
    {
      ghost var s0 := State();
      if player {
        commands := commands + [Engine.Pause];
        commands := commands + [Engine.SetActiveForLockScreen(false, None)];
        commands := commands + [Engine.Replace(None)];
        currentIndex := -1;
        queue := [];
      }
      if C.Valid(s0) { Session.StepPreservesValid(s0, Session.Stop); }
    }

    method HandleSkipTo(index: int)
      modifies this
      ensures State() == C.HandleSkipTo(old(State()), index)
      ensures old(Valid()) ==> Valid()
    {
      ghost var s0 := State();
      if !player || index < 0 || index >= |queue| {
        return;
      }
      var lastIndex := currentIndex;
      currentIndex := index;
      PlayTrack(queue[currentIndex]);
      Notify(Engine.TrackChanged(currentIndex, lastIndex));
      if C.Valid(s0) { Session.SkipKeepsValid(s0, index); }
    }

    method HandleSetRate(rate: real)
      modifies this
      ensures State() == C.HandleSetRate(old(State()), rate)
      ensures old(Valid()) ==> Valid()
    {
      ghost var s0 := State();
      currentRate := rate;
      if player {
        commands := commands + [Engine.SetPlaybackRate(rate)];
      }
      if C.Valid(s0) { Session.StepPreservesValid(s0, Session.SetRate(rate)); }
    }

    method HandleSeekTo(position: real)
      modifies this
      ensures State() == C.HandleSeekTo(old(State()), position)
      ensures old(Valid()) ==> Valid()
    {
      ghost var s0 := State();
      if player {
        commands := commands + [Engine.SeekTo(position)];
      }
      if C.Valid(s0) { Session.StepPreservesValid(s0, Session.SeekTo(position)); }
    }

    method RegisterEventListeners(callback: C.Subscriber)
      modifies this
      ensures State() == C.RegisterEventListeners(old(State()), callback)
      ensures old(Valid()) ==> Valid()
    {
      ghost var s0 := State();
      notifyWebView := Some(callback);
      GetOrCreatePlayer();
      commands := commands + [Engine.AddStatusListener];
      if C.Valid(s0) { Session.RegisterKeepsValid(s0, callback); }
    }

    /** The function registerEventListeners returns. */
    method UnregisterEventListeners()
      modifies this
      ensures State() == C.UnregisterEventListeners(old(State()))
      ensures old(Valid()) ==> Valid()
    {
      ghost var s0 := State();
      commands := commands + [Engine.RemoveStatusListener];
      notifyWebView := None;
      if C.Valid(s0) { Session.StepPreservesValid(s0, Session.Unregister); }
    }

    /** The playbackStatusUpdate listener, called with the time of the update. */
    method OnStatusUpdate(status: Engine.Status, now: int)
      modifies this
      ensures State() == C.OnStatusUpdate(old(State()), status, now)
      ensures old(Valid()) ==> Valid()
    {
      ghost var s0 := State();
      var state := Engine.MapStatus(status);
      Notify(Engine.PlaybackStateEvent(state));
      if status.didJustFinish && now - lastFinishTime >= C.DebounceMs {
        lastFinishTime := now;
        var lastIndex := currentIndex;
        if currentIndex < |queue| - 1 {
          currentIndex := currentIndex + 1;
          // below 0, queue[currentIndex] is undefined: playTrack throws before any engine call
          if currentIndex >= 0 {
            PlayTrack(queue[currentIndex]);
            Notify(Engine.TrackChanged(currentIndex, lastIndex));
          }
        } else {
          Notify(Engine.QueueEnded(lastIndex, status.currentTime));
        }
      }
      assert State() == C.OnStatusUpdate(s0, status, now);
      Session.StatusUpdateKeepsValidAt(s0, status, now, State());
    }
  }
}
