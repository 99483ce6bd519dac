/** Runs of the coordinator: the host's commands, the engine's status updates
    and the callback (un)registration as one stream of actions, each applied
    atomically in arrival order. Here live the properties that span several
    handlers: the invariant every handler keeps, debouncing across two finish
    signals, the silence after unregistering, and end-to-end scenarios. */
module Session {
  import opened Wrappers
  import opened Queue
  import Engine
  import opened Coordinator

  datatype Action =
    | Setup
    | Load(msg: LoadMessage, lookup: CookieLookup)
    | Pause
    | Resume
    | Stop
    | SkipTo(index: int)
    | SetRate(rate: real)
    | SeekTo(position: real)
    | Register(callback: Subscriber)
    | Unregister
    | StatusUpdate(status: Engine.Status, now: int)

  function Step(s: State, a: Action): State
  {
    match a
    case Setup => SetupPlayer(s)
    case Load(msg, lookup) => DoLoad(s, msg, lookup)
    case Pause => HandlePause(s)
    case Resume => HandleResume(s)
    case Stop => HandleStop(s)
    case SkipTo(index) => HandleSkipTo(s, index)
    case SetRate(rate) => HandleSetRate(s, rate)
    case SeekTo(position) => HandleSeekTo(s, position)
    case Register(cb) => RegisterEventListeners(s, cb)
    case Unregister => UnregisterEventListeners(s)
    case StatusUpdate(st, now) => OnStatusUpdate(s, st, now)
  }

  function Run(s: State, acts: seq<Action>): State
    decreases |acts|
  {
    if acts == [] then s else Run(Step(s, acts[0]), acts[1..])
  }

  /** The caller keeps its side of the load contract: every start index is in range. */
  predicate StartsInRange(a: Action)
  {
    a.Load? ==> LoadSucceeds(a.msg)
  }

  /** Appending commands that create no engine keeps the engine count. */
  lemma AppendKeepsOneEngine(s: State, t: State, extra: seq<Engine.Command>)
    requires OneEngine(s) && t.player == s.player
    requires t.commands == s.commands + extra && Engine.CreatePlayer !in extra
    ensures OneEngine(t)
  {
  }

  /** The handlers that create the engine or move the cursor keep the invariant;
      the class's methods cite these one by one. */
  lemma PlayTrackKeepsValid(s: State, track: QueueTrack)
    requires Valid(s)
    ensures Valid(PlayTrack(s, track))
  {
  }

  lemma GetOrCreateKeepsValid(s: State)
    requires Valid(s)
    ensures Valid(GetOrCreatePlayer(s))
  {
  }

  lemma SetupKeepsValid(s: State)
    requires Valid(s)
    ensures Valid(SetupPlayer(s)) && SetupPlayer(s).player
  {
  }

  lemma LoadKeepsValid(s: State, msg: LoadMessage, lookup: CookieLookup)
    requires Valid(s) && LoadSucceeds(msg)
    ensures Valid(DoLoad(s, msg, lookup))
  {
  }

  lemma RegisterKeepsValid(s: State, cb: Subscriber)
    requires Valid(s)
    ensures Valid(RegisterEventListeners(s, cb))
  {
  }

  lemma StatusUpdateKeepsValid(s: State, st: Engine.Status, now: int)
    requires Valid(s)
    ensures Valid(OnStatusUpdate(s, st, now))
  {
  }

  lemma StatusUpdateKeepsValidAt(s: State, st: Engine.Status, now: int, t: State)
    requires t == OnStatusUpdate(s, st, now)
    ensures Valid(s) ==> Valid(t)
  {
    if Valid(s) { StatusUpdateKeepsValid(s, st, now); }
  }

  lemma SkipKeepsValid(s: State, index: int)
    requires Valid(s)
    ensures Valid(HandleSkipTo(s, index))
  {
  }

  /** Every handler keeps the invariant: at most one engine, created once, and
      a cursor that is -1 or a valid index, provided loads start in range. */
  lemma StepPreservesValid(s: State, a: Action)
    requires Valid(s) && StartsInRange(a)
    ensures Valid(Step(s, a))
  {
    match a
    case Setup => SetupKeepsValid(s);
    case Load(msg, lookup) => LoadKeepsValid(s, msg, lookup);
    case Pause => AppendKeepsOneEngine(s, HandlePause(s), if s.player then [Engine.Pause] else []);
    case Resume => AppendKeepsOneEngine(s, HandleResume(s), if s.player then [Engine.Play] else []);
    case Stop => AppendKeepsOneEngine(s, HandleStop(s), if s.player then StopCommands else []);
    case SkipTo(index) => SkipKeepsValid(s, index);
    case SetRate(rate) =>
      AppendKeepsOneEngine(s, HandleSetRate(s, rate), if s.player then [Engine.SetPlaybackRate(rate)] else []);
    case SeekTo(position) =>
      AppendKeepsOneEngine(s, HandleSeekTo(s, position), if s.player then [Engine.SeekTo(position)] else []);
    case Register(cb) => RegisterKeepsValid(s, cb);
    case Unregister => AppendKeepsOneEngine(s, UnregisterEventListeners(s), [Engine.RemoveStatusListener]);
    case StatusUpdate(st, now) => StatusUpdateKeepsValid(s, st, now);
  }

  lemma {:induction false} RunPreservesValid(s: State, acts: seq<Action>)
    requires Valid(s)
    requires forall i :: 0 <= i < |acts| ==> StartsInRange(acts[i])
    ensures Valid(Run(s, acts))
    decreases |acts|
  {
    if acts != [] {
      StepPreservesValid(s, acts[0]);
      RunPreservesValid(Step(s, acts[0]), acts[1..]);
    }
  }

  /** The invariant is the caller's to keep: a load breaks it exactly when its
      start index is out of range and not -1. */
  lemma LoadPositionsCursor(s: State, msg: LoadMessage, lookup: CookieLookup)
    ensures WellPositioned(DoLoad(s, msg, lookup)) <==> msg.startIndex == -1 || LoadSucceeds(msg)
  {
  }

  /** On a well-positioned queue, queueEnded always names the last entry (or -1
      when the queue is empty), never an index outside the queue. */
  lemma QueueEndedNamesLastEntry(s: State, st: Engine.Status, now: int)
    requires WellPositioned(s)
    ensures var t := OnStatusUpdate(s, st, now);
      forall i :: |s.sent| <= i < |t.sent| && t.sent[i].event.QueueEnded? ==>
        t.sent[i].event.track == |s.queue| - 1
  {
  }

  /** Two finish signals less than DebounceMs apart: the second changes nothing
      but its own playbackState report, so the pair produces at most one
      trackChanged or queueEnded. */
  lemma DuplicateFinishIgnored(s: State, st1: Engine.Status, now1: int, st2: Engine.Status, now2: int)
    requires st1.didJustFinish && st2.didJustFinish
    requires !Debounced(s, now1) && now2 < now1 + DebounceMs
    ensures var t := OnStatusUpdate(s, st1, now1);
      OnStatusUpdate(t, st2, now2) == t.(sent := t.sent + Sends(t.subscriber, Engine.PlaybackStateEvent(Engine.MapStatus(st2))))
  {
  }

  /** Two finish signals at least DebounceMs apart are both accepted: each
      records its time, and each delivers its playbackState report and then a
      trackChanged or a queueEnded. */
  lemma SpacedFinishesAccepted(s: State, st1: Engine.Status, now1: int, st2: Engine.Status, now2: int)
    requires WellPositioned(s) && s.subscriber.Some?
    requires st1.didJustFinish && st2.didJustFinish
    requires !Debounced(s, now1) && now2 >= now1 + DebounceMs
    ensures var t := OnStatusUpdate(s, st1, now1);
      var u := OnStatusUpdate(t, st2, now2);
      && t.lastFinishTime == now1 && u.lastFinishTime == now2
      && |t.sent| == |s.sent| + 2 && |u.sent| == |t.sent| + 2
  {
  }

  lemma SilencedStatusUpdate(s: State, st: Engine.Status, now: int)
    ensures OnStatusUpdate(s.(subscriber := None), st, now) == OnStatusUpdate(s, st, now).(subscriber := None, sent := s.sent)
  {
  }

  lemma SilencedLoad(s: State, msg: LoadMessage, lookup: CookieLookup)
    ensures DoLoad(s.(subscriber := None), msg, lookup) == DoLoad(s, msg, lookup).(subscriber := None, sent := s.sent)
  {
  }

  /** Dropping notifications changes nothing else: any action other than a
      registration, applied with no callback registered, reaches the same state
      as with one, except that nothing is delivered. */
  lemma SilencedStepSameEffect(s: State, a: Action)
    requires !a.Register?
    ensures Step(s.(subscriber := None), a) == Step(s, a).(subscriber := None, sent := s.sent)
  {
    match a
    case Load(msg, lookup) => SilencedLoad(s, msg, lookup);
    case StatusUpdate(st, now) => SilencedStatusUpdate(s, st, now);
    case _ =>
  }

  /** After unregistering, no notification is delivered until a callback is
      registered again. */
  lemma {:induction false} SilentAfterUnregister(s: State, acts: seq<Action>)
    requires s.subscriber == None
    requires forall i :: 0 <= i < |acts| ==> !acts[i].Register?
    ensures Run(s, acts).sent == s.sent && Run(s, acts).subscriber == None
    decreases |acts|
  {
    if acts != [] {
      SilencedStepSameEffect(s, acts[0]);
      assert s.(subscriber := None) == s;
      SilentAfterUnregister(Step(s, acts[0]), acts[1..]);
    }
  }

  /** A load's rate wins over one set before it, and the track it starts plays
      at that rate. */
  lemma LoadRateOverridesEarlierRate(s: State, rate: real, msg: LoadMessage, lookup: CookieLookup)
    requires LoadSucceeds(msg)
    ensures var t := DoLoad(HandleSetRate(s, rate), msg, lookup);
      t.currentRate == msg.rate && t.commands[|t.commands| - 3] == Engine.SetPlaybackRate(msg.rate)
  {
  }

  /** A skip right after setRate plays its track at that rate. */
  lemma SkipUsesLatestRate(s: State, rate: real, index: int)
    requires s.player && 0 <= index < |s.queue|
    ensures var t := HandleSkipTo(HandleSetRate(s, rate), index);
      t.commands[|t.commands| - 3] == Engine.SetPlaybackRate(rate)
  {
  }

  /** Only a load or a setRate changes the stored rate. */
  lemma StepKeepsRate(s: State, a: Action)
    requires !a.Load? && !a.SetRate?
    ensures Step(s, a).currentRate == s.currentRate
  {
    match a
    case StatusUpdate(st, now) =>
    case SkipTo(index) =>
    case _ =>
  }

  lemma {:induction false} RunKeepsRate(s: State, acts: seq<Action>)
    requires forall i :: 0 <= i < |acts| ==> !acts[i].Load? && !acts[i].SetRate?
    ensures Run(s, acts).currentRate == s.currentRate
    decreases |acts|
  {
    if acts != [] {
      StepKeepsRate(s, acts[0]);
      RunKeepsRate(Step(s, acts[0]), acts[1..]);
    }
  }

  /** After setRate(r), however many other handlers run (short of a load or
      another setRate), the next track started, by a skip or by an
      auto-advance, plays at r. */
  lemma LaterTracksPlayAtSetRate(s: State, r: real, acts: seq<Action>, index: int, st: Engine.Status, now: int)
    requires forall i :: 0 <= i < |acts| ==> !acts[i].Load? && !acts[i].SetRate?
    ensures var t := Run(HandleSetRate(s, r), acts);
      && (t.player && 0 <= index < |t.queue| ==>
            HandleSkipTo(t, index).commands == t.commands + PlayCommands(t.queue[index], r))
      && (st.didJustFinish && !Debounced(t, now) && 0 <= t.currentIndex + 1 < |t.queue| ==>
            OnStatusUpdate(t, st, now).commands == t.commands + PlayCommands(t.queue[t.currentIndex + 1], r))
  {
    RunKeepsRate(HandleSetRate(s, r), acts);
  }

  /** Of two loads one after the other, the later one decides the queue, cursor,
      rate and debounce timestamp. */
  lemma LaterLoadWins(s: State, m1: LoadMessage, k1: CookieLookup, m2: LoadMessage, k2: CookieLookup)
    ensures var t := DoLoad(DoLoad(s, m1, k1), m2, k2);
      t.queue == DoLoad(s, m2, k2).queue && t.currentIndex == m2.startIndex
      && t.currentRate == m2.rate && t.lastFinishTime == 0
  {
  }

  /** A stop from any state with an engine empties the queue and keeps the
      invariant; a second stop leaves the queue and cursor as the first did. */
  lemma StopEmptiesQueue(s: State)
    requires s.player
    ensures var t := HandleStop(s);
      && t.queue == [] && t.currentIndex == -1 && (Valid(s) ==> Valid(t))
      && HandleStop(t).queue == t.queue && HandleStop(t).currentIndex == t.currentIndex
  {
  }

  const TrackA := TrackInfo(0, "a", None)
  const TrackB := TrackInfo(1, "b", None)
  const Book := Metadata("Book", "Author", "cover")
  const FinishedAt := Engine.Status(true, false, false, true, 42.0)

  const TwoTracks := LoadMessage([TrackA, TrackB], 0, 1.0, Book)

  /** Load two tracks starting at the first, then the engine reports the end of
      each in turn: the first finish moves on to "b" and reports trackChanged
      {1, 0}; the second reports queueEnded {1, position}. */
  lemma TwoTrackScenario(cb: Subscriber, now: int)
    requires now >= DebounceMs
    ensures var loaded := DoLoad(RegisterEventListeners(Init(), cb), TwoTracks, LookupFailed);
      var first := OnStatusUpdate(loaded, FinishedAt, now);
      var second := OnStatusUpdate(first, FinishedAt, now + DebounceMs);
      && loaded.commands[|loaded.commands| - 4..] == PlayCommands(loaded.queue[0], 1.0)
      && loaded.queue[0].uri == "a"
      && first.currentIndex == 1
      && first.commands == loaded.commands + PlayCommands(loaded.queue[1], 1.0)
      && loaded.queue[1].uri == "b"
      && first.sent[|first.sent| - 1] == Delivery(cb, Engine.TrackChanged(1, 0))
      && second.currentIndex == 1 && second.commands == first.commands
      && second.sent[|second.sent| - 1] == Delivery(cb, Engine.QueueEnded(1, 42.0))
  {
  }

  /** skipTo(5) on a two-track queue: no engine command, no notification. */
  lemma SkipPastEndScenario(cb: Subscriber)
    ensures var loaded := DoLoad(RegisterEventListeners(Init(), cb), TwoTracks, LookupFailed);
      HandleSkipTo(loaded, 5) == loaded
  {
  }
}
