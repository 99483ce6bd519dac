/** The playback-queue coordinator as transitions over its state: the media
    engine (present or not), the queue and its cursor, the playback rate, the
    debounce timestamp and the registered host callback, together with the log
    of engine commands issued and of notifications delivered. Each handler of
    the native bridge is one function from the state before to the state after. */
module Coordinator {
  import opened Wrappers
  import opened Queue
  import opened Engine

  /** The identity of the host callback passed to registerEventListeners. */
  type Subscriber = nat

  /** One notification handed to a host callback. */
  datatype Delivery = Delivery(to: Subscriber, event: Event)

  datatype State = State(
    player: bool,
    setupDone: bool,
    queue: seq<QueueTrack>,
    currentIndex: int,
    currentRate: real,
    lastFinishTime: int,
    subscriber: Option<Subscriber>,
    commands: seq<Command>,
    sent: seq<Delivery>)

  /** Finish signals closer together than this (in milliseconds) are duplicates. */
  const DebounceMs: int := 500

  /** The audio-session options setupPlayer asks for. */
  const AudioMode: Command := SetAudioMode(true, true, "doNotMix")

  /** What handleStop tells the engine, in order. */
  const StopCommands: seq<Command> := [Pause, SetActiveForLockScreen(false, None), Replace(None)]

  /** At most one engine per process: it has been created once exactly when it exists. */
  predicate OneEngine(s: State)
  {
    multiset(s.commands)[CreatePlayer] == if s.player then 1 else 0
  }

  /** The cursor is -1 (no active track) or an index into the queue. */
  predicate WellPositioned(s: State)
  {
    s.currentIndex == -1 || 0 <= s.currentIndex < |s.queue|
  }

  predicate Valid(s: State)
  {
    OneEngine(s) && WellPositioned(s) && (s.setupDone ==> s.player)
  }

  /** The module's state when it is first loaded. */
  function Init(): (s: State)
    ensures Valid(s) && !s.player && !s.setupDone
    ensures s.queue == [] && s.currentIndex == -1 && s.currentRate == 1.0 && s.lastFinishTime == 0
    ensures s.subscriber == None && s.commands == [] && s.sent == []
  {
    State(false, false, [], -1, 1.0, 0, None, [], [])
  }

  /** `notifyWebView?.(e)`: one delivery while a callback is registered, none otherwise. */
  function Sends(to: Option<Subscriber>, e: Event): (d: seq<Delivery>)
    ensures to.None? ==> d == []
    ensures to.Some? ==> d == [Delivery(to.value, e)]
  {
    match to
    case None => []
    case Some(cb) => [Delivery(cb, e)]
  }

  function Notify(s: State, e: Event): (t: State)
    ensures t.(sent := s.sent) == s
    ensures s.subscriber.None? ==> t.sent == s.sent
    ensures s.subscriber.Some? ==> t.sent == s.sent + [Delivery(s.subscriber.value, e)]
  {
    s.(sent := s.sent + Sends(s.subscriber, e))
  }

  /** The engine exists afterwards; once it exists, asking again changes nothing. */
  function GetOrCreatePlayer(s: State): (t: State)
    ensures t.player
    ensures s.player ==> t == s
    ensures !s.player ==> t == s.(player := true, commands := s.commands + [CreatePlayer])
  {
    if s.player then s else s.(player := true, commands := s.commands + [CreatePlayer])
  }

  /** The commands that start `track` at `rate`: replace the source, set the
      rate, show it on the lock screen, play. */
  function PlayCommands(track: QueueTrack, rate: real): (cmds: seq<Command>)
    ensures |cmds| == 4 && CreatePlayer !in cmds
    ensures cmds[0] == Replace(Some(Source(track.uri, track.headers)))
    ensures cmds[1] == SetPlaybackRate(rate)
    ensures cmds[2] == SetActiveForLockScreen(true, Some(LockScreenInfo(track.title, track.artist, track.artworkUrl)))
    ensures cmds[3] == Play
  {
    [ Replace(Some(Source(track.uri, track.headers))),
      SetPlaybackRate(rate),
      SetActiveForLockScreen(true, Some(LockScreenInfo(track.title, track.artist, track.artworkUrl))),
      Play ]
  }

  /** Playing a track only adds its four commands, at the rate last stored. */
  function PlayTrack(s: State, track: QueueTrack): (t: State)
    ensures t.(commands := s.commands) == s
    ensures t.commands == s.commands + PlayCommands(track, s.currentRate)
  {
    s.(commands := s.commands + PlayCommands(track, s.currentRate))
  }

  /** The first call configures the audio session and creates the engine; later
      calls return the memoised completion and change nothing. */
  function SetupPlayer(s: State): (t: State)
    ensures t.setupDone
    ensures s.setupDone ==> t == s
    ensures !s.setupDone ==>
      t == s.(setupDone := true, player := true,
              commands := s.commands + [AudioMode] + if s.player then [] else [CreatePlayer])
  {
    if s.setupDone then s
    else GetOrCreatePlayer(s.(setupDone := true, commands := s.commands + [AudioMode]))
  }

  /** A load can start its track only when the start index is inside the list. */
  predicate LoadSucceeds(msg: LoadMessage)
  {
    0 <= msg.startIndex < |msg.tracks|
  }

  /** doLoad: after setup, the queue is replaced by the one built from the
      message, the cursor is the start index, the rate the message's rate and the
      debounce timestamp zero; then the start track is played at that rate. An
      out-of-range start index is not checked: the state is replaced all the
      same, and reading the missing entry fails before any engine command. No
      notification is sent. */
  function DoLoad(s: State, msg: LoadMessage, lookup: CookieLookup): (t: State)
    ensures t.player && t.setupDone
    ensures t.queue == BuildQueue(msg.tracks, HeadersFor(msg.tracks, lookup), msg.metadata)
    ensures t.currentIndex == msg.startIndex && t.currentRate == msg.rate && t.lastFinishTime == 0
    ensures t.subscriber == s.subscriber && t.sent == s.sent
    ensures LoadSucceeds(msg) ==>
      t.commands == GetOrCreatePlayer(SetupPlayer(s)).commands + PlayCommands(t.queue[msg.startIndex], msg.rate)
    ensures !LoadSucceeds(msg) ==> t.commands == GetOrCreatePlayer(SetupPlayer(s)).commands
    ensures s.commands <= t.commands
  {
    var ready := GetOrCreatePlayer(SetupPlayer(s));
    var q := BuildQueue(msg.tracks, HeadersFor(msg.tracks, lookup), msg.metadata);
    var loaded := ready.(queue := q, currentIndex := msg.startIndex, currentRate := msg.rate, lastFinishTime := 0);
    if LoadSucceeds(msg) then PlayTrack(loaded, q[msg.startIndex]) else loaded
  }

  /** handlePause: a pause command when the engine exists; nothing else changes. */
  function HandlePause(s: State): (t: State)
    ensures t == s.(commands := s.commands + if s.player then [Pause] else [])
  {
    if s.player then s.(commands := s.commands + [Pause]) else s
  }

  /** handleResume: a play command when the engine exists; nothing else changes. */
  function HandleResume(s: State): (t: State)
    ensures t == s.(commands := s.commands + if s.player then [Play] else [])
  {
    if s.player then s.(commands := s.commands + [Play]) else s
  }

  /** handleSeekTo: the position goes straight to the engine, if there is one. */
  function HandleSeekTo(s: State, position: real): (t: State)
    ensures t == s.(commands := s.commands + if s.player then [SeekTo(position)] else [])
  {
    if s.player then s.(commands := s.commands + [SeekTo(position)]) else s
  }

  /** handleStop: with an engine, whatever the queue held, the queue is empty and
      the cursor -1 afterwards, the engine is paused, taken off the lock screen
      and detached, and nothing is notified; without one nothing happens. */
  function HandleStop(s: State): (t: State)
    ensures !s.player ==> t == s
    ensures s.player ==> t.queue == [] && t.currentIndex == -1 && t.sent == s.sent
    ensures s.player ==> t == s.(queue := [], currentIndex := -1, commands := s.commands + StopCommands)
  {
    if s.player then
      s.(commands := s.commands + StopCommands, currentIndex := -1, queue := [])
    else s
  }

  /** handleSkipTo: without an engine, or with an index outside the queue, nothing
      at all happens. Otherwise the cursor moves to the index, that entry is
      played at the current rate (replace, rate, lock screen, play), and one
      trackChanged naming the new and the previous cursor is notified. */
  function HandleSkipTo(s: State, index: int): (t: State)
    ensures !s.player || index < 0 || index >= |s.queue| ==> t == s
    ensures s.player && 0 <= index < |s.queue| ==>
      t == s.(currentIndex := index,
              commands := s.commands + PlayCommands(s.queue[index], s.currentRate),
              sent := s.sent + Sends(s.subscriber, TrackChanged(index, s.currentIndex)))
  {
    if !s.player || index < 0 || index >= |s.queue| then s
    else Notify(PlayTrack(s.(currentIndex := index), s.queue[index]), TrackChanged(index, s.currentIndex))
  }

  /** handleSetRate: the rate is remembered for every later track and applied
      at once when an engine exists. */
  function HandleSetRate(s: State, rate: real): (t: State)
    ensures t == s.(currentRate := rate, commands := s.commands + if s.player then [SetPlaybackRate(rate)] else [])
  {
    var r := s.(currentRate := rate);
    if s.player then r.(commands := r.commands + [SetPlaybackRate(rate)]) else r
  }

  /** registerEventListeners: the callback replaces any earlier one, the engine
      exists afterwards and a status listener is attached to it. */
  function RegisterEventListeners(s: State, cb: Subscriber): (t: State)
    ensures t.subscriber == Some(cb) && t.player
    ensures t == GetOrCreatePlayer(s).(subscriber := Some(cb), commands := GetOrCreatePlayer(s).commands + [AddStatusListener])
  {
    var p := GetOrCreatePlayer(s.(subscriber := Some(cb)));
    p.(commands := p.commands + [AddStatusListener])
  }

  /** The closure registerEventListeners returns: the listener is removed and the
      callback cleared, so later notifications are dropped. */
  function UnregisterEventListeners(s: State): (t: State)
    ensures t.subscriber == None
    ensures t == s.(subscriber := None, commands := s.commands + [RemoveStatusListener])
  {
    s.(commands := s.commands + [RemoveStatusListener], subscriber := None)
  }

  /** Is this finish signal a duplicate of one accepted less than DebounceMs ago? */
  predicate Debounced(s: State, now: int)
  {
    now - s.lastFinishTime < DebounceMs
  }

  /** The status listener. Every update first notifies its coarse state. An
      update without a finish, or a finish within DebounceMs of the last
      accepted one, does nothing more. An accepted finish records its time; if
      the cursor is before the last entry it moves on by one, that entry is
      played and trackChanged is notified; otherwise nothing is played and
      queueEnded reports the cursor and the engine's position. (A cursor left
      below -1 by an out-of-range load moves on to an index with no entry, and
      reading that entry fails before any engine command or notification.) */
  function OnStatusUpdate(s: State, st: Status, now: int): (t: State)
    ensures s.sent + Sends(s.subscriber, PlaybackStateEvent(MapStatus(st))) <= t.sent
    ensures !st.didJustFinish || Debounced(s, now) ==>
      t == s.(sent := s.sent + Sends(s.subscriber, PlaybackStateEvent(MapStatus(st))))
    ensures st.didJustFinish && !Debounced(s, now) && 0 <= s.currentIndex + 1 < |s.queue| ==>
      t == s.(lastFinishTime := now,
              currentIndex := s.currentIndex + 1,
              commands := s.commands + PlayCommands(s.queue[s.currentIndex + 1], s.currentRate),
              sent := s.sent + Sends(s.subscriber, PlaybackStateEvent(MapStatus(st)))
                             + Sends(s.subscriber, TrackChanged(s.currentIndex + 1, s.currentIndex)))
    ensures st.didJustFinish && !Debounced(s, now) && s.currentIndex >= |s.queue| - 1 ==>
      t == s.(lastFinishTime := now,
              sent := s.sent + Sends(s.subscriber, PlaybackStateEvent(MapStatus(st)))
                             + Sends(s.subscriber, QueueEnded(s.currentIndex, st.currentTime)))
    ensures st.didJustFinish && !Debounced(s, now) && s.currentIndex + 1 < 0 ==>
      t == s.(lastFinishTime := now,
              currentIndex := s.currentIndex + 1,
              sent := s.sent + Sends(s.subscriber, PlaybackStateEvent(MapStatus(st))))
  {
    var reported := Notify(s, PlaybackStateEvent(MapStatus(st)));
    if !st.didJustFinish || Debounced(reported, now) then reported
    else
      var accepted := reported.(lastFinishTime := now);
      var lastIndex := accepted.currentIndex;
      if lastIndex < |accepted.queue| - 1 then
        var moved := accepted.(currentIndex := lastIndex + 1);
        if lastIndex + 1 < 0 then moved
        else Notify(PlayTrack(moved, moved.queue[lastIndex + 1]), TrackChanged(lastIndex + 1, lastIndex))
      else Notify(accepted, QueueEnded(lastIndex, st.currentTime))
  }
}
