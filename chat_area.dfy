/** The active-room chat view: the message list, the online and typing sets, the draft,
    the single "stop typing" timer, the socket listeners its effects register and remove,
    and the events it emits. Time is a millisecond clock advanced by `Tick`; emitted socket
    events are an append-only log; the socket's listener table is a map from event name to
    listener list. */
module ChatArea {
  import opened Wrappers
  import opened Text
  import opened Entities
  import opened Http

  const StopTypingDelay: nat := 1000
  const FetchMessagesError: string := "Failed to fetch messages."
  const FetchUserError: string := "Failed to fetch user."

  /** Who is typing where: `{ sender: user._id, roomId: selectedRoom._id }`. */
  datatype Stamp = Stamp(sender: Option<UserId>, roomId: RoomId)

  /** Client-to-server socket events. */
  datatype Outgoing =
    | JoinRoom(roomId: RoomId)
    | SendMessage(text: string, sender: Option<string>, roomId: RoomId)
    | Typing(stamp: Stamp)
    | StopTyping(stamp: Stamp)

  /** One `socket.emit`, with the clock reading at which it happened. */
  datatype Emission = Emission(at: nat, event: Outgoing)

  // ---------------------------------------------------------------------------
  // Typing debouncer

  /** The pending `setTimeout`: when it fires and the stamp its closure captured (none when
      the socket or the room was missing at the keystroke). */
  datatype Timer = Timer(due: nat, stop: Option<Stamp>)

  /** The clock, the one timer slot (`typingTimeoutRef`) and the emission log. */
  datatype Debouncer = Debouncer(now: nat, timer: Option<Timer>, log: seq<Emission>)

  /** A keystroke: cancel the pending timer, emit `typing` at once (when addressed), and arm a
      fresh timer for `StopTypingDelay` ms later. */
  function AfterKeystroke(d: Debouncer, who: Option<Stamp>): (r: Debouncer)
    ensures r.now == d.now && r.timer == Some(Timer(d.now + StopTypingDelay, who))
    ensures |d.log| <= |r.log| <= |d.log| + 1 && r.log[..|d.log|] == d.log
    ensures |r.log| == |d.log| + 1 <==> who.Some?
    ensures who.Some? ==> r.log[|d.log|] == Emission(d.now, Typing(who.value))
  {
    var typed := if who.Some? then [Emission(d.now, Typing(who.value))] else [];
    Debouncer(d.now, Some(Timer(d.now + StopTypingDelay, who)), d.log + typed)
  }

  /** `dt` ms pass; a timer falling due in that span fires once, at its due time. */
  function AfterDelay(d: Debouncer, dt: nat): (r: Debouncer)
    ensures r.now == d.now + dt
    ensures |d.log| <= |r.log| <= |d.log| + 1 && r.log[..|d.log|] == d.log
    ensures d.timer.Some? && d.timer.value.due <= d.now + dt ==> r.timer == None
    ensures !(d.timer.Some? && d.timer.value.due <= d.now + dt) ==> r.timer == d.timer && r.log == d.log
    ensures |r.log| == |d.log| + 1 <==>
      d.timer.Some? && d.timer.value.due <= d.now + dt && d.timer.value.stop.Some?
    ensures |r.log| == |d.log| + 1 ==>
      r.log[|d.log|] == Emission(d.timer.value.due, StopTyping(d.timer.value.stop.value))
  {
    var t := d.now + dt;
    if d.timer.Some? && d.timer.value.due <= t then
      var stop := d.timer.value.stop;
      var fired := if stop.Some? then [Emission(d.timer.value.due, StopTyping(stop.value))] else [];
      Debouncer(t, None, d.log + fired)
    else
      d.(now := t)
  }

  /** A burst of keystrokes: one, then one more after each gap. */
  function Burst(d: Debouncer, who: Option<Stamp>, gaps: seq<nat>): Debouncer
    decreases |gaps|
  {
    if gaps == [] then AfterKeystroke(d, who)
    else AfterKeystroke(AfterDelay(Burst(d, who, gaps[..|gaps| - 1]), gaps[|gaps| - 1]), who)
  }

  function Sum(gaps: seq<nat>): nat {
    if gaps == [] then 0 else Sum(gaps[..|gaps| - 1]) + gaps[|gaps| - 1]
  }

  predicate ShortGaps(gaps: seq<nat>) {
    forall i :: 0 <= i < |gaps| ==> gaps[i] < StopTypingDelay
  }

  /** During a burst with gaps under the delay, no timer fires: the log grows by one `typing`
      per keystroke, and exactly one timer is pending, due `StopTypingDelay` after the last. */
  lemma {:induction false} BurstEmitsOnlyTyping(d: Debouncer, who: Option<Stamp>, gaps: seq<nat>)
    requires who.Some? && ShortGaps(gaps)
    ensures Burst(d, who, gaps).now == d.now + Sum(gaps)
    ensures Burst(d, who, gaps).timer == Some(Timer(d.now + Sum(gaps) + StopTypingDelay, who))
    ensures |Burst(d, who, gaps).log| == |d.log| + |gaps| + 1
    ensures Burst(d, who, gaps).log[..|d.log|] == d.log
    ensures forall i :: |d.log| <= i < |Burst(d, who, gaps).log| ==> Burst(d, who, gaps).log[i].event == Typing(who.value)
    decreases |gaps|
  {
    if gaps != [] {
      var init := gaps[..|gaps| - 1];
      assert ShortGaps(init) by {
        assert forall i :: 0 <= i < |init| ==> init[i] == gaps[i];
      }
      BurstEmitsOnlyTyping(d, who, init);
      var b := Burst(d, who, init);
      var c := AfterDelay(b, gaps[|gaps| - 1]);
      assert c == b.(now := b.now + gaps[|gaps| - 1]);
      assert Burst(d, who, gaps).log == b.log + [Emission(c.now, Typing(who.value))];
    }
  }

  /** A burst of N keystrokes with gaps under the delay, then a quiet spell of the delay,
      emits N `typing` events and then exactly one `stopTyping`, `StopTypingDelay` ms after
      the last keystroke, and leaves no timer pending. */
  lemma BurstThenIdle(d: Debouncer, who: Option<Stamp>, gaps: seq<nat>)
    requires who.Some? && ShortGaps(gaps)
    ensures var e := AfterDelay(Burst(d, who, gaps), StopTypingDelay);
      && |e.log| == |d.log| + |gaps| + 2
      && e.log[..|d.log|] == d.log
      && (forall i :: |d.log| <= i < |e.log| - 1 ==> e.log[i].event == Typing(who.value))
      && e.log[|e.log| - 1] == Emission(d.now + Sum(gaps) + StopTypingDelay, StopTyping(who.value))
      && e.timer == None
  {
    BurstEmitsOnlyTyping(d, who, gaps);
  }

  /** A keystroke always leaves exactly one timer, due a full delay later, whatever was
      pending before; the replaced timer never fires. */
  lemma KeystrokeRearms(d: Debouncer, who: Option<Stamp>, dt: nat)
    requires dt < StopTypingDelay
    ensures AfterKeystroke(d, who).timer == Some(Timer(d.now + StopTypingDelay, who))
    ensures AfterDelay(AfterKeystroke(d, who), dt).log == AfterKeystroke(d, who).log
  {
  }

  // ---------------------------------------------------------------------------
  // Socket listener table

  datatype EventName = OnlineUsersEvent | NewMessageEvent | UserTypingEvent | UserStopTypingEvent

  /** A listener closure, identified by the effect run that created it. */
  datatype Handler = Handler(run: nat)

  type Registry = map<EventName, seq<Handler>>

  function Listeners(reg: Registry, e: EventName): seq<Handler> {
    if e in reg then reg[e] else []
  }

  /** `socket.on(e, h)` */
  function On(reg: Registry, e: EventName, h: Handler): Registry {
    reg[e := Listeners(reg, e) + [h]]
  }

  function RemoveFirst(hs: seq<Handler>, h: Handler): seq<Handler> {
    if hs == [] then [] else if hs[0] == h then hs[1..] else [hs[0]] + RemoveFirst(hs[1..], h)
  }

  /** One occurrence of `h` leaves the list, and nothing changes when there is none. */
  lemma {:induction false} RemoveFirstDropsOne(hs: seq<Handler>, h: Handler)
    ensures multiset(RemoveFirst(hs, h)) == multiset(hs) - multiset{h}
    ensures h !in hs ==> RemoveFirst(hs, h) == hs
  {
    if hs != [] {
      assert hs == [hs[0]] + hs[1..];
      if hs[0] != h {
        RemoveFirstDropsOne(hs[1..], h);
      }
    }
  }

  /** `socket.off(e, h)` removes that one listener. */
  function Off(reg: Registry, e: EventName, h: Handler): Registry {
    reg[e := RemoveFirst(Listeners(reg, e), h)]
  }

  /** `socket.off(e)` removes every listener of `e`. */
  function OffAll(reg: Registry, e: EventName): Registry {
    reg[e := []]
  }

  /** Each socket call touches the listeners of its own event only: `on` appends one,
      `off(e, h)` removes one copy of `h`, `off(e)` removes all. */
  lemma SubscriptionsTouchOneEvent(reg: Registry, e: EventName, h: Handler, x: EventName)
    ensures Listeners(On(reg, e, h), e) == Listeners(reg, e) + [h]
    ensures multiset(Listeners(Off(reg, e, h), e)) == multiset(Listeners(reg, e)) - multiset{h}
    ensures Listeners(OffAll(reg, e), e) == []
    ensures x != e ==>
              Listeners(On(reg, e, h), x) == Listeners(reg, x) && Listeners(Off(reg, e, h), x) == Listeners(reg, x)
              && Listeners(OffAll(reg, e), x) == Listeners(reg, x)
  {
    RemoveFirstDropsOne(Listeners(reg, e), h);
  }

  /** What the two subscription effects depend on: the selected room and the socket. */
  datatype Deps = Deps(room: Option<RoomId>, socket: bool)

  /** The effects' set-up: the room effect subscribes `onlineUsers` when room and socket are
      both there; the socket effect subscribes `newMessage` whenever the socket is there, and
      `userTyping`/`userStopTyping` when a room is selected as well. */
  function SetUp(reg: Registry, d: Deps, h: Handler): Registry {
    var a := if d.room.Some? && d.socket then On(reg, OnlineUsersEvent, h) else reg;
    if !d.socket then a
    else
      var b := On(a, NewMessageEvent, h);
      if d.room.Some? then On(On(b, UserTypingEvent, h), UserStopTypingEvent, h) else b
  }

  /** The cleanups those set-ups returned: `off("onlineUsers")`, and `off("newMessage", h)`,
      `off("userTyping")`, `off("userStopTyping")`. */
  function CleanUp(reg: Registry, d: Deps, h: Handler): Registry {
    var a := if d.room.Some? && d.socket then OffAll(reg, OnlineUsersEvent) else reg;
    if !d.socket then a
    else OffAll(OffAll(Off(a, NewMessageEvent, h), UserTypingEvent), UserStopTypingEvent)
  }

  /** The listeners of `e` while the view is mounted with `d` and its effects ran as run `h`. */
  function Expected(d: Deps, h: Handler, mounted: bool, e: EventName): seq<Handler> {
    if !mounted || !d.socket then []
    else if e == NewMessageEvent || d.room.Some? then [h]
    else []
  }

  ghost predicate Mirrors(reg: Registry, d: Deps, h: Handler, mounted: bool) {
    forall e :: Listeners(reg, e) == Expected(d, h, mounted, e)
  }

  /** The set-up adds, after whatever the socket already had, one listener of this run for
      each event the dependencies call for. */
  lemma SetUpAppends(reg: Registry, d: Deps, h: Handler, e: EventName)
    ensures Listeners(SetUp(reg, d, h), e) == Listeners(reg, e) + Expected(d, h, true, e)
  {
    var a := if d.room.Some? && d.socket then On(reg, OnlineUsersEvent, h) else reg;
    assert Listeners(a, e) == Listeners(reg, e) + if e == OnlineUsersEvent && d.room.Some? && d.socket then [h] else [];
    if d.socket {
      var b := On(a, NewMessageEvent, h);
      assert Listeners(b, e) == if e == NewMessageEvent then Listeners(a, e) + [h] else Listeners(a, e);
    }
  }

  /** The cleanup empties `onlineUsers` when the room effect had subscribed, and, when the
      socket effect had run, removes its own `newMessage` listener and every `userTyping`
      and `userStopTyping` listener, whoever installed them. */
  lemma CleanUpRemoves(reg: Registry, d: Deps, h: Handler, e: EventName)
    ensures e == OnlineUsersEvent ==>
      Listeners(CleanUp(reg, d, h), e) == if d.room.Some? && d.socket then [] else Listeners(reg, e)
    ensures e == NewMessageEvent ==>
      Listeners(CleanUp(reg, d, h), e) == if d.socket then RemoveFirst(Listeners(reg, e), h) else Listeners(reg, e)
    ensures e == UserTypingEvent || e == UserStopTypingEvent ==>
      Listeners(CleanUp(reg, d, h), e) == if d.socket then [] else Listeners(reg, e)
  {
    var a := if d.room.Some? && d.socket then OffAll(reg, OnlineUsersEvent) else reg;
    if d.socket {
      var m := Off(a, NewMessageEvent, h);
      var t := OffAll(m, UserTypingEvent);
      assert CleanUp(reg, d, h) == OffAll(t, UserStopTypingEvent);
      if e == NewMessageEvent {
        assert Listeners(a, e) == Listeners(reg, e);
        assert Listeners(t, e) == Listeners(m, e) == RemoveFirst(Listeners(reg, e), h);
      } else if e == OnlineUsersEvent {
        assert Listeners(t, e) == Listeners(m, e) == Listeners(a, e);
      } else if e == UserTypingEvent {
        assert Listeners(t, e) == [];
      }
    } else {
      assert CleanUp(reg, d, h) == reg;
    }
  }

  /** The `newMessage` cleanup removes exactly one copy of the run's own handler, so a
      handler of another run survives it. */
  lemma CleanUpDropsOwnHandler(reg: Registry, d: Deps, h: Handler)
    requires d.socket
    ensures multiset(Listeners(CleanUp(reg, d, h), NewMessageEvent)) == multiset(Listeners(reg, NewMessageEvent)) - multiset{h}
  {
    CleanUpRemoves(reg, d, h, NewMessageEvent);
    RemoveFirstDropsOne(Listeners(reg, NewMessageEvent), h);
  }

  /** Mounting on a socket with no listeners installs exactly the expected ones. */
  lemma MountInstalls(reg: Registry, d: Deps, h: Handler)
    requires forall e :: Listeners(reg, e) == []
    ensures Mirrors(SetUp(reg, d, h), d, h, true)
  {
    forall e
      ensures Listeners(SetUp(reg, d, h), e) == Expected(d, h, true, e)
    {
      SetUpAppends(reg, d, h, e);
      assert Listeners(reg, e) == [];
    }
  }

  /** A re-run of the effects (cleanup of the old run, set-up of the new) leaves exactly the
      new run's listeners. */
  lemma SwitchReinstalls(reg: Registry, d1: Deps, h1: Handler, d2: Deps, h2: Handler)
    requires Mirrors(reg, d1, h1, true)
    ensures Mirrors(SetUp(CleanUp(reg, d1, h1), d2, h2), d2, h2, true)
  {
    var c := CleanUp(reg, d1, h1);
    forall e
      ensures Listeners(c, e) == []
    {
      assert Listeners(reg, e) == Expected(d1, h1, true, e);
    }
    MountInstalls(c, d2, h2);
  }

  /** Unmounting removes every listener the view registered. */
  lemma UnmountRemovesAll(reg: Registry, d: Deps, h: Handler)
    requires Mirrors(reg, d, h, true)
    ensures Mirrors(CleanUp(reg, d, h), d, h, false)
  {
    var c := CleanUp(reg, d, h);
    forall e
      ensures Listeners(c, e) == []
    {
      assert Listeners(reg, e) == Expected(d, h, true, e);
    }
  }

  /** The listener table after mounting with `d` and then re-running the effects for each
      dependency change in `changes`; run numbers count the effect runs. */
  function AfterChanges(reg: Registry, d: Deps, run: nat, changes: seq<Deps>): Registry
    decreases |changes|
  {
    if changes == [] then reg
    else AfterChanges(SetUp(CleanUp(reg, d, Handler(run)), changes[0], Handler(run + 1)), changes[0], run + 1, changes[1..])
  }

  function LastDeps(d: Deps, changes: seq<Deps>): Deps {
    if changes == [] then d else changes[|changes| - 1]
  }

  /** However many times the room or socket changes, the table holds exactly the latest
      run's listeners. */
  lemma {:induction false} ChangesReinstall(reg: Registry, d: Deps, run: nat, changes: seq<Deps>)
    requires Mirrors(reg, d, Handler(run), true)
    ensures Mirrors(AfterChanges(reg, d, run, changes), LastDeps(d, changes), Handler(run + |changes|), true)
    decreases |changes|
  {
    if changes != [] {
      SwitchReinstalls(reg, d, Handler(run), changes[0], Handler(run + 1));
      ChangesReinstall(SetUp(CleanUp(reg, d, Handler(run)), changes[0], Handler(run + 1)), changes[0], run + 1, changes[1..]);
      assert LastDeps(changes[0], changes[1..]) == LastDeps(d, changes);
    }
  }

  /** So each event has at most one listener after any sequence of changes: a `newMessage`
      is never appended twice. */
  lemma AtMostOneListenerAfterChanges(reg: Registry, d: Deps, run: nat, changes: seq<Deps>)
    requires Mirrors(reg, d, Handler(run), true)
    ensures forall e :: |Listeners(AfterChanges(reg, d, run, changes), e)| <= 1
  {
    ChangesReinstall(reg, d, run, changes);
    var r := AfterChanges(reg, d, run, changes);
    forall e
      ensures |Listeners(r, e)| <= 1
    {
      assert Listeners(r, e) == Expected(LastDeps(d, changes), Handler(run + |changes|), true, e);
    }
  }

  // ---------------------------------------------------------------------------
  // Incoming events and the view state they change

  /** Server-to-client socket events. */
  datatype Incoming =
    | OnlineUsers(ids: seq<UserId>)
    | NewMessage(sender: string, text: string)
    | UserTyping(ids: seq<UserId>)
    | UserStopTyping(id: UserId)

  function NameOf(ev: Incoming): EventName {
    match ev
    case OnlineUsers(_) => OnlineUsersEvent
    case NewMessage(_, _) => NewMessageEvent
    case UserTyping(_) => UserTypingEvent
    case UserStopTyping(_) => UserStopTypingEvent
  }

  /** The three pieces of state the listeners write. */
  datatype View = View(messages: seq<Message>, online: set<UserId>, typing: set<UserId>)

  /** One listener call. `newMessage` appends at the tail, stamped with the receipt time and
      whatever room it came from; `onlineUsers` and `userTyping` replace their set with the
      received ids; `userStopTyping` removes one id. */
  function Handle(v: View, ev: Incoming, now: nat): (r: View)
    ensures ev.NewMessage? ==>
      |r.messages| == |v.messages| + 1 && r.messages[..|v.messages|] == v.messages
      && r.messages[|v.messages|] == Message(ev.sender, ev.text, ReceivedAt(now))
    ensures !ev.NewMessage? ==> r.messages == v.messages
    ensures ev.OnlineUsers? ==> (forall u :: u in r.online <==> u in ev.ids)
    ensures !ev.OnlineUsers? ==> r.online == v.online
    ensures ev.UserTyping? ==> (forall u :: u in r.typing <==> u in ev.ids)
    ensures ev.UserStopTyping? ==> (forall u :: u in r.typing <==> u in v.typing && u != ev.id)
    ensures ev.NewMessage? || ev.OnlineUsers? ==> r.typing == v.typing
  {
    match ev
    case OnlineUsers(ids) => v.(online := set u | u in ids)
    case NewMessage(sender, text) => v.(messages := v.messages + [Message(sender, text, ReceivedAt(now))])
    case UserTyping(ids) => v.(typing := set u | u in ids)
    case UserStopTyping(id) => v.(typing := v.typing - {id})
  }

  function Copies(m: Message, k: nat): (r: seq<Message>)
    ensures |r| == k && forall i :: 0 <= i < k ==> r[i] == m
  {
    if k == 0 then [] else [m] + Copies(m, k - 1)
  }

  /** The socket calls each of the `k` listeners of the event in turn: `k` listeners append
      `k` copies of a new message; for the other events a second call changes nothing more,
      so any positive number of listeners acts like one. */
  function HandleEach(v: View, ev: Incoming, now: nat, k: nat): (r: View)
    ensures ev.NewMessage? ==>
      r == v.(messages := v.messages + Copies(Message(ev.sender, ev.text, ReceivedAt(now)), k))
    ensures !ev.NewMessage? && k >= 1 ==> r == Handle(v, ev, now)
    ensures k == 0 ==> r == v
    decreases k
  {
    if k == 0 then v
    else
      var w := Handle(v, ev, now);
      var r := HandleEach(w, ev, now, k - 1);
      if ev.NewMessage? then
        var m := Message(ev.sender, ev.text, ReceivedAt(now));
        assert w.messages == v.messages + [m];
        assert Copies(m, k) == [m] + Copies(m, k - 1);
        r
      else
        assert k > 1 ==> Handle(w, ev, now) == w;
        r
  }

  /** The server's history record: `{ user: { username }, message, createdAt }`. */
  datatype ServerUser = ServerUser(username: string)
  datatype ServerMessage = ServerMessage(user: Option<ServerUser>, message: string, createdAt: string)

  /** The `map` in `fetchMessages`: field by field, in order; a record without `user` makes
      `message.user.username` throw, which fails the whole batch. */
  function MapHistory(batch: seq<ServerMessage>): (r: Option<seq<Message>>)
    ensures r.Some? <==> forall i :: 0 <= i < |batch| ==> batch[i].user.Some?
    ensures r.Some? ==> |r.value| == |batch|
    ensures r.Some? ==> forall i :: 0 <= i < |batch| ==>
      r.value[i] == Message(batch[i].user.value.username, batch[i].message, CreatedAt(batch[i].createdAt))
  {
    if batch == [] then Some([])
    else if batch[0].user.None? then None
    else
      var rest := MapHistory(batch[1..]);
      assert forall i :: 1 <= i < |batch| ==> batch[1..][i - 1] == batch[i];
      if rest.None? then None
      else
        var head := Message(batch[0].user.value.username, batch[0].message, CreatedAt(batch[0].createdAt));
        Some([head] + rest.value)
  }

  // ---------------------------------------------------------------------------
  // The component

  datatype SendOutcome =
    | Rejected   // blank draft or no room: nothing happens
    | Threw      // no socket: `socket.emit` throws before the draft is cleared
    | Sent

  class Session {
    // from the chat context
    var room: Option<RoomId>
    var socket: bool
    var mounted: bool
    // component state
    var user: User
    var messages: seq<Message>
    var onlineUsers: set<UserId>
    var usersTyping: set<UserId>
    var draft: string
    var error: string
    // clock, timer slot and emitted events
    var now: nat
    var timer: Option<Timer>
    var emitted: seq<Emission>
    // the socket's listener table, the current effect run, and history requests in flight
    var listeners: Registry
    var run: nat
    var fetches: seq<RoomId>

    function CurrentDeps(): Deps
      reads this
    {
      Deps(room, socket)
    }

    function CurrentView(): View
      reads this
    {
      View(messages, onlineUsers, usersTyping)
    }

    function Clock(): Debouncer
      reads this
    {
      Debouncer(now, timer, emitted)
    }

    /** Where `typing`/`stopTyping` go: only with a socket and a room (the `user` test always
        passes, since `user` starts as `{}`), from `user._id`, to the current room. */
    function Addressee(): Option<Stamp>
      reads this
    {
      if socket && room.Some? then Some(Stamp(user.id, room.value)) else None
    }

    ghost predicate Valid()
      reads this
    {
      && Mirrors(listeners, CurrentDeps(), Handler(run), mounted)
      && (timer.Some? ==> now < timer.value.due <= now + StopTypingDelay)
      && (forall i :: 0 <= i < |emitted| ==> emitted[i].at <= now)
    }

    /** Mounting: the room effect starts the history fetch and emits `joinRoom`, and both
        effects subscribe their listeners. */
    constructor (room: Option<RoomId>, socket: bool)
      ensures Valid() && mounted && this.room == room && this.socket == socket
      ensures messages == [] && onlineUsers == {} && usersTyping == {}
      ensures draft == "" && error == "" && user == User(None, None)
      ensures now == 0 && timer == None
      ensures room.Some? && socket ==> emitted == [Emission(0, JoinRoom(room.value))] && fetches == [room.value]
      ensures !(room.Some? && socket) ==> emitted == [] && fetches == []
    {
      this.room, this.socket, mounted := room, socket, true;
      user := User(None, None);
      messages, onlineUsers, usersTyping := [], {}, {};
      draft, error := "", "";
      now, timer := 0, None;
      run := 0;
      var reg: Registry := map[];
      MountInstalls(reg, Deps(room, socket), Handler(0));
      listeners := SetUp(reg, Deps(room, socket), Handler(0));
      if room.Some? && socket {
        emitted := [Emission(0, JoinRoom(room.value))];
        fetches := [room.value];
      } else {
        emitted := [];
        fetches := [];
      }
    }

    /** A new selected room or socket reference: the old effects' cleanups run, then the
        effects run again. The messages, the online and typing sets, the draft and the typing
        timer are outside its frame: nothing resets them. */
    method ChangeDeps(newRoom: Option<RoomId>, newSocket: bool)
      requires Valid() && mounted
      modifies this`room, this`socket, this`run, this`listeners, this`fetches, this`emitted
      ensures Valid() && room == newRoom && socket == newSocket
      ensures run == old(run) + 1
      ensures listeners == SetUp(CleanUp(old(listeners), old(CurrentDeps()), Handler(old(run))), CurrentDeps(), Handler(run))
      ensures newRoom.Some? && newSocket ==>
        emitted == old(emitted) + [Emission(now, JoinRoom(newRoom.value))] && fetches == old(fetches) + [newRoom.value]
      ensures !(newRoom.Some? && newSocket) ==> emitted == old(emitted) && fetches == old(fetches)
    {
      var next := SetUp(CleanUp(listeners, CurrentDeps(), Handler(run)), Deps(newRoom, newSocket), Handler(run + 1));
      SwitchReinstalls(listeners, CurrentDeps(), Handler(run), Deps(newRoom, newSocket), Handler(run + 1));
      room, socket, run, listeners := newRoom, newSocket, run + 1, next;
      if newRoom.Some? && newSocket {
        fetches := fetches + [newRoom.value];
        emitted := emitted + [Emission(now, JoinRoom(newRoom.value))];
      }
    }

    /** Unmounting runs the cleanups; the typing timer is not cleared and still fires. */
    method Unmount()
      requires Valid() && mounted
      modifies this`listeners, this`mounted
      ensures Valid() && !mounted
      ensures forall e :: Listeners(listeners, e) == []
    {
      UnmountRemovesAll(listeners, CurrentDeps(), Handler(run));
      listeners := CleanUp(listeners, CurrentDeps(), Handler(run));
      mounted := false;
    }

    /** The socket delivers `ev` to each of its listeners for that event. */
    method Receive(ev: Incoming)
      requires Valid()
      modifies this`messages, this`onlineUsers, this`usersTyping
      ensures Valid()
      ensures CurrentView() == HandleEach(old(CurrentView()), ev, now, |Listeners(listeners, NameOf(ev))|)
      ensures ev.NewMessage? && mounted && socket ==>
        messages == old(messages) + [Message(ev.sender, ev.text, ReceivedAt(now))]
      ensures (ev.NewMessage? && mounted && socket) || (!ev.NewMessage? && mounted && socket && room.Some?) ==>
        CurrentView() == Handle(old(CurrentView()), ev, now)
      ensures !(mounted && socket) || (!ev.NewMessage? && room.None?) ==> CurrentView() == old(CurrentView())
    {
      var k := |Listeners(listeners, NameOf(ev))|;
      assert Listeners(listeners, NameOf(ev)) == Expected(CurrentDeps(), Handler(run), mounted, NameOf(ev));
      var v := HandleEach(CurrentView(), ev, now, k);
      messages, onlineUsers, usersTyping := v.messages, v.online, v.typing;
    }

    /** The history request `fetches[k]` answers. Its result overwrites the message list
        whichever room is selected now, dropping live messages that came before it. */
    method HistoryLoaded(k: nat, outcome: HttpOutcome<seq<ServerMessage>>)
      requires Valid() && k < |fetches|
      modifies this`fetches, this`messages, this`error
      ensures Valid()
      ensures fetches == old(fetches[..k] + fetches[k + 1..])
      ensures !mounted ==> messages == old(messages) && error == old(error)
      ensures mounted && outcome.Ok? && MapHistory(outcome.value).Some? ==>
        messages == MapHistory(outcome.value).value && error == old(error)
      ensures mounted && (outcome.Failed? || MapHistory(outcome.value).None?) ==>
        messages == old(messages) && error == FetchMessagesError
    {
      fetches := fetches[..k] + fetches[k + 1..];
      if !mounted {
        return;
      }
      match outcome {
        case Ok(batch) =>
          var mapped := MapHistory(batch);
          if mapped.Some? {
            messages := mapped.value;
          } else {
            error := FetchMessagesError;
          }
        case Failed(_) =>
          error := FetchMessagesError;
      }
    }

    /** The profile request answers; only a 200 response is taken. */
    method ProfileLoaded(outcome: HttpOutcome<Response<User>>)
      requires Valid()
      modifies this`user, this`error
      ensures Valid()
      ensures mounted && outcome.Ok? && outcome.value.status == 200 ==> user == outcome.value.data && error == old(error)
      ensures mounted && outcome.Failed? ==> user == old(user) && error == FetchUserError
      ensures !mounted || (outcome.Ok? && outcome.value.status != 200) ==> user == old(user) && error == old(error)
    {
      if mounted {
        match outcome {
          case Ok(response) =>
            if response.status == 200 {
              user := response.data;
            }
          case Failed(_) =>
            error := FetchUserError;
        }
      }
    }

    /** `sendMessage`: a blank draft or a missing room is refused; otherwise one
        `sendMessage` with the untrimmed draft, `user.username` and the room id goes out and
        the draft is cleared. */
    method Send() returns (outcome: SendOutcome)
      requires Valid() && mounted
      modifies this`emitted, this`draft
      ensures Valid()
      ensures outcome == Rejected <==> IsBlank(old(draft)) || room.None?
      ensures outcome == Threw <==> !IsBlank(old(draft)) && room.Some? && !socket
      ensures outcome != Sent ==> emitted == old(emitted) && draft == old(draft)
      ensures outcome == Sent ==>
        emitted == old(emitted) + [Emission(now, SendMessage(old(draft), user.username, room.value))] && draft == ""
    {
      if IsBlank(draft) || room.None? {
        return Rejected;
      }
      if !socket {
        return Threw;
      }
      emitted := emitted + [Emission(now, SendMessage(draft, user.username, room.value))];
      draft := "";
      outcome := Sent;
    }

    /** `typing`: the draft takes the input, the pending timer is cancelled, `typing` goes
        out at once and a new timer is armed with the stamp of this moment. */
    method TypeDraft(text: string)
      requires Valid() && mounted
      modifies this`draft, this`timer, this`emitted
      ensures Valid() && draft == text
      ensures Clock() == AfterKeystroke(old(Clock()), Addressee())
      ensures socket && room.Some? ==> emitted == old(emitted) + [Emission(now, Typing(Stamp(user.id, room.value)))]
      ensures !(socket && room.Some?) ==> emitted == old(emitted)
      ensures timer == Some(Timer(now + StopTypingDelay, Addressee()))
    {
      draft := text;
      var d := AfterKeystroke(Clock(), Addressee());
      timer, emitted := d.timer, d.log;
    }

    /** `dt` ms pass; the timer fires if it falls due, even after a room switch or unmount. */
    method Tick(dt: nat)
      requires Valid()
      modifies this`now, this`timer, this`emitted
      ensures Valid()
      ensures Clock() == AfterDelay(old(Clock()), dt)
    {
      var d := AfterDelay(Clock(), dt);
      now, timer, emitted := d.now, d.timer, d.log;
    }
  }

  // ---------------------------------------------------------------------------
  // Room switches as the component handles them

  /** The history request for the previously selected room answers after a switch: its
      records replace the list shown for the new room. */
  method StaleHistoryAfterSwitch() returns (selected: Option<RoomId>, shown: seq<Message>)
    ensures selected == Some("games")
    ensures shown == [Message("ann", "old", CreatedAt("2024-01-01"))]
  {
    var s := new Session(Some("lobby"), true);
    s.ChangeDeps(Some("games"), true);
    assert s.fetches == ["lobby", "games"];
    var batch := [ServerMessage(Some(ServerUser("ann")), "old", "2024-01-01")];
    var older := Message("ann", "old", CreatedAt("2024-01-01"));
    assert batch[0].user.Some?;
    assert MapHistory(batch).value[0] == older;
    assert MapHistory(batch).value == [older];
    s.HistoryLoaded(0, Ok(batch));
    selected, shown := s.room, s.messages;
  }

  /** A keystroke in one room followed by a switch: the timer armed in the old room still
      fires and sends `stopTyping` for the old room, one delay after the keystroke. */
  method StopTypingAfterSwitch() returns (last: Emission, selected: Option<RoomId>)
    ensures selected == Some("games")
    ensures last == Emission(StopTypingDelay, StopTyping(Stamp(None, "lobby")))
  {
    var s := new Session(Some("lobby"), true);
    s.TypeDraft("h");
    s.ChangeDeps(Some("games"), true);
    s.Tick(StopTypingDelay);
    last, selected := s.emitted[|s.emitted| - 1], s.room;
  }
}
