/**
 * The relay: one WebSocket connection at a time in front of the controller. Its frames are handled
 * strictly one after the other, and the connection may be lost between any two steps.
 */
module Relay {
  import opened Decimal
  import opened Options
  import opened Script
  import opened TabMachine
  import opened TabInvariants
  import C = Controller

  // ------------------------------------------------------------------------------- frames

  predicate IsUuid(s: string) {
    |s| == 36 && forall i :: 0 <= i < 36 ==>
        if i == 8 || i == 13 || i == 18 || i == 23 then s[i] == '-' else IsHexDigit(s[i])
  }

  /** What run() finds in a command's arguments before any browser call. */
  datatype Request = UnknownAction | ListTabs | BadTab | OnTab(tab: nat, args: Args)

  datatype Frame = Pong | Ping | Ready(id: string) | ErrorFrame | Command(id: string, request: Request) | Malformed

  /** A result frame: for a command refused here, answered at once, or ended by its tab. */
  datatype Verdict = NotReady | Duplicate | Answered(code: Option<Code>, phase: Phase) | Finished(tab: nat, ticket: nat)
  datatype Result = Result(id: string, verdict: Verdict)

  /** What a connection's chain of messages is waiting for. */
  datatype Doing =
    | Idle
    | AwaitCleanup(cleanups: nat, id: string)
    | AwaitTabs(id: string, session: Session)
    | AwaitCommand(id: string, tab: nat, ticket: nat)

  datatype Connection = Connection(
    ready: bool, readyStarted: bool, seen: set<string>, inbox: seq<Frame>, doing: Doing,
    // history of this connection
    received: seq<Frame>, handled: nat, runs: seq<string>, results: seq<Result>)

  const NEW := Connection(false, false, {}, [], Doing.Idle, [], 0, [], [])

  /** The relay and its controller. `current` is this.connection; the cleanup chain is every disconnect so far. */
  datatype System = System(current: Option<nat>, conns: seq<Connection>, world: C.World)

  const INITIAL := System(None, [], C.INITIAL)

  datatype Event =
    | Connect(ok: bool)
    | Arrive(conn: nat, frame: Frame)
    | Process(conn: nat, sendOk: bool)
    | ResumeReady(conn: nat)
    | ResumeTabs(conn: nat, ok: bool, sendOk: bool)
    | ResumeCommand(conn: nat, sendOk: bool)
    | SocketLost(conn: nat)
    | Internal(event: C.Event)

  // -------------------------------------------------------------------------------- steps

  function Put(s: System, c: nat, conn: Connection): System
    requires c < |s.conns|
  {
    s.(conns := s.conns[c := conn])
  }

  /** lose(): a second loss of the same connection does nothing. */
  function Lose(s: System, c: nat): System
    requires c < |s.conns|
  {
    if s.current != Some(c) then s
    else Put(s, c, s.conns[c].(ready := false)).(current := None, world := C.BeginDisconnect(s.world))
  }

  /** The chain moves on to the next frame. */
  function Handled(conn: Connection): Connection { conn.(doing := Doing.Idle, handled := conn.handled + 1) }

  /** The end of message(): the result goes out only on the connection that asked, while it is current. */
  function SendResult(s: System, c: nat, r: Result, sendOk: bool): System
    requires c < |s.conns|
  {
    var t := Put(s, c, Handled(s.conns[c]));
    if s.current != Some(c) then t
    else if !sendOk then Lose(t, c)
    else Put(t, c, t.conns[c].(results := t.conns[c].results + [r]))
  }

  /** controller.run() up to its first await, for a command that passed the relay's checks. */
  function RunCommand(s: System, c: nat, id: string, request: Request, sendOk: bool): System
    requires c < |s.conns|
  {
    var conn := s.conns[c].(seen := s.conns[c].seen + {id}, runs := s.conns[c].runs + [id]);
    if s.world.session.None? then
      SendResult(Put(s, c, conn), c, Result(id, Answered(Some(ConnectionLost), NotDispatched)), sendOk)
    else
      match request
      case UnknownAction =>
        SendResult(Put(s, c, conn), c, Result(id, Answered(Some(InvalidArguments), NotDispatched)), sendOk)
      case BadTab =>
        SendResult(Put(s, c, conn), c, Result(id, Answered(Some(InvalidArguments), NotDispatched)), sendOk)
      case ListTabs => Put(s, c, conn.(doing := AwaitTabs(id, s.world.session.value)))
      case OnTab(t, args) =>
        var asked := Put(s, c, conn.(doing := AwaitCommand(id, t, C.StateOf(s.world, t).tickets)));
        asked.(world := C.OnRun(s.world, t, args))
  }

  /** An exception in message(): the connection is lost. */
  function Refuse(s: System, c: nat): System
    requires c < |s.conns|
  {
    Lose(Put(s, c, Handled(s.conns[c])), c)
  }

  /** message(), from its beginning to its first await. */
  function HandleFrame(s: System, c: nat, frame: Frame, sendOk: bool): System
    requires c < |s.conns|
  {
    var conn := s.conns[c];
    match frame
    case Pong => Put(s, c, Handled(conn))
    case Ping => if sendOk then Put(s, c, Handled(conn)) else Refuse(s, c)
    case Ready(id) =>
      if conn.readyStarted || !IsUuid(id) then Refuse(s, c)
      else Put(s, c, conn.(readyStarted := true, doing := AwaitCleanup(|s.world.disconnects|, id)))
    case ErrorFrame => Refuse(s, c)
    case Malformed => Refuse(s, c)
    case Command(id, request) =>
      if !IsUuid(id) then Refuse(s, c)
      else if !conn.ready then SendResult(s, c, Result(id, NotReady), sendOk)
      else if id in conn.seen then SendResult(s, c, Result(id, Duplicate), sendOk)
      else RunCommand(s, c, id, request, sendOk)
  }

  function OnProcess(s: System, c: nat, sendOk: bool): System
    requires c < |s.conns|
  {
    var conn := s.conns[c];
    if !conn.doing.Idle? || conn.inbox == [] then s
    else
      var popped := Put(s, c, conn.(inbox := conn.inbox[1..]));
      if s.current != Some(c) then Put(popped, c, Handled(popped.conns[c]))
      else HandleFrame(popped, c, conn.inbox[0], sendOk)
  }

  predicate CleanedUp(w: C.World, cleanups: nat) {
    forall i :: 0 <= i < cleanups && i < |w.disconnects| ==> w.disconnects[i].stage.Done?
  }

  /** The ready handshake after `await this.cleanup`. An already open session would be an exception. */
  function OnResumeReady(s: System, c: nat): System
    requires c < |s.conns|
  {
    var conn := s.conns[c];
    if !conn.doing.AwaitCleanup? || !CleanedUp(s.world, conn.doing.cleanups) then s
    else if s.current != Some(c) then Put(s, c, Handled(conn))
    else if s.world.session.Some? then Refuse(s, c)
    else Put(s, c, Handled(conn).(ready := true)).(world := C.OnOpenSession(s.world, Session(c, conn.doing.id)))
  }

  function OnResumeTabs(s: System, c: nat, ok: bool, sendOk: bool): System
    requires c < |s.conns|
  {
    var conn := s.conns[c];
    if !conn.doing.AwaitTabs? then s
    else
      var verdict :=
        if !ok then Answered(Some(BrowserCommandFailed), NotDispatched)
        else if s.world.session != Some(conn.doing.session) then Answered(Some(ConnectionLost), NotDispatched)
        else Answered(None, ReadbackComplete);
      SendResult(s, c, Result(conn.doing.id, verdict), sendOk)
  }

  function OnResumeCommand(s: System, c: nat, sendOk: bool): System
    requires c < |s.conns|
  {
    var conn := s.conns[c];
    if !conn.doing.AwaitCommand? || |C.StateOf(s.world, conn.doing.tab).outcomes| <= conn.doing.ticket then s
    else SendResult(s, c, Result(conn.doing.id, Finished(conn.doing.tab, conn.doing.ticket)), sendOk)
  }

  /** Events of the browser and of the commands; sessions and commands come only from the relay. */
  predicate IsInternal(e: C.Event) { !e.Run? && !e.OpenSession? && !e.Disconnect? }

  function Step(s: System, e: Event): System {
    if e.Internal? then (if IsInternal(e.event) then s.(world := C.Step(s.world, e.event)) else s)
    else if s.world.active.Some? then s
    else if e.Connect? then
      (if s.current.None? && e.ok then s.(current := Some(|s.conns|), conns := s.conns + [NEW]) else s)
    else if e.conn >= |s.conns| then s
    else
      match e
      case Arrive(c, frame) =>
        Put(s, c, s.conns[c].(inbox := s.conns[c].inbox + [frame], received := s.conns[c].received + [frame]))
      case Process(c, sendOk) => OnProcess(s, c, sendOk)
      case ResumeReady(c) => OnResumeReady(s, c)
      case ResumeTabs(c, ok, sendOk) => OnResumeTabs(s, c, ok, sendOk)
      case ResumeCommand(c, sendOk) => OnResumeCommand(s, c, sendOk)
      case SocketLost(c) => Lose(s, c)
      case Connect(_) => s
      case Internal(_) => s
  }

  /** A run: the systems it passes through, one event apart. */
  ghost predicate IsRun(systems: seq<System>, events: seq<Event>) {
    && |systems| == |events| + 1 && systems[0] == INITIAL
    && forall i {:trigger events[i]} :: 0 <= i < |events| ==> systems[i + 1] == Step(systems[i], events[i])
  }

  ghost predicate Reachable(s: System) {
    exists systems, events :: IsRun(systems, events) && systems[|events|] == s
  }

  lemma InitialReachable()
    ensures Reachable(INITIAL)
  {
    var events: seq<Event> := [];
    assert IsRun([INITIAL], events) && [INITIAL][|events|] == INITIAL;
  }

  lemma StepReachable(s: System, e: Event)
    requires Reachable(s)
    ensures Reachable(Step(s, e))
  {
    var systems, events :| IsRun(systems, events) && systems[|events|] == s;
    var longer, more := systems + [Step(s, e)], events + [e];
    forall i | 0 <= i < |more|
      ensures longer[i + 1] == Step(longer[i], more[i])
    {
      if i < |events| { assert more[i] == events[i]; }
    }
    assert IsRun(longer, more);
  }

  // --------------------------------------------------------------------------- invariants

  /** The session is open exactly while the current connection is ready, and is that connection's. */
  predicate Coupled(s: System) {
    && (s.current.Some? ==> s.current.value < |s.conns|)
    && (s.world.session.Some? <==> s.current.Some? && s.conns[s.current.value].ready)
    && (s.world.session.Some? ==> s.world.session.value.serial == s.current.value)
    && (forall c :: 0 <= c < |s.conns| && s.conns[c].ready ==> s.current == Some(c))
  }

  /** While a session is open every earlier disconnect is over, and no session ever overtook one. */
  predicate CleanupsOver(s: System) {
    && (s.world.session.Some? ==> forall i :: 0 <= i < |s.world.disconnects| ==> s.world.disconnects[i].stage.Done?)
    && (forall i :: 0 <= i < |s.world.disconnects| ==> !s.world.disconnects[i].overtaken)
  }

  /** A handshake of the current connection waits for every disconnect there is. */
  predicate Handshaking(s: System, c: nat)
    requires c < |s.conns|
  {
    var conn := s.conns[c];
    && (conn.ready ==> conn.readyStarted)
    && (conn.doing.AwaitCleanup? ==>
          conn.readyStarted && !conn.ready && (s.current == Some(c) ==> conn.doing.cleanups == |s.world.disconnects|))
  }

  function CommandIds(frames: seq<Frame>): seq<string> {
    if frames == [] then []
    else
      var last := frames[|frames| - 1];
      CommandIds(frames[..|frames| - 1]) + (if last.Command? then [last.id] else [])
  }

  function ResultIds(results: seq<Result>): seq<string> {
    seq(|results|, i requires 0 <= i < |results| => results[i].id)
  }

  function Pending(conn: Connection): nat { if conn.doing.Idle? then 0 else 1 }

  /** Frames are handled in the order of their arrival; the one in progress is the next. */
  predicate Ordered(conn: Connection) {
    && conn.handled + Pending(conn) <= |conn.received|
    && conn.inbox == conn.received[conn.handled + Pending(conn)..]
    && (!conn.doing.Idle? ==>
          match conn.received[conn.handled]
          case Ready(id) => conn.doing.AwaitCleanup? && conn.doing.id == id
          case Command(id, _) => (conn.doing.AwaitTabs? || conn.doing.AwaitCommand?) && conn.doing.id == id
          case _ => false)
  }

  predicate Distinct(ids: seq<string>) { forall i, j :: 0 <= i < j < |ids| ==> ids[i] != ids[j] }

  /** Each id reaches the controller at most once, and every handled command has exactly one result, in order. */
  ghost predicate Replied(conn: Connection, alive: bool) {
    && Distinct(conn.runs) && (forall id :: id in conn.runs <==> id in conn.seen)
    && conn.handled <= |conn.received|
    && ResultIds(conn.results) <= CommandIds(conn.received[..conn.handled])
    && (alive ==> ResultIds(conn.results) == CommandIds(conn.received[..conn.handled]))
  }

  ghost predicate ConnectionSound(s: System, c: nat)
    requires c < |s.conns|
  {
    Handshaking(s, c) && Ordered(s.conns[c]) && Replied(s.conns[c], s.current == Some(c))
  }

  ghost predicate SystemInv(s: System) {
    && Coupled(s) && CleanupsOver(s)
    && forall c :: 0 <= c < |s.conns| ==> ConnectionSound(s, c)
  }

  // ------------------------------------------------------------------------ small lemmas

  lemma NextIds(frames: seq<Frame>, n: nat)
    requires n < |frames|
    ensures CommandIds(frames[..n + 1]) == CommandIds(frames[..n]) + (if frames[n].Command? then [frames[n].id] else [])
  {
    assert frames[..n + 1][..n] == frames[..n];
  }

  lemma ResultIdsAppend(results: seq<Result>, r: Result)
    ensures ResultIds(results + [r]) == ResultIds(results) + [r.id]
  {
  }

  /** The end of a frame that got no result: it was no command, or the connection is gone. */
  lemma HandledWithoutResult(conn: Connection, alive: bool)
    requires Replied(conn, alive) && conn.handled < |conn.received| && (alive ==> !conn.received[conn.handled].Command?)
    ensures Replied(Handled(conn), alive)
  {
    NextIds(conn.received, conn.handled);
  }

  lemma HandledWithResult(conn: Connection, r: Result)
    requires Replied(conn, true) && conn.handled < |conn.received|
    requires conn.received[conn.handled].Command? && conn.received[conn.handled].id == r.id
    ensures Replied(Handled(conn).(results := conn.results + [r]), true)
  {
    NextIds(conn.received, conn.handled);
    ResultIdsAppend(conn.results, r);
  }

  lemma DeadReplies(conn: Connection)
    requires Replied(conn, true)
    ensures Replied(conn, false)
  {
  }

  // ---------------------------------------------------------------------------- losing it

  lemma BeginDisconnectOver(w: C.World)
    ensures var v := C.BeginDisconnect(w);
            v.session.None? && |v.disconnects| == |w.disconnects| + 1
            && (forall i :: 0 <= i < |w.disconnects| ==> v.disconnects[i] == w.disconnects[i])
            && !v.disconnects[|w.disconnects|].overtaken
  {
  }

  lemma LoseKeeps(s: System, c: nat)
    requires SystemInv(s) && s.world.active.None? && c < |s.conns|
    ensures SystemInv(Lose(s, c))
  {
    if s.current == Some(c) {
      var t := Lose(s, c);
      BeginDisconnectOver(s.world);
      forall d | 0 <= d < |t.conns|
        ensures ConnectionSound(t, d)
      {
        assert ConnectionSound(s, d);
        if d == c { DeadReplies(s.conns[c]); }
      }
    }
  }

  /** An update of one connection's records that leaves readiness alone. */
  lemma PutKeeps(s: System, c: nat, conn: Connection)
    requires SystemInv(s) && c < |s.conns| && conn.ready == s.conns[c].ready
    requires ConnectionSound(Put(s, c, conn), c)
    ensures SystemInv(Put(s, c, conn))
  {
    var t := Put(s, c, conn);
    forall d | 0 <= d < |t.conns|
      ensures ConnectionSound(t, d)
    {
      assert ConnectionSound(s, d);
    }
  }

  // ------------------------------------------------------------------------ handling a frame

  /** The frame that message() has just taken from the inbox. */
  ghost predicate Midway(s: System, c: nat, frame: Frame) {
    && c < |s.conns| && s.world.active.None? && Coupled(s) && CleanupsOver(s)
    && (forall d :: 0 <= d < |s.conns| && d != c ==> ConnectionSound(s, d))
    && var conn := s.conns[c];
       && Handshaking(s, c) && Replied(conn, s.current == Some(c)) && conn.doing.Idle?
       && conn.handled < |conn.received| && conn.received[conn.handled] == frame
       && conn.inbox == conn.received[conn.handled + 1..]
  }

  lemma MidPutKeeps(s: System, c: nat, frame: Frame, conn: Connection)
    requires Midway(s, c, frame) && conn.ready == s.conns[c].ready
    requires ConnectionSound(Put(s, c, conn), c)
    ensures SystemInv(Put(s, c, conn))
  {
    var t := Put(s, c, conn);
    forall d | 0 <= d < |t.conns|
      ensures ConnectionSound(t, d)
    {
      if d != c { assert ConnectionSound(s, d); }
    }
  }

  lemma MidHandledKeeps(s: System, c: nat, frame: Frame)
    requires Midway(s, c, frame) && (s.current == Some(c) ==> !frame.Command?)
    ensures SystemInv(Put(s, c, Handled(s.conns[c])))
  {
    HandledWithoutResult(s.conns[c], s.current == Some(c));
    MidPutKeeps(s, c, frame, Handled(s.conns[c]));
  }

  /** A frame that ends the connection: it needs no result any more. */
  lemma MidRefuseKeeps(s: System, c: nat, frame: Frame)
    requires Midway(s, c, frame) && s.current == Some(c)
    ensures SystemInv(Refuse(s, c))
  {
    var lost := Lose(s, c);
    BeginDisconnectOver(s.world);
    DeadReplies(s.conns[c]);
    var gone := lost.conns[c];
    HandledWithoutResult(gone, false);
    assert Refuse(s, c) == Put(lost, c, Handled(gone));
    forall d | 0 <= d < |lost.conns|
      ensures ConnectionSound(Put(lost, c, Handled(gone)), d)
    {
      if d != c { assert ConnectionSound(s, d); }
    }
  }

  lemma MidResultKeeps(s: System, c: nat, frame: Frame, r: Result, sendOk: bool)
    requires Midway(s, c, frame) && s.current == Some(c) && frame.Command? && frame.id == r.id
    ensures SystemInv(SendResult(s, c, r, sendOk))
  {
    if sendOk {
      var conn := s.conns[c];
      HandledWithResult(conn, r);
      MidPutKeeps(s, c, frame, Handled(conn).(results := conn.results + [r]));
      assert SendResult(s, c, r, sendOk) == Put(s, c, Handled(conn).(results := conn.results + [r]));
    } else {
      MidRefuseKeeps(s, c, frame);
      assert SendResult(s, c, r, sendOk) == Refuse(s, c);
    }
  }

  lemma RunOnce(conn: Connection, id: string, alive: bool)
    requires Replied(conn, alive) && id !in conn.seen
    ensures Replied(conn.(seen := conn.seen + {id}, runs := conn.runs + [id]), alive)
  {
    var runs := conn.runs + [id];
    forall i, j | 0 <= i < j < |runs|
      ensures runs[i] != runs[j]
    {
      if j == |conn.runs| { assert conn.runs[i] in conn.runs; }
    }
  }

  /** Marking an id as seen leaves the connection midway in its frame. */
  lemma MarkedMidway(s: System, c: nat, frame: Frame)
    requires Midway(s, c, frame) && frame.Command? && frame.id !in s.conns[c].seen
    ensures Midway(Put(s, c, s.conns[c].(seen := s.conns[c].seen + {frame.id}, runs := s.conns[c].runs + [frame.id])),
                   c, frame)
  {
    var conn := s.conns[c].(seen := s.conns[c].seen + {frame.id}, runs := s.conns[c].runs + [frame.id]);
    RunOnce(s.conns[c], frame.id, s.current == Some(c));
    var t := Put(s, c, conn);
    forall d | 0 <= d < |t.conns| && d != c
      ensures ConnectionSound(t, d)
    {
      assert ConnectionSound(s, d);
    }
  }

  /** A change of the world's tabs alone. */
  lemma WorldOnlyKeeps(s: System, w: C.World)
    requires SystemInv(s) && w.session == s.world.session && w.disconnects == s.world.disconnects
    ensures SystemInv(s.(world := w))
  {
    var t := s.(world := w);
    forall d | 0 <= d < |t.conns|
      ensures ConnectionSound(t, d)
    {
      assert ConnectionSound(s, d);
    }
  }

  function Marked(conn: Connection, id: string): Connection {
    conn.(seen := conn.seen + {id}, runs := conn.runs + [id])
  }

  lemma RunOnTabKeeps(marked: System, c: nat, id: string, t: nat, args: Args)
    requires Midway(marked, c, Frame.Command(id, OnTab(t, args)))
    ensures SystemInv(Put(marked, c, marked.conns[c].(doing := AwaitCommand(id, t, C.StateOf(marked.world, t).tickets)))
                      .(world := C.OnRun(marked.world, t, args)))
  {
    var waiting := marked.conns[c].(doing := AwaitCommand(id, t, C.StateOf(marked.world, t).tickets));
    MidPutKeeps(marked, c, Frame.Command(id, OnTab(t, args)), waiting);
    WorldOnlyKeeps(Put(marked, c, waiting), C.OnRun(marked.world, t, args));
  }

  lemma RunListKeeps(marked: System, c: nat, id: string)
    requires Midway(marked, c, Frame.Command(id, ListTabs)) && marked.world.session.Some?
    ensures SystemInv(Put(marked, c, marked.conns[c].(doing := AwaitTabs(id, marked.world.session.value))))
  {
    MidPutKeeps(marked, c, Frame.Command(id, ListTabs),
                marked.conns[c].(doing := AwaitTabs(id, marked.world.session.value)));
  }

  lemma PutTwice(s: System, c: nat, a: Connection, b: Connection)
    requires c < |s.conns|
    ensures Put(Put(s, c, a), c, b) == Put(s, c, b)
  {
  }

  lemma RunCommandKeeps(s: System, c: nat, id: string, request: Request, sendOk: bool)
    requires Midway(s, c, Frame.Command(id, request)) && s.current == Some(c) && s.conns[c].ready
               && id !in s.conns[c].seen
    ensures SystemInv(RunCommand(s, c, id, request, sendOk))
  {
    var frame := Frame.Command(id, request);
    var marked := Put(s, c, Marked(s.conns[c], id));
    MarkedMidway(s, c, frame);
    if request.ListTabs? {
      RunListKeeps(marked, c, id);
      PutTwice(s, c, Marked(s.conns[c], id), Marked(s.conns[c], id).(doing := AwaitTabs(id, s.world.session.value)));
    } else if request.OnTab? {
      RunOnTabKeeps(marked, c, id, request.tab, request.args);
      var doing := AwaitCommand(id, request.tab, C.StateOf(s.world, request.tab).tickets);
      PutTwice(s, c, Marked(s.conns[c], id), Marked(s.conns[c], id).(doing := doing));
    } else {
      MidResultKeeps(marked, c, frame, Result(id, Answered(Some(InvalidArguments), NotDispatched)), sendOk);
    }
  }

  lemma CommandKeeps(s: System, c: nat, id: string, request: Request, sendOk: bool)
    requires Midway(s, c, Frame.Command(id, request)) && s.current == Some(c)
    ensures SystemInv(HandleFrame(s, c, Frame.Command(id, request), sendOk))
  {
    var frame := Frame.Command(id, request);
    if !IsUuid(id) {
      MidRefuseKeeps(s, c, frame);
    } else if !s.conns[c].ready {
      MidResultKeeps(s, c, frame, Result(id, NotReady), sendOk);
    } else if id in s.conns[c].seen {
      MidResultKeeps(s, c, frame, Result(id, Duplicate), sendOk);
    } else {
      RunCommandKeeps(s, c, id, request, sendOk);
    }
  }

  lemma ReadyKeeps(s: System, c: nat, id: string, sendOk: bool)
    requires Midway(s, c, Ready(id)) && s.current == Some(c)
    ensures SystemInv(HandleFrame(s, c, Ready(id), sendOk))
  {
    var conn := s.conns[c];
    if conn.readyStarted || !IsUuid(id) {
      MidRefuseKeeps(s, c, Ready(id));
    } else {
      MidPutKeeps(s, c, Ready(id), conn.(readyStarted := true, doing := AwaitCleanup(|s.world.disconnects|, id)));
    }
  }

  lemma HandleFrameKeeps(s: System, c: nat, frame: Frame, sendOk: bool)
    requires Midway(s, c, frame) && s.current == Some(c)
    ensures SystemInv(HandleFrame(s, c, frame, sendOk))
  {
    match frame
    case Pong => MidHandledKeeps(s, c, frame);
    case Ping => if sendOk { MidHandledKeeps(s, c, frame); } else { MidRefuseKeeps(s, c, frame); }
    case Ready(id) => ReadyKeeps(s, c, id, sendOk);
    case ErrorFrame => MidRefuseKeeps(s, c, frame);
    case Malformed => MidRefuseKeeps(s, c, frame);
    case Command(id, request) => CommandKeeps(s, c, id, request, sendOk);
  }

  lemma PopMidway(s: System, c: nat)
    requires SystemInv(s) && s.world.active.None? && c < |s.conns| && s.conns[c].doing.Idle? && s.conns[c].inbox != []
    ensures Midway(Put(s, c, s.conns[c].(inbox := s.conns[c].inbox[1..])), c, s.conns[c].inbox[0])
  {
    var conn := s.conns[c];
    assert ConnectionSound(s, c);
    var t := Put(s, c, conn.(inbox := conn.inbox[1..]));
    forall d | 0 <= d < |t.conns| && d != c
      ensures ConnectionSound(t, d)
    {
      assert ConnectionSound(s, d);
    }
  }

  lemma ProcessKeeps(s: System, c: nat, sendOk: bool)
    requires SystemInv(s) && s.world.active.None? && c < |s.conns|
    ensures SystemInv(OnProcess(s, c, sendOk))
  {
    var conn := s.conns[c];
    if conn.doing.Idle? && conn.inbox != [] {
      var popped := Put(s, c, conn.(inbox := conn.inbox[1..]));
      PopMidway(s, c);
      if s.current != Some(c) {
        MidHandledKeeps(popped, c, conn.inbox[0]);
      } else {
        HandleFrameKeeps(popped, c, conn.inbox[0], sendOk);
      }
    }
  }

  // ----------------------------------------------------------------------- resuming a frame

  /** A connection that resumes its frame is midway in it, its wait forgotten. */
  lemma ResumedMidway(s: System, c: nat)
    requires SystemInv(s) && s.world.active.None? && c < |s.conns| && !s.conns[c].doing.Idle?
    ensures s.conns[c].handled < |s.conns[c].received|
    ensures Midway(Put(s, c, s.conns[c].(doing := Doing.Idle)), c, s.conns[c].received[s.conns[c].handled])
  {
    assert ConnectionSound(s, c);
    var t := Put(s, c, s.conns[c].(doing := Doing.Idle));
    forall d | 0 <= d < |t.conns| && d != c
      ensures ConnectionSound(t, d)
    {
      assert ConnectionSound(s, d);
    }
  }

  lemma ResultKeeps(s: System, c: nat, r: Result, sendOk: bool)
    requires SystemInv(s) && s.world.active.None? && c < |s.conns|
    requires (s.conns[c].doing.AwaitTabs? || s.conns[c].doing.AwaitCommand?) && s.conns[c].doing.id == r.id
    ensures SystemInv(SendResult(s, c, r, sendOk))
  {
    var conn := s.conns[c];
    var t := Put(s, c, conn.(doing := Doing.Idle));
    assert ConnectionSound(s, c);
    ResumedMidway(s, c);
    var frame := conn.received[conn.handled];
    assert frame.Command? && frame.id == r.id;
    assert SendResult(s, c, r, sendOk) == SendResult(t, c, r, sendOk);
    if s.current == Some(c) {
      MidResultKeeps(t, c, frame, r, sendOk);
    } else {
      MidHandledKeeps(t, c, frame);
    }
  }

  /** The session opens only when none is open and every disconnect before it is over. */
  lemma OpeningIsSafe(s: System, c: nat)
    requires SystemInv(s) && c < |s.conns| && s.current == Some(c)
    requires s.conns[c].doing.AwaitCleanup? && CleanedUp(s.world, s.conns[c].doing.cleanups)
    ensures s.world.session.None?
    ensures forall i :: 0 <= i < |s.world.disconnects| ==> s.world.disconnects[i].stage.Done?
  {
    assert ConnectionSound(s, c);
  }

  lemma OpenKeeps(s: System, c: nat, session: Session)
    requires SystemInv(s) && s.world.active.None? && c < |s.conns| && s.current == Some(c) && session.serial == c
    requires s.conns[c].doing.AwaitCleanup? && CleanedUp(s.world, s.conns[c].doing.cleanups)
    ensures SystemInv(Put(s, c, Handled(s.conns[c]).(ready := true)).(world := C.OnOpenSession(s.world, session)))
  {
    OpeningIsSafe(s, c);
    var w := C.OnOpenSession(s.world, session);
    assert w.disconnects == s.world.disconnects;
    var t := Put(s, c, Handled(s.conns[c]).(ready := true)).(world := w);
    forall d | 0 <= d < |t.conns|
      ensures ConnectionSound(t, d)
    {
      assert ConnectionSound(s, d);
      if d == c { HandledWithoutResult(s.conns[c], true); }
    }
  }

  lemma ResumeReadyKeeps(s: System, c: nat)
    requires SystemInv(s) && s.world.active.None? && c < |s.conns|
    ensures SystemInv(OnResumeReady(s, c))
  {
    var conn := s.conns[c];
    assert ConnectionSound(s, c);
    if conn.doing.AwaitCleanup? && CleanedUp(s.world, conn.doing.cleanups) {
      if s.current != Some(c) {
        ResumedMidway(s, c);
        MidHandledKeeps(Put(s, c, conn.(doing := Doing.Idle)), c, conn.received[conn.handled]);
        assert Put(s, c, Handled(conn))
               == Put(Put(s, c, conn.(doing := Doing.Idle)), c, Handled(conn.(doing := Doing.Idle)));
      } else {
        OpeningIsSafe(s, c);
        OpenKeeps(s, c, Session(c, conn.doing.id));
      }
    }
  }

  // ------------------------------------------------------------------------------ every run

  lemma ArriveKeeps(s: System, c: nat, frame: Frame)
    requires SystemInv(s) && c < |s.conns|
    ensures SystemInv(Put(s, c,
                          s.conns[c].(inbox := s.conns[c].inbox + [frame], received := s.conns[c].received + [frame])))
  {
    var conn := s.conns[c];
    assert ConnectionSound(s, c);
    var conn' := conn.(inbox := conn.inbox + [frame], received := conn.received + [frame]);
    assert conn'.received[..conn.handled] == conn.received[..conn.handled];
    assert conn'.received[conn.handled + Pending(conn)..] == conn.received[conn.handled + Pending(conn)..] + [frame];
    PutKeeps(s, c, conn');
  }

  lemma ConnectKeeps(s: System)
    requires SystemInv(s) && s.current.None?
    ensures SystemInv(s.(current := Some(|s.conns|), conns := s.conns + [NEW]))
  {
    var t := s.(current := Some(|s.conns|), conns := s.conns + [NEW]);
    forall d | 0 <= d < |t.conns|
      ensures ConnectionSound(t, d)
    {
      if d < |s.conns| { assert ConnectionSound(s, d); }
    }
  }

  /** An event inside the controller neither opens nor closes a session, and ends disconnects for good. */
  lemma InternalFrame(w: C.World, e: C.Event)
    requires IsInternal(e)
    ensures SameSessions(w, C.Step(w, e))
  {
    if e.Exec? || e.Start? || e.Resume? { CommandFrame(w, e); } else { BrowserFrame(w, e); }
  }

  ghost predicate SameSessions(w: C.World, v: C.World) {
    && v.session == w.session && |v.disconnects| == |w.disconnects|
    && forall i :: 0 <= i < |w.disconnects| ==>
         (w.disconnects[i].stage.Done? ==> v.disconnects[i] == w.disconnects[i])
         && v.disconnects[i].overtaken == w.disconnects[i].overtaken
  }

  lemma CommandFrame(w: C.World, e: C.Event)
    requires e.Exec? || e.Start? || e.Resume?
    ensures SameSessions(w, C.Step(w, e))
  {
  }

  lemma BrowserFrame(w: C.World, e: C.Event)
    requires IsInternal(e) && !e.Exec? && !e.Start? && !e.Resume?
    ensures SameSessions(w, C.Step(w, e))
  {
  }

  lemma InternalKeeps(s: System, e: C.Event)
    requires SystemInv(s) && IsInternal(e)
    ensures SystemInv(s.(world := C.Step(s.world, e)))
  {
    InternalFrame(s.world, e);
    var t := s.(world := C.Step(s.world, e));
    forall d | 0 <= d < |t.conns|
      ensures ConnectionSound(t, d)
    {
      assert ConnectionSound(s, d);
    }
  }

  /** Every event keeps every invariant of relay and controller together. */
  lemma StepKeeps(s: System, e: Event)
    requires SystemInv(s)
    ensures SystemInv(Step(s, e))
  {
    match e
    case Internal(ce) => if IsInternal(ce) { InternalKeeps(s, ce); }
    case Connect(ok) => if s.world.active.None? && s.current.None? && ok { ConnectKeeps(s); }
    case Arrive(c, frame) => if s.world.active.None? && c < |s.conns| { ArriveKeeps(s, c, frame); }
    case Process(c, sendOk) => if s.world.active.None? && c < |s.conns| { ProcessKeeps(s, c, sendOk); }
    case ResumeReady(c) => if s.world.active.None? && c < |s.conns| { ResumeReadyKeeps(s, c); }
    case SocketLost(c) => if s.world.active.None? && c < |s.conns| { LoseKeeps(s, c); }
    case _ => ResumeResultKeeps(s, e);
  }

  lemma ResumeResultKeeps(s: System, e: Event)
    requires SystemInv(s) && (e.ResumeTabs? || e.ResumeCommand?)
    ensures SystemInv(Step(s, e))
  {
    if s.world.active.None? && e.conn < |s.conns| {
      var conn := s.conns[e.conn];
      if e.ResumeTabs? && conn.doing.AwaitTabs? {
        var verdict :=
          if !e.ok then Answered(Some(BrowserCommandFailed), NotDispatched)
          else if s.world.session != Some(conn.doing.session) then Answered(Some(ConnectionLost), NotDispatched)
          else Answered(None, ReadbackComplete);
        ResultKeeps(s, e.conn, Result(conn.doing.id, verdict), e.sendOk);
      } else if e.ResumeCommand? && conn.doing.AwaitCommand? {
        ResultKeeps(s, e.conn, Result(conn.doing.id, Finished(conn.doing.tab, conn.doing.ticket)), e.sendOk);
      }
    }
  }

  lemma {:induction false} RunSound(systems: seq<System>, events: seq<Event>, k: nat)
    requires IsRun(systems, events) && k <= |events|
    ensures SystemInv(systems[k])
  {
    if k != 0 {
      RunSound(systems, events, k - 1);
      StepKeeps(systems[k - 1], events[k - 1]);
    }
  }

  /** Every system of every run is sound. */
  lemma ReachableSound(s: System)
    requires Reachable(s)
    ensures SystemInv(s)
  {
    var systems, events :| IsRun(systems, events) && systems[|events|] == s;
    RunSound(systems, events, |events|);
  }

  // --------------------------------------------------------------------------- main results

  /** In every interleaving: the session is open exactly while the current connection is ready. */
  lemma SessionIsReadiness(s: System)
    requires Reachable(s)
    ensures s.world.session.Some? <==> s.current.Some? && s.current.value < |s.conns| && s.conns[s.current.value].ready
    ensures s.world.session.Some? ==> s.world.session.value.serial == s.current.value
    ensures s.world.session.Some? ==> forall i :: 0 <= i < |s.world.disconnects| ==> s.world.disconnects[i].stage.Done?
  {
    ReachableSound(s);
  }

  /** openSession() never finds a session open, and never one whose disconnect still runs. */
  lemma OpenSessionNeverFails(s: System, c: nat)
    requires Reachable(s) && c < |s.conns| && s.current == Some(c)
    requires s.conns[c].doing.AwaitCleanup? && CleanedUp(s.world, s.conns[c].doing.cleanups)
    ensures s.world.session.None? && OnResumeReady(s, c).conns[c].ready && OnResumeReady(s, c).world.session.Some?
    ensures forall i :: 0 <= i < |s.world.disconnects| ==> s.world.disconnects[i].stage.Done?
  {
    ReachableSound(s);
    OpeningIsSafe(s, c);
  }

  /** On one connection no id reaches the controller twice. */
  lemma AtMostOnce(s: System, c: nat, i: nat, j: nat)
    requires Reachable(s) && c < |s.conns| && i < j < |s.conns[c].runs|
    ensures s.conns[c].runs[i] != s.conns[c].runs[j]
  {
    ReachableSound(s);
    assert ConnectionSound(s, c);
  }

  /** The results of the current connection answer its handled commands one by one, in order of arrival. */
  lemma OneResultEachInOrder(s: System, c: nat)
    requires Reachable(s) && c < |s.conns|
    ensures s.conns[c].handled <= |s.conns[c].received|
    ensures s.current == Some(c) ==>
              ResultIds(s.conns[c].results) == CommandIds(s.conns[c].received[..s.conns[c].handled])
    ensures ResultIds(s.conns[c].results) <= CommandIds(s.conns[c].received[..s.conns[c].handled])
  {
    ReachableSound(s);
    assert ConnectionSound(s, c);
  }

  /** A finished disconnect left tabs owned only if a detach failed while it ran. */
  lemma OnlyFailedDetachesLeaveTabs(s: System, i: nat)
    requires Reachable(s) && i < |s.world.disconnects|
    ensures s.world.disconnects[i].stage.Done? && s.world.disconnects[i].stage.left != {} ==>
              s.world.disconnects[i].failed
  {
    ReachableSound(s);
    WorldReachable(s);
    C.ReachableSound(s.world);
    assert C.CleanupSound(s.world, s.world.disconnects[i]);
  }

  /** A command calls the browser only while the connection that brought it is the current one, unless it cleans up. */
  lemma CallsOnlyForTheCurrentConnection(s: System, e: C.Event, t: nat, k: nat)
    requires Reachable(s) && (e.Exec? || e.Resume? || e.Start?)
    requires |C.StateOf(s.world, t).log| <= k < |C.StateOf(C.Step(s.world, e), t).log|
    ensures var call := C.StateOf(C.Step(s.world, e), t).log[k]; !call.cleanup ==>
              s.current == Some(call.session.serial)
  {
    ReachableSound(s);
    WorldReachable(s);
    C.StepReachable(s.world, e);
    CallInSession(C.Step(s.world, e), t, k);
    NewCallSession(s.world, e, t, k);
  }

  lemma CallInSession(w: C.World, t: nat, k: nat)
    requires C.Reachable(w) && k < |C.StateOf(w, t).log|
    ensures var call := C.StateOf(w, t).log[k]; !call.cleanup ==> call.sessionNow == Some(call.session)
  {
    C.ReachableSound(w);
    C.LocalSound(w, t);
    assert Confined(C.StateOf(w, t).log[k]);
  }

  // --------------------------------------------------------- the controller behind the relay

  /** A step of the system is at most one step of its controller. */
  ghost predicate OneStep(w: C.World, v: C.World) {
    v == w || exists e :: v == C.Step(w, e)
  }

  lemma LoseIsOneStep(s: System, c: nat)
    requires s.world.active.None? && c < |s.conns|
    ensures OneStep(s.world, Lose(s, c).world)
  {
    assert C.BeginDisconnect(s.world) == C.Step(s.world, C.Disconnect);
  }

  lemma ResultIsOneStep(s: System, c: nat, r: Result, sendOk: bool)
    requires s.world.active.None? && c < |s.conns|
    ensures OneStep(s.world, SendResult(s, c, r, sendOk).world)
  {
    LoseIsOneStep(Put(s, c, Handled(s.conns[c])), c);
  }

  lemma RunIsOneStep(s: System, c: nat, id: string, request: Request, sendOk: bool)
    requires s.world.active.None? && c < |s.conns|
    ensures OneStep(s.world, RunCommand(s, c, id, request, sendOk).world)
  {
    var marked := Put(s, c, s.conns[c].(seen := s.conns[c].seen + {id}, runs := s.conns[c].runs + [id]));
    ResultIsOneStep(marked, c, Result(id, Answered(Some(ConnectionLost), NotDispatched)), sendOk);
    ResultIsOneStep(marked, c, Result(id, Answered(Some(InvalidArguments), NotDispatched)), sendOk);
    if request.OnTab? {
      assert C.OnRun(s.world, request.tab, request.args) == C.Step(s.world, C.Run(request.tab, request.args));
    }
  }

  lemma FrameIsOneStep(s: System, c: nat, frame: Frame, sendOk: bool)
    requires s.world.active.None? && c < |s.conns|
    ensures OneStep(s.world, HandleFrame(s, c, frame, sendOk).world)
  {
    LoseIsOneStep(Put(s, c, Handled(s.conns[c])), c);
    if frame.Command? {
      ResultIsOneStep(s, c, Result(frame.id, NotReady), sendOk);
      ResultIsOneStep(s, c, Result(frame.id, Duplicate), sendOk);
      RunIsOneStep(s, c, frame.id, frame.request, sendOk);
    }
  }

  lemma ReadyIsOneStep(s: System, c: nat)
    requires s.world.active.None? && c < |s.conns|
    ensures OneStep(s.world, OnResumeReady(s, c).world)
  {
    LoseIsOneStep(Put(s, c, Handled(s.conns[c])), c);
    if s.conns[c].doing.AwaitCleanup? {
      var session := Session(c, s.conns[c].doing.id);
      assert C.OnOpenSession(s.world, session) == C.Step(s.world, C.OpenSession(session));
    }
  }

  lemma ReplyIsOneStep(s: System, e: Event)
    requires s.world.active.None? && (e.ResumeTabs? || e.ResumeCommand?) && e.conn < |s.conns|
    ensures OneStep(s.world, Step(s, e).world)
  {
    var doing := s.conns[e.conn].doing;
    if doing.AwaitTabs? {
      ResultIsOneStep(s, e.conn, Result(doing.id, Answered(Some(BrowserCommandFailed), NotDispatched)), e.sendOk);
      ResultIsOneStep(s, e.conn, Result(doing.id, Answered(Some(ConnectionLost), NotDispatched)), e.sendOk);
      ResultIsOneStep(s, e.conn, Result(doing.id, Answered(None, ReadbackComplete)), e.sendOk);
    } else if doing.AwaitCommand? {
      ResultIsOneStep(s, e.conn, Result(doing.id, Finished(doing.tab, doing.ticket)), e.sendOk);
    }
  }

  lemma EveryStepIsOneStep(s: System, e: Event)
    ensures OneStep(s.world, Step(s, e).world)
  {
    if s.world.active.None? && !e.Internal? && !e.Connect? && e.conn < |s.conns| {
      match e
      case Process(c, sendOk) =>
        if s.conns[c].inbox != [] {
          FrameIsOneStep(Put(s, c, s.conns[c].(inbox := s.conns[c].inbox[1..])), c, s.conns[c].inbox[0], sendOk);
        }
      case ResumeReady(c) => ReadyIsOneStep(s, c);
      case ResumeTabs(_, _, _) => ReplyIsOneStep(s, e);
      case ResumeCommand(_, _) => ReplyIsOneStep(s, e);
      case SocketLost(c) => LoseIsOneStep(s, c);
      case Arrive(_, _) =>
    }
  }

  lemma {:induction false} RunWorldReachable(systems: seq<System>, events: seq<Event>, k: nat)
    requires IsRun(systems, events) && k <= |events|
    ensures C.Reachable(systems[k].world)
  {
    if k == 0 {
      C.InitialReachable();
    } else {
      RunWorldReachable(systems, events, k - 1);
      EveryStepIsOneStep(systems[k - 1], events[k - 1]);
      if systems[k].world != systems[k - 1].world {
        var e :| systems[k].world == C.Step(systems[k - 1].world, e);
        C.StepReachable(systems[k - 1].world, e);
      }
    }
  }

  /** Behind the relay the controller only makes runs of its own, so whatever holds of every run of it holds here. */
  lemma WorldReachable(s: System)
    requires Reachable(s)
    ensures C.Reachable(s.world)
  {
    var systems, events :| IsRun(systems, events) && systems[|events|] == s;
    RunWorldReachable(systems, events, |events|);
  }

  lemma NewCallSession(w: C.World, e: C.Event, t: nat, k: nat)
    requires e.Exec? || e.Resume? || e.Start?
    requires |C.StateOf(w, t).log| <= k < |C.StateOf(C.Step(w, e), t).log|
    ensures C.StateOf(C.Step(w, e), t).log[k].sessionNow == w.session
  {
    C.NewCallsUnderSession(w, t, e.tab, if e.Exec? then e.choice else Choice(true, NO_STAMP, 0),
                           if e.Resume? then e.reply else Reply(true, []));
  }
}
