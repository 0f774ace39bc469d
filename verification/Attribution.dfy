/**
 * Whose result a result is. A connection's results answer its commands one by one, and a result that
 * reports a command's end reports the end of the very command that its frame put into a tab's queue.
 */
module Attribution {
  import opened Numbers
  import opened Options
  import opened Script
  import M = TabMachine
  import opened TabInvariants
  import opened TabHistory
  import opened Relay
  import C = Controller

  // ----------------------------------------------------------------- a command's identity

  /** Whose the command with a ticket is: one that ended, the running one, or one in the queue. */
  function Identity(t: M.Tab, ticket: nat): Option<Who> {
    var first := |t.outcomes| + Busy(t);
    if ticket < |t.outcomes| then Some(WhoEnded(t.outcomes[ticket]))
    else if t.running.Some? && ticket == |t.outcomes| then Some(WhoOf(t.running.value))
    else if first <= ticket < first + |t.queue| then Some(WhoOf(t.queue[ticket - first]))
    else None
  }

  lemma FollowsKeepIdentity(t: M.Tab, t': M.Tab, ticket: nat)
    requires Follows(t, t') && Identity(t, ticket).Some?
    ensures Identity(t', ticket) == Identity(t, ticket)
  {
    if Starts(t, t') {
      if ticket > |t.outcomes| { assert t'.queue[ticket - |t.outcomes| - 1] == t.queue[ticket - |t.outcomes|]; }
    } else if Ends(t, t') {
      assert ticket < |t.outcomes| ==> t'.outcomes[ticket] == t'.outcomes[..|t.outcomes|][ticket];
    }
  }

  /** A tab's record of commands only moves on. */
  ghost predicate Later(w: C.World, v: C.World) {
    forall t, ticket :: Identity(C.StateOf(w, t), ticket).Some? ==>
      && Identity(C.StateOf(v, t), ticket) == Identity(C.StateOf(w, t), ticket)
      && |C.StateOf(w, t).outcomes| <= |C.StateOf(v, t).outcomes|
  }

  lemma StepIsLater(w: C.World, e: C.Event, v: C.World)
    requires QueuesFresh(w) && v == C.Step(w, e)
    ensures Later(w, v)
  {
    forall t, ticket | Identity(C.StateOf(w, t), ticket).Some?
      ensures Identity(C.StateOf(v, t), ticket) == Identity(C.StateOf(w, t), ticket)
      ensures |C.StateOf(w, t).outcomes| <= |C.StateOf(v, t).outcomes|
    {
      StepFollows(w, e, v, t);
      FollowsKeepIdentity(C.StateOf(w, t), C.StateOf(v, t), ticket);
    }
  }

  lemma OneStepIsLater(w: C.World, v: C.World)
    requires QueuesFresh(w) && OneStep(w, v)
    ensures Later(w, v)
  {
    if v != w {
      var e :| v == C.Step(w, e);
      StepIsLater(w, e, v);
    }
  }

  // -------------------------------------------------------------------- results and frames

  function Commands(frames: seq<Frame>): seq<Frame> {
    if frames == [] then []
    else
      var last := frames[|frames| - 1];
      Commands(frames[..|frames| - 1]) + (if last.Command? then [last] else [])
  }

  lemma {:induction false} CommandsHaveIds(frames: seq<Frame>)
    ensures |Commands(frames)| == |CommandIds(frames)|
    ensures forall k :: 0 <= k < |Commands(frames)| ==>
              Commands(frames)[k].Command? && Commands(frames)[k].id == CommandIds(frames)[k]
  {
    if frames != [] { CommandsHaveIds(frames[..|frames| - 1]); }
  }

  lemma NextCommands(frames: seq<Frame>, n: nat)
    requires n < |frames|
    ensures Commands(frames[..n + 1]) == Commands(frames[..n]) + (if frames[n].Command? then [frames[n]] else [])
  {
    assert frames[..n + 1][..n] == frames[..n];
  }

  /** The command that a frame put into a tab's queue, for the session of connection c. */
  ghost predicate Enqueued(w: C.World, frame: Frame, tab: nat, ticket: nat, c: nat) {
    && frame.Command? && frame.request.OnTab? && frame.request.tab == tab
    && var who := Identity(C.StateOf(w, tab), ticket);
       who.Some? && who.value.args == frame.request.args && who.value.session.serial == c
  }

  /** A result fits a frame: the same id, and the end it reports is that of the frame's own command. */
  ghost predicate Fits(w: C.World, r: Result, frame: Frame, c: nat) {
    && frame.Command? && frame.id == r.id
    && (r.verdict.Finished? ==>
          && Enqueued(w, frame, r.verdict.tab, r.verdict.ticket, c)
          && r.verdict.ticket < |C.StateOf(w, r.verdict.tab).outcomes|)
  }

  /** The k-th result fits the k-th command of the frames handled so far. */
  ghost predicate ResultFits(w: C.World, conn: Connection, k: nat, c: nat)
    requires conn.handled <= |conn.received| && k < |conn.results|
  {
    && k < |Commands(conn.received[..conn.handled])|
    && Fits(w, conn.results[k], Commands(conn.received[..conn.handled])[k], c)
  }

  /** Every end reported so far is that of an earlier command of the tab. */
  predicate Before(results: seq<Result>, tab: nat, ticket: nat) {
    forall j :: 0 <= j < |results| && results[j].verdict.Finished? && results[j].verdict.tab == tab ==>
      results[j].verdict.ticket < ticket
  }

  /** The ends reported for one tab are those of its commands, in their order. */
  predicate Ascending(results: seq<Result>) {
    forall k :: 0 <= k < |results| && results[k].verdict.Finished? ==>
      Before(results[..k], results[k].verdict.tab, results[k].verdict.ticket)
  }

  ghost predicate Attributed(w: C.World, conn: Connection, c: nat) {
    && conn.handled <= |conn.received| && Ascending(conn.results)
    && (conn.doing.AwaitCommand? ==> Before(conn.results, conn.doing.tab, conn.doing.ticket))
    && (forall k :: 0 <= k < |conn.results| ==> ResultFits(w, conn, k, c))
    && (conn.doing.AwaitCommand? ==>
          && conn.handled < |conn.received| && conn.received[conn.handled].Command?
          && conn.received[conn.handled].id == conn.doing.id
          && Enqueued(w, conn.received[conn.handled], conn.doing.tab, conn.doing.ticket, c))
  }

  ghost predicate AllAttributed(s: System) { forall c :: 0 <= c < |s.conns| ==> Attributed(s.world, s.conns[c], c) }

  lemma LaterEnqueued(w: C.World, v: C.World, frame: Frame, tab: nat, ticket: nat, c: nat)
    requires Later(w, v) && Enqueued(w, frame, tab, ticket, c)
    ensures Enqueued(v, frame, tab, ticket, c) && |C.StateOf(w, tab).outcomes| <= |C.StateOf(v, tab).outcomes|
  {
    assert Identity(C.StateOf(w, tab), ticket).Some?;
  }

  lemma LaterFits(w: C.World, v: C.World, r: Result, frame: Frame, c: nat)
    requires Later(w, v) && Fits(w, r, frame, c)
    ensures Fits(v, r, frame, c)
  {
    if r.verdict.Finished? { LaterEnqueued(w, v, frame, r.verdict.tab, r.verdict.ticket, c); }
  }

  /** Attribution looks only at what was received and handled, at the results, and at a command awaited. */
  lemma SameAttributed(w: C.World, conn: Connection, conn': Connection, c: nat)
    requires Attributed(w, conn, c) && conn'.handled == conn.handled && conn'.results == conn.results
    requires conn.received <= conn'.received && (conn'.doing.AwaitCommand? ==> conn'.doing == conn.doing)
    ensures Attributed(w, conn', c)
  {
    assert conn'.received[..conn.handled] == conn.received[..conn.handled];
    forall k | 0 <= k < |conn'.results|
      ensures ResultFits(w, conn', k, c)
    {
      assert ResultFits(w, conn, k, c);
    }
  }

  lemma LaterAttributed(w: C.World, v: C.World, conn: Connection, c: nat)
    requires Later(w, v) && Attributed(w, conn, c)
    ensures Attributed(v, conn, c)
  {
    forall k | 0 <= k < |conn.results|
      ensures ResultFits(v, conn, k, c)
    {
      assert ResultFits(w, conn, k, c);
      LaterFits(w, v, conn.results[k], Commands(conn.received[..conn.handled])[k], c);
    }
    if conn.doing.AwaitCommand? {
      LaterEnqueued(w, v, conn.received[conn.handled], conn.doing.tab, conn.doing.ticket, c);
    }
  }

  lemma HandledAttributed(w: C.World, conn: Connection, c: nat)
    requires Attributed(w, conn, c) && conn.handled < |conn.received|
    ensures Attributed(w, Handled(conn), c)
  {
    NextCommands(conn.received, conn.handled);
    forall k | 0 <= k < |conn.results|
      ensures ResultFits(w, Handled(conn), k, c)
    {
      assert ResultFits(w, conn, k, c);
    }
  }

  lemma ResultAttributed(w: C.World, conn: Connection, c: nat, r: Result)
    requires Attributed(w, conn, c) && conn.handled < |conn.received| && Fits(w, r, conn.received[conn.handled], c)
    requires |conn.results| == |Commands(conn.received[..conn.handled])| && Extends(conn.results, r)
    ensures Attributed(w, Handled(conn).(results := conn.results + [r]), c)
  {
    NextCommands(conn.received, conn.handled);
    AscendingAppend(conn.results, r);
    var next := Handled(conn).(results := conn.results + [r]);
    forall k | 0 <= k < |next.results|
      ensures ResultFits(w, next, k, c)
    {
      if k < |conn.results| { assert ResultFits(w, conn, k, c); }
    }
  }

  predicate Extends(results: seq<Result>, r: Result) {
    r.verdict.Finished? ==> Before(results, r.verdict.tab, r.verdict.ticket)
  }

  lemma AscendingAppend(results: seq<Result>, r: Result)
    requires Ascending(results) && Extends(results, r)
    ensures Ascending(results + [r])
  {
    var longer := results + [r];
    forall k | 0 <= k < |longer| && longer[k].verdict.Finished?
      ensures Before(longer[..k], longer[k].verdict.tab, longer[k].verdict.ticket)
    {
      assert longer[..k] == results[..k];
    }
  }

  lemma AscendingAt(results: seq<Result>, j: nat, k: nat)
    requires Ascending(results) && j < k < |results| && results[j].verdict.Finished? && results[k].verdict.Finished?
    ensures results[j].verdict.tab == results[k].verdict.tab ==> results[j].verdict.ticket < results[k].verdict.ticket
  {
    assert results[..k][j] == results[j];
  }

  /** The current connection has one result for each of its commands so far. */
  lemma OneResultEach(conn: Connection)
    requires Replied(conn, true)
    ensures |conn.results| == |Commands(conn.received[..conn.handled])|
  {
    CommandsHaveIds(conn.received[..conn.handled]);
  }

  // ------------------------------------------------------------------------- every event

  /** One connection's records changed, and the controller moved on by at most one step. */
  lemma ChangeAttributed(s: System, t: System, c: nat)
    requires AllAttributed(s) && Later(s.world, t.world) && c < |s.conns| == |t.conns|
    requires forall d :: 0 <= d < |s.conns| && d != c ==> t.conns[d] == s.conns[d]
    requires Attributed(t.world, t.conns[c], c)
    ensures AllAttributed(t)
  {
    forall d | 0 <= d < |t.conns|
      ensures Attributed(t.world, t.conns[d], d)
    {
      if d != c { LaterAttributed(s.world, t.world, s.conns[d], d); }
    }
  }

  lemma LoseAttributed(s: System, c: nat)
    requires AllAttributed(s) && QueuesFresh(s.world) && s.world.active.None? && c < |s.conns|
    ensures AllAttributed(Lose(s, c))
  {
    if s.current == Some(c) {
      LoseIsOneStep(s, c);
      OneStepIsLater(s.world, Lose(s, c).world);
      LaterAttributed(s.world, Lose(s, c).world, s.conns[c], c);
      SameAttributed(Lose(s, c).world, s.conns[c], s.conns[c].(ready := false), c);
      ChangeAttributed(s, Lose(s, c), c);
    }
  }

  lemma PutAttributed(s: System, c: nat, conn: Connection)
    requires AllAttributed(s) && c < |s.conns| && Attributed(s.world, conn, c)
    ensures AllAttributed(Put(s, c, conn))
  {
    ChangeAttributed(s, Put(s, c, conn), c);
  }

  lemma PutSameAttributed(s: System, c: nat, conn: Connection)
    requires AllAttributed(s) && c < |s.conns| && conn.handled == s.conns[c].handled
               && conn.results == s.conns[c].results
    requires s.conns[c].received <= conn.received && (conn.doing.AwaitCommand? ==> conn.doing == s.conns[c].doing)
    ensures AllAttributed(Put(s, c, conn)) && Attributed(s.world, conn, c)
  {
    SameAttributed(s.world, s.conns[c], conn, c);
    PutAttributed(s, c, conn);
  }

  lemma RefuseAttributed(s: System, c: nat)
    requires AllAttributed(s) && QueuesFresh(s.world) && s.world.active.None?
    requires c < |s.conns| && s.conns[c].handled < |s.conns[c].received|
    ensures AllAttributed(Refuse(s, c)) && AllAttributed(Put(s, c, Handled(s.conns[c])))
  {
    HandledAttributed(s.world, s.conns[c], c);
    PutAttributed(s, c, Handled(s.conns[c]));
    LoseAttributed(Put(s, c, Handled(s.conns[c])), c);
  }

  lemma SendAttributed(s: System, c: nat, r: Result, sendOk: bool)
    requires AllAttributed(s) && QueuesFresh(s.world) && s.world.active.None?
    requires c < |s.conns| && s.conns[c].handled < |s.conns[c].received|
    requires Fits(s.world, r, s.conns[c].received[s.conns[c].handled], c) && Extends(s.conns[c].results, r)
    requires s.current == Some(c) ==> |s.conns[c].results| == |Commands(s.conns[c].received[..s.conns[c].handled])|
    ensures AllAttributed(SendResult(s, c, r, sendOk))
  {
    RefuseAttributed(s, c);
    if s.current == Some(c) && sendOk {
      ResultAttributed(s.world, s.conns[c], c, r);
      PutAttributed(s, c, Handled(s.conns[c]).(results := s.conns[c].results + [r]));
      SentShape(s, c, r);
    }
  }

  lemma SentShape(s: System, c: nat, r: Result)
    requires c < |s.conns| && s.current == Some(c)
    ensures SendResult(s, c, r, true) == Put(s, c, Handled(s.conns[c]).(results := s.conns[c].results + [r]))
  {
  }

  /** The frame that message() has just taken, on the current connection. */
  ghost predicate Taken(s: System, c: nat, frame: Frame) {
    && AllAttributed(s) && QueuesFresh(s.world) && C.TabsSound(s.world) && s.world.active.None? && Coupled(s)
    && c < |s.conns| && s.current == Some(c) && s.conns[c].handled < |s.conns[c].received|
    && s.conns[c].received[s.conns[c].handled] == frame && s.conns[c].doing.Idle?
    && |s.conns[c].results| == |Commands(s.conns[c].received[..s.conns[c].handled])|
  }

  /** A command joins its tab's queue last: its ticket is its own from then on. */
  lemma QueueIdentifies(w: C.World, t: nat, args: Args)
    requires C.TabsSound(w) && w.session.Some?
    ensures Identity(C.StateOf(C.OnRun(w, t, args), t), C.StateOf(w, t).tickets) == Some(Who(w.session.value, args))
  {
    C.LocalSound(w, t);
    assert InOrder(C.StateOf(w, t));
    var tab := M.Enqueue(C.LocalOf(w, t), w.session.value, args).tab;
    assert C.StateOf(C.OnRun(w, t, args), t) == tab;
    assert tab.queue[|tab.queue| - 1]
           == M.NewCommand(C.StateOf(w, t).tickets, w.session.value, C.StateOf(w, t).lifetime, args);
  }

  /** From now on the connection waits for the command that its frame has just put into a queue. */
  lemma AwaitAttributed(w: C.World, conn: Connection, conn': Connection, c: nat)
    requires Attributed(w, conn, c) && conn'.handled == conn.handled && conn'.results == conn.results
    requires conn'.received == conn.received && conn.handled < |conn.received| && conn'.doing.AwaitCommand?
    requires conn.received[conn.handled].Command? && conn.received[conn.handled].id == conn'.doing.id
    requires Enqueued(w, conn.received[conn.handled], conn'.doing.tab, conn'.doing.ticket, c)
    requires Before(conn.results, conn'.doing.tab, conn'.doing.ticket)
    ensures Attributed(w, conn', c)
  {
    forall k | 0 <= k < |conn'.results|
      ensures ResultFits(w, conn', k, c)
    {
      assert ResultFits(w, conn, k, c);
    }
  }

  lemma QueueAttributed(s: System, t: System, c: nat, id: string, request: Request)
    requires Taken(s, c, Frame.Command(id, request)) && request.OnTab? && s.world.session.Some?
    requires |t.conns| == |s.conns| && t.world == C.OnRun(s.world, request.tab, request.args)
    requires forall d :: 0 <= d < |s.conns| && d != c ==> t.conns[d] == s.conns[d]
    requires t.conns[c].received == s.conns[c].received && t.conns[c].handled == s.conns[c].handled
    requires t.conns[c].results == s.conns[c].results
    requires t.conns[c].doing == AwaitCommand(id, request.tab, C.StateOf(s.world, request.tab).tickets)
    ensures AllAttributed(t)
  {
    RunIsLater(s.world, request.tab, request.args);
    QueueIdentifies(s.world, request.tab, request.args);
    LaterAttributed(s.world, t.world, s.conns[c], c);
    EndsBeforeNext(s.world, s.conns[c], c, request.tab);
    AwaitAttributed(t.world, s.conns[c], t.conns[c], c);
    ChangeAttributed(s, t, c);
  }

  /** Every end reported so far is that of a command older than the next one. */
  lemma EndsBeforeNext(w: C.World, conn: Connection, c: nat, t: nat)
    requires C.TabsSound(w) && Attributed(w, conn, c)
    ensures Before(conn.results, t, C.StateOf(w, t).tickets)
  {
    C.LocalSound(w, t);
    assert InOrder(C.StateOf(w, t));
    forall j | 0 <= j < |conn.results| && conn.results[j].verdict.Finished? && conn.results[j].verdict.tab == t
      ensures conn.results[j].verdict.ticket < C.StateOf(w, t).tickets
    {
      assert ResultFits(w, conn, j, c);
    }
  }

  lemma RunIsLater(w: C.World, t: nat, args: Args)
    requires QueuesFresh(w) && w.active.None?
    ensures Later(w, C.OnRun(w, t, args))
  {
    assert C.OnRun(w, t, args) == C.Step(w, C.Run(t, args));
    StepIsLater(w, C.Run(t, args), C.OnRun(w, t, args));
  }

  lemma CommandAttributed(s: System, c: nat, id: string, request: Request, sendOk: bool)
    requires Taken(s, c, Frame.Command(id, request))
    ensures AllAttributed(RunCommand(s, c, id, request, sendOk))
  {
    var marked := s.conns[c].(seen := s.conns[c].seen + {id}, runs := s.conns[c].runs + [id]);
    PutSameAttributed(s, c, marked);
    if s.world.session.None? {
      SendAttributed(Put(s, c, marked), c, Result(id, Answered(Some(ConnectionLost), NotDispatched)), sendOk);
    } else if request.ListTabs? {
      ListAttributed(s, c, id, marked);
    } else if request.OnTab? {
      QueueAttributed(s, RunCommand(s, c, id, request, sendOk), c, id, request);
    } else {
      SendAttributed(Put(s, c, marked), c, Result(id, Answered(Some(InvalidArguments), NotDispatched)), sendOk);
    }
  }

  lemma ListAttributed(s: System, c: nat, id: string, marked: Connection)
    requires AllAttributed(s) && c < |s.conns| && Attributed(s.world, marked, c) && s.world.session.Some?
    ensures AllAttributed(Put(s, c, marked.(doing := AwaitTabs(id, s.world.session.value))))
  {
    SameAttributed(s.world, marked, marked.(doing := AwaitTabs(id, s.world.session.value)), c);
    PutAttributed(s, c, marked.(doing := AwaitTabs(id, s.world.session.value)));
  }

  lemma FrameAttributed(s: System, c: nat, frame: Frame, sendOk: bool)
    requires Taken(s, c, frame)
    ensures AllAttributed(HandleFrame(s, c, frame, sendOk))
  {
    RefuseAttributed(s, c);
    if frame.Command? {
      if IsUuid(frame.id) {
        if !s.conns[c].ready {
          SendAttributed(s, c, Result(frame.id, NotReady), sendOk);
        } else if frame.id in s.conns[c].seen {
          SendAttributed(s, c, Result(frame.id, Duplicate), sendOk);
        } else {
          CommandAttributed(s, c, frame.id, frame.request, sendOk);
        }
      }
    } else if frame.Ready? {
      PutSameAttributed(s, c,
                        s.conns[c].(readyStarted := true, doing := AwaitCleanup(|s.world.disconnects|, frame.id)));
    }
  }

  lemma ProcessAttributed(s: System, c: nat, sendOk: bool)
    requires SystemInv(s) && AllAttributed(s) && QueuesFresh(s.world) && C.TabsSound(s.world)
    requires s.world.active.None? && c < |s.conns|
    ensures AllAttributed(OnProcess(s, c, sendOk))
  {
    var conn := s.conns[c];
    assert ConnectionSound(s, c);
    if conn.doing.Idle? && conn.inbox != [] {
      var popped := Put(s, c, conn.(inbox := conn.inbox[1..]));
      PutSameAttributed(s, c, conn.(inbox := conn.inbox[1..]));
      if s.current == Some(c) {
        OneResultEach(conn);
        FrameAttributed(popped, c, conn.inbox[0], sendOk);
      } else {
        HandledAttributed(popped.world, popped.conns[c], c);
        PutAttributed(popped, c, Handled(popped.conns[c]));
      }
    }
  }

  lemma ReadyAttributed(s: System, c: nat)
    requires SystemInv(s) && AllAttributed(s) && QueuesFresh(s.world) && s.world.active.None? && c < |s.conns|
    ensures AllAttributed(OnResumeReady(s, c))
  {
    var conn := s.conns[c];
    assert ConnectionSound(s, c);
    if conn.doing.AwaitCleanup? && CleanedUp(s.world, conn.doing.cleanups) {
      RefuseAttributed(s, c);
      if s.current == Some(c) && s.world.session.None? {
        var t := OnResumeReady(s, c);
        ReadyIsOneStep(s, c);
        OneStepIsLater(s.world, t.world);
        HandledAttributed(s.world, conn, c);
        SameAttributed(s.world, Handled(conn), Handled(conn).(ready := true), c);
        LaterAttributed(s.world, t.world, Handled(conn).(ready := true), c);
        ChangeAttributed(s, t, c);
      }
    }
  }

  lemma TabsAttributed(s: System, c: nat, ok: bool, sendOk: bool)
    requires SystemInv(s) && AllAttributed(s) && QueuesFresh(s.world) && s.world.active.None? && c < |s.conns|
    ensures AllAttributed(OnResumeTabs(s, c, ok, sendOk))
  {
    var conn := s.conns[c];
    assert ConnectionSound(s, c);
    if conn.doing.AwaitTabs? {
      if s.current == Some(c) { OneResultEach(conn); }
      SendAttributed(s, c, Result(conn.doing.id, Answered(Some(BrowserCommandFailed), NotDispatched)), sendOk);
      SendAttributed(s, c, Result(conn.doing.id, Answered(Some(ConnectionLost), NotDispatched)), sendOk);
      SendAttributed(s, c, Result(conn.doing.id, Answered(None, ReadbackComplete)), sendOk);
    }
  }

  lemma EndAttributed(s: System, c: nat, sendOk: bool)
    requires SystemInv(s) && AllAttributed(s) && QueuesFresh(s.world) && s.world.active.None? && c < |s.conns|
    ensures AllAttributed(OnResumeCommand(s, c, sendOk))
  {
    var conn := s.conns[c];
    assert ConnectionSound(s, c);
    if conn.doing.AwaitCommand? && conn.doing.ticket < |C.StateOf(s.world, conn.doing.tab).outcomes| {
      if s.current == Some(c) { OneResultEach(conn); }
      SendAttributed(s, c, Result(conn.doing.id, Finished(conn.doing.tab, conn.doing.ticket)), sendOk);
    }
  }

  lemma ArriveAttributed(s: System, c: nat, frame: Frame)
    requires AllAttributed(s) && c < |s.conns|
    ensures AllAttributed(Step(s, Arrive(c, frame)))
  {
    var conn := s.conns[c];
    var conn' := conn.(inbox := conn.inbox + [frame], received := conn.received + [frame]);
    if s.world.active.None? { PutSameAttributed(s, c, conn'); }
  }

  lemma InternalAttributed(s: System, e: C.Event)
    requires AllAttributed(s) && QueuesFresh(s.world)
    ensures AllAttributed(s.(world := C.Step(s.world, e)))
  {
    StepIsLater(s.world, e, C.Step(s.world, e));
    forall c | 0 <= c < |s.conns|
      ensures Attributed(C.Step(s.world, e), s.conns[c], c)
    {
      LaterAttributed(s.world, C.Step(s.world, e), s.conns[c], c);
    }
  }

  lemma StepAttributed(s: System, e: Event, t: System)
    requires SystemInv(s) && AllAttributed(s) && QueuesFresh(s.world) && C.TabsSound(s.world) && t == Step(s, e)
    ensures AllAttributed(t)
  {
    if e.Internal? {
      if IsInternal(e.event) { InternalAttributed(s, e.event); }
    } else if s.world.active.None? && !e.Connect? && e.conn < |s.conns| {
      match e
      case Arrive(c, frame) => ArriveAttributed(s, c, frame);
      case Process(c, sendOk) => ProcessAttributed(s, c, sendOk);
      case ResumeReady(c) => ReadyAttributed(s, c);
      case ResumeTabs(c, ok, sendOk) => TabsAttributed(s, c, ok, sendOk);
      case ResumeCommand(c, sendOk) => EndAttributed(s, c, sendOk);
      case SocketLost(c) => LoseAttributed(s, c);
    }
  }

  lemma {:induction false} RunAttributed(systems: seq<System>, events: seq<Event>, k: nat)
    requires IsRun(systems, events) && k <= |events|
    ensures AllAttributed(systems[k])
  {
    if k != 0 {
      RunAttributed(systems, events, k - 1);
      RunSound(systems, events, k - 1);
      RunWorldReachable(systems, events, k - 1);
      C.ReachableSound(systems[k - 1].world);
      SoundQueuesFresh(systems[k - 1].world);
      StepAttributed(systems[k - 1], events[k - 1], systems[k]);
    }
  }

  /**
   * The k-th result of a connection answers its k-th command, and a result that reports an end reports
   * the outcome of that very command: with its arguments, and accepted by the session of the connection.
   */
  lemma ResultsAreTheirOwn(s: System, c: nat, k: nat)
    requires Reachable(s) && c < |s.conns| && k < |s.conns[c].results|
    ensures var r := s.conns[c].results[k];
            var commands := Commands(s.conns[c].received[..Min(s.conns[c].handled, |s.conns[c].received|)]);
            && k < |commands| && commands[k].Command? && commands[k].id == r.id
            && (r.verdict.Finished? ==>
                  && commands[k].request.OnTab? && commands[k].request.tab == r.verdict.tab
                  && var outcomes := C.StateOf(s.world, r.verdict.tab).outcomes;
                     && r.verdict.ticket < |outcomes| && outcomes[r.verdict.ticket].args == commands[k].request.args
                     && outcomes[r.verdict.ticket].session.serial == c)
  {
    var systems, events :| IsRun(systems, events) && systems[|events|] == s;
    RunAttributed(systems, events, |events|);
    assert Attributed(s.world, s.conns[c], c);
    assert ResultFits(s.world, s.conns[c], k, c);
  }

  /** No command's end is reported twice, on whatever connections. */
  lemma EachEndOnce(s: System, c: nat, k: nat, d: nat, j: nat)
    requires Reachable(s) && c < |s.conns| && k < |s.conns[c].results| && d < |s.conns| && j < |s.conns[d].results|
    requires s.conns[c].results[k].verdict.Finished? && s.conns[d].results[j].verdict == s.conns[c].results[k].verdict
    ensures c == d && k == j
  {
    var systems, events :| IsRun(systems, events) && systems[|events|] == s;
    RunAttributed(systems, events, |events|);
    assert Attributed(s.world, s.conns[c], c) && Attributed(s.world, s.conns[d], d);
    assert ResultFits(s.world, s.conns[c], k, c) && ResultFits(s.world, s.conns[d], j, d);
    if k < j { AscendingAt(s.conns[d].results, k, j); }
    if j < k { AscendingAt(s.conns[c].results, j, k); }
  }
}
