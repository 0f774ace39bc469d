/**
 * One tab of the browser controller: its command queue, the command it runs, its debugger
 * attachment and its node references. Each function is one atomic step, from one await to the next
 * or one operation inside such a step.
 */
module TabMachine {
  import opened Options
  import opened AxTree
  import opened Script

  /** A relay session. The serial stands for the identity of the session object. */
  datatype Session = Session(serial: nat, id: string)

  datatype Settled = Fulfilled | Rejected(code: Code)

  datatype Resolved = Resolved(saved: SavedRef, generation: nat)

  /** The promise of an intercepted file chooser. */
  datatype Chooser = Pending | Opened | Refused

  /** The finally block that a failure must run, with the lifetime read when its try began. */
  datatype Handler = UploadCleanup(lifetime: nat) | DownloadCleanup(lifetime: nat)

  /** state.attaching: waiting for the browser, or releasing an attachment that came too late. */
  datatype AttachStage = Attaching | Releasing
  datatype Attachment = Attachment(session: Session, lifetime: nat, stage: AttachStage)

  /** state.detaching: closing an intercepted chooser first, or waiting for the detach itself. */
  datatype DetachStage = ClosingChooser | Detaching
  datatype Detachment = Detachment(stage: DetachStage, lifetime: nat)

  datatype Wait =
    | Executing                 // not waiting: between two operations of one atomic step
    | AwaitCall(m: Method)      // context.wait(sendCommand) and context.wait(tabs.get)
    | AwaitChooser
    | AwaitAttaching
    | AwaitDetaching            // attach() waiting for a detach in flight
    | AwaitRelease(begun: bool) // release; begun if this command dispatched the detach
    | AwaitRaw(m: Method)       // cleanup call, tied to no session
    | AwaitCleanupDetach

  datatype Command = Command(
    ticket: nat, session: Session, lifetime: nat, args: Args,
    rest: seq<Op>, wait: Wait, inbox: Option<Settled>,
    phase: Phase, handler: Option<Handler>, failed: Option<Code>, readback: bool,
    resolved: Option<Resolved>, doc: Stamp, before: Stamp, generation: nat, nodes: seq<AxNode>, bytes: nat,
    // what the command has done so far
    sent: seq<Method>, acked: nat, snapAck: Option<nat>,
    // what is known until the next wait
    recent: bool, live: bool, minting: Minting)

  /** One call to the browser, with the facts of the moment at which it was dispatched. */
  datatype Sent = Sent(
    ticket: nat, call: Method, cleanup: bool,
    session: Session, sessionNow: Option<Session>, lifetime: nat, lifetimeNow: nat,
    aimed: bool, refGeneration: Option<nat>, generationNow: nat)

  /** A debugger detach, with the tab's lifetime when detachOwned began and when the call was made. */
  datatype DetachSent = DetachSent(owned: bool, begun: nat, now: nat)

  /** What run() reports for a command, with the effects the command really had. */
  datatype Outcome = Outcome(
    ticket: nat, session: Session, args: Args, code: Option<Code>, phase: Phase,
    sent: seq<Method>, acked: nat, snapAck: Option<nat>)

  datatype Tab = Tab(
    generation: nat, lifetime: nat, refs: map<string, SavedRef>, document: Option<Stamp>,
    chooser: Option<Chooser>, attaching: Option<Attachment>, detaching: Option<Detachment>,
    running: Option<Command>, queue: seq<Command>,
    // history of this tab
    attached: bool, attaches: nat, detaches: nat, tickets: nat, detachFailures: nat,
    log: seq<Sent>, outcomes: seq<Outcome>, mints: seq<nat>, detachLog: seq<DetachSent>)

  /** A tab together with the parts of the controller that its steps read: the session, and its place in `owned`. */
  datatype Local = Local(session: Option<Session>, owned: bool, id: nat, tab: Tab)

  /** A step of a tab changes neither the session nor which tab it is, and its history only grows. */
  predicate Elsewhere(l: Local, r: Local) {
    && r.id == l.id && r.session == l.session && Grown(l.tab, r.tab)
    && forall k :: |l.tab.log| <= k < |r.tab.log| ==> r.tab.log[k].sessionNow == l.session
  }

  predicate Grown(t: Tab, t': Tab) {
    && t.log <= t'.log && t.outcomes <= t'.outcomes && t.mints <= t'.mints && t.detachLog <= t'.detachLog
    && t.generation <= t'.generation && t.lifetime <= t'.lifetime && t.tickets <= t'.tickets
  }

  /** What the browser answers, and what the checks on the answers find. */
  datatype Reply = Reply(ok: bool, nodes: seq<AxNode>)
  datatype Choice = Choice(pass: bool, stamp: Stamp, bytes: nat)

  const NO_STAMP := Stamp("", "", "", 0)

  function NewTab(): Tab {
    Tab(0, 0, map[], None, None, None, None, None, [], false, 0, 0, 0, 0, [], [], [], [])
  }

  function NewCommand(ticket: nat, session: Session, lifetime: nat, args: Args): Command {
    Command(ticket, session, lifetime, args, Body(args), Executing, None, NotDispatched, None, None, false,
            None, NO_STAMP, NO_STAMP, 0, [], 0, [], 0, None, false, false, Idle)
  }

  /** invalidate(tabId) */
  function Invalidated(t: Tab): Tab {
    t.(generation := t.generation + 1, refs := map[], document := None,
       chooser := if t.chooser == Some(Pending) then Some(Refused) else t.chooser)
  }

  predicate SameSession(l: Local, c: Command) { l.session == Some(c.session) }

  predicate Valid(l: Local, c: Command) { SameSession(l, c) && l.tab.lifetime == c.lifetime }

  function LostCode(l: Local, c: Command): Code {
    if SameSession(l, c) then DebuggerDetached else ConnectionLost
  }

  function Put(l: Local, c: Command): (r: Local)
    ensures Elsewhere(l, r)
  {
    l.(tab := l.tab.(running := Some(c)))
  }

  // ------------------------------------------------------------------ ending and failing

  /** The reply of run(): a success that dispatched nothing is a completed readback. */
  function Report(c: Command, code: Option<Code>): Outcome {
    Outcome(c.ticket, c.session, c.args, code,
            if code.None? && c.phase.NotDispatched? then ReadbackComplete else c.phase, c.sent, c.acked, c.snapAck)
  }

  function Finish(l: Local, c: Command, code: Option<Code>): (r: Local)
    ensures Elsewhere(l, r)
  {
    l.(tab := l.tab.(running := None, outcomes := l.tab.outcomes + [Report(c, code)]))
  }

  /** An exception: run the pending finally block, or end the command. */
  function Throw(l: Local, c: Command, code: Code): (r: Local)
    ensures Elsewhere(l, r)
  {
    var reported := if c.readback then ReadbackFailed else code;
    if c.handler.Some? then
      Put(l, c.(rest := [Finally, Rethrow], failed := Some(reported), wait := Executing, recent := false,
                live := false))
    else Finish(l, c, Some(reported))
  }

  /** An exception that invalidates the tab's references first. */
  function ThrowStale(l: Local, c: Command, code: Code): (r: Local)
    ensures Elsewhere(l, r)
  {
    Throw(l.(tab := Invalidated(l.tab)), c.(recent := false, minting := Waited(c.minting)), code)
  }

  // -------------------------------------------------------------------------- dispatching

  function Entry(l: Local, c: Command, m: Method, cleanup: bool): Sent {
    Sent(c.ticket, m, cleanup, c.session, l.session, c.lifetime, l.tab.lifetime,
         NeedsRef(c.args), if c.resolved.Some? then Some(c.resolved.value.generation) else None, l.tab.generation)
  }

  function Dispatch(l: Local, c: Command, m: Method, cleanup: bool): (r: Local)
    ensures Elsewhere(l, r)
  {
    l.(tab := l.tab.(log := l.tab.log + [Entry(l, c, m, cleanup)]))
  }

  function Waiting(c: Command, w: Wait, rest: seq<Op>): Command {
    c.(wait := w, rest := rest, inbox := None, recent := false, live := false, minting := Waited(c.minting))
  }

  /** send() and metadata(): check, dispatch, wait. */
  function ExecCall(l: Local, c: Command, m: Method, rest: seq<Op>): (r: Local)
    ensures Elsewhere(l, r)
  {
    if !Valid(l, c) then Throw(l, c, LostCode(l, c))
    else
      var waiting := Waiting(c, AwaitCall(m), rest);
      Put(Dispatch(l, c, m, false), if IsEffect(m) then waiting.(sent := c.sent + [m]) else waiting)
  }

  // ------------------------------------------------------------------ attaching, detaching

  /** The part of attach() that starts, or joins, an attachment. */
  function BeginAttach(l: Local, c: Command, rest: seq<Op>): (r: Local)
    ensures Elsewhere(l, r)
  {
    var waiting := Waiting(c, AwaitAttaching, ENABLE + rest);
    if l.tab.attaching.Some? then Put(l, waiting)
    else
      var d := Dispatch(l, c, DebuggerAttach, false);
      Put(d.(tab := d.tab.(attaching := Some(Attachment(c.session, l.tab.lifetime, Attaching)),
                           attaches := l.tab.attaches + 1)), waiting)
  }

  function ExecAttach(l: Local, c: Command, rest: seq<Op>): (r: Local)
    ensures Elsewhere(l, r)
  {
    if !Valid(l, c) then Throw(l, c, LostCode(l, c))
    else if l.owned then Put(l, c.(rest := rest, recent := false, live := true, minting := Waited(c.minting)))
    else if l.tab.detaching.Some? then Put(l, Waiting(c, AwaitDetaching, rest))
    else BeginAttach(l, c, rest)
  }

  function SendDetach(t: Tab, owned: bool, begun: nat): Tab {
    t.(detachLog := t.detachLog + [DetachSent(owned, begun, t.lifetime)])
  }

  /** detachOwned(): joins a detach in flight, does nothing for a tab not owned, else begins one. */
  function DetachOwned(l: Local): (r: Local)
    ensures Elsewhere(l, r)
  {
    if l.tab.detaching.Some? || !l.owned then l
    else
      var stage := if l.tab.chooser.Some? then ClosingChooser else Detaching;
      var begun := l.tab.(detaches := l.tab.detaches + 1, detaching := Some(Detachment(stage, l.tab.lifetime)));
      l.(tab := if l.tab.chooser.Some? then begun else SendDetach(begun, true, l.tab.lifetime))
  }

  /** True when detachOwned() returns without a promise to wait for. */
  predicate NothingToDetach(l: Local) { l.tab.detaching.None? && !l.owned }

  function ExecRelease(l: Local, c: Command, rest: seq<Op>): (r: Local)
    ensures Elsewhere(l, r)
  {
    var begins := l.tab.detaching.None? && l.owned;
    var waiting := Waiting(c, AwaitRelease(begins), rest);
    var d := DetachOwned(if begins then Dispatch(l, c, DebuggerDetach, false) else l);
    Put(d, waiting.(inbox := if NothingToDetach(l) then Some(Fulfilled) else None,
                    sent := if begins then c.sent + [DebuggerDetach] else c.sent))
  }

  // -------------------------------------------------------------------- local operations

  function Pop(l: Local, c: Command, rest: seq<Op>): (r: Local)
    ensures Elsewhere(l, r)
  {
    Put(l, c.(rest := rest, minting := Waited(c.minting)))
  }

  /** A check that fails with a code of its own and touches nothing else. */
  function ExecCheck(l: Local, c: Command, rest: seq<Op>, pass: bool, code: Code): (r: Local)
    ensures Elsewhere(l, r)
  {
    if pass then Put(l, c.(rest := rest)) else Throw(l, c, code)
  }

  function ExecBeginSnapshot(l: Local, c: Command, rest: seq<Op>): (r: Local)
    ensures Elsewhere(l, r)
  {
    var t := Invalidated(l.tab);
    Put(l.(tab := t), c.(rest := rest, generation := t.generation, snapAck := Some(c.acked), recent := false,
                         minting := Begun))
  }

  function ExecCheckSnapshot(l: Local, c: Command, rest: seq<Op>): (r: Local)
    ensures Elsewhere(l, r)
  {
    if c.generation != l.tab.generation || c.before != c.doc then ThrowStale(l, c, DocumentChanged)
    else Put(l, c.(rest := rest, minting := if c.minting.Begun? then Matched else c.minting))
  }

  function MintOrigin(l: Local, c: Command): Origin { Origin(c.session.id, l.id, c.generation, c.doc) }

  function ExecMint(l: Local, c: Command, rest: seq<Op>): (r: Local)
    ensures Elsewhere(l, r)
  {
    if !Valid(l, c) then Throw(l, c, LostCode(l, c))
    else
      Put(l.(tab := l.tab.(refs := AxTree.Mint(MintOrigin(l, c), c.nodes), document := Some(c.doc),
                           mints := l.tab.mints + [c.generation])),
          c.(rest := rest, minting := Idle))
  }

  function ExecLookup(l: Local, c: Command, rest: seq<Op>): (r: Local)
    ensures Elsewhere(l, r)
  {
    if !c.args.ref.Text? || c.args.ref.s == "" then Throw(l, c, InvalidArguments)
    else if c.args.ref.s !in l.tab.refs || l.tab.refs[c.args.ref.s].generation != l.tab.generation then
      Throw(l, c, StaleRef)
    else Put(l, c.(rest := rest, recent := false, minting := Waited(c.minting),
                   resolved := Some(Resolved(l.tab.refs[c.args.ref.s], l.tab.generation))))
  }

  function ExecCheckReference(l: Local, c: Command, rest: seq<Op>): (r: Local)
    ensures Elsewhere(l, r)
  {
    if || c.resolved.None?
       || c.resolved.value.generation != l.tab.generation
       || c.doc != c.resolved.value.saved.document
    then
      ThrowStale(l, c, StaleRef)
    else Put(l, c.(rest := rest, recent := true, minting := Waited(c.minting)))
  }

  function ExecCheckGeneration(l: Local, c: Command, rest: seq<Op>): (r: Local)
    ensures Elsewhere(l, r)
  {
    if c.resolved.None? || c.resolved.value.generation != l.tab.generation then Throw(l, c, StaleRef)
    else Put(l, c.(rest := rest, recent := true, minting := Waited(c.minting)))
  }

  function ExecReadParts(l: Local, c: Command, offset: nat, rest: seq<Op>): (r: Local)
    ensures Elsewhere(l, r)
  {
    if offset < c.bytes then
      Pop(l, c.(recent := false, live := false),
          [CheckGeneration, Call(ReadBlobPart), Check(DownloadReadFailed), Check(DownloadReadFailed),
           ReadParts(offset + 65536)] + rest)
    else Pop(l, c.(recent := false, live := false), rest)
  }

  function ExecEnter(l: Local, c: Command, h: Handler, rest: seq<Op>): (r: Local)
    ensures Elsewhere(l, r)
  {
    var t := if h.UploadCleanup? then l.tab.(chooser := Some(Pending)) else l.tab;
    Pop(l.(tab := t), c.(handler := Some(h)), rest)
  }

  /** The finally blocks of upload and downloadLink, up to their cleanup call. */
  function ExecFinally(l: Local, c: Command, rest: seq<Op>): (r: Local)
    ensures Elsewhere(l, r)
  {
    var done := c.(handler := None, recent := false, live := false, minting := Waited(c.minting), rest := rest);
    if c.handler.None? then Put(l, done)
    else
      var upload := c.handler.value.UploadCleanup?;
      var closed := if upload then l.(tab := l.tab.(chooser := None)) else l;
      var m := if upload then InterceptOff else ReleaseObjectGroup;
      if l.owned && l.tab.lifetime == c.handler.value.lifetime then
        Put(Dispatch(closed, c, m, true), done.(wait := AwaitRaw(m), inbox := None))
      else Put(closed, done)
  }

  function ExecCurrent(l: Local, c: Command, rest: seq<Op>): (r: Local)
    ensures Elsewhere(l, r)
  {
    if !Valid(l, c) then Throw(l, c, LostCode(l, c)) else Pop(l, c.(live := true), rest)
  }

  function RethrownCode(c: Command): Code { if c.failed.Some? then c.failed.value else BrowserCommandFailed }

  /** One operation of the running command. */
  function Exec(l: Local, choice: Choice): (r: Local)
    requires l.tab.running.Some? && l.tab.running.value.wait.Executing?
    ensures Elsewhere(l, r)
  {
    var c := l.tab.running.value;
    if c.rest == [] then Finish(l, c, None)
    else
      var rest := c.rest[1..];
      match c.rest[0]
      case Call(m) => ExecCall(l, c, m, rest)
      case Attach => ExecAttach(l, c, rest)
      case WaitChooser => Put(l, Waiting(c, AwaitChooser, rest))
      case ReleaseDetach => ExecRelease(l, c, rest)
      case Invalidate => Pop(l.(tab := Invalidated(l.tab)), c.(recent := false), rest)
      case BeginSnapshot => ExecBeginSnapshot(l, c, rest)
      case ReadStamp => if choice.pass then Pop(l, c.(doc := choice.stamp), rest) else Throw(l, c, DocumentChanged)
      case KeepBefore => Pop(l, c.(before := c.doc), rest)
      case CheckSnapshot => ExecCheckSnapshot(l, c, rest)
      case CheckSame => if c.before == c.doc then Pop(l, c, rest) else Throw(l, c, DocumentChanged)
      case Mint => ExecMint(l, c, rest)
      case Lookup => ExecLookup(l, c, rest)
      case CheckReference => ExecCheckReference(l, c, rest)
      case CheckGeneration => ExecCheckGeneration(l, c, rest)
      case Check(code) => ExecCheck(l, c, rest, choice.pass, code)
      case Require(ok, code) => if ok then Pop(l, c, rest) else Throw(l, c, code)
      case SetPhase(p) => Pop(l, c.(phase := p), rest)
      case Readback => Pop(l, c.(readback := true), rest)
      case EnterUpload => ExecEnter(l, c, UploadCleanup(l.tab.lifetime), rest)
      case EnterDownload => ExecEnter(l, c, DownloadCleanup(l.tab.lifetime), rest)
      case TakeMeta => if choice.pass then Pop(l, c.(bytes := choice.bytes), rest) else Throw(l, c, DownloadReadFailed)
      case ReadParts(offset) => ExecReadParts(l, c, offset, rest)
      case Finally => ExecFinally(l, c, rest)
      case Current => ExecCurrent(l, c, rest)
      case Rethrow => Finish(l, c, Some(RethrownCode(c)))
  }

  // ------------------------------------------------------------------------ resuming waits

  function Awake(c: Command): Command { c.(wait := Executing, inbox := None) }

  function ResumeCall(l: Local, c: Command, m: Method, reply: Reply): (r: Local)
    ensures Elsewhere(l, r)
  {
    if !Valid(l, c) then Throw(l, c, LostCode(l, c))
    else if !reply.ok then Throw(l, c, BrowserCommandFailed)
    else
      Put(l, Awake(c).(live := true, acked := if IsEffect(m) then c.acked + 1 else c.acked,
                       nodes := if m.GetFullAXTree? then reply.nodes else c.nodes))
  }

  function ResumeChooser(l: Local, c: Command): (r: Local)
    ensures Elsewhere(l, r)
  {
    if !Valid(l, c) then Throw(l, c, LostCode(l, c))
    else if l.tab.chooser == Some(Refused) then Throw(l, c, StaleRef)
    else if l.tab.chooser == Some(Opened) then Put(l, Awake(c).(live := true))
    else l
  }

  /** context.wait on a promise of the tab's own: attaching or detaching. */
  function ResumePromise(l: Local, c: Command): (r: Local)
    ensures Elsewhere(l, r)
  {
    if !Valid(l, c) then Throw(l, c, LostCode(l, c))
    else if c.inbox.None? then l
    else if c.inbox.value.Rejected? then Throw(l, c, c.inbox.value.code)
    else if c.wait.AwaitDetaching? then BeginAttach(l, Awake(c), c.rest)
    else Put(l, Awake(c).(live := true))
  }

  function ResumeRelease(l: Local, c: Command, begun: bool): (r: Local)
    ensures Elsewhere(l, r)
  {
    if !SameSession(l, c) then Throw(l, c, ConnectionLost)
    else if c.inbox.None? then l
    else if c.inbox.value.Rejected? then Throw(l, c, c.inbox.value.code)
    else Put(l, Awake(c).(acked := if begun then c.acked + 1 else c.acked))
  }

  function CleanupCode(a: Action): Code { if a.Upload? then FileChooserCleanupFailed else DownloadCleanupFailed }

  /** The end of a cleanup whose call failed: an exception only if none is being handled. */
  function EndCleanup(l: Local, c: Command): (r: Local)
    ensures Elsewhere(l, r)
  {
    if c.failed.Some? then Put(l, Awake(c)) else Throw(l, c, CleanupCode(c.args.action))
  }

  function ResumeRaw(l: Local, c: Command, ok: bool): (r: Local)
    ensures Elsewhere(l, r)
  {
    if ok then Put(l, Awake(c))
    else Put(DetachOwned(l),
             c.(wait := AwaitCleanupDetach, inbox := if NothingToDetach(l) then Some(Fulfilled) else None))
  }

  /** The running command's await ends, because its promise settled or its session or debugger was lost. */
  function Resume(l: Local, reply: Reply): (r: Local)
    requires l.tab.running.Some? && !l.tab.running.value.wait.Executing?
    ensures Elsewhere(l, r)
  {
    var c := l.tab.running.value;
    match c.wait
    case AwaitCall(m) => ResumeCall(l, c, m, reply)
    case AwaitChooser => ResumeChooser(l, c)
    case AwaitAttaching => ResumePromise(l, c)
    case AwaitDetaching => ResumePromise(l, c)
    case AwaitRelease(begun) => ResumeRelease(l, c, begun)
    case AwaitRaw(_) => ResumeRaw(l, c, reply.ok)
    case AwaitCleanupDetach => if c.inbox.Some? then EndCleanup(l, c) else l
    case Executing => l
  }

  // ------------------------------------------------------------------------- tab progress

  function Enqueue(l: Local, session: Session, args: Args): (r: Local)
    ensures Elsewhere(l, r)
  {
    l.(tab := l.tab.(tickets := l.tab.tickets + 1,
                     queue := l.tab.queue + [NewCommand(l.tab.tickets, session, l.tab.lifetime, args)]))
  }

  /** The queue reaches its next command. */
  function Start(l: Local): (r: Local)
    requires l.tab.running.None? && l.tab.queue != []
    ensures Elsewhere(l, r)
  {
    var c := l.tab.queue[0];
    var popped := l.(tab := l.tab.(queue := l.tab.queue[1..]));
    if Valid(l, c) then Put(popped, c.(live := true)) else Throw(popped, c, LostCode(l, c))
  }

  /** A settled promise reaches the command that waits for it. */
  function Notify(t: Tab, waits: Wait -> bool, s: Settled): Tab {
    if t.running.Some? && waits(t.running.value.wait) && t.running.value.inbox.None?
    then t.(running := Some(t.running.value.(inbox := Some(s)))) else t
  }

  predicate WaitsForAttach(w: Wait) { w.AwaitAttaching? }

  predicate WaitsForDetach(w: Wait) { w.AwaitDetaching? || w.AwaitRelease? || w.AwaitCleanupDetach? }

  function SettleAttaching(t: Tab, s: Settled): Tab { Notify(t.(attaching := None), WaitsForAttach, s) }

  /** The browser answers debugger.attach. */
  function AttachReply(l: Local, ok: bool): (r: Local)
    requires l.tab.attaching.Some? && l.tab.attaching.value.stage.Attaching?
    ensures Elsewhere(l, r)
  {
    var a := l.tab.attaching.value;
    if !ok then l.(tab := SettleAttaching(l.tab, Rejected(DebuggerUnavailable)))
    else if l.tab.lifetime != a.lifetime then
      l.(tab := SettleAttaching(l.tab.(attached := true), Rejected(DebuggerDetached)))
    else
      var held := l.(owned := true, tab := l.tab.(attached := true));
      if l.session == Some(a.session) then held.(tab := SettleAttaching(held.tab, Fulfilled))
      else DetachOwned(held.(tab := held.tab.(attaching := Some(a.(stage := Releasing)))))
  }

  /** The browser answers the call that closes an intercepted chooser; its failure is ignored. */
  function ChooserClosed(l: Local): (r: Local)
    requires l.tab.detaching.Some? && l.tab.detaching.value.stage.ClosingChooser?
    ensures Elsewhere(l, r)
  {
    var d := l.tab.detaching.value;
    l.(tab := SendDetach(l.tab.(detaching := Some(d.(stage := Detaching))), l.owned, d.lifetime))
  }

  /** The detach in flight is over: its waiters learn the result, and so does a late attachment being released. */
  function AfterDetach(t: Tab, ok: bool): Tab {
    var freed := t.(detaching := None, attached := t.attached && !ok,
                    detachFailures := if ok then t.detachFailures else t.detachFailures + 1);
    var told := Notify(freed, WaitsForDetach, if ok then Fulfilled else Rejected(BrowserCommandFailed));
    if told.attaching.Some? && told.attaching.value.stage.Releasing?
    then SettleAttaching(told, Rejected(if ok then ConnectionLost else BrowserCommandFailed)) else told
  }

  /** The browser answers debugger.detach. */
  function DetachReply(l: Local, ok: bool): (r: Local)
    requires l.tab.detaching.Some? && l.tab.detaching.value.stage.Detaching?
    ensures Elsewhere(l, r)
  {
    l.(owned := l.owned && !ok, tab := AfterDetach(Invalidated(l.tab), ok))
  }

  /** onDetach: the browser ended the debugging session of the tab. */
  function Detached(l: Local): (r: Local)
    ensures Elsewhere(l, r)
  {
    l.(owned := false, tab := Invalidated(l.tab.(lifetime := l.tab.lifetime + 1, attached := false)))
  }

  function ChooserOpened(t: Tab): Tab {
    if t.chooser == Some(Pending) then t.(chooser := Some(Opened)) else t
  }
}
