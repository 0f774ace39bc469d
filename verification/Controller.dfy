/**
 * The whole browser controller: every tab, the relay session, the owned attachments and the
 * disconnects still cleaning up. Events arrive only while no command executes.
 */
module Controller {
  import opened Options
  import opened AxTree
  import opened Script
  import opened TabMachine
  import opened TabInvariants

  /** A promise of a tab: the n-th detach, or the n-th attachment, that the tab began. */
  datatype Promise = Promise(tab: nat, serial: nat)

  /** disconnect(), from one await to the next, and the tabs it leaves owned. */
  datatype Stage =
    | FirstDetaches(first: set<Promise>)
    | Attachments
    | LastDetaches(last: set<Promise>)
    | Done(left: set<nat>)

  /** failed: a detach failed before this disconnect was done; overtaken: a session was opened before. */
  datatype Disconnection = Disconnection(stage: Stage, attaching: set<Promise>, failed: bool, overtaken: bool) {
    predicate Undisturbed() { !failed && !overtaken }
  }

  datatype World = World(
    session: Option<Session>,
    tabs: map<nat, Tab>,
    owned: set<nat>,
    disconnects: seq<Disconnection>,
    active: Option<nat>)

  datatype Event =
    | Run(tab: nat, args: Args)
    | Start(tab: nat)
    | Exec(tab: nat, choice: Choice)
    | Resume(tab: nat, reply: Reply)
    | AttachAnswered(tab: nat, ok: bool)
    | ChooserClosedAnswered(tab: nat)
    | DetachAnswered(tab: nat, ok: bool)
    | BrowserDetached(tab: nat)
    | ChooserShown(tab: nat)
    | DocumentReplaced(tab: nat)
    | OpenSession(session: Session)
    | Disconnect
    | Advance(index: nat)

  const INITIAL := World(None, map[], {}, [], None)

  /** state(tabId): the tab's record, made when first needed. */
  function StateOf(w: World, t: nat): Tab { if t in w.tabs then w.tabs[t] else NewTab() }

  function LocalOf(w: World, t: nat): Local { Local(w.session, t in w.owned, t, StateOf(w, t)) }

  /** The world after a step of one tab. */
  function Merge(w: World, l: Local): World {
    w.(tabs := w.tabs[l.id := l.tab],
       owned := if l.owned then w.owned + {l.id} else w.owned - {l.id},
       active := if Executes(l) then Some(l.id) else if w.active == Some(l.id) then None else w.active)
  }

  function InvalidateAll(tabs: map<nat, Tab>): map<nat, Tab> { map t | t in tabs :: Invalidated(tabs[t]) }

  /** detachOwned() for every owned tab. */
  function DetachAll(w: World): map<nat, Tab> { map t | t in w.tabs :: DetachOwned(LocalOf(w, t)).tab }

  function DetachPromises(w: World): set<Promise> {
    set t | t in w.owned && t in w.tabs :: Promise(t, DetachAll(w)[t].detaches)
  }

  function AttachPromises(w: World): set<Promise> {
    set t | t in w.tabs && w.tabs[t].attaching.Some? :: Promise(t, w.tabs[t].attaches)
  }

  predicate DetachPending(w: World, p: Promise) {
    p.tab in w.tabs && w.tabs[p.tab].detaching.Some? && w.tabs[p.tab].detaches == p.serial
  }

  predicate AttachPending(w: World, p: Promise) {
    p.tab in w.tabs && w.tabs[p.tab].attaching.Some? && w.tabs[p.tab].attaches == p.serial
  }

  /** Every unfinished disconnect learns that a detach failed, or that a session was opened. */
  function Disturbed(ds: seq<Disconnection>, failed: bool): seq<Disconnection> {
    seq(|ds|, i requires 0 <= i < |ds| =>
      if ds[i].stage.Done? then ds[i] else if failed then ds[i].(failed := true) else ds[i].(overtaken := true))
  }

  /** The synchronous part of disconnect(). */
  function BeginDisconnect(w: World): World {
    var stale := w.(session := None, tabs := InvalidateAll(w.tabs));
    var begun := Disconnection(FirstDetaches(DetachPromises(stale)), AttachPromises(stale), false, false);
    stale.(tabs := DetachAll(stale), disconnects := w.disconnects + [begun])
  }

  /** A disconnect passes the await at which it stands, once everything it waits for is settled. */
  function AdvanceDisconnect(w: World, i: nat): World
    requires i < |w.disconnects|
  {
    var d := w.disconnects[i];
    match d.stage
    case FirstDetaches(ps) =>
      if exists p :: p in ps && DetachPending(w, p) then w
      else w.(disconnects := w.disconnects[i := d.(stage := Attachments)])
    case Attachments =>
      if exists p :: p in d.attaching && AttachPending(w, p) then w
      else w.(tabs := DetachAll(w), disconnects := w.disconnects[i := d.(stage := LastDetaches(DetachPromises(w)))])
    case LastDetaches(ps) =>
      if exists p :: p in ps && DetachPending(w, p) then w
      else w.(disconnects := w.disconnects[i := d.(stage := Done(w.owned))])
    case Done(_) => w
  }

  function OnExec(w: World, t: nat, choice: Choice): World {
    var l := LocalOf(w, t);
    if w.active == Some(t) && Executes(l) then Merge(w, TabMachine.Exec(l, choice)) else w
  }

  /** run(): a command for a tab joins the tab's queue under the current session and lifetime. */
  function OnRun(w: World, t: nat, args: Args): World {
    if w.session.Some? then Merge(w, Enqueue(LocalOf(w, t), w.session.value, args)) else w
  }

  function OnStart(w: World, t: nat): World {
    var l := LocalOf(w, t);
    if l.tab.running.None? && l.tab.queue != [] then Merge(w, TabMachine.Start(l)) else w
  }

  function OnResume(w: World, t: nat, reply: Reply): World {
    var l := LocalOf(w, t);
    if l.tab.running.Some? && !Executes(l) then Merge(w, TabMachine.Resume(l, reply)) else w
  }

  function OnAttachAnswered(w: World, t: nat, ok: bool): World {
    var l := LocalOf(w, t);
    if l.tab.attaching.Some? && l.tab.attaching.value.stage.Attaching? then Merge(w, AttachReply(l, ok)) else w
  }

  function OnChooserClosed(w: World, t: nat): World {
    var l := LocalOf(w, t);
    if l.tab.detaching.Some? && l.tab.detaching.value.stage.ClosingChooser? then Merge(w, ChooserClosed(l)) else w
  }

  function OnDetachAnswered(w: World, t: nat, ok: bool): World {
    var l := LocalOf(w, t);
    if l.tab.detaching.Some? && l.tab.detaching.value.stage.Detaching? then
      Merge(w.(disconnects := if ok then w.disconnects else Disturbed(w.disconnects, true)), DetachReply(l, ok))
    else w
  }

  function OnChooserShown(w: World, t: nat): World {
    Merge(w, LocalOf(w, t).(tab := ChooserOpened(StateOf(w, t))))
  }

  function OnDocumentReplaced(w: World, t: nat): World {
    Merge(w, LocalOf(w, t).(tab := Invalidated(StateOf(w, t))))
  }

  /** openSession(): refused while a session is open. */
  function OnOpenSession(w: World, s: Session): World {
    if w.session.Some? then w
    else w.(session := Some(s), tabs := InvalidateAll(w.tabs), disconnects := Disturbed(w.disconnects, false))
  }

  function Step(w: World, e: Event): World {
    if e.Exec? then OnExec(w, e.tab, e.choice)
    else if w.active.Some? then w
    else
      match e
      case Run(t, args) => OnRun(w, t, args)
      case Start(t) => OnStart(w, t)
      case Resume(t, reply) => OnResume(w, t, reply)
      case AttachAnswered(t, ok) => OnAttachAnswered(w, t, ok)
      case ChooserClosedAnswered(t) => OnChooserClosed(w, t)
      case DetachAnswered(t, ok) => OnDetachAnswered(w, t, ok)
      case BrowserDetached(t) => Merge(w, Detached(LocalOf(w, t)))
      case ChooserShown(t) => OnChooserShown(w, t)
      case DocumentReplaced(t) => OnDocumentReplaced(w, t)
      case OpenSession(s) => OnOpenSession(w, s)
      case Disconnect => BeginDisconnect(w)
      case Advance(i) => if i < |w.disconnects| then AdvanceDisconnect(w, i) else w
      case Exec(_, _) => w
  }

  /** A run: the worlds it passes through, one event apart. */
  ghost predicate IsRun(worlds: seq<World>, events: seq<Event>) {
    && |worlds| == |events| + 1 && worlds[0] == INITIAL
    && forall i {:trigger events[i]} :: 0 <= i < |events| ==> worlds[i + 1] == Step(worlds[i], events[i])
  }

  ghost predicate Reachable(w: World) {
    exists worlds, events :: IsRun(worlds, events) && worlds[|events|] == w
  }

  lemma InitialReachable()
    ensures Reachable(INITIAL)
  {
    var events: seq<Event> := [];
    assert IsRun([INITIAL], events) && [INITIAL][|events|] == INITIAL;
  }

  lemma StepReachable(w: World, e: Event)
    requires Reachable(w)
    ensures Reachable(Step(w, e))
  {
    var worlds, events :| IsRun(worlds, events) && worlds[|events|] == w;
    LongerRun(worlds, events, e, Step(w, e));
  }

  lemma LongerRun(worlds: seq<World>, events: seq<Event>, e: Event, v: World)
    requires IsRun(worlds, events) && v == Step(worlds[|events|], e)
    ensures IsRun(worlds + [v], events + [e])
  {
    forall i | 0 <= i < |events + [e]|
      ensures (worlds + [v])[i + 1] == Step((worlds + [v])[i], (events + [e])[i])
    {
      LongerRunAt(worlds, events, e, v, i);
    }
  }

  lemma LongerRunAt(worlds: seq<World>, events: seq<Event>, e: Event, v: World, i: nat)
    requires IsRun(worlds, events) && v == Step(worlds[|events|], e) && i <= |events|
    ensures (worlds + [v])[i + 1] == Step((worlds + [v])[i], (events + [e])[i])
  {
    if i < |events| { assert (events + [e])[i] == events[i]; }
  }

  // --------------------------------------------------------------------- invariants of a world

  predicate TabsSound(w: World) {
    && (forall t :: t in w.tabs ==> TabInv(LocalOf(w, t)))
    && (forall t :: t in w.owned ==> t in w.tabs)
  }

  predicate OneExecutes(w: World) {
    forall t :: t in w.tabs ==> (Executes(LocalOf(w, t)) <==> w.active == Some(t))
  }

  /** An owned tab is released by something the disconnect still waits for. */
  predicate Awaited(d: Disconnection, t: nat, tab: Tab) {
    && tab.detaching.Some?
    && match d.stage
       case FirstDetaches(ps) => Promise(t, tab.detaches) in ps || tab.attaching.Some?
       case Attachments => tab.attaching.Some?
       case LastDetaches(ps) => Promise(t, tab.detaches) in ps
       case Done(_) => true
  }

  /** An attachment in flight is one that the disconnect waits for. */
  predicate AttachAwaited(d: Disconnection, t: nat, tab: Tab) {
    tab.attaching.Some? ==> !d.stage.LastDetaches? && Promise(t, tab.attaches) in d.attaching
  }

  /** An undisturbed disconnect accounts for every owned tab, and in the end leaves none. */
  predicate CleanupSound(w: World, d: Disconnection) {
    d.Undisturbed() ==>
      if d.stage.Done? then d.stage.left == {}
      else
        && w.session.None?
        && (forall t :: t in w.owned ==> Awaited(d, t, StateOf(w, t)))
        && (forall t :: t in w.tabs ==> AttachAwaited(d, t, w.tabs[t]))
  }

  predicate CleanupsSound(w: World) {
    forall i :: 0 <= i < |w.disconnects| ==> CleanupSound(w, w.disconnects[i])
  }

  predicate WorldInv(w: World) {
    TabsSound(w) && OneExecutes(w) && CleanupsSound(w)
  }

  // ------------------------------------------------------------------------ steps of one tab

  lemma LocalSound(w: World, t: nat)
    requires TabsSound(w)
    ensures TabInv(LocalOf(w, t))
  {
    if t !in w.tabs { NewTabSound(w.session, t); }
  }

  /** A sound step of one tab leaves the others as they were. */
  lemma MergeKeeps(w: World, l': Local)
    requires TabsSound(w) && OneExecutes(w) && (w.active.Some? ==> w.active == Some(l'.id))
    requires TabInv(l') && l'.session == w.session
    ensures TabsSound(Merge(w, l')) && OneExecutes(Merge(w, l'))
  {
    var w' := Merge(w, l');
    forall t | t in w'.tabs
      ensures TabInv(LocalOf(w', t)) && (Executes(LocalOf(w', t)) <==> w'.active == Some(t))
    {
      if t == l'.id {
        assert LocalOf(w', t) == l';
      } else {
        assert LocalOf(w', t) == LocalOf(w, t);
      }
    }
  }

  /** A step of a tab's commands while no session is open: it attaches nothing and detaches only what nobody
      detaches. */
  predicate Calm(l: Local, l': Local) {
    && l'.id == l.id && l'.session == l.session && l'.owned == l.owned
    && l'.tab.attaching == l.tab.attaching && l'.tab.attaches == l.tab.attaches
    && (l.tab.detaching.Some? ==> l'.tab.detaching.Some? && l'.tab.detaches == l.tab.detaches)
  }

  lemma CalmKeepsCleanup(w: World, l': Local)
    requires CleanupsSound(w) && (forall t :: t in w.owned ==> t in w.tabs)
    requires w.session.None? ==> Calm(LocalOf(w, l'.id), l')
    ensures CleanupsSound(Merge(w, l'))
  {
    var w' := Merge(w, l');
    forall i | 0 <= i < |w.disconnects|
      ensures CleanupSound(w', w.disconnects[i])
    {
      var d := w.disconnects[i];
      assert CleanupSound(w, d);
      if d.Undisturbed() && !d.stage.Done? {
        assert w'.owned == w.owned;
        forall t | t in w.owned
          ensures Awaited(d, t, StateOf(w', t))
        {
          assert Awaited(d, t, StateOf(w, t));
        }
        forall t | t in w'.tabs
          ensures AttachAwaited(d, t, w'.tabs[t])
        {
          if t in w.tabs { assert AttachAwaited(d, t, w.tabs[t]); }
        }
      }
    }
  }

  lemma CallCalm(l: Local, c: Command, m: Method, rest: seq<Op>)
    ensures Calm(l, ExecCall(l, c, m, rest))
  {
    if Valid(l, c) {
      var sent := Dispatch(l, c, m, false);
      assert Calm(l, sent);
    }
  }

  lemma AttachCalm(l: Local, c: Command, rest: seq<Op>)
    requires l.session.None?
    ensures Calm(l, ExecAttach(l, c, rest))
  {
  }

  lemma SnapshotCalm(l: Local, c: Command, rest: seq<Op>)
    ensures Calm(l, ExecBeginSnapshot(l, c, rest))
    ensures Calm(l, ExecCheckSnapshot(l, c, rest))
  {
  }

  lemma MintCalm(l: Local, c: Command, rest: seq<Op>)
    ensures Calm(l, ExecMint(l, c, rest))
  {
  }

  lemma ReferenceCalm(l: Local, c: Command, rest: seq<Op>)
    ensures Calm(l, ExecLookup(l, c, rest))
    ensures Calm(l, ExecCheckGeneration(l, c, rest))
  {
  }

  lemma VerifyCalm(l: Local, c: Command, rest: seq<Op>)
    ensures Calm(l, ExecCheckReference(l, c, rest))
  {
  }

  lemma FinallyCalm(l: Local, c: Command, rest: seq<Op>)
    ensures Calm(l, ExecFinally(l, c, rest))
  {
  }

  lemma TryCalm(l: Local, c: Command, h: Handler, rest: seq<Op>)
    ensures Calm(l, ExecEnter(l, c, h, rest)) && Calm(l, ExecCurrent(l, c, rest))
  {
  }

  lemma PartsCalm(l: Local, c: Command, offset: nat, rest: seq<Op>)
    ensures Calm(l, ExecReadParts(l, c, offset, rest))
  {
  }

  lemma ReleaseHasSession(l: Local)
    requires TabInv(l) && Executes(l)
    requires l.tab.running.value.rest != [] && l.tab.running.value.rest[0].ReleaseDetach?
    ensures l.session.Some?
  {
    var c := l.tab.running.value;
    assert c.rest == [ReleaseDetach] + c.rest[1..];
    ReleaseOnScript(c, c.rest[1..], false, None);
  }

  /** The operations that only move the command along its script. */
  predicate Inline(op: Op) {
    op.WaitChooser? || op.Invalidate? || op.KeepBefore? || op.SetPhase? || op.Readback? || op.Rethrow?
  }

  predicate Guard(op: Op) { op.ReadStamp? || op.CheckSame? || op.Check? || op.Require? || op.TakeMeta? }

  lemma InlineCalm(l: Local, choice: Choice)
    requires Executes(l) && (l.tab.running.value.rest == [] || Inline(l.tab.running.value.rest[0]))
    ensures Calm(l, TabMachine.Exec(l, choice))
  {
  }

  lemma GuardCalm(l: Local, choice: Choice)
    requires Executes(l) && l.tab.running.value.rest != [] && Guard(l.tab.running.value.rest[0])
    ensures Calm(l, TabMachine.Exec(l, choice))
  {
  }

  lemma ExecCalm(l: Local, choice: Choice)
    requires TabInv(l) && Executes(l) && l.session.None?
    ensures Calm(l, TabMachine.Exec(l, choice))
  {
    var c := l.tab.running.value;
    if c.rest == [] || Inline(c.rest[0]) {
      InlineCalm(l, choice);
    } else if Guard(c.rest[0]) {
      GuardCalm(l, choice);
    } else {
      var rest := c.rest[1..];
      match c.rest[0]
      case ReleaseDetach => ReleaseHasSession(l);
      case Call(m) => CallCalm(l, c, m, rest);
      case Attach => AttachCalm(l, c, rest);
      case BeginSnapshot => SnapshotCalm(l, c, rest);
      case CheckSnapshot => SnapshotCalm(l, c, rest);
      case Mint => MintCalm(l, c, rest);
      case Lookup => ReferenceCalm(l, c, rest);
      case CheckReference => VerifyCalm(l, c, rest);
      case CheckGeneration => ReferenceCalm(l, c, rest);
      case EnterUpload => TryCalm(l, c, UploadCleanup(l.tab.lifetime), rest);
      case EnterDownload => TryCalm(l, c, DownloadCleanup(l.tab.lifetime), rest);
      case ReadParts(offset) => PartsCalm(l, c, offset, rest);
      case Current => TryCalm(l, c, UploadCleanup(0), rest);
      case Finally => FinallyCalm(l, c, rest);
    }
  }

  lemma PromiseCalm(l: Local, c: Command)
    requires l.session.None?
    ensures Calm(l, ResumePromise(l, c))
  {
  }

  lemma ResumeCalm(l: Local, reply: Reply)
    requires l.tab.running.Some? && !Executes(l) && l.session.None?
    ensures Calm(l, TabMachine.Resume(l, reply))
  {
    var c := l.tab.running.value;
    match c.wait
    case AwaitAttaching => PromiseCalm(l, c);
    case AwaitDetaching => PromiseCalm(l, c);
    case _ =>
  }

  /** A step of a tab's commands that keeps the tab sound keeps the world sound. */
  lemma CalmStepKeeps(w: World, l': Local)
    requires WorldInv(w) && (w.active.Some? ==> w.active == Some(l'.id))
    requires TabInv(l') && l'.session == w.session
    requires w.session.None? ==> Calm(LocalOf(w, l'.id), l')
    ensures WorldInv(Merge(w, l'))
  {
    MergeKeeps(w, l');
    CalmKeepsCleanup(w, l');
  }

  lemma ExecStepKeeps(w: World, t: nat, choice: Choice)
    requires WorldInv(w)
    ensures WorldInv(OnExec(w, t, choice))
  {
    var l := LocalOf(w, t);
    if w.active == Some(t) && Executes(l) {
      LocalSound(w, t);
      ExecKeeps(l, choice);
      if w.session.None? { ExecCalm(l, choice); }
      CalmStepKeeps(w, TabMachine.Exec(l, choice));
    }
  }

  lemma StartStepKeeps(w: World, t: nat)
    requires WorldInv(w) && w.active.None?
    ensures WorldInv(OnStart(w, t))
  {
    var l := LocalOf(w, t);
    if l.tab.running.None? && l.tab.queue != [] {
      LocalSound(w, t);
      StartKeeps(l);
      CalmStepKeeps(w, TabMachine.Start(l));
    }
  }

  lemma ResumeStepKeeps(w: World, t: nat, reply: Reply)
    requires WorldInv(w) && w.active.None?
    ensures WorldInv(OnResume(w, t, reply))
  {
    var l := LocalOf(w, t);
    if l.tab.running.Some? && !Executes(l) {
      LocalSound(w, t);
      ResumeKeeps(l, reply);
      if w.session.None? { ResumeCalm(l, reply); }
      CalmStepKeeps(w, TabMachine.Resume(l, reply));
    }
  }

  // ---------------------------------------------------------------- steps of the attachments

  /** A step of one tab's attachment keeps every disconnect accounted for. */
  predicate Accounted(w: World, l': Local) {
    forall i :: 0 <= i < |w.disconnects| && w.disconnects[i].Undisturbed() && !w.disconnects[i].stage.Done? ==>
      && (l'.owned ==> Awaited(w.disconnects[i], l'.id, l'.tab))
      && AttachAwaited(w.disconnects[i], l'.id, l'.tab)
  }

  lemma AccountedKeepsCleanup(w: World, l': Local)
    requires CleanupsSound(w) && Accounted(w, l')
    ensures CleanupsSound(Merge(w, l'))
  {
    var w' := Merge(w, l');
    forall i | 0 <= i < |w.disconnects|
      ensures CleanupSound(w', w.disconnects[i])
    {
      var d := w.disconnects[i];
      assert CleanupSound(w, d);
      if d.Undisturbed() && !d.stage.Done? {
        forall t | t in w'.owned
          ensures Awaited(d, t, StateOf(w', t))
        {
          if t != l'.id { assert Awaited(d, t, StateOf(w, t)); }
        }
        forall t | t in w'.tabs
          ensures AttachAwaited(d, t, w'.tabs[t])
        {
          if t != l'.id { assert AttachAwaited(d, t, w.tabs[t]); }
        }
      }
    }
  }

  /** What a disconnect knows of one tab. */
  lemma CleanupOf(w: World, i: nat, t: nat)
    requires WorldInv(w) && i < |w.disconnects| && w.disconnects[i].Undisturbed() && !w.disconnects[i].stage.Done?
    ensures w.session.None? && (t in w.owned ==> Awaited(w.disconnects[i], t, StateOf(w, t)))
    ensures AttachAwaited(w.disconnects[i], t, StateOf(w, t))
  {
    assert CleanupSound(w, w.disconnects[i]);
  }

  lemma SettledAccounted(w: World, t: nat, l': Local)
    requires WorldInv(w) && l'.id == t && l'.owned == (t in w.owned) && l'.tab.attaching.None?
    requires l'.tab.detaching == StateOf(w, t).detaching && l'.tab.detaches == StateOf(w, t).detaches
    requires StateOf(w, t).attaching.Some? && StateOf(w, t).attaching.value.stage.Attaching?
    ensures Accounted(w, l')
  {
    LocalSound(w, t);
  }

  lemma LateAccounted(w: World, t: nat, l': Local)
    requires WorldInv(w) && l'.id == t && l'.tab.detaching.Some?
    requires l'.tab.attaching.Some? && l'.tab.attaches == StateOf(w, t).attaches && StateOf(w, t).attaching.Some?
    ensures Accounted(w, l')
  {
    forall i | 0 <= i < |w.disconnects| && w.disconnects[i].Undisturbed() && !w.disconnects[i].stage.Done?
      ensures Awaited(w.disconnects[i], t, l'.tab) && AttachAwaited(w.disconnects[i], t, l'.tab)
    {
      CleanupOf(w, i, t);
    }
  }

  lemma AttachReplyShape(l: Local, ok: bool)
    requires TabInv(l) && l.tab.attaching.Some? && l.tab.attaching.value.stage.Attaching?
    ensures var l' := AttachReply(l, ok);
            if ok && l.tab.lifetime == l.tab.attaching.value.lifetime
                && l.session != Some(l.tab.attaching.value.session) then
              l'.tab.detaching.Some? && l'.tab.attaching.Some? && l'.tab.attaches == l.tab.attaches
            else
              && l'.tab.attaching.None? && l'.tab.detaching == l.tab.detaching && l'.tab.detaches == l.tab.detaches
              && (l'.owned == l.owned || l.session.Some?)
  {
  }

  lemma AttachAnsweredKeeps(w: World, t: nat, ok: bool)
    requires WorldInv(w) && w.active.None?
    ensures WorldInv(OnAttachAnswered(w, t, ok))
  {
    var l := LocalOf(w, t);
    LocalSound(w, t);
    if l.tab.attaching.Some? && l.tab.attaching.value.stage.Attaching? {
      var l' := AttachReply(l, ok);
      AttachReplyKeeps(l, ok);
      MergeKeeps(w, l');
      AttachReplyShape(l, ok);
      if l'.tab.attaching.Some? {
        LateAccounted(w, t, l');
      } else if w.session.Some? {
        NoneUndisturbed(w);
      } else {
        SettledAccounted(w, t, l');
      }
      AccountedKeepsCleanup(w, l');
    }
  }

  /** While a session is open no disconnect is undisturbed and unfinished. */
  lemma NoneUndisturbed(w: World)
    requires WorldInv(w) && w.session.Some?
    ensures forall i :: 0 <= i < |w.disconnects| ==> w.disconnects[i].Undisturbed() ==> w.disconnects[i].stage.Done?
  {
    forall i | 0 <= i < |w.disconnects| && w.disconnects[i].Undisturbed() && !w.disconnects[i].stage.Done?
      ensures false
    {
      CleanupOf(w, i, 0);
    }
  }

  lemma DisturbedSound(w: World, w': World, failed: bool)
    requires CleanupsSound(w) && w'.disconnects == Disturbed(w.disconnects, failed)
    ensures CleanupsSound(w')
  {
    forall i | 0 <= i < |w'.disconnects|
      ensures CleanupSound(w', w'.disconnects[i])
    {
      assert CleanupSound(w, w.disconnects[i]);
    }
  }

  lemma DetachReplyShape(l: Local, ok: bool)
    requires TabInv(l) && l.tab.detaching.Some? && l.tab.detaching.value.stage.Detaching?
    ensures var l' := DetachReply(l, ok); l'.tab.attaching.None? && (ok ==> !l'.owned)
  {
    AfterDetachShape(Invalidated(l.tab), ok);
  }

  lemma FreedAccounted(w: World, ok: bool, l': Local)
    requires CleanupsSound(w) && l'.tab.attaching.None? && (ok ==> !l'.owned)
    ensures var v := w.(disconnects := if ok then w.disconnects else Disturbed(w.disconnects, true));
            CleanupsSound(v) && Accounted(v, l')
  {
    DisturbedSound(w, w.(disconnects := Disturbed(w.disconnects, true)), true);
  }

  lemma DetachAnsweredKeeps(w: World, t: nat, ok: bool)
    requires WorldInv(w) && w.active.None?
    ensures WorldInv(OnDetachAnswered(w, t, ok))
  {
    var l := LocalOf(w, t);
    LocalSound(w, t);
    if l.tab.detaching.Some? && l.tab.detaching.value.stage.Detaching? {
      assert !Executes(l);
      var l' := DetachReply(l, ok);
      DetachReplyKeeps(l, ok);
      DetachReplyShape(l, ok);
      var v := w.(disconnects := if ok then w.disconnects else Disturbed(w.disconnects, true));
      FreedAccounted(w, ok, l');
      TabsOnly(w, v);
      MergeKeeps(v, l');
      AccountedKeepsCleanup(v, l');
    }
  }

  lemma TabsOnly(w: World, v: World)
    requires TabsSound(w) && OneExecutes(w) && v == w.(disconnects := v.disconnects)
    ensures TabsSound(v) && OneExecutes(v)
  {
    forall t | t in v.tabs
      ensures TabInv(LocalOf(v, t)) && (Executes(LocalOf(v, t)) <==> v.active == Some(t))
    {
      assert LocalOf(v, t) == LocalOf(w, t);
    }
  }

  lemma ChooserClosedEventKeeps(w: World, t: nat)
    requires WorldInv(w) && w.active.None?
    ensures WorldInv(OnChooserClosed(w, t))
  {
    var l := LocalOf(w, t);
    LocalSound(w, t);
    assert !Executes(l);
    if l.tab.detaching.Some? && l.tab.detaching.value.stage.ClosingChooser? {
      ChooserClosedKeeps(l);
      CalmStepKeeps(w, ChooserClosed(l));
    }
  }

  lemma ChooserShownKeeps(w: World, t: nat)
    requires WorldInv(w) && w.active.None?
    ensures WorldInv(OnChooserShown(w, t))
  {
    var l := LocalOf(w, t);
    LocalSound(w, t);
    assert !Executes(l);
    ChooserOpenedKeeps(l);
    CalmStepKeeps(w, l.(tab := ChooserOpened(l.tab)));
  }

  lemma DocumentEventKeeps(w: World, t: nat)
    requires WorldInv(w) && w.active.None?
    ensures WorldInv(OnDocumentReplaced(w, t))
  {
    var l := LocalOf(w, t);
    LocalSound(w, t);
    assert !Executes(l);
    InvalidatedKeeps(l);
    CalmStepKeeps(w, l.(tab := Invalidated(l.tab)));
  }

  lemma DetachEventKeeps(w: World, t: nat)
    requires WorldInv(w) && w.active.None?
    ensures WorldInv(Merge(w, Detached(LocalOf(w, t))))
  {
    var l := LocalOf(w, t);
    LocalSound(w, t);
    assert !Executes(l);
    DetachedKeeps(l);
    MergeKeeps(w, Detached(l));
    DetachedAccounted(w, t);
    AccountedKeepsCleanup(w, Detached(l));
  }

  lemma DetachedAccounted(w: World, t: nat)
    requires WorldInv(w)
    ensures Accounted(w, Detached(LocalOf(w, t)))
  {
    forall i | 0 <= i < |w.disconnects| && w.disconnects[i].Undisturbed() && !w.disconnects[i].stage.Done?
      ensures AttachAwaited(w.disconnects[i], t, Detached(LocalOf(w, t)).tab)
    {
      CleanupOf(w, i, t);
    }
  }

  // ---------------------------------------------------------- opening and ending a session

  lemma RunKeeps(w: World, t: nat, args: Args)
    requires WorldInv(w) && w.active.None?
    ensures WorldInv(OnRun(w, t, args))
  {
    if w.session.Some? {
      var l := LocalOf(w, t);
      LocalSound(w, t);
      EnqueueKeeps(l, w.session.value, args);
      MergeKeeps(w, Enqueue(l, w.session.value, args));
      CalmKeepsCleanup(w, Enqueue(l, w.session.value, args));
    }
  }

  lemma StaleTabsSound(w: World, v: World)
    requires TabsSound(w) && OneExecutes(w) && w.active.None?
    requires v.tabs == InvalidateAll(w.tabs) && v.owned == w.owned && v.active.None?
    ensures TabsSound(v) && OneExecutes(v)
  {
    forall t | t in v.tabs
      ensures TabInv(LocalOf(v, t)) && !Executes(LocalOf(v, t))
    {
      var l := LocalOf(w, t);
      assert !Executes(l);
      InvalidatedKeeps(l);
      SessionKeeps(l.(tab := Invalidated(l.tab)), v.session);
      assert LocalOf(v, t) == l.(tab := Invalidated(l.tab), session := v.session);
    }
  }

  lemma OpenSessionKeeps(w: World, s: Session)
    requires WorldInv(w) && w.active.None?
    ensures WorldInv(OnOpenSession(w, s))
  {
    if w.session.None? {
      var v := OnOpenSession(w, s);
      StaleTabsSound(w, v);
      DisturbedSound(w, v, false);
    }
  }

  lemma DetachAllSound(w: World, v: World)
    requires TabsSound(w) && OneExecutes(w) && w.active.None?
    requires v.tabs == DetachAll(w) && v.owned == w.owned && v.session == w.session && v.active.None?
    ensures TabsSound(v) && OneExecutes(v)
  {
    forall t | t in v.tabs
      ensures TabInv(LocalOf(v, t)) && !Executes(LocalOf(v, t))
    {
      var l := LocalOf(w, t);
      assert !Executes(l);
      DetachOwnedKeeps(l);
      assert LocalOf(v, t) == DetachOwned(l);
    }
  }

  /** detachOwned() for every owned tab keeps every disconnect accounted for. */
  lemma DetachAllCleanup(w: World, v: World, d: Disconnection)
    requires TabsSound(w) && CleanupSound(w, d) && v.tabs == DetachAll(w) && v.owned == w.owned
               && v.session == w.session
    ensures CleanupSound(v, d)
  {
    if d.Undisturbed() && !d.stage.Done? {
      forall t | t in v.owned
        ensures Awaited(d, t, StateOf(v, t))
      {
        assert Awaited(d, t, StateOf(w, t));
      }
      forall t | t in v.tabs
        ensures AttachAwaited(d, t, v.tabs[t])
      {
        assert AttachAwaited(d, t, w.tabs[t]);
      }
    }
  }

  lemma StaleCleanup(w: World, v: World, d: Disconnection)
    requires TabsSound(w) && CleanupSound(w, d) && v.tabs == InvalidateAll(w.tabs) && v.owned == w.owned
               && v.session.None?
    ensures CleanupSound(v, d)
  {
    if d.Undisturbed() && !d.stage.Done? {
      forall t | t in v.owned
        ensures Awaited(d, t, StateOf(v, t))
      {
        assert Awaited(d, t, StateOf(w, t));
      }
      forall t | t in v.tabs
        ensures AttachAwaited(d, t, v.tabs[t])
      {
        assert AttachAwaited(d, t, w.tabs[t]);
      }
    }
  }

  lemma NewDisconnectSound(w: World)
    requires TabsSound(w) && w.session.None?
    ensures var v := w.(tabs := DetachAll(w));
            CleanupSound(v, Disconnection(FirstDetaches(DetachPromises(w)), AttachPromises(w), false, false))
  {
    var v := w.(tabs := DetachAll(w));
    var d := Disconnection(FirstDetaches(DetachPromises(w)), AttachPromises(w), false, false);
    forall t | t in v.owned
      ensures Awaited(d, t, StateOf(v, t))
    {
      assert Promise(t, DetachAll(w)[t].detaches) in DetachPromises(w);
    }
    forall t | t in v.tabs
      ensures AttachAwaited(d, t, v.tabs[t])
    {
      if w.tabs[t].attaching.Some? { assert Promise(t, w.tabs[t].attaches) in AttachPromises(w); }
    }
  }

  lemma BeginDisconnectKeeps(w: World)
    requires WorldInv(w) && w.active.None?
    ensures WorldInv(BeginDisconnect(w))
  {
    var stale := w.(session := None, tabs := InvalidateAll(w.tabs));
    var v := BeginDisconnect(w);
    StaleTabsSound(w, stale);
    DetachAllSound(stale, v);
    NewDisconnectSound(stale);
    forall i | 0 <= i < |v.disconnects|
      ensures CleanupSound(v, v.disconnects[i])
    {
      if i < |w.disconnects| {
        assert CleanupSound(w, w.disconnects[i]);
        StaleCleanup(w, stale, w.disconnects[i]);
        DetachAllCleanup(stale, v, w.disconnects[i]);
      } else {
        CleanupIgnoresList(stale.(tabs := DetachAll(stale)), v, v.disconnects[i]);
      }
    }
  }

  lemma CleanupIgnoresList(w: World, v: World, d: Disconnection)
    requires CleanupSound(w, d) && v.tabs == w.tabs && v.owned == w.owned && v.session == w.session
    ensures CleanupSound(v, d)
  {
    forall t | t in v.owned && d.Undisturbed() && !d.stage.Done?
      ensures Awaited(d, t, StateOf(v, t))
    {
      assert Awaited(d, t, StateOf(w, t));
    }
  }

  // --------------------------------------------------------------- progress of a disconnect

  lemma FirstPassed(w: World, d: Disconnection)
    requires TabsSound(w) && CleanupSound(w, d) && d.stage.FirstDetaches?
    requires forall p :: p in d.stage.first ==> !DetachPending(w, p)
    ensures CleanupSound(w, d.(stage := Attachments))
  {
    var d' := d.(stage := Attachments);
    if d.Undisturbed() {
      forall t | t in w.owned
        ensures Awaited(d', t, StateOf(w, t))
      {
        assert Awaited(d, t, StateOf(w, t));
        assert DetachPending(w, Promise(t, w.tabs[t].detaches));
      }
      forall t | t in w.tabs
        ensures AttachAwaited(d', t, w.tabs[t])
      {
        assert AttachAwaited(d, t, w.tabs[t]);
      }
    }
  }

  lemma AttachmentsPassed(w: World, d: Disconnection)
    requires TabsSound(w) && CleanupSound(w, d) && d.stage.Attachments?
    requires forall p :: p in d.attaching ==> !AttachPending(w, p)
    ensures CleanupSound(w.(tabs := DetachAll(w)), d.(stage := LastDetaches(DetachPromises(w))))
  {
    var v, d' := w.(tabs := DetachAll(w)), d.(stage := LastDetaches(DetachPromises(w)));
    if d.Undisturbed() {
      forall t | t in w.tabs
        ensures w.tabs[t].attaching.None?
      {
        assert AttachAwaited(d, t, w.tabs[t]);
        if w.tabs[t].attaching.Some? { assert AttachPending(w, Promise(t, w.tabs[t].attaches)); }
      }
      assert forall t :: t in w.owned ==> Awaited(d, t, StateOf(w, t));
      assert w.owned == {};
    }
  }

  lemma LastPassed(w: World, d: Disconnection)
    requires TabsSound(w) && CleanupSound(w, d) && d.stage.LastDetaches?
    requires forall p :: p in d.stage.last ==> !DetachPending(w, p)
    ensures CleanupSound(w, d.(stage := Done(w.owned)))
  {
    if d.Undisturbed() {
      forall t | t in w.owned
        ensures false
      {
        assert Awaited(d, t, StateOf(w, t));
        assert DetachPending(w, Promise(t, w.tabs[t].detaches));
      }
      assert w.owned == {};
    }
  }

  /** One disconnect moved on, and possibly every owned tab was asked to detach once more. */
  lemma MovedOnKeeps(w: World, i: nat, v: World, swept: bool)
    requires WorldInv(w) && w.active.None? && i < |w.disconnects| && |v.disconnects| == |w.disconnects|
    requires v == w.(tabs := if swept then DetachAll(w) else w.tabs,
                     disconnects := w.disconnects[i := v.disconnects[i]])
    requires CleanupSound(w.(tabs := if swept then DetachAll(w) else w.tabs), v.disconnects[i])
    ensures WorldInv(v)
  {
    var u := w.(tabs := if swept then DetachAll(w) else w.tabs);
    if swept { DetachAllSound(w, v); } else { TabsOnly(w, v); }
    forall j | 0 <= j < |v.disconnects|
      ensures CleanupSound(v, v.disconnects[j])
    {
      if j != i {
        assert CleanupSound(w, w.disconnects[j]);
        if swept { DetachAllCleanup(w, u, w.disconnects[j]); }
      }
      CleanupIgnoresList(u, v, v.disconnects[j]);
    }
  }

  lemma AdvanceKeeps(w: World, i: nat)
    requires WorldInv(w) && w.active.None? && i < |w.disconnects|
    ensures WorldInv(AdvanceDisconnect(w, i))
  {
    var v, d := AdvanceDisconnect(w, i), w.disconnects[i];
    assert CleanupSound(w, d);
    if v != w {
      match d.stage
      case FirstDetaches(ps) => FirstPassed(w, d); MovedOnKeeps(w, i, v, false);
      case Attachments => AttachmentsPassed(w, d); MovedOnKeeps(w, i, v, true);
      case LastDetaches(ps) => LastPassed(w, d); MovedOnKeeps(w, i, v, false);
    }
  }

  // ------------------------------------------------------------------------------ every run

  /** Every event keeps every invariant. */
  lemma StepKeeps(w: World, e: Event)
    requires WorldInv(w)
    ensures WorldInv(Step(w, e))
  {
    if e.Exec? {
      ExecStepKeeps(w, e.tab, e.choice);
    } else if w.active.None? {
      match e
      case Run(t, args) => RunKeeps(w, t, args);
      case Start(t) => StartStepKeeps(w, t);
      case Resume(t, reply) => ResumeStepKeeps(w, t, reply);
      case AttachAnswered(t, ok) => AttachAnsweredKeeps(w, t, ok);
      case ChooserClosedAnswered(t) => ChooserClosedEventKeeps(w, t);
      case DetachAnswered(t, ok) => DetachAnsweredKeeps(w, t, ok);
      case BrowserDetached(t) => DetachEventKeeps(w, t);
      case ChooserShown(t) => ChooserShownKeeps(w, t);
      case DocumentReplaced(t) => DocumentEventKeeps(w, t);
      case OpenSession(s) => OpenSessionKeeps(w, s);
      case Disconnect => BeginDisconnectKeeps(w);
      case Advance(i) => if i < |w.disconnects| { AdvanceKeeps(w, i); }
    }
  }

  lemma {:induction false} RunSound(worlds: seq<World>, events: seq<Event>, k: nat)
    requires IsRun(worlds, events) && k <= |events|
    ensures WorldInv(worlds[k])
  {
    if k != 0 {
      RunSound(worlds, events, k - 1);
      StepKeeps(worlds[k - 1], events[k - 1]);
    }
  }

  /** Every world of every run is sound. */
  lemma ReachableSound(w: World)
    requires Reachable(w)
    ensures WorldInv(w)
  {
    var worlds, events :| IsRun(worlds, events) && worlds[|events|] == w;
    RunSound(worlds, events, |events|);
  }

  // -------------------------------------------------------------------------- main results

  /** A stored reference is always of its tab's current generation and stored document. */
  lemma ReferencesAlwaysCurrent(w: World, t: nat, r: string)
    requires Reachable(w)
    ensures var tab := StateOf(w, t);
            r in tab.refs ==> tab.refs[r].generation == tab.generation && tab.document == Some(tab.refs[r].document)
  {
    ReachableSound(w);
    LocalSound(w, t);
  }

  /** No two snapshots of a run, of any tab or session, ever mint the same name. */
  lemma NamesNeverRepeat(w: World, s: string, t: nat, i: nat, index: nat, s': string, t': nat, i': nat, index': nat)
    requires Reachable(w) && i < |StateOf(w, t).mints| && i' < |StateOf(w, t').mints|
    requires RefName(s, t, StateOf(w, t).mints[i], index) == RefName(s', t', StateOf(w, t').mints[i'], index')
    ensures t == t' && i == i' && index == index' && s == s'
  {
    ReachableSound(w);
    LocalSound(w, t);
    RefNameInjective(s, t, StateOf(w, t).mints[i], index, s', t', StateOf(w, t').mints[i'], index');
  }

  /**
   * Every call that a command ever made: only in its own current session and before any detach of
   * its tab, unless it cleans up; and the first input aimed at a reference only while that
   * reference is of the tab's current generation.
   */
  lemma EveryCallConfined(w: World, t: nat, i: nat)
    requires Reachable(w) && i < |StateOf(w, t).log|
    ensures var e := StateOf(w, t).log[i];
            && (e.call != InterceptOff && e.call != ReleaseObjectGroup ==>
                  !e.cleanup && e.sessionNow == Some(e.session) && e.lifetimeNow == e.lifetime)
            && (e.aimed && IsFirstInput(e.call) ==> e.refGeneration == Some(e.generationNow))
  {
    ReachableSound(w);
    LocalSound(w, t);
    var e := StateOf(w, t).log[i];
    assert Confined(e) && AimedFresh(e);
  }

  /** Per tab, commands end in the order in which they came, and call the browser one at a time. */
  lemma CommandsOneAtATime(w: World, t: nat)
    requires Reachable(w)
    ensures var tab := StateOf(w, t);
            && (forall i :: 0 <= i < |tab.outcomes| ==> tab.outcomes[i].ticket == i)
            && (tab.running.Some? ==> tab.running.value.ticket == |tab.outcomes|)
            && (forall i :: 0 <= i < |tab.queue| ==> tab.queue[i].ticket == |tab.outcomes| + Busy(tab) + i)
            && (forall i, j :: 0 <= i < j < |tab.log| ==> tab.log[i].ticket <= tab.log[j].ticket)
            && (forall i :: 0 <= i < |tab.log| && tab.running.None? ==> tab.log[i].ticket < |tab.outcomes|)
  {
    ReachableSound(w);
    LocalSound(w, t);
  }

  /** What every reply's phase claims about the command's effects is true, and success means all of them. */
  lemma PhasesTellTheTruth(w: World, t: nat, i: nat)
    requires Reachable(w) && i < |StateOf(w, t).outcomes|
    ensures var o := StateOf(w, t).outcomes[i];
            && (o.phase.NotDispatched? ==> o.sent == [])
            && (o.phase.ActionConfirmed? || o.phase.ReadbackComplete? ==> o.acked == |o.sent|)
            && (o.phase.ReadbackComplete? && IsMutation(o.args.action) ==> o.snapAck == Some(|o.sent|))
            && (o.code.None? ==>
                EffectsDone(o.args, o.sent) && o.acked == |o.sent| && o.phase == ReportedPhase(o.args.action))
  {
    ReachableSound(w);
    LocalSound(w, t);
    assert OutcomeSound(StateOf(w, t).outcomes[i]);
  }

  /**
   * The controller owns only what it attached, and sends a detach to a tab it still owns exactly
   * when the tab was not detached since detachOwned() began.
   */
  lemma DetachesAccounted(w: World, t: nat)
    requires Reachable(w)
    ensures t in w.owned ==> StateOf(w, t).attached
    ensures forall i :: 0 <= i < |StateOf(w, t).detachLog| ==>
              (StateOf(w, t).detachLog[i].owned <==> StateOf(w, t).detachLog[i].begun == StateOf(w, t).detachLog[i].now)
  {
    ReachableSound(w);
    LocalSound(w, t);
    assert forall i :: 0 <= i < |StateOf(w, t).detachLog| ==> DetachAccounted(StateOf(w, t).detachLog[i]);
  }

  /** detachOwned() begins something only for a tab that the controller attached and still owns. */
  lemma DetachesBeginOwned(w: World, t: nat)
    requires Reachable(w) && DetachOwned(LocalOf(w, t)) != LocalOf(w, t)
    ensures t in w.owned && StateOf(w, t).attached && StateOf(w, t).detaching.None?
  {
    DetachesAccounted(w, t);
  }

  /** A disconnect during which no detach fails and no session opens leaves no tab owned. */
  lemma CleanDisconnectLeavesNothing(w: World, i: nat)
    requires Reachable(w) && i < |w.disconnects|
    ensures w.disconnects[i].stage.Done? && w.disconnects[i].Undisturbed() ==> w.disconnects[i].stage.left == {}
  {
    ReachableSound(w);
    assert CleanupSound(w, w.disconnects[i]);
  }

  lemma MergeGrows(w: World, l': Local, t: nat)
    requires Grown(StateOf(w, l'.id), l'.tab)
    ensures Grown(StateOf(w, t), StateOf(Merge(w, l'), t))
  {
  }

  /** History is never rewritten: every record a tab ever made is still there after any event. */
  lemma HistoryOnlyGrows(w: World, e: Event, t: nat)
    ensures Grown(StateOf(w, t), StateOf(Step(w, e), t))
  {
    if e.OpenSession? || e.Disconnect? || e.Advance? {
      SessionEventGrows(w, e, t);
    } else if e.Exec? || e.Start? || e.Resume? {
      CommandEventGrows(w, e, t);
    } else {
      BrowserEventGrows(w, e, t);
    }
  }

  lemma SessionEventGrows(w: World, e: Event, t: nat)
    requires e.OpenSession? || e.Disconnect? || e.Advance?
    ensures Grown(StateOf(w, t), StateOf(Step(w, e), t))
  {
    if w.active.None? {
      match e
      case OpenSession(s) => OpenSessionGrows(w, s, t);
      case Disconnect => BeginDisconnectGrows(w, t);
      case Advance(i) => if i < |w.disconnects| { AdvanceGrows(w, i, t); }
    }
  }

  lemma OpenSessionGrows(w: World, s: Session, t: nat)
    ensures Grown(StateOf(w, t), StateOf(OnOpenSession(w, s), t))
  {
  }

  lemma BeginDisconnectGrows(w: World, t: nat)
    ensures Grown(StateOf(w, t), StateOf(BeginDisconnect(w), t))
  {
    DetachAllGrows(w.(session := None, tabs := InvalidateAll(w.tabs)), t);
  }

  lemma AdvanceTabs(w: World, i: nat)
    requires i < |w.disconnects|
    ensures AdvanceDisconnect(w, i).tabs == w.tabs || AdvanceDisconnect(w, i).tabs == DetachAll(w)
  {
  }

  lemma AdvanceGrows(w: World, i: nat, t: nat)
    requires i < |w.disconnects|
    ensures Grown(StateOf(w, t), StateOf(AdvanceDisconnect(w, i), t))
  {
    AdvanceTabs(w, i);
    SweptGrows(w, AdvanceDisconnect(w, i), t);
  }

  lemma SweptGrows(w: World, v: World, t: nat)
    requires v.tabs == w.tabs || v.tabs == DetachAll(w)
    ensures Grown(StateOf(w, t), StateOf(v, t))
  {
    DetachAllGrows(w, t);
  }

  lemma DetachAllGrows(w: World, t: nat)
    ensures t in w.tabs ==> Grown(w.tabs[t], DetachAll(w)[t])
  {
  }

  lemma CommandEventGrows(w: World, e: Event, t: nat)
    requires e.Exec? || e.Start? || e.Resume?
    ensures Grown(StateOf(w, t), StateOf(Step(w, e), t))
  {
    var l := LocalOf(w, e.tab);
    if e.Exec? {
      if Executes(l) { MergeGrows(w, TabMachine.Exec(l, e.choice), t); }
    } else if e.Start? {
      if l.tab.running.None? && l.tab.queue != [] { MergeGrows(w, TabMachine.Start(l), t); }
    } else if l.tab.running.Some? && !Executes(l) {
      MergeGrows(w, TabMachine.Resume(l, e.reply), t);
    }
  }

  lemma BrowserEventGrows(w: World, e: Event, t: nat)
    requires !e.Exec? && !e.Start? && !e.Resume? && !e.OpenSession? && !e.Disconnect? && !e.Advance?
    ensures Grown(StateOf(w, t), StateOf(Step(w, e), t))
  {
    if e.AttachAnswered? {
      AttachAnswerGrows(w, e.tab, e.ok, t);
    } else if e.DetachAnswered? || e.ChooserClosedAnswered? {
      DetachAnswerGrows(w, e.tab, e.ChooserClosedAnswered? || e.ok, t);
    } else {
      NoticeGrows(w, e.tab, if e.Run? then e.args else UPLOAD, t);
    }
  }

  lemma NoticeGrows(w: World, u: nat, args: Args, t: nat)
    ensures Grown(StateOf(w, t), StateOf(OnRun(w, u, args), t))
    ensures Grown(StateOf(w, t), StateOf(Merge(w, Detached(LocalOf(w, u))), t))
    ensures Grown(StateOf(w, t), StateOf(OnChooserShown(w, u), t))
    ensures Grown(StateOf(w, t), StateOf(OnDocumentReplaced(w, u), t))
  {
    if w.session.Some? { MergeGrows(w, Enqueue(LocalOf(w, u), w.session.value, args), t); }
    MergeGrows(w, Detached(LocalOf(w, u)), t);
    MergeGrows(w, LocalOf(w, u).(tab := ChooserOpened(StateOf(w, u))), t);
    MergeGrows(w, LocalOf(w, u).(tab := Invalidated(StateOf(w, u))), t);
  }

  lemma AttachAnswerGrows(w: World, u: nat, ok: bool, t: nat)
    ensures Grown(StateOf(w, t), StateOf(OnAttachAnswered(w, u, ok), t))
  {
    var l := LocalOf(w, u);
    if l.tab.attaching.Some? && l.tab.attaching.value.stage.Attaching? { MergeGrows(w, AttachReply(l, ok), t); }
  }

  lemma DetachAnswerGrows(w: World, u: nat, ok: bool, t: nat)
    ensures Grown(StateOf(w, t), StateOf(OnChooserClosed(w, u), t))
    ensures Grown(StateOf(w, t), StateOf(OnDetachAnswered(w, u, ok), t))
  {
    var l := LocalOf(w, u);
    if l.tab.detaching.Some? {
      if l.tab.detaching.value.stage.Detaching? {
        MergeGrows(w, DetachReply(l, ok), t);
      } else {
        MergeGrows(w, ChooserClosed(l), t);
      }
    }
  }

  /** The calls that an event adds to a tab's log are made under the session that is then open. */
  predicate CallsUnder(session: Option<Session>, before: Tab, after: Tab) {
    forall k :: |before.log| <= k < |after.log| ==> after.log[k].sessionNow == session
  }

  lemma MergeCalls(w: World, l': Local, t: nat)
    requires Elsewhere(LocalOf(w, l'.id), l')
    ensures CallsUnder(w.session, StateOf(w, t), StateOf(Merge(w, l'), t))
  {
  }

  lemma NewCallsUnderSession(w: World, t: nat, u: nat, choice: Choice, reply: Reply)
    ensures CallsUnder(w.session, StateOf(w, t), StateOf(OnExec(w, u, choice), t))
    ensures CallsUnder(w.session, StateOf(w, t), StateOf(OnResume(w, u, reply), t))
    ensures CallsUnder(w.session, StateOf(w, t), StateOf(OnStart(w, u), t))
  {
    var l := LocalOf(w, u);
    if Executes(l) {
      MergeCalls(w, TabMachine.Exec(l, choice), t);
    } else if l.tab.running.Some? {
      MergeCalls(w, TabMachine.Resume(l, reply), t);
    } else if l.tab.queue != [] {
      MergeCalls(w, TabMachine.Start(l), t);
    }
  }

  const UPLOAD := Args(Upload, Text("r"), true, true, true, true)
}
