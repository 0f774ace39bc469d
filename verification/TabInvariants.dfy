/** What every step of a tab keeps. */
module TabInvariants {
  import opened Options
  import opened AxTree
  import opened Script
  import opened TabMachine

  // --------------------------------------------------------------------------- statements

  /** Every stored reference is of the current generation and of the stored document. */
  predicate RefsCurrent(t: Tab) {
    forall r :: r in t.refs ==> t.refs[r].generation == t.generation && t.document == Some(t.refs[r].document)
  }

  /** What a phase claims about the effects of a command. */
  predicate PhaseSound(phase: Phase, args: Args, sent: seq<Method>, acked: nat, snapAck: Option<nat>) {
    && acked <= |sent|
    && (phase.NotDispatched? ==> sent == [])
    && (phase.ActionConfirmed? || phase.ReadbackComplete? ==> acked == |sent|)
    && (phase.ReadbackComplete? && IsMutation(args.action) ==> snapAck == Some(|sent|))
  }

  /** The effects of a command that succeeded. */
  predicate EffectsDone(args: Args, sent: seq<Method>) {
    if args.action.Release? then sent == [] || sent == [DebuggerDetach] else sent == Effects(args.action)
  }

  function ReportedPhase(a: Action): Phase { if FinalPhase(a).NotDispatched? then ReadbackComplete else FinalPhase(a) }

  predicate OutcomeSound(o: Outcome) {
    && PhaseSound(o.phase, o.args, o.sent, o.acked, o.snapAck)
    && (o.code.None? ==> EffectsDone(o.args, o.sent) && o.acked == |o.sent| && o.phase == ReportedPhase(o.args.action))
  }

  /** A call is made only for a current session and an unbroken attachment, unless it cleans up. */
  predicate Confined(e: Sent) {
    if e.cleanup then e.call == InterceptOff || e.call == ReleaseObjectGroup
    else e.sessionNow == Some(e.session) && e.lifetimeNow == e.lifetime
  }

  /** The first input aimed at a reference is sent while the reference is of the current generation. */
  predicate AimedFresh(e: Sent) {
    e.aimed && IsFirstInput(e.call) ==> e.refGeneration == Some(e.generationNow)
  }

  /** A detach is sent to an owned tab exactly when the tab was not detached since detachOwned began. */
  predicate DetachAccounted(e: DetachSent) { e.owned <==> e.begun == e.now }

  // ---------------------------------------------------------------- invariants of one command

  predicate ResumesLive(w: Wait) { w.AwaitCall? || w.AwaitChooser? || w.AwaitAttaching? || w.AwaitDetaching? }

  predicate AwaitsAck(w: Wait) { (w.AwaitCall? && IsEffect(w.m)) || (w.AwaitRelease? && w.begun) }

  function KnownOf(c: Command): Known {
    Known(c.phase, c.recent, c.snapAck == Some(|c.sent|), c.live || ResumesLive(c.wait))
  }

  predicate SentSoFar(c: Command) {
    if c.args.action.Release? then
      (c.sent == [] || c.sent == [DebuggerDetach]) && (ReleaseDetach in c.rest ==> c.sent == [])
    else c.sent <= Effects(c.args.action)
  }

  function Todo(c: Command): seq<Method> {
    if c.args.action.Release? || !(c.sent <= Effects(c.args.action)) then [] else Effects(c.args.action)[|c.sent|..]
  }

  predicate OnScript(c: Command) {
    && SentSoFar(c)
    && Disciplined(c.rest, KnownOf(c), c.args, Todo(c))
    && (if AwaitsAck(c.wait) then c.acked + 1 == |c.sent| && c.phase.OutcomeUnknown? else c.acked == |c.sent|)
  }

  predicate OnCleanup(c: Command) {
    || (c.wait.Executing? && c.handler.Some? && c.rest == [Finally, Rethrow])
    || (c.handler.None? && c.rest == [Rethrow] && (c.wait.Executing? || c.wait.AwaitRaw? || c.wait.AwaitCleanupDetach?))
  }

  predicate CommandSound(c: Command) {
    && PhaseSound(c.phase, c.args, c.sent, c.acked, c.snapAck)
    && (c.snapAck.Some? ==> c.snapAck.value <= c.acked)
    && (if c.failed.None? then OnScript(c) else OnCleanup(c))
    && (c.handler.Some? && c.handler.value.UploadCleanup? ==> c.args.action.Upload?)
    && (c.handler.Some? ==> Finally in c.rest)
    && MintsOnce(c.rest, c.minting)
    && (c.recent || c.live || c.minting.Matched? ==> c.wait.Executing?)
  }

  predicate CommandCurrent(c: Command, generation: nat, mints: seq<nat>) {
    && (c.recent ==> c.resolved.Some? && c.resolved.value.generation == generation)
    && (!c.minting.Idle? ==> c.generation <= generation && forall i :: 0 <= i < |mints| ==> mints[i] < c.generation)
    && (c.minting.Matched? ==> c.generation == generation)
  }

  predicate RunningInv(l: Local) {
    l.tab.running.Some? ==>
      var c := l.tab.running.value;
      CommandSound(c) && CommandCurrent(c, l.tab.generation, l.tab.mints) && (c.live ==> Valid(l, c))
  }

  // -------------------------------------------------------------------- invariants of one tab

  function Busy(t: Tab): nat { if t.running.Some? then 1 else 0 }

  /** Commands finish one at a time in the order in which they arrived. */
  predicate InOrder(t: Tab) {
    && (forall i :: 0 <= i < |t.outcomes| ==> t.outcomes[i].ticket == i)
    && (t.running.Some? ==> t.running.value.ticket == |t.outcomes|)
    && (forall i :: 0 <= i < |t.queue| ==>
          t.queue[i] == NewCommand(|t.outcomes| + Busy(t) + i, t.queue[i].session, t.queue[i].lifetime,
                                   t.queue[i].args))
    && t.tickets == |t.outcomes| + Busy(t) + |t.queue|
  }

  predicate OutcomesSound(t: Tab) { forall i :: 0 <= i < |t.outcomes| ==> OutcomeSound(t.outcomes[i]) }

  predicate LogSound(t: Tab) {
    && (forall i :: 0 <= i < |t.log| ==>
        Confined(t.log[i]) && AimedFresh(t.log[i]) && t.log[i].ticket < |t.outcomes| + Busy(t))
    && (forall i, j :: 0 <= i < j < |t.log| ==> t.log[i].ticket <= t.log[j].ticket)
  }

  predicate MintsIncrease(t: Tab) {
    && (forall i :: 0 <= i < |t.mints| ==> t.mints[i] <= t.generation)
    && (forall i, j :: 0 <= i < j < |t.mints| ==> t.mints[i] < t.mints[j])
  }

  predicate AttachSound(owned: bool, t: Tab) {
    && (owned ==> t.attached)
    && (t.attaching.Some? ==>
        if t.attaching.value.stage.Attaching? then !owned && t.detaching.None? else t.detaching.Some?)
    && (t.detaching.Some? ==>
        (owned <==> t.lifetime == t.detaching.value.lifetime) && t.detaching.value.lifetime <= t.lifetime)
    && (forall i :: 0 <= i < |t.detachLog| ==> DetachAccounted(t.detachLog[i]))
    && (t.chooser.Some? ==>
        t.running.Some? && t.running.value.handler.Some? && t.running.value.handler.value.UploadCleanup?)
    && (t.running.Some? && t.running.value.wait.AwaitDetaching? ==>
          && !owned && (t.attaching.Some? ==> t.attaching.value.stage.Releasing?)
          && (if t.running.value.inbox.None? then t.detaching.Some? else t.detaching.None? && t.attaching.None?))
  }

  predicate TabInv(l: Local) {
    && RefsCurrent(l.tab) && RunningInv(l) && InOrder(l.tab) && OutcomesSound(l.tab) && LogSound(l.tab)
    && MintsIncrease(l.tab) && AttachSound(l.owned, l.tab)
  }

  predicate Executes(l: Local) { l.tab.running.Some? && l.tab.running.value.wait.Executing? }

  // ------------------------------------------------------------------------- ending and failing

  lemma FinishKeeps(l: Local, code: Option<Code>)
    requires TabInv(l) && Executes(l)
    requires code.None? ==> l.tab.running.value.rest == [] && l.tab.running.value.failed.None?
    requires l.tab.running.value.handler.None?
    ensures TabInv(Finish(l, l.tab.running.value, code))
  {
    var c := l.tab.running.value;
    var t' := Finish(l, c, code).tab;
    assert OutcomeSound(Report(c, code));
    assert OutcomesSound(t');
    assert InOrder(t');
    assert LogSound(t');
  }

  /** What a command keeps even where it leaves its script. */
  predicate Throwable(c: Command) {
    && PhaseSound(c.phase, c.args, c.sent, c.acked, c.snapAck)
    && (c.snapAck.Some? ==> c.snapAck.value <= c.acked)
    && (c.handler.Some? && c.handler.value.UploadCleanup? ==> c.args.action.Upload?)
  }

  predicate MintingCurrent(c: Command, generation: nat, mints: seq<nat>) {
    && (!c.minting.Idle? ==> c.generation <= generation && forall i :: 0 <= i < |mints| ==> mints[i] < c.generation)
    && (c.minting.Matched? ==> c.generation == generation)
  }

  predicate ThrowReady(l: Local) {
    && l.tab.running.Some? && Throwable(l.tab.running.value)
    && MintingCurrent(l.tab.running.value, l.tab.generation, l.tab.mints)
    && RefsCurrent(l.tab) && InOrder(l.tab) && OutcomesSound(l.tab) && LogSound(l.tab)
    && MintsIncrease(l.tab) && AttachSound(l.owned, l.tab)
  }

  lemma FailKeeps(l: Local, code: Code)
    requires ThrowReady(l) && l.tab.running.value.handler.None?
    ensures TabInv(Finish(l, l.tab.running.value, Some(code)))
  {
    var c := l.tab.running.value;
    var t' := Finish(l, c, Some(code)).tab;
    assert OutcomeSound(Report(c, Some(code)));
    assert OutcomesSound(t');
    assert InOrder(t');
    assert LogSound(t');
  }

  /** Any exception, whatever the command was doing or waiting for. */
  lemma ThrowKeeps(l: Local, code: Code)
    requires ThrowReady(l)
    ensures TabInv(Throw(l, l.tab.running.value, code))
  {
    var c := l.tab.running.value;
    if c.handler.Some? {
      var l' := Throw(l, c, code);
      var cleanup := [Finally, Rethrow];
      assert cleanup[1..] == [Rethrow] && cleanup[1..][1..] == [];
      MintsNothingAlone(cleanup, c.minting);
      assert CommandSound(l'.tab.running.value);
      assert InOrder(l'.tab);
    } else {
      FailKeeps(l, if c.readback then ReadbackFailed else code);
    }
  }

  lemma ThrowStaleKeeps(l: Local, code: Code)
    requires TabInv(l) && Executes(l)
    ensures TabInv(ThrowStale(l, l.tab.running.value, code))
  {
    var c := l.tab.running.value;
    var stale := c.(recent := false, minting := Waited(c.minting));
    var l' := Put(l.(tab := Invalidated(l.tab)), stale);
    assert InOrder(l'.tab);
    ThrowKeeps(l', code);
    assert Throw(l', stale, code) == ThrowStale(l, c, code);
  }

  // ------------------------------------------------------------------------ single operations

  /** The next operation of a command and what must hold for the rest of its script. */
  predicate NextOp(l: Local, c: Command, op: Op, rest: seq<Op>) {
    && TabInv(l) && Executes(l) && l.tab.running == Some(c) && c.rest == [op] + rest
  }

  /** An update of the running command that touches nothing else in the tab. */
  lemma PutKeeps(l: Local, c': Command)
    requires TabInv(l) && l.tab.running.Some?
    requires c'.ticket == l.tab.running.value.ticket && c'.handler == l.tab.running.value.handler
    requires CommandSound(c') && CommandCurrent(c', l.tab.generation, l.tab.mints) && (c'.live ==> Valid(l, c'))
    requires c'.wait.AwaitDetaching? ==> c'.wait == l.tab.running.value.wait && c'.inbox == l.tab.running.value.inbox
    ensures TabInv(Put(l, c'))
  {
    assert InOrder(Put(l, c').tab);
  }

  lemma DispatchKeeps(l: Local, m: Method, cleanup: bool)
    requires TabInv(l) && l.tab.running.Some?
    requires Confined(Entry(l, l.tab.running.value, m, cleanup))
               && AimedFresh(Entry(l, l.tab.running.value, m, cleanup))
    ensures TabInv(Dispatch(l, l.tab.running.value, m, cleanup))
  {
    var t, t' := l.tab, Dispatch(l, l.tab.running.value, m, cleanup).tab;
    assert InOrder(t');
    assert LogSound(t');
  }

  /** Only a command on its script executes anything but the end of a cleanup. */
  lemma OnScriptNext(c: Command, op: Op, rest: seq<Op>)
    requires CommandSound(c) && c.wait.Executing? && c.rest == [op] + rest && !op.Finally? && !op.Rethrow?
    ensures c.failed.None? && OnScript(c) && c.rest[0] == op && c.rest[1..] == rest
  {
  }

  lemma CallEntry(l: Local, c: Command, m: Method, rest: seq<Op>)
    requires NextOp(l, c, Call(m), rest) && Valid(l, c)
    ensures Confined(Entry(l, c, m, false)) && AimedFresh(Entry(l, c, m, false))
  {
    OnScriptNext(c, Call(m), rest);
  }

  lemma CallKeeps(l: Local, c: Command, m: Method, rest: seq<Op>)
    requires NextOp(l, c, Call(m), rest)
    ensures TabInv(ExecCall(l, c, m, rest))
  {
    if !Valid(l, c) {
      ThrowKeeps(l, LostCode(l, c));
    } else {
      CallEntry(l, c, m, rest);
      DispatchKeeps(l, m, false);
      var waiting := Waiting(c, AwaitCall(m), rest);
      var c' := if IsEffect(m) then waiting.(sent := c.sent + [m]) else waiting;
      OnScriptNext(c, Call(m), rest);
      CallOnScript(c, m, rest, c');
      PutKeeps(Dispatch(l, c, m, false), c');
    }
  }

  lemma NextEffect(all: seq<Method>, sent: seq<Method>, m: Method)
    requires sent <= all && all[|sent|..] != [] && all[|sent|..][0] == m
    ensures sent + [m] <= all && all[|sent + [m]|..] == all[|sent|..][1..]
  {
    assert all == sent + all[|sent|..];
  }

  lemma CallOnScript(c: Command, m: Method, rest: seq<Op>, c': Command)
    requires CommandSound(c) && c.wait.Executing? && c.rest == [Call(m)] + rest && c.failed.None?
    requires c' == var w := Waiting(c, AwaitCall(m), rest); if IsEffect(m) then w.(sent := c.sent + [m]) else w
    ensures CommandSound(c')
  {
    assert c.rest[1..] == rest;
    if IsEffect(m) {
      NextEffect(Effects(c.args.action), c.sent, m);
      KnowingMoreIsDisciplined(rest, Known(c.phase, false, false, true), KnownOf(c'), c.args, Todo(c'));
    }
  }

  /** An operation that changes nothing the discipline knows of. */
  predicate IsQuiet(op: Op) {
    op.ReadStamp? || op.KeepBefore? || op.CheckSame? || op.Require? || op.Readback? || op.TakeMeta? || op.Check?
  }

  lemma QuietKeeps(l: Local, c: Command, op: Op, rest: seq<Op>, c': Command)
    requires NextOp(l, c, op, rest) && IsQuiet(op)
    requires c' == c.(rest := rest, minting := c'.minting, doc := c'.doc, before := c'.before,
                      readback := c'.readback, bytes := c'.bytes)
    requires c'.minting == if op.Check? then c.minting else Waited(c.minting)
    ensures TabInv(Put(l, c'))
  {
    OnScriptNext(c, op, rest);
    PutKeeps(l, c');
  }

  lemma CheckKeeps(l: Local, c: Command, code: Code, rest: seq<Op>, pass: bool)
    requires NextOp(l, c, Check(code), rest)
    ensures TabInv(ExecCheck(l, c, rest, pass, code))
  {
    if pass { QuietKeeps(l, c, Check(code), rest, c.(rest := rest)); } else { ThrowKeeps(l, code); }
  }

  lemma EnableThen(rest: seq<Op>, k: Known, a: Args, todo: seq<Method>)
    requires Disciplined(rest, k, a, todo) && k.live && !k.recent
    ensures Disciplined(ENABLE + rest, k, a, todo)
  {
    EnableShape(rest);
    Unfold(Call(AccessibilityEnable), rest);
    Unfold(Call(DomEnable), [Call(AccessibilityEnable)] + rest);
    Unfold(Call(PageEnable), [Call(DomEnable)] + ([Call(AccessibilityEnable)] + rest));
  }

  lemma EnableShape(rest: seq<Op>)
    ensures ENABLE + rest == [Call(PageEnable)] + ([Call(DomEnable)] + ([Call(AccessibilityEnable)] + rest))
  {
  }

  lemma ChooserWaitKeeps(l: Local, c: Command, rest: seq<Op>)
    requires NextOp(l, c, WaitChooser, rest)
    ensures TabInv(Put(l, Waiting(c, AwaitChooser, rest)))
  {
    OnScriptNext(c, WaitChooser, rest);
    PutKeeps(l, Waiting(c, AwaitChooser, rest));
  }

  lemma InvalidateKeeps(l: Local, c: Command, rest: seq<Op>)
    requires NextOp(l, c, Invalidate, rest)
    ensures TabInv(Pop(l.(tab := Invalidated(l.tab)), c.(recent := false), rest))
  {
    OnScriptNext(c, Invalidate, rest);
    var l' := Pop(l.(tab := Invalidated(l.tab)), c.(recent := false), rest);
    assert InOrder(l'.tab);
  }

  lemma BeginSnapshotKeeps(l: Local, c: Command, rest: seq<Op>)
    requires NextOp(l, c, BeginSnapshot, rest)
    ensures TabInv(ExecBeginSnapshot(l, c, rest))
  {
    OnScriptNext(c, BeginSnapshot, rest);
    var l' := ExecBeginSnapshot(l, c, rest);
    assert InOrder(l'.tab);
  }

  lemma CheckSnapshotKeeps(l: Local, c: Command, rest: seq<Op>)
    requires NextOp(l, c, CheckSnapshot, rest)
    ensures TabInv(ExecCheckSnapshot(l, c, rest))
  {
    if c.generation != l.tab.generation || c.before != c.doc {
      ThrowStaleKeeps(l, DocumentChanged);
    } else {
      OnScriptNext(c, CheckSnapshot, rest);
      PutKeeps(l, c.(rest := rest, minting := if c.minting.Begun? then Matched else c.minting));
    }
  }

  function Published(l: Local, c: Command, rest: seq<Op>, refs: map<string, SavedRef>): Local {
    Put(l.(tab := l.tab.(refs := refs, document := Some(c.doc), mints := l.tab.mints + [c.generation])),
        c.(rest := rest, minting := Idle))
  }

  lemma PublishedKeeps(l: Local, c: Command, rest: seq<Op>, refs: map<string, SavedRef>)
    requires NextOp(l, c, Script.Mint, rest) && Valid(l, c)
    requires forall r :: r in refs ==> refs[r].generation == c.generation && refs[r].document == c.doc
    ensures TabInv(Published(l, c, rest, refs))
  {
    OnScriptNext(c, Script.Mint, rest);
    var t' := Published(l, c, rest, refs).tab;
    assert CommandSound(t'.running.value);
    assert InOrder(t');
    assert MintsIncrease(t');
  }

  lemma MintKeeps(l: Local, c: Command, rest: seq<Op>)
    requires NextOp(l, c, Script.Mint, rest)
    ensures TabInv(ExecMint(l, c, rest))
  {
    if !Valid(l, c) {
      ThrowKeeps(l, LostCode(l, c));
    } else {
      var refs := AxTree.Mint(MintOrigin(l, c), c.nodes);
      MintedAreCurrent(MintOrigin(l, c), c.nodes);
      PublishedKeeps(l, c, rest, refs);
    }
  }

  lemma MintedAreCurrent(o: Origin, nodes: seq<AxNode>)
    ensures forall r :: r in AxTree.Mint(o, nodes) ==>
              AxTree.Mint(o, nodes)[r].generation == o.generation && AxTree.Mint(o, nodes)[r].document == o.document
  {
    var kept := Kept(nodes, Excluded(nodes, o.document.frameId));
    RefsExact(o, kept, |kept|);
  }

  lemma LookupKeeps(l: Local, c: Command, rest: seq<Op>)
    requires NextOp(l, c, Lookup, rest)
    ensures TabInv(ExecLookup(l, c, rest))
  {
    OnScriptNext(c, Lookup, rest);
    if !c.args.ref.Text? || c.args.ref.s == "" {
      ThrowKeeps(l, InvalidArguments);
    } else if c.args.ref.s !in l.tab.refs || l.tab.refs[c.args.ref.s].generation != l.tab.generation {
      ThrowKeeps(l, StaleRef);
    } else {
      var found := Some(Resolved(l.tab.refs[c.args.ref.s], l.tab.generation));
      PutKeeps(l, c.(rest := rest, recent := false, minting := Waited(c.minting), resolved := found));
    }
  }

  lemma CheckReferenceKeeps(l: Local, c: Command, rest: seq<Op>)
    requires NextOp(l, c, CheckReference, rest)
    ensures TabInv(ExecCheckReference(l, c, rest))
  {
    if c.resolved.None? || c.resolved.value.generation != l.tab.generation || c.doc != c.resolved.value.saved.document {
      ThrowStaleKeeps(l, StaleRef);
    } else {
      OnScriptNext(c, CheckReference, rest);
      PutKeeps(l, c.(rest := rest, recent := true, minting := Waited(c.minting)));
    }
  }

  lemma CheckGenerationKeeps(l: Local, c: Command, rest: seq<Op>)
    requires NextOp(l, c, CheckGeneration, rest)
    ensures TabInv(ExecCheckGeneration(l, c, rest))
  {
    if c.resolved.None? || c.resolved.value.generation != l.tab.generation {
      ThrowKeeps(l, StaleRef);
    } else {
      OnScriptNext(c, CheckGeneration, rest);
      PutKeeps(l, c.(rest := rest, recent := true, minting := Waited(c.minting)));
    }
  }

  lemma SetPhaseKeeps(l: Local, c: Command, p: Phase, rest: seq<Op>)
    requires NextOp(l, c, SetPhase(p), rest)
    ensures TabInv(Pop(l, c.(phase := p), rest))
  {
    OnScriptNext(c, SetPhase(p), rest);
    PutKeeps(l, c.(phase := p, rest := rest, minting := Waited(c.minting)));
  }

  const PART: seq<Op> := [CheckGeneration, Call(ReadBlobPart), Check(DownloadReadFailed), Check(DownloadReadFailed)]

  lemma PartIsPlain()
    ensures AllPlain(PART) && EntersNothing(PART) && MintsNothing(PART)
  {
  }

  lemma PartShape(offset: nat, rest: seq<Op>)
    ensures [CheckGeneration, Call(ReadBlobPart), Check(DownloadReadFailed), Check(DownloadReadFailed),
             ReadParts(offset + 65536)] + rest
         == PART + ([ReadParts(offset + 65536)] + rest)
  {
  }

  lemma PartsThen(offset: nat, rest: seq<Op>, k: Known, a: Args, todo: seq<Method>, m: Minting)
    requires Disciplined(rest, k, a, todo) && !k.recent && !k.live && MintsOnce(rest, m) && !m.Matched?
    ensures var more := [CheckGeneration, Call(ReadBlobPart), Check(DownloadReadFailed), Check(DownloadReadFailed),
                         ReadParts(offset + 65536)];
            Disciplined(more + rest, k, a, todo) && MintsOnce(more + rest, m)
  {
    var next := [ReadParts(offset + 65536)] + rest;
    Unfold(ReadParts(offset + 65536), rest);
    PartIsPlain();
    PlainPrefix(PART, next, k, a, todo);
    MintsNothingPrefix(PART, next, m);
    PartShape(offset, rest);
  }

  lemma PartsOnScript(c: Command, offset: nat, rest: seq<Op>)
    requires CommandSound(c) && c.wait.Executing? && c.rest == [ReadParts(offset)] + rest
    ensures var c0 := c.(recent := false, live := false, minting := Waited(c.minting), rest := rest);
            && CommandSound(c0)
            && CommandSound(c0.(rest := [CheckGeneration, Call(ReadBlobPart), Check(DownloadReadFailed),
                                         Check(DownloadReadFailed),
                                         ReadParts(offset + 65536)] + rest))
  {
    OnScriptNext(c, ReadParts(offset), rest);
    var c0 := c.(recent := false, live := false, minting := Waited(c.minting), rest := rest);
    assert CommandSound(c0);
    PartsThen(offset, rest, KnownOf(c0), c.args, Todo(c), c0.minting);
  }

  lemma ReadPartsKeeps(l: Local, c: Command, offset: nat, rest: seq<Op>)
    requires NextOp(l, c, ReadParts(offset), rest)
    ensures TabInv(ExecReadParts(l, c, offset, rest))
  {
    PartsOnScript(c, offset, rest);
    var c0 := c.(recent := false, live := false, minting := Waited(c.minting), rest := rest);
    if offset < c.bytes {
      PutKeeps(l, c0.(rest := [CheckGeneration, Call(ReadBlobPart), Check(DownloadReadFailed),
                               Check(DownloadReadFailed),
                               ReadParts(offset + 65536)] + rest));
    } else {
      PutKeeps(l, c0);
    }
  }

  lemma EnterOnScript(c: Command, op: Op, h: Handler, rest: seq<Op>)
    requires CommandSound(c) && c.wait.Executing? && c.rest == [op] + rest
    requires (op.EnterUpload? && h.UploadCleanup?) || (op.EnterDownload? && h.DownloadCleanup?)
    ensures CommandSound(c.(handler := Some(h), rest := rest, minting := Waited(c.minting)))
    ensures op.EnterUpload? ==> c.args.action.Upload?
    ensures op.EnterDownload? ==> !c.args.action.Upload?
  {
    OnScriptNext(c, op, rest);
  }

  lemma EnterKeeps(l: Local, c: Command, op: Op, h: Handler, rest: seq<Op>)
    requires NextOp(l, c, op, rest)
    requires (op.EnterUpload? && h.UploadCleanup?) || (op.EnterDownload? && h.DownloadCleanup?)
    ensures TabInv(ExecEnter(l, c, h, rest))
  {
    EnterOnScript(c, op, h, rest);
    EnterAttached(l, c, op, h, rest, ExecEnter(l, c, h, rest).tab);
  }

  lemma EnterAttached(l: Local, c: Command, op: Op, h: Handler, rest: seq<Op>, t': Tab)
    requires NextOp(l, c, op, rest) && t' == ExecEnter(l, c, h, rest).tab
    requires (op.EnterUpload? && h.UploadCleanup?) || (op.EnterDownload? && h.DownloadCleanup?)
    ensures AttachSound(l.owned, t') && InOrder(t')
  {
  }

  lemma CurrentKeeps(l: Local, c: Command, rest: seq<Op>)
    requires NextOp(l, c, Current, rest)
    ensures TabInv(ExecCurrent(l, c, rest))
  {
    OnScriptNext(c, Current, rest);
    if !Valid(l, c) {
      ThrowKeeps(l, LostCode(l, c));
    } else {
      PutKeeps(l, c.(live := true, rest := rest, minting := Waited(c.minting)));
    }
  }

  lemma FinallyOnScript(c: Command, rest: seq<Op>)
    requires CommandSound(c) && c.wait.Executing? && c.rest == [Finally] + rest
    ensures var done := c.(handler := None, recent := false, live := false, minting := Waited(c.minting), rest := rest);
            && CommandSound(done)
            && forall m :: CommandSound(done.(wait := AwaitRaw(m), inbox := None))
  {
    assert c.rest[0] == Finally && c.rest[1..] == rest;
  }

  lemma CleanupCallKeeps(at: Local, done: Command, m: Method)
    requires TabInv(at) && at.tab.running == Some(done) && (m.InterceptOff? || m.ReleaseObjectGroup?)
    requires CommandSound(done.(wait := AwaitRaw(m), inbox := None)) && !done.live && !done.recent
    ensures TabInv(Put(Dispatch(at, done, m, true), done.(wait := AwaitRaw(m), inbox := None)))
  {
    DispatchKeeps(at, m, true);
    PutKeeps(Dispatch(at, done, m, true), done.(wait := AwaitRaw(m), inbox := None));
  }

  lemma FinallyKeeps(l: Local, c: Command, rest: seq<Op>)
    requires NextOp(l, c, Finally, rest)
    ensures TabInv(ExecFinally(l, c, rest))
  {
    FinallyOnScript(c, rest);
    var done := c.(handler := None, recent := false, live := false, minting := Waited(c.minting), rest := rest);
    var closed := Put(l.(tab := l.tab.(chooser := None)), done);
    ClosedKeeps(l, done);
    if c.handler.Some? && l.owned && l.tab.lifetime == c.handler.value.lifetime {
      var m := if c.handler.value.UploadCleanup? then InterceptOff else ReleaseObjectGroup;
      CleanupCallKeeps(closed, done, m);
      FinallyDispatch(l, c, rest);
    } else {
      FinallyQuiet(l, c, rest);
    }
  }

  lemma FinallyDispatch(l: Local, c: Command, rest: seq<Op>)
    requires TabInv(l) && l.tab.running == Some(c)
    requires c.handler.Some? && l.owned && l.tab.lifetime == c.handler.value.lifetime
    ensures var done := c.(handler := None, recent := false, live := false, minting := Waited(c.minting), rest := rest);
            var closed := Put(l.(tab := l.tab.(chooser := None)), done);
            var m := if c.handler.value.UploadCleanup? then InterceptOff else ReleaseObjectGroup;
            ExecFinally(l, c, rest) == Put(Dispatch(closed, done, m, true), done.(wait := AwaitRaw(m), inbox := None))
  {
  }

  lemma FinallyQuiet(l: Local, c: Command, rest: seq<Op>)
    requires TabInv(l) && l.tab.running == Some(c)
    requires c.handler.None? || !l.owned || l.tab.lifetime != c.handler.value.lifetime
    ensures var done := c.(handler := None, recent := false, live := false, minting := Waited(c.minting), rest := rest);
            ExecFinally(l, c, rest) == Put(l.(tab := l.tab.(chooser := None)), done)
  {
  }

  /** Leaving the try of an upload takes its chooser away. */
  lemma ClosedKeeps(l: Local, done: Command)
    requires TabInv(l) && Executes(l) && done.ticket == l.tab.running.value.ticket && done.handler.None?
               && done.wait.Executing?
    requires CommandSound(done) && MintingCurrent(done, l.tab.generation, l.tab.mints) && !done.recent && !done.live
    ensures TabInv(Put(l.(tab := l.tab.(chooser := None)), done))
  {
    assert InOrder(Put(l.(tab := l.tab.(chooser := None)), done).tab);
  }

  lemma RethrowKeeps(l: Local, c: Command, rest: seq<Op>)
    requires NextOp(l, c, Rethrow, rest)
    ensures TabInv(Finish(l, c, Some(RethrownCode(c))))
  {
    assert c.rest[0] == Rethrow && c.handler.None?;
    FailKeeps(l, RethrownCode(c));
  }

  lemma BeginAttachKeeps(l: Local, c: Command, rest: seq<Op>)
    requires TabInv(l) && l.tab.running == Some(c) && Valid(l, c) && !l.owned
    requires l.tab.detaching.None? && (l.tab.attaching.Some? ==> l.tab.attaching.value.stage.Attaching?)
    requires CommandSound(Waiting(c, AwaitAttaching, ENABLE + rest))
    ensures TabInv(BeginAttach(l, c, rest))
  {
    var waiting := Waiting(c, AwaitAttaching, ENABLE + rest);
    if l.tab.attaching.Some? {
      PutKeeps(l, waiting);
    } else {
      DispatchKeeps(l, DebuggerAttach, false);
      DispatchedAttachKeeps(l, Dispatch(l, c, DebuggerAttach, false), c, rest);
    }
  }

  lemma DispatchedAttachKeeps(l: Local, d: Local, c: Command, rest: seq<Op>)
    requires TabInv(d) && d == Dispatch(l, c, DebuggerAttach, false) && d.tab.running == Some(c) && !d.owned
    requires d.tab.detaching.None? && d.tab.attaching.None?
    requires CommandSound(Waiting(c, AwaitAttaching, ENABLE + rest))
    ensures TabInv(BeginAttach(l, c, rest))
  {
    var waiting := Waiting(c, AwaitAttaching, ENABLE + rest);
    PutKeeps(d, waiting);
    OpenAttachKeeps(Put(d, waiting), c.session);
    BeginAttachShape(l, c, rest);
  }

  lemma BeginAttachShape(l: Local, c: Command, rest: seq<Op>)
    requires l.tab.attaching.None?
    ensures BeginAttach(l, c, rest)
         == OpenAttach(Put(Dispatch(l, c, DebuggerAttach, false), Waiting(c, AwaitAttaching, ENABLE + rest)), c.session)
  {
  }

  function OpenAttach(l: Local, session: Session): Local {
    l.(tab := l.tab.(attaching := Some(Attachment(session, l.tab.lifetime, Attaching)), attaches := l.tab.attaches + 1))
  }

  lemma OpenAttachKeeps(l: Local, session: Session)
    requires TabInv(l) && !l.owned && l.tab.detaching.None? && l.tab.attaching.None?
    requires l.tab.running.Some? ==> !l.tab.running.value.wait.AwaitDetaching?
    ensures TabInv(OpenAttach(l, session))
  {
    assert InOrder(OpenAttach(l, session).tab);
  }

  lemma AttachKeeps(l: Local, c: Command, rest: seq<Op>)
    requires NextOp(l, c, Attach, rest)
    ensures TabInv(ExecAttach(l, c, rest))
  {
    if !Valid(l, c) {
      OnScriptNext(c, Attach, rest);
      ThrowKeeps(l, LostCode(l, c));
    } else if l.owned {
      AttachedOnScript(c, rest);
      PutKeeps(l, c.(rest := rest, recent := false, live := true, minting := Waited(c.minting)));
    } else if l.tab.detaching.Some? {
      AttachWaitsOnScript(c, rest);
      WaitForDetachKeeps(l, Waiting(c, AwaitDetaching, rest));
    } else {
      AttachStartsOnScript(c, rest);
      BeginAttachKeeps(l, c, rest);
    }
  }

  lemma AttachedOnScript(c: Command, rest: seq<Op>)
    requires CommandSound(c) && c.wait.Executing? && c.rest == [Attach] + rest
    ensures CommandSound(c.(rest := rest, recent := false, live := true, minting := Waited(c.minting)))
  {
    OnScriptNext(c, Attach, rest);
  }

  lemma AttachWaitsOnScript(c: Command, rest: seq<Op>)
    requires CommandSound(c) && c.wait.Executing? && c.rest == [Attach] + rest
    ensures CommandSound(Waiting(c, AwaitDetaching, rest))
  {
    OnScriptNext(c, Attach, rest);
  }

  lemma AttachStartsOnScript(c: Command, rest: seq<Op>)
    requires CommandSound(c) && c.wait.Executing? && c.rest == [Attach] + rest
    ensures CommandSound(Waiting(c, AwaitAttaching, ENABLE + rest))
  {
    AttachWaitsOnScript(c, rest);
    EnableOnScript(Waiting(c, AwaitDetaching, rest), rest);
  }

  /** The three enabling calls may be put before what is left of a script that waits to be attached. */
  lemma EnableOnScript(w: Command, rest: seq<Op>)
    requires CommandSound(w) && w.wait.AwaitDetaching? && w.rest == rest
    ensures CommandSound(w.(wait := AwaitAttaching, rest := ENABLE + rest))
  {
    var w' := w.(wait := AwaitAttaching, rest := ENABLE + rest);
    EnableThen(rest, KnownOf(w), w.args, Todo(w));
    MintsNothingPrefix(ENABLE, rest, w.minting);
    assert ReleaseDetach in w'.rest ==> ReleaseDetach in rest;
    assert Todo(w') == Todo(w) && KnownOf(w') == KnownOf(w);
  }

  lemma WaitForDetachKeeps(l: Local, c': Command)
    requires TabInv(l) && l.tab.running.Some? && !l.owned && l.tab.detaching.Some?
    requires c'.ticket == l.tab.running.value.ticket && c'.handler == l.tab.running.value.handler
    requires CommandSound(c') && CommandCurrent(c', l.tab.generation, l.tab.mints) && !c'.live
    requires c'.wait.AwaitDetaching? && c'.inbox.None?
    ensures TabInv(Put(l, c'))
  {
    assert InOrder(Put(l, c').tab);
  }

  lemma DetachOwnedKeeps(l: Local)
    requires TabInv(l)
    ensures TabInv(DetachOwned(l))
  {
    assert InOrder(DetachOwned(l).tab);
  }

  lemma ReleaseNext(c: Command, rest: seq<Op>)
    requires CommandSound(c) && c.wait.Executing? && c.rest == [ReleaseDetach] + rest
    ensures c.failed.None? && c.live && c.sent == [] && c.args.action.Release?
    ensures Disciplined(rest, Known(c.phase, false, false, false), c.args, [])
  {
    OnScriptNext(c, ReleaseDetach, rest);
  }

  lemma ReleaseOnScript(c: Command, rest: seq<Op>, begins: bool, inbox: Option<Settled>)
    requires CommandSound(c) && c.wait.Executing? && c.rest == [ReleaseDetach] + rest
    ensures c.live && c.sent == [] && c.args.action.Release?
    ensures CommandSound(Waiting(c, AwaitRelease(begins), rest).(
                           inbox := inbox, sent := if begins then c.sent + [DebuggerDetach] else c.sent))
  {
    ReleaseNext(c, rest);
    var sent := if begins then c.sent + [DebuggerDetach] else c.sent;
    ReleaseWaits(c, rest, begins, Waiting(c, AwaitRelease(begins), rest).(inbox := inbox, sent := sent));
  }

  lemma ReleaseWaits(c: Command, rest: seq<Op>, begins: bool, w: Command)
    requires CommandSound(c) && c.wait.Executing? && c.rest == [ReleaseDetach] + rest && c.failed.None?
    requires c.sent == [] && c.args.action.Release?
    requires Disciplined(rest, Known(c.phase, false, false, false), c.args, [])
    requires w == Waiting(c, AwaitRelease(begins), rest).(inbox := w.inbox, sent := w.sent)
    requires w.sent == if begins then [DebuggerDetach] else []
    ensures CommandSound(w)
  {
    OnScriptNext(c, ReleaseDetach, rest);
    KnowingMoreIsDisciplined(rest, Known(c.phase, false, false, false), KnownOf(w), c.args, []);
  }

  lemma ReleaseBeginsKeeps(l: Local, c: Command, rest: seq<Op>)
    requires NextOp(l, c, ReleaseDetach, rest) && l.tab.detaching.None? && l.owned
    ensures TabInv(ExecRelease(l, c, rest))
  {
    ReleaseOnScript(c, rest, true, None);
    var waiting := Waiting(c, AwaitRelease(true), rest).(sent := c.sent + [DebuggerDetach]);
    DispatchKeeps(l, DebuggerDetach, false);
    var d := Dispatch(l, c, DebuggerDetach, false);
    PutKeeps(d, waiting);
    DetachOwnedKeeps(Put(d, waiting));
    PutAfterDetach(d, waiting);
  }

  lemma PutAfterDetach(l: Local, c: Command)
    ensures Put(DetachOwned(l), c) == DetachOwned(Put(l, c))
  {
  }

  lemma ReleaseKeeps(l: Local, c: Command, rest: seq<Op>)
    requires NextOp(l, c, ReleaseDetach, rest)
    ensures TabInv(ExecRelease(l, c, rest))
  {
    if l.tab.detaching.None? && l.owned {
      ReleaseBeginsKeeps(l, c, rest);
    } else {
      var inbox := if NothingToDetach(l) then Some(Fulfilled) else None;
      ReleaseOnScript(c, rest, false, inbox);
      PutKeeps(l, Waiting(c, AwaitRelease(false), rest).(inbox := inbox));
    }
  }

  lemma EndKeeps(l: Local, c: Command)
    requires TabInv(l) && Executes(l) && l.tab.running == Some(c) && c.rest == []
    ensures TabInv(Finish(l, c, None))
  {
    FinishKeeps(l, None);
  }

  /** An operation that may fail with a code, and otherwise changes nothing the discipline knows of. */
  lemma PassOrThrowKeeps(l: Local, c: Command, op: Op, rest: seq<Op>, c': Command, pass: bool, code: Code)
    requires NextOp(l, c, op, rest) && IsQuiet(op)
    requires c' == c.(rest := rest, minting := c'.minting, doc := c'.doc, before := c'.before,
                      readback := c'.readback, bytes := c'.bytes)
    requires c'.minting == if op.Check? then c.minting else Waited(c.minting)
    ensures TabInv(if pass then Put(l, c') else Throw(l, c, code))
  {
    if pass { QuietKeeps(l, c, op, rest, c'); } else { ThrowKeeps(l, code); }
  }

  lemma StampExecKeeps(l: Local, c: Command, rest: seq<Op>, choice: Choice)
    requires NextOp(l, c, ReadStamp, rest)
    ensures TabInv(Exec(l, choice))
  {
    assert c.rest[0] == ReadStamp && c.rest[1..] == rest;
    var next := c.(rest := rest, minting := Waited(c.minting));
    PassOrThrowKeeps(l, c, ReadStamp, rest, next.(doc := choice.stamp), choice.pass, DocumentChanged);
  }

  lemma BeforeExecKeeps(l: Local, c: Command, rest: seq<Op>, choice: Choice)
    requires NextOp(l, c, KeepBefore, rest)
    ensures TabInv(Exec(l, choice))
  {
    assert c.rest[0] == KeepBefore && c.rest[1..] == rest;
    var next := c.(rest := rest, minting := Waited(c.minting));
    PassOrThrowKeeps(l, c, KeepBefore, rest, next.(before := c.doc), true, DocumentChanged);
  }

  lemma SameExecKeeps(l: Local, c: Command, rest: seq<Op>, choice: Choice)
    requires NextOp(l, c, CheckSame, rest)
    ensures TabInv(Exec(l, choice))
  {
    assert c.rest[0] == CheckSame && c.rest[1..] == rest;
    var next := c.(rest := rest, minting := Waited(c.minting));
    PassOrThrowKeeps(l, c, CheckSame, rest, next, c.before == c.doc, DocumentChanged);
  }

  lemma RequireExecKeeps(l: Local, c: Command, op: Op, rest: seq<Op>, choice: Choice)
    requires NextOp(l, c, op, rest) && op.Require?
    ensures TabInv(Exec(l, choice))
  {
    assert c.rest[0] == op && c.rest[1..] == rest;
    var next := c.(rest := rest, minting := Waited(c.minting));
    PassOrThrowKeeps(l, c, op, rest, next, op.ok, op.code);
  }

  lemma ReadbackExecKeeps(l: Local, c: Command, rest: seq<Op>, choice: Choice)
    requires NextOp(l, c, Readback, rest)
    ensures TabInv(Exec(l, choice))
  {
    assert c.rest[0] == Readback && c.rest[1..] == rest;
    var next := c.(rest := rest, minting := Waited(c.minting));
    PassOrThrowKeeps(l, c, Readback, rest, next.(readback := true), true, DocumentChanged);
  }

  lemma MetaExecKeeps(l: Local, c: Command, rest: seq<Op>, choice: Choice)
    requires NextOp(l, c, TakeMeta, rest)
    ensures TabInv(Exec(l, choice))
  {
    assert c.rest[0] == TakeMeta && c.rest[1..] == rest;
    var next := c.(rest := rest, minting := Waited(c.minting));
    PassOrThrowKeeps(l, c, TakeMeta, rest, next.(bytes := choice.bytes), choice.pass, DownloadReadFailed);
  }

  /** The operations on what was observed, and the checks on arguments. */
  predicate IsObservation(op: Op) {
    op.ReadStamp? || op.KeepBefore? || op.CheckSame? || op.Require? || op.Readback? || op.TakeMeta?
  }

  lemma ObservationKeeps(l: Local, c: Command, op: Op, rest: seq<Op>, choice: Choice)
    requires NextOp(l, c, op, rest) && IsObservation(op)
    ensures TabInv(Exec(l, choice))
  {
    if op.Require? {
      RequireExecKeeps(l, c, op, rest, choice);
    } else {
      match op
      case ReadStamp => StampExecKeeps(l, c, rest, choice);
      case KeepBefore => BeforeExecKeeps(l, c, rest, choice);
      case CheckSame => SameExecKeeps(l, c, rest, choice);
      case Readback => ReadbackExecKeeps(l, c, rest, choice);
      case TakeMeta => MetaExecKeeps(l, c, rest, choice);
    }
  }

  /** The operations that end an atomic step, or may. */
  predicate IsWaiting(op: Op) { op.Call? || op.Attach? || op.WaitChooser? || op.ReleaseDetach? }

  lemma WaitingOpKeeps(l: Local, c: Command, op: Op, rest: seq<Op>, choice: Choice)
    requires NextOp(l, c, op, rest) && IsWaiting(op)
    ensures TabInv(Exec(l, choice))
  {
    assert c.rest[0] == op && c.rest[1..] == rest;
    match op
    case Call(m) => CallKeeps(l, c, m, rest);
    case Attach => AttachKeeps(l, c, rest);
    case WaitChooser => ChooserWaitKeeps(l, c, rest);
    case ReleaseDetach => ReleaseKeeps(l, c, rest);
  }

  predicate IsSnapshotOp(op: Op) { op.Invalidate? || op.BeginSnapshot? || op.CheckSnapshot? || op.Mint? }

  lemma SnapshotOpKeeps(l: Local, c: Command, op: Op, rest: seq<Op>, choice: Choice)
    requires NextOp(l, c, op, rest) && IsSnapshotOp(op)
    ensures TabInv(Exec(l, choice))
  {
    assert c.rest[0] == op && c.rest[1..] == rest;
    match op
    case Invalidate => InvalidateKeeps(l, c, rest);
    case BeginSnapshot => BeginSnapshotKeeps(l, c, rest);
    case CheckSnapshot => CheckSnapshotKeeps(l, c, rest);
    case Mint => MintKeeps(l, c, rest);
  }

  predicate IsReferenceOp(op: Op) { op.Lookup? || op.CheckReference? || op.CheckGeneration? || op.Check? }

  lemma ReferenceOpKeeps(l: Local, c: Command, op: Op, rest: seq<Op>, choice: Choice)
    requires NextOp(l, c, op, rest) && IsReferenceOp(op)
    ensures TabInv(Exec(l, choice))
  {
    assert c.rest[0] == op && c.rest[1..] == rest;
    match op
    case Check(code) => CheckKeeps(l, c, code, rest, choice.pass);
    case Lookup => LookupKeeps(l, c, rest);
    case CheckReference => CheckReferenceKeeps(l, c, rest);
    case CheckGeneration => CheckGenerationKeeps(l, c, rest);
  }

  predicate IsTryOp(op: Op) { op.EnterUpload? || op.EnterDownload? || op.Finally? || op.Rethrow? }

  lemma TryOpKeeps(l: Local, c: Command, op: Op, rest: seq<Op>, choice: Choice)
    requires NextOp(l, c, op, rest) && IsTryOp(op)
    ensures TabInv(Exec(l, choice))
  {
    assert c.rest[0] == op && c.rest[1..] == rest;
    match op
    case EnterUpload => EnterKeeps(l, c, op, UploadCleanup(l.tab.lifetime), rest);
    case EnterDownload => EnterKeeps(l, c, op, DownloadCleanup(l.tab.lifetime), rest);
    case Finally => FinallyKeeps(l, c, rest);
    case Rethrow => RethrowKeeps(l, c, rest);
  }

  lemma OtherOpKeeps(l: Local, c: Command, op: Op, rest: seq<Op>, choice: Choice)
    requires NextOp(l, c, op, rest) && (op.SetPhase? || op.ReadParts? || op.Current?)
    ensures TabInv(Exec(l, choice))
  {
    assert c.rest[0] == op && c.rest[1..] == rest;
    match op
    case SetPhase(p) => SetPhaseKeeps(l, c, p, rest);
    case ReadParts(offset) => ReadPartsKeeps(l, c, offset, rest);
    case Current => CurrentKeeps(l, c, rest);
  }

  /** Every operation of a command keeps the tab's invariants. */
  lemma ExecKeeps(l: Local, choice: Choice)
    requires TabInv(l) && Executes(l)
    ensures TabInv(Exec(l, choice))
  {
    var c := l.tab.running.value;
    if c.rest == [] {
      EndKeeps(l, c);
    } else {
      NextKeeps(l, c, c.rest[0], c.rest[1..], choice);
    }
  }

  lemma NextKeeps(l: Local, c: Command, op: Op, rest: seq<Op>, choice: Choice)
    requires NextOp(l, c, op, rest)
    ensures TabInv(Exec(l, choice))
  {
    if IsObservation(op) {
      ObservationKeeps(l, c, op, rest, choice);
    } else if IsWaiting(op) {
      WaitingOpKeeps(l, c, op, rest, choice);
    } else if IsSnapshotOp(op) {
      SnapshotOpKeeps(l, c, op, rest, choice);
    } else if IsReferenceOp(op) {
      ReferenceOpKeeps(l, c, op, rest, choice);
    } else if IsTryOp(op) {
      TryOpKeeps(l, c, op, rest, choice);
    } else {
      OtherOpKeeps(l, c, op, rest, choice);
    }
  }

  // ------------------------------------------------------------------------------- resuming

  lemma AwakeOnScript(c: Command)
    requires CommandSound(c) && c.failed.None? && ResumesLive(c.wait) && !AwaitsAck(c.wait)
    ensures CommandSound(Awake(c).(live := true))
  {
    assert KnownOf(Awake(c).(live := true)) == KnownOf(c);
    assert Todo(Awake(c).(live := true)) == Todo(c);
  }

  lemma AckedOnScript(c: Command)
    requires CommandSound(c) && c.failed.None? && c.wait.AwaitCall? && AwaitsAck(c.wait)
    ensures CommandSound(Awake(c).(live := true, acked := c.acked + 1))
  {
    var c' := Awake(c).(live := true, acked := c.acked + 1);
    assert KnownOf(c') == KnownOf(c);
    assert Todo(c') == Todo(c);
  }

  lemma ResumeCallKeeps(l: Local, c: Command, m: Method, reply: Reply)
    requires TabInv(l) && l.tab.running == Some(c) && c.wait == AwaitCall(m)
    ensures TabInv(ResumeCall(l, c, m, reply))
  {
    if !Valid(l, c) {
      ThrowKeeps(l, LostCode(l, c));
    } else if !reply.ok {
      ThrowKeeps(l, BrowserCommandFailed);
    } else {
      if IsEffect(m) { AckedOnScript(c); } else { AwakeOnScript(c); }
      PutKeeps(l, Awake(c).(live := true, acked := if IsEffect(m) then c.acked + 1 else c.acked,
                            nodes := if m.GetFullAXTree? then reply.nodes else c.nodes));
    }
  }

  lemma ResumeChooserKeeps(l: Local, c: Command)
    requires TabInv(l) && l.tab.running == Some(c) && c.wait.AwaitChooser?
    ensures TabInv(ResumeChooser(l, c))
  {
    if !Valid(l, c) {
      ThrowKeeps(l, LostCode(l, c));
    } else if l.tab.chooser == Some(Refused) {
      ThrowKeeps(l, StaleRef);
    } else if l.tab.chooser == Some(Opened) {
      AwakeOnScript(c);
      PutKeeps(l, Awake(c).(live := true));
    }
  }

  lemma StartAttachOnScript(c: Command)
    requires CommandSound(c) && c.wait.AwaitDetaching?
    ensures CommandSound(Waiting(Awake(c), AwaitAttaching, ENABLE + c.rest))
  {
    EnableOnScript(c, c.rest);
    var w := c.(wait := AwaitAttaching, rest := ENABLE + c.rest);
    var w' := Waiting(Awake(c), AwaitAttaching, ENABLE + c.rest);
    assert w' == w.(inbox := None);
    assert KnownOf(w') == KnownOf(w) && Todo(w') == Todo(w);
  }

  lemma ResumePromiseKeeps(l: Local, c: Command)
    requires TabInv(l) && l.tab.running == Some(c) && (c.wait.AwaitAttaching? || c.wait.AwaitDetaching?)
    ensures TabInv(ResumePromise(l, c))
  {
    if !Valid(l, c) {
      ThrowKeeps(l, LostCode(l, c));
    } else if c.inbox.None? {
    } else if c.inbox.value.Rejected? {
      ThrowKeeps(l, c.inbox.value.code);
    } else if c.wait.AwaitDetaching? {
      StartAttachOnScript(c);
      AwakenedAttachKeeps(l, c);
    } else {
      AwakeOnScript(c);
      PutKeeps(l, Awake(c).(live := true));
    }
  }

  lemma AwakenedAttachKeeps(l: Local, c: Command)
    requires TabInv(l) && l.tab.running == Some(c) && c.wait.AwaitDetaching? && c.inbox.Some? && Valid(l, c)
    requires CommandSound(Waiting(Awake(c), AwaitAttaching, ENABLE + c.rest))
    ensures TabInv(BeginAttach(l, Awake(c), c.rest))
  {
    var waiting := Waiting(Awake(c), AwaitAttaching, ENABLE + c.rest);
    DispatchKeeps(l, DebuggerAttach, false);
    var d := Dispatch(l, c, DebuggerAttach, false);
    PutKeeps(d, waiting);
    OpenAttachKeeps(Put(d, waiting), c.session);
    AwakenedAttachIs(l, c);
  }

  lemma AwakenedAttachIs(l: Local, c: Command)
    requires l.tab.attaching.None?
    ensures BeginAttach(l, Awake(c), c.rest)
         == OpenAttach(Put(Dispatch(l, c, DebuggerAttach, false), Waiting(Awake(c), AwaitAttaching, ENABLE + c.rest)),
                       c.session)
  {
  }

  lemma ReleasedOnScript(c: Command)
    requires CommandSound(c) && c.failed.None? && c.wait.AwaitRelease?
    ensures CommandSound(Awake(c).(acked := if c.wait.begun then c.acked + 1 else c.acked))
  {
    var c' := Awake(c).(acked := if c.wait.begun then c.acked + 1 else c.acked);
    assert KnownOf(c') == KnownOf(c);
    assert Todo(c') == Todo(c);
  }

  lemma ResumeReleaseKeeps(l: Local, c: Command, begun: bool)
    requires TabInv(l) && l.tab.running == Some(c) && c.wait == AwaitRelease(begun)
    ensures TabInv(ResumeRelease(l, c, begun))
  {
    if !SameSession(l, c) {
      ThrowKeeps(l, ConnectionLost);
    } else if c.inbox.None? {
    } else if c.inbox.value.Rejected? {
      ThrowKeeps(l, c.inbox.value.code);
    } else {
      ReleasedOnScript(c);
      PutKeeps(l, Awake(c).(acked := if begun then c.acked + 1 else c.acked));
    }
  }

  lemma RawOnScript(c: Command)
    requires CommandSound(c) && (c.wait.AwaitRaw? || c.wait.AwaitCleanupDetach?)
    ensures CommandSound(Awake(c)) && forall inbox :: CommandSound(c.(wait := AwaitCleanupDetach, inbox := inbox))
  {
    assert KnownOf(Awake(c)) == KnownOf(c);
  }

  lemma CleanupDetachKeeps(l: Local, c': Command)
    requires TabInv(l) && l.tab.running.Some?
               && c' == l.tab.running.value.(wait := AwaitCleanupDetach, inbox := c'.inbox)
    requires CommandSound(c') && !c'.live
    ensures TabInv(Put(DetachOwned(l), c'))
  {
    PutKeeps(l, c');
    DetachOwnedKeeps(Put(l, c'));
    PutAfterDetach(l, c');
  }

  lemma ResumeRawKeeps(l: Local, c: Command, ok: bool)
    requires TabInv(l) && l.tab.running == Some(c) && c.wait.AwaitRaw?
    ensures TabInv(ResumeRaw(l, c, ok))
  {
    RawOnScript(c);
    if ok {
      PutKeeps(l, Awake(c));
    } else {
      var inbox := if NothingToDetach(l) then Some(Fulfilled) else None;
      CleanupDetachKeeps(l, c.(wait := AwaitCleanupDetach, inbox := inbox));
    }
  }

  /** Every end of a wait keeps the tab's invariants. */
  lemma ResumeKeeps(l: Local, reply: Reply)
    requires TabInv(l) && l.tab.running.Some? && !l.tab.running.value.wait.Executing?
    ensures TabInv(Resume(l, reply))
  {
    var c := l.tab.running.value;
    match c.wait
    case AwaitCall(m) => ResumeCallKeeps(l, c, m, reply);
    case AwaitChooser => ResumeChooserKeeps(l, c);
    case AwaitAttaching => ResumePromiseKeeps(l, c);
    case AwaitDetaching => ResumePromiseKeeps(l, c);
    case AwaitRelease(begun) => ResumeReleaseKeeps(l, c, begun);
    case AwaitRaw(_) => ResumeRawKeeps(l, c, reply.ok);
    case AwaitCleanupDetach => ResumeCleanupKeeps(l, c, reply);
  }

  lemma ResumeCleanupKeeps(l: Local, c: Command, reply: Reply)
    requires TabInv(l) && l.tab.running == Some(c) && c.wait.AwaitCleanupDetach?
    ensures TabInv(Resume(l, reply))
  {
    if c.inbox.Some? {
      if c.failed.Some? {
        RawOnScript(c);
        PutKeeps(l, Awake(c));
      } else {
        ThrowKeeps(l, CleanupCode(c.args.action));
      }
    }
  }

  // --------------------------------------------------------------------------- other steps

  lemma EnqueueKeeps(l: Local, session: Session, args: Args)
    requires TabInv(l)
    ensures TabInv(Enqueue(l, session, args))
  {
    assert InOrder(Enqueue(l, session, args).tab);
  }

  lemma FreshOnScript(c: Command)
    requires c == NewCommand(c.ticket, c.session, c.lifetime, c.args)
    ensures CommandSound(c.(live := true))
  {
    EveryBodyDisciplined(c.args);
    EveryBodyMintsOnce(c.args);
    var c' := c.(live := true);
    assert Todo(c') == Effects(c.args.action);
    assert Disciplined(c'.rest, START, c'.args, Todo(c'));
    assert KnownOf(c') == START;
    assert c.acked == |c.sent| && SentSoFar(c');
  }

  lemma StartKeeps(l: Local)
    requires TabInv(l) && l.tab.running.None? && l.tab.queue != []
    ensures TabInv(Start(l))
  {
    var c := l.tab.queue[0];
    FreshOnScript(c);
    var popped := l.(tab := l.tab.(queue := l.tab.queue[1..]));
    if Valid(l, c) {
      StartedKeeps(l, c);
    } else {
      StartFailsKeeps(l, c);
    }
  }

  lemma StartedKeeps(l: Local, c: Command)
    requires TabInv(l) && l.tab.running.None? && l.tab.queue != [] && c == l.tab.queue[0]
    requires CommandSound(c.(live := true)) && Valid(l, c)
    ensures TabInv(Put(l.(tab := l.tab.(queue := l.tab.queue[1..])), c.(live := true)))
  {
    var t' := Put(l.(tab := l.tab.(queue := l.tab.queue[1..])), c.(live := true)).tab;
    assert InOrder(t');
    assert LogSound(t');
  }

  lemma StartFailsKeeps(l: Local, c: Command)
    requires TabInv(l) && l.tab.running.None? && l.tab.queue != [] && c == l.tab.queue[0]
    ensures TabInv(Throw(l.(tab := l.tab.(queue := l.tab.queue[1..])), c, LostCode(l, c)))
  {
    var l' := Put(l.(tab := l.tab.(queue := l.tab.queue[1..])), c);
    assert InOrder(l'.tab);
    assert LogSound(l'.tab);
    FailKeeps(l', LostCode(l, c));
  }

  lemma InboxKeepsSound(c: Command, s: Settled)
    requires CommandSound(c)
    ensures CommandSound(c.(inbox := Some(s)))
  {
    var c' := c.(inbox := Some(s));
    assert KnownOf(c') == KnownOf(c) && Todo(c') == Todo(c);
  }

  /** A command after a message: unchanged, or unchanged but for its inbox. */
  predicate Informed(before: Option<Command>, after: Option<Command>) {
    after == before
    || (before.Some? && after.Some? && after.value.inbox.Some?
        && after.value == before.value.(inbox := after.value.inbox))
  }

  /** A change of the attachment alone, with or without a message for the running command. */
  lemma AttachmentKeeps(l: Local, l': Local)
    requires TabInv(l) && l'.session == l.session && AttachSound(l'.owned, l'.tab)
    requires l'.tab == l.tab.(attaching := l'.tab.attaching, detaching := l'.tab.detaching, attached := l'.tab.attached,
                              running := l'.tab.running, attaches := l'.tab.attaches, detaches := l'.tab.detaches,
                              detachFailures := l'.tab.detachFailures, detachLog := l'.tab.detachLog)
    requires Informed(l.tab.running, l'.tab.running)
    ensures TabInv(l')
  {
    if l'.tab.running != l.tab.running {
      InboxKeepsSound(l.tab.running.value, l'.tab.running.value.inbox.value);
    }
    assert InOrder(l'.tab);
  }

  /** An attachment that came too late is released as soon as it is held. */
  lemma LateAttachKeeps(l: Local)
    requires TabInv(l) && l.tab.attaching.Some? && l.tab.attaching.value.stage.Attaching?
    ensures TabInv(DetachOwned(l.(
                     owned := true,
                     tab := l.tab.(attached := true, attaching := Some(l.tab.attaching.value.(stage := Releasing))))))
  {
    var held := l.(owned := true,
                   tab := l.tab.(attached := true, attaching := Some(l.tab.attaching.value.(stage := Releasing))));
    assert AttachSound(DetachOwned(held).owned, DetachOwned(held).tab);
    AttachmentKeeps(l, DetachOwned(held));
  }

  lemma SettledAttachKeeps(l: Local, owned: bool, attached: bool, s: Settled)
    requires TabInv(l) && l.tab.attaching.Some? && l.tab.attaching.value.stage.Attaching? && (owned ==> attached)
    ensures TabInv(l.(owned := owned, tab := SettleAttaching(l.tab.(attached := attached), s)))
  {
    var l' := l.(owned := owned, tab := SettleAttaching(l.tab.(attached := attached), s));
    assert AttachSound(l'.owned, l'.tab);
    AttachmentKeeps(l, l');
  }

  lemma AttachReplyKeeps(l: Local, ok: bool)
    requires TabInv(l) && l.tab.attaching.Some? && l.tab.attaching.value.stage.Attaching?
    ensures TabInv(AttachReply(l, ok))
  {
    var a := l.tab.attaching.value;
    if !ok {
      SettledAttachKeeps(l, false, l.tab.attached, Rejected(DebuggerUnavailable));
    } else if l.tab.lifetime != a.lifetime {
      SettledAttachKeeps(l, false, true, Rejected(DebuggerDetached));
    } else if l.session == Some(a.session) {
      SettledAttachKeeps(l, true, true, Fulfilled);
    } else {
      LateAttachKeeps(l);
    }
  }

  lemma ChooserClosedKeeps(l: Local)
    requires TabInv(l) && l.tab.detaching.Some? && l.tab.detaching.value.stage.ClosingChooser?
    ensures TabInv(ChooserClosed(l))
  {
    AttachmentKeeps(l, ChooserClosed(l));
  }

  /** An invalidation from outside: the running command, if any, is waiting. */
  lemma InvalidatedKeeps(l: Local)
    requires TabInv(l) && !Executes(l)
    ensures TabInv(l.(tab := Invalidated(l.tab)))
  {
    assert InOrder(Invalidated(l.tab));
  }

  lemma NotifyShape(t: Tab, waits: Wait -> bool, s: Settled)
    ensures var t' := Notify(t, waits, s);
            && t' == t.(running := t'.running) && Informed(t.running, t'.running)
            && (t'.running.Some? && waits(t'.running.value.wait) ==> t'.running.value.inbox.Some?)
  {
  }

  lemma AfterDetachShape(t: Tab, ok: bool)
    requires t.detaching.Some? && (t.attaching.Some? ==> t.attaching.value.stage.Releasing?)
    ensures var t' := AfterDetach(t, ok);
            && t' == t.(attaching := None, detaching := None, attached := t.attached && !ok,
                        running := t'.running, detachFailures := t'.detachFailures)
            && Informed(t.running, t'.running)
            && (t'.running.Some? && WaitsForDetach(t'.running.value.wait) ==> t'.running.value.inbox.Some?)
  {
    var failures := if ok then t.detachFailures else t.detachFailures + 1;
    var freed := t.(detaching := None, attached := t.attached && !ok, detachFailures := failures);
    var message := if ok then Fulfilled else Rejected(BrowserCommandFailed);
    NotifyShape(freed, WaitsForDetach, message);
    var told := Notify(freed, WaitsForDetach, message);
    if told.attaching.Some? {
      var late := Rejected(if ok then ConnectionLost else BrowserCommandFailed);
      NotifyShape(told.(attaching := None), WaitsForAttach, late);
      assert AfterDetach(t, ok) == Notify(told.(attaching := None), WaitsForAttach, late);
    } else {
      assert AfterDetach(t, ok) == told;
    }
  }

  lemma AfterDetachKeeps(l: Local, ok: bool)
    requires TabInv(l) && !Executes(l) && l.tab.detaching.Some?
    ensures TabInv(l.(owned := l.owned && !ok, tab := AfterDetach(l.tab, ok)))
  {
    AfterDetachShape(l.tab, ok);
    var l' := l.(owned := l.owned && !ok, tab := AfterDetach(l.tab, ok));
    AttachmentKeeps(l, l');
  }

  lemma DetachReplyKeeps(l: Local, ok: bool)
    requires TabInv(l) && !Executes(l) && l.tab.detaching.Some? && l.tab.detaching.value.stage.Detaching?
    ensures TabInv(DetachReply(l, ok))
  {
    InvalidatedKeeps(l);
    AfterDetachKeeps(l.(tab := Invalidated(l.tab)), ok);
  }

  lemma DetachedKeeps(l: Local)
    requires TabInv(l) && !Executes(l)
    ensures TabInv(Detached(l))
  {
    assert InOrder(Detached(l).tab);
  }

  lemma ChooserOpenedKeeps(l: Local)
    requires TabInv(l) && !Executes(l)
    ensures TabInv(l.(tab := ChooserOpened(l.tab)))
  {
    assert InOrder(ChooserOpened(l.tab));
  }

  /** The session may change while no command of the tab executes. */
  lemma SessionKeeps(l: Local, session: Option<Session>)
    requires TabInv(l) && !Executes(l)
    ensures TabInv(l.(session := session))
  {
  }

  lemma NewTabSound(session: Option<Session>, id: nat)
    ensures TabInv(Local(session, false, id, NewTab()))
  {
  }
}
