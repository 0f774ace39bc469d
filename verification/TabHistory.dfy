/**
 * What any event of the controller can do to a tab's record of its commands: nothing, one more call,
 * one command's end, or the start of the next one.
 */
module TabHistory {
  import opened Options
  import opened Script
  import opened TabMachine
  import opened TabInvariants
  import Controller

  /** Whose command it is: the session that accepted it, and what was asked. */
  datatype Who = Who(session: Session, args: Args)

  function WhoOf(c: Command): Who { Who(c.session, c.args) }

  function WhoEnded(o: Outcome): Who { Who(o.session, o.args) }

  predicate SameCommand(c: Command, d: Command) { c.ticket == d.ticket && c.sent == d.sent && WhoOf(c) == WhoOf(d) }

  /** Nothing is sent, and the running command is the same one. Commands may join the queue. */
  predicate Stays(t: Tab, t': Tab) {
    && t'.log == t.log && t'.outcomes == t.outcomes && t.queue <= t'.queue
    && (if t.running.None? then t'.running.None?
        else t'.running.Some? && SameCommand(t'.running.value, t.running.value))
  }

  /** The running command ends. */
  predicate Ends(t: Tab, t': Tab) {
    && t'.log == t.log && t.running.Some? && t'.running.None? && t'.queue == t.queue
    && |t'.outcomes| == |t.outcomes| + 1 && t'.outcomes[..|t.outcomes|] == t.outcomes
    && t'.outcomes[|t.outcomes|].sent == t.running.value.sent
    && WhoEnded(t'.outcomes[|t.outcomes|]) == WhoOf(t.running.value)
  }

  /** The running command makes one call. */
  predicate Sends(t: Tab, t': Tab) {
    && t.running.Some? && t'.running.Some? && t'.outcomes == t.outcomes && t'.queue == t.queue
    && t'.running.value.ticket == t.running.value.ticket && WhoOf(t'.running.value) == WhoOf(t.running.value)
    && |t'.log| == |t.log| + 1 && t'.log[..|t.log|] == t.log && t'.log[|t.log|].ticket == t.running.value.ticket
    && t'.running.value.sent
         == t.running.value.sent + (if IsEffect(t'.log[|t.log|].call) then [t'.log[|t.log|].call] else [])
  }

  predicate Shaped(t: Tab, t': Tab) { Stays(t, t') || Ends(t, t') || Sends(t, t') }

  /** The next command of the queue starts, or ends at once. */
  predicate Starts(t: Tab, t': Tab) {
    && t'.log == t.log && t.running.None? && t.queue != [] && t'.queue == t.queue[1..]
    && if t'.running.Some? then t'.outcomes == t.outcomes && SameCommand(t'.running.value, t.queue[0])
       else
         && |t'.outcomes| == |t.outcomes| + 1 && t'.outcomes[..|t.outcomes|] == t.outcomes
         && t'.outcomes[|t.outcomes|].sent == t.queue[0].sent
         && WhoEnded(t'.outcomes[|t.outcomes|]) == WhoOf(t.queue[0])
  }

  predicate Follows(t: Tab, t': Tab) { Shaped(t, t') || Starts(t, t') }

  // ------------------------------------------------------------------ every step has a shape

  lemma ThrowShaped(l: Local, c: Command, code: Code)
    requires l.tab.running.Some? && SameCommand(c, l.tab.running.value)
    ensures Shaped(l.tab, Throw(l, c, code).tab)
  {
    if c.handler.Some? {
      assert Stays(l.tab, Throw(l, c, code).tab);
    } else {
      assert Ends(l.tab, Throw(l, c, code).tab);
    }
  }

  lemma ThrowStaleShaped(l: Local, c: Command, code: Code)
    requires l.tab.running.Some? && SameCommand(c, l.tab.running.value)
    ensures Shaped(l.tab, ThrowStale(l, c, code).tab)
  {
    var stale := c.(recent := false, minting := Waited(c.minting));
    ThrowShaped(l.(tab := Invalidated(l.tab)), stale, code);
  }

  lemma CallShaped(l: Local, c: Command, m: Method, rest: seq<Op>)
    requires l.tab.running == Some(c)
    ensures Shaped(l.tab, ExecCall(l, c, m, rest).tab)
  {
    if !Valid(l, c) { ThrowShaped(l, c, LostCode(l, c)); } else { assert Sends(l.tab, ExecCall(l, c, m, rest).tab); }
  }

  lemma BeginAttachShaped(l: Local, c: Command, rest: seq<Op>)
    requires l.tab.running.Some? && SameCommand(c, l.tab.running.value)
    ensures Shaped(l.tab, BeginAttach(l, c, rest).tab)
  {
    if l.tab.attaching.None? { assert Sends(l.tab, BeginAttach(l, c, rest).tab); }
  }

  lemma AttachShaped(l: Local, c: Command, rest: seq<Op>)
    requires l.tab.running == Some(c)
    ensures Shaped(l.tab, ExecAttach(l, c, rest).tab)
  {
    if !Valid(l, c) {
      ThrowShaped(l, c, LostCode(l, c));
    } else if !l.owned && l.tab.detaching.None? {
      BeginAttachShaped(l, c, rest);
    }
  }

  lemma ReleaseShaped(l: Local, c: Command, rest: seq<Op>)
    requires l.tab.running == Some(c)
    ensures Shaped(l.tab, ExecRelease(l, c, rest).tab)
  {
    if l.tab.detaching.None? && l.owned {
      assert Sends(l.tab, ExecRelease(l, c, rest).tab);
    } else {
      assert Stays(l.tab, ExecRelease(l, c, rest).tab);
    }
  }

  lemma FinallyShaped(l: Local, c: Command, rest: seq<Op>)
    requires l.tab.running == Some(c)
    ensures Shaped(l.tab, ExecFinally(l, c, rest).tab)
  {
    if c.handler.Some? && l.owned && l.tab.lifetime == c.handler.value.lifetime {
      assert Sends(l.tab, ExecFinally(l, c, rest).tab);
    }
  }

  lemma SnapshotShaped(l: Local, c: Command, rest: seq<Op>)
    requires l.tab.running == Some(c)
    ensures Shaped(l.tab, ExecBeginSnapshot(l, c, rest).tab)
    ensures Shaped(l.tab, ExecCheckSnapshot(l, c, rest).tab)
  {
    ThrowStaleShaped(l, c, DocumentChanged);
  }

  lemma MintShaped(l: Local, c: Command, rest: seq<Op>)
    requires l.tab.running == Some(c)
    ensures Shaped(l.tab, ExecMint(l, c, rest).tab)
  {
    ThrowShaped(l, c, LostCode(l, c));
  }

  lemma LookupShaped(l: Local, c: Command, rest: seq<Op>)
    requires l.tab.running == Some(c)
    ensures Shaped(l.tab, ExecLookup(l, c, rest).tab)
  {
    ThrowShaped(l, c, StaleRef);
    ThrowShaped(l, c, InvalidArguments);
  }

  lemma ReferenceShaped(l: Local, c: Command, rest: seq<Op>)
    requires l.tab.running == Some(c)
    ensures Shaped(l.tab, ExecCheckReference(l, c, rest).tab)
    ensures Shaped(l.tab, ExecCheckGeneration(l, c, rest).tab)
  {
    ThrowStaleShaped(l, c, StaleRef);
    ThrowShaped(l, c, StaleRef);
    assert Stays(l.tab, Put(l, c.(rest := rest, recent := true, minting := Waited(c.minting))).tab);
  }

  lemma TryShaped(l: Local, c: Command, h: Handler, rest: seq<Op>)
    requires l.tab.running == Some(c)
    ensures Shaped(l.tab, ExecEnter(l, c, h, rest).tab)
    ensures Shaped(l.tab, ExecCurrent(l, c, rest).tab)
  {
    ThrowShaped(l, c, LostCode(l, c));
  }

  lemma PartsShaped(l: Local, c: Command, offset: nat, rest: seq<Op>)
    requires l.tab.running == Some(c)
    ensures Shaped(l.tab, ExecReadParts(l, c, offset, rest).tab)
  {
    assert Stays(l.tab, ExecReadParts(l, c, offset, rest).tab);
  }

  lemma EndShaped(l: Local, choice: Choice)
    requires Executes(l) && (l.tab.running.value.rest == [] || l.tab.running.value.rest[0].Rethrow?)
    ensures Shaped(l.tab, Exec(l, choice).tab)
  {
    assert Ends(l.tab, Exec(l, choice).tab);
  }

  lemma InlineShaped(l: Local, choice: Choice)
    requires Executes(l) && l.tab.running.value.rest != []
    requires Controller.Inline(l.tab.running.value.rest[0]) && !l.tab.running.value.rest[0].Rethrow?
    ensures Shaped(l.tab, Exec(l, choice).tab)
  {
    assert Stays(l.tab, Exec(l, choice).tab);
  }

  lemma StampShaped(l: Local, choice: Choice)
    requires Executes(l) && l.tab.running.value.rest != []
    requires l.tab.running.value.rest[0].ReadStamp? || l.tab.running.value.rest[0].CheckSame?
    ensures Shaped(l.tab, Exec(l, choice).tab)
  {
    ThrowShaped(l, l.tab.running.value, DocumentChanged);
  }

  lemma CodeShaped(l: Local, choice: Choice)
    requires Executes(l) && l.tab.running.value.rest != []
    requires l.tab.running.value.rest[0].Check? || l.tab.running.value.rest[0].Require?
    ensures Shaped(l.tab, Exec(l, choice).tab)
  {
    ThrowShaped(l, l.tab.running.value, l.tab.running.value.rest[0].code);
  }

  lemma MetaShaped(l: Local, choice: Choice)
    requires Executes(l) && l.tab.running.value.rest != [] && l.tab.running.value.rest[0].TakeMeta?
    ensures Shaped(l.tab, Exec(l, choice).tab)
  {
    ThrowShaped(l, l.tab.running.value, DownloadReadFailed);
  }

  lemma ExecShaped(l: Local, choice: Choice)
    requires Executes(l)
    ensures Shaped(l.tab, Exec(l, choice).tab)
  {
    var c := l.tab.running.value;
    if c.rest == [] || c.rest[0].Rethrow? {
      EndShaped(l, choice);
    } else if Controller.Inline(c.rest[0]) {
      InlineShaped(l, choice);
    } else {
      var rest := c.rest[1..];
      match c.rest[0]
      case Call(m) => CallShaped(l, c, m, rest);
      case Attach => AttachShaped(l, c, rest);
      case ReleaseDetach => ReleaseShaped(l, c, rest);
      case BeginSnapshot => SnapshotShaped(l, c, rest);
      case CheckSnapshot => SnapshotShaped(l, c, rest);
      case Mint => MintShaped(l, c, rest);
      case Lookup => LookupShaped(l, c, rest);
      case CheckReference => ReferenceShaped(l, c, rest);
      case CheckGeneration => ReferenceShaped(l, c, rest);
      case EnterUpload => TryShaped(l, c, UploadCleanup(l.tab.lifetime), rest);
      case EnterDownload => TryShaped(l, c, DownloadCleanup(l.tab.lifetime), rest);
      case ReadParts(offset) => PartsShaped(l, c, offset, rest);
      case Current => TryShaped(l, c, UploadCleanup(0), rest);
      case Finally => FinallyShaped(l, c, rest);
      case ReadStamp => StampShaped(l, choice);
      case CheckSame => StampShaped(l, choice);
      case Check(_) => CodeShaped(l, choice);
      case Require(_, _) => CodeShaped(l, choice);
      case TakeMeta => MetaShaped(l, choice);
    }
  }

  lemma PromiseShaped(l: Local, c: Command)
    requires l.tab.running == Some(c)
    ensures Shaped(l.tab, ResumePromise(l, c).tab)
  {
    if !Valid(l, c) {
      ThrowShaped(l, c, LostCode(l, c));
    } else if c.inbox.Some? && c.inbox.value.Rejected? {
      ThrowShaped(l, c, c.inbox.value.code);
    } else if c.inbox.Some? && c.wait.AwaitDetaching? {
      BeginAttachShaped(l, Awake(c), c.rest);
    } else {
      assert Stays(l.tab, ResumePromise(l, c).tab);
    }
  }

  lemma CallReplyShaped(l: Local, c: Command, m: Method, reply: Reply)
    requires l.tab.running == Some(c)
    ensures Shaped(l.tab, ResumeCall(l, c, m, reply).tab)
  {
    ThrowShaped(l, c, LostCode(l, c));
    ThrowShaped(l, c, BrowserCommandFailed);
  }

  lemma ChooserShaped(l: Local, c: Command)
    requires l.tab.running == Some(c)
    ensures Shaped(l.tab, ResumeChooser(l, c).tab)
  {
    if !Valid(l, c) {
      ThrowShaped(l, c, LostCode(l, c));
    } else if l.tab.chooser == Some(Refused) {
      ThrowShaped(l, c, StaleRef);
    } else {
      assert Stays(l.tab, ResumeChooser(l, c).tab);
    }
  }

  lemma ReleasedShaped(l: Local, c: Command, begun: bool)
    requires l.tab.running == Some(c)
    ensures Shaped(l.tab, ResumeRelease(l, c, begun).tab)
  {
    if !SameSession(l, c) {
      ThrowShaped(l, c, ConnectionLost);
    } else if c.inbox.None? {
      assert Stays(l.tab, l.tab);
    } else if c.inbox.value.Rejected? {
      ThrowShaped(l, c, c.inbox.value.code);
    } else {
      assert Stays(l.tab, ResumeRelease(l, c, begun).tab);
    }
  }

  lemma CleanupShaped(l: Local, c: Command, ok: bool)
    requires l.tab.running == Some(c)
    ensures Shaped(l.tab, ResumeRaw(l, c, ok).tab) && Shaped(l.tab, EndCleanup(l, c).tab)
  {
    assert Stays(l.tab, ResumeRaw(l, c, ok).tab);
    if c.failed.Some? {
      assert Stays(l.tab, EndCleanup(l, c).tab);
    } else {
      ThrowShaped(l, c, CleanupCode(c.args.action));
    }
  }

  lemma ResumeShaped(l: Local, reply: Reply)
    requires l.tab.running.Some? && !Executes(l)
    ensures Shaped(l.tab, Resume(l, reply).tab)
  {
    var c := l.tab.running.value;
    match c.wait
    case AwaitCall(m) => CallReplyShaped(l, c, m, reply);
    case AwaitChooser => ChooserShaped(l, c);
    case AwaitAttaching => PromiseShaped(l, c);
    case AwaitDetaching => PromiseShaped(l, c);
    case AwaitRelease(begun) => ReleasedShaped(l, c, begun);
    case AwaitRaw(_) => CleanupShaped(l, c, reply.ok);
    case AwaitCleanupDetach => CleanupShaped(l, c, true);
  }

  lemma AttachReplyStays(l: Local, ok: bool)
    requires l.tab.attaching.Some? && l.tab.attaching.value.stage.Attaching?
    ensures Stays(l.tab, AttachReply(l, ok).tab)
  {
  }

  lemma DetachReplyStays(l: Local, ok: bool)
    requires l.tab.detaching.Some? && l.tab.detaching.value.stage.Detaching?
    ensures Stays(l.tab, DetachReply(l, ok).tab)
  {
  }

  // ----------------------------------------------------------------- events of the controller

  lemma MergeFollows(w: Controller.World, l': Local, t: nat)
    requires Follows(Controller.StateOf(w, l'.id), l'.tab)
    ensures Follows(Controller.StateOf(w, t), Controller.StateOf(Controller.Merge(w, l'), t))
  {
    if t != l'.id { assert Stays(Controller.StateOf(w, t), Controller.StateOf(Controller.Merge(w, l'), t)); }
  }

  lemma StartStarts(l: Local)
    requires l.tab.running.None? && l.tab.queue != [] && l.tab.queue[0].handler.None?
    ensures Starts(l.tab, TabMachine.Start(l).tab)
  {
    var c := l.tab.queue[0];
    if !Valid(l, c) {
      var code := if c.readback then ReadbackFailed else LostCode(l, c);
      assert TabMachine.Start(l).tab.outcomes == l.tab.outcomes + [Report(c, Some(code))];
    }
  }

  /** The commands in a queue have not begun, so none of them is in a try. */
  ghost predicate QueuesFresh(w: Controller.World) {
    forall t, i :: t in w.tabs && 0 <= i < |w.tabs[t].queue| ==> w.tabs[t].queue[i].handler.None?
  }

  lemma SoundQueuesFresh(w: Controller.World)
    requires Controller.WorldInv(w)
    ensures QueuesFresh(w)
  {
    forall t, i | t in w.tabs && 0 <= i < |w.tabs[t].queue|
      ensures w.tabs[t].queue[i].handler.None?
    {
      Controller.LocalSound(w, t);
      assert InOrder(w.tabs[t]);
    }
  }

  lemma ExecFollows(w: Controller.World, u: nat, choice: Choice, t: nat)
    ensures Follows(Controller.StateOf(w, t), Controller.StateOf(Controller.OnExec(w, u, choice), t))
  {
    var l := Controller.LocalOf(w, u);
    if w.active == Some(u) && Executes(l) {
      ExecShaped(l, choice);
      MergeFollows(w, TabMachine.Exec(l, choice), t);
    } else {
      assert Stays(Controller.StateOf(w, t), Controller.StateOf(w, t));
    }
  }

  lemma ResumeFollows(w: Controller.World, u: nat, reply: Reply, t: nat)
    ensures Follows(Controller.StateOf(w, t), Controller.StateOf(Controller.OnResume(w, u, reply), t))
  {
    var l := Controller.LocalOf(w, u);
    if l.tab.running.Some? && !Executes(l) {
      ResumeShaped(l, reply);
      MergeFollows(w, TabMachine.Resume(l, reply), t);
    } else {
      assert Stays(Controller.StateOf(w, t), Controller.StateOf(w, t));
    }
  }

  lemma StartFollows(w: Controller.World, u: nat, t: nat)
    requires QueuesFresh(w)
    ensures Follows(Controller.StateOf(w, t), Controller.StateOf(Controller.OnStart(w, u), t))
  {
    var l := Controller.LocalOf(w, u);
    if l.tab.running.None? && l.tab.queue != [] {
      StartStarts(l);
      MergeFollows(w, TabMachine.Start(l), t);
    } else {
      assert Stays(Controller.StateOf(w, t), Controller.StateOf(w, t));
    }
  }

  lemma AttachFollows(w: Controller.World, u: nat, ok: bool, t: nat)
    ensures Follows(Controller.StateOf(w, t), Controller.StateOf(Controller.OnAttachAnswered(w, u, ok), t))
  {
    var l := Controller.LocalOf(w, u);
    if l.tab.attaching.Some? && l.tab.attaching.value.stage.Attaching? {
      AttachReplyStays(l, ok);
      MergeFollows(w, AttachReply(l, ok), t);
    } else {
      assert Stays(Controller.StateOf(w, t), Controller.StateOf(w, t));
    }
  }

  lemma DetachFollows(w: Controller.World, u: nat, ok: bool, t: nat)
    ensures Follows(Controller.StateOf(w, t), Controller.StateOf(Controller.OnDetachAnswered(w, u, ok), t))
    ensures Follows(Controller.StateOf(w, t), Controller.StateOf(Controller.OnChooserClosed(w, u), t))
  {
    var l := Controller.LocalOf(w, u);
    assert Stays(Controller.StateOf(w, t), Controller.StateOf(w, t));
    if l.tab.detaching.Some? {
      if l.tab.detaching.value.stage.Detaching? {
        DetachReplyStays(l, ok);
        MergeFollows(w.(disconnects := if ok then w.disconnects else Controller.Disturbed(w.disconnects, true)),
                     DetachReply(l, ok), t);
      } else {
        MergeFollows(w, ChooserClosed(l), t);
      }
    }
  }

  lemma NoticeFollows(w: Controller.World, u: nat, t: nat)
    ensures Follows(Controller.StateOf(w, t),
                    Controller.StateOf(Controller.Merge(w, Detached(Controller.LocalOf(w, u))), t))
    ensures Follows(Controller.StateOf(w, t), Controller.StateOf(Controller.OnChooserShown(w, u), t))
    ensures Follows(Controller.StateOf(w, t), Controller.StateOf(Controller.OnDocumentReplaced(w, u), t))
  {
    var l := Controller.LocalOf(w, u);
    MergeFollows(w, Detached(l), t);
    MergeFollows(w, l.(tab := ChooserOpened(l.tab)), t);
    MergeFollows(w, l.(tab := Invalidated(l.tab)), t);
  }

  lemma RunFollows(w: Controller.World, u: nat, args: Args, t: nat)
    ensures Follows(Controller.StateOf(w, t), Controller.StateOf(Controller.OnRun(w, u, args), t))
  {
    if w.session.Some? {
      MergeFollows(w, Enqueue(Controller.LocalOf(w, u), w.session.value, args), t);
    } else {
      assert Stays(Controller.StateOf(w, t), Controller.StateOf(w, t));
    }
  }

  lemma SweepStays(w: Controller.World, t: nat)
    ensures t in w.tabs ==> Stays(w.tabs[t], Invalidated(w.tabs[t])) && Stays(w.tabs[t], Controller.DetachAll(w)[t])
  {
  }

  lemma DisconnectFollows(w: Controller.World, t: nat)
    ensures Follows(Controller.StateOf(w, t), Controller.StateOf(Controller.BeginDisconnect(w), t))
  {
    var stale := w.(session := None, tabs := Controller.InvalidateAll(w.tabs));
    SweepStays(w, t);
    SweepStays(stale, t);
    assert Stays(Controller.StateOf(w, t), Controller.StateOf(Controller.BeginDisconnect(w), t));
  }

  lemma SessionFollows(w: Controller.World, s: Session, t: nat)
    ensures Follows(Controller.StateOf(w, t), Controller.StateOf(Controller.OnOpenSession(w, s), t))
  {
    SweepStays(w, t);
    assert Stays(Controller.StateOf(w, t), Controller.StateOf(Controller.OnOpenSession(w, s), t));
  }

  lemma AdvanceFollows(w: Controller.World, i: nat, t: nat)
    requires i < |w.disconnects|
    ensures Follows(Controller.StateOf(w, t), Controller.StateOf(Controller.AdvanceDisconnect(w, i), t))
  {
    SweepStays(w, t);
    Controller.AdvanceTabs(w, i);
    assert Stays(Controller.StateOf(w, t), Controller.StateOf(Controller.AdvanceDisconnect(w, i), t));
  }

  /** Whatever happens, each tab's record only stays, grows by one call, ends a command, or starts the next. */
  lemma StepFollows(w: Controller.World, e: Controller.Event, v: Controller.World, t: nat)
    requires QueuesFresh(w) && v == Controller.Step(w, e)
    ensures Follows(Controller.StateOf(w, t), Controller.StateOf(v, t))
  {
    assert Stays(Controller.StateOf(w, t), Controller.StateOf(w, t));
    if e.Exec? {
      ExecFollows(w, e.tab, e.choice, t);
    } else if w.active.None? {
      match e
      case Run(u, args) => RunFollows(w, u, args, t);
      case Start(u) => StartFollows(w, u, t);
      case Resume(u, reply) => ResumeFollows(w, u, reply, t);
      case AttachAnswered(u, ok) => AttachFollows(w, u, ok, t);
      case ChooserClosedAnswered(u) => DetachFollows(w, u, true, t);
      case DetachAnswered(u, ok) => DetachFollows(w, u, ok, t);
      case BrowserDetached(u) => NoticeFollows(w, u, t);
      case ChooserShown(u) => NoticeFollows(w, u, t);
      case DocumentReplaced(u) => NoticeFollows(w, u, t);
      case OpenSession(s) => SessionFollows(w, s, t);
      case Disconnect => DisconnectFollows(w, t);
      case Advance(i) => if i < |w.disconnects| { AdvanceFollows(w, i, t); }
    }
  }
}
