/**
 * A run of the controller in which a detach reaches a tab that the controller no longer owns. Most of
 * it is a snapshot and the beginning of an upload in which every browser call succeeds; the end is a
 * loss of the connection and a detach by the browser while the upload's chooser is being closed.
 */
module LateDetach {
  import opened Options
  import opened AxTree
  import opened Script
  import opened TabMachine
  import opened TabInvariants
  import C = Controller

  const SESSION := Session(0, "s")
  const STAMP := Stamp("F", "L", "https://example.org/", 1)
  const NODES: seq<AxNode> := [AxNode("1", None, [], Some(7))]
  const PASS := Choice(true, STAMP, 0)
  const OK := Reply(true, NODES)
  const LOOK := Args(Snapshot, NoRef, true, true, true, true)

  // ------------------------------------------------------------------- worlds of one tab

  function WorldOf(l: Local): C.World {
    C.World(l.session, map[l.id := l.tab], if l.owned then {l.id} else {}, [], if Executes(l) then Some(l.id) else None)
  }

  /** Some run leads to the world in which only this tab exists. */
  ghost predicate At(l: Local) { C.Reachable(WorldOf(l)) }

  lemma Moved(l: Local, l': Local, e: C.Event)
    requires At(l) && l'.id == l.id && l'.session == l.session && C.Step(WorldOf(l), e) == C.Merge(WorldOf(l), l')
    ensures At(l')
  {
    C.StepReachable(WorldOf(l), e);
    MovedWorld(l, l');
  }

  lemma MovedWorld(l: Local, l': Local)
    requires l'.id == l.id && l'.session == l.session
    ensures C.Merge(WorldOf(l), l') == WorldOf(l')
  {
  }

  lemma OnlyTab(l: Local)
    ensures C.LocalOf(WorldOf(l), l.id) == l
  {
  }

  lemma ExecAt(l: Local, choice: Choice)
    requires At(l) && Executes(l)
    ensures At(Exec(l, choice))
  {
    OnlyTab(l);
    Moved(l, Exec(l, choice), C.Exec(l.id, choice));
  }

  lemma ResumeAt(l: Local, reply: Reply)
    requires At(l) && l.tab.running.Some? && !Executes(l)
    ensures At(Resume(l, reply))
  {
    OnlyTab(l);
    Moved(l, Resume(l, reply), C.Resume(l.id, reply));
  }

  lemma EnqueueAt(l: Local, a: Args)
    requires At(l) && l.session == Some(SESSION) && !Executes(l)
    ensures At(Enqueue(l, SESSION, a))
  {
    OnlyTab(l);
    Moved(l, Enqueue(l, SESSION, a), C.Run(l.id, a));
  }

  lemma StartAt(l: Local)
    requires At(l) && l.tab.running.None? && l.tab.queue != []
    ensures At(TabMachine.Start(l))
  {
    OnlyTab(l);
    Moved(l, TabMachine.Start(l), C.Start(l.id));
  }

  lemma AttachedAt(l: Local)
    requires At(l) && !Executes(l) && l.tab.attaching.Some? && l.tab.attaching.value.stage.Attaching?
    ensures At(AttachReply(l, true))
  {
    OnlyTab(l);
    Moved(l, AttachReply(l, true), C.AttachAnswered(l.id, true));
  }

  // ------------------------------------------------------- a script in which nothing fails

  /** What of a tab and its running command decides how a script goes on. */
  datatype Gist = Gist(
    rest: seq<Op>, doc: Stamp, before: Stamp, snapped: nat, nodes: seq<AxNode>, resolved: Option<Resolved>,
    generation: nat, refs: map<string, SavedRef>)

  function GistOf(l: Local): Gist
    requires l.tab.running.Some?
  {
    var c := l.tab.running.value;
    Gist(c.rest, c.doc, c.before, c.generation, c.nodes, c.resolved, l.tab.generation, l.tab.refs)
  }

  /** A command executes in an owned tab, under the current session and lifetime. */
  ghost predicate On(l: Local, a: Args) {
    && At(l) && l.id == 0 && l.session == Some(SESSION) && l.owned && Executes(l)
    && l.tab.attaching.None? && l.tab.detaching.None? && l.tab.chooser.None? && l.tab.queue == []
    && var c := l.tab.running.value;
       c.session == SESSION && c.lifetime == l.tab.lifetime && c.handler.None? && c.args == a
  }

  function Minted(g: Gist): map<string, SavedRef> { AxTree.Mint(Origin(SESSION.id, 0, g.snapped, g.doc), g.nodes) }

  /** The operation finds what it looks for. */
  predicate Passes(op: Op, a: Args, g: Gist) {
    match op
    case Call(m) => !IsEffect(m)
    case Attach => true
    case Check(_) => true
    case ReadStamp => true
    case KeepBefore => true
    case BeginSnapshot => true
    case Mint => true
    case Require(ok, _) => ok
    case CheckSnapshot => g.snapped == g.generation && g.before == g.doc
    case Lookup => a.ref.Text? && a.ref.s != "" && a.ref.s in g.refs && g.refs[a.ref.s].generation == g.generation
    case CheckReference =>
      g.resolved.Some? && g.resolved.value.generation == g.generation && g.doc == g.resolved.value.saved.document
    case CheckGeneration => g.resolved.Some? && g.resolved.value.generation == g.generation
    case _ => false
  }

  function Next(op: Op, a: Args, g: Gist): Gist
    requires Passes(op, a, g) && g.rest != []
  {
    var next := g.(rest := g.rest[1..]);
    match op
    case Call(m) => if m.GetFullAXTree? then next.(nodes := NODES) else next
    case ReadStamp => next.(doc := STAMP)
    case KeepBefore => next.(before := g.doc)
    case BeginSnapshot => next.(snapped := g.generation + 1, generation := g.generation + 1, refs := map[])
    case Mint => next.(refs := Minted(g))
    case Lookup => next.(resolved := Some(Resolved(g.refs[a.ref.s], g.generation)))
    case _ => next
  }

  lemma CallPasses(l: Local, a: Args, m: Method) returns (l': Local)
    requires On(l, a) && GistOf(l).rest != [] && GistOf(l).rest[0] == Call(m) && !IsEffect(m)
    ensures On(l', a) && GistOf(l') == Next(Call(m), a, GistOf(l))
  {
    ExecAt(l, PASS);
    var waiting := Exec(l, PASS);
    ResumeAt(waiting, OK);
    l' := Resume(waiting, OK);
  }

  predicate IsTest(op: Op) { op.CheckSnapshot? || op.CheckReference? || op.CheckGeneration? || op.Lookup? }

  lemma TestPasses(l: Local, a: Args) returns (l': Local)
    requires On(l, a) && GistOf(l).rest != [] && IsTest(GistOf(l).rest[0]) && Passes(GistOf(l).rest[0], a, GistOf(l))
    ensures On(l', a) && GistOf(l') == Next(GistOf(l).rest[0], a, GistOf(l))
  {
    ExecAt(l, PASS);
    l' := Exec(l, PASS);
  }

  lemma StepPasses(l: Local, a: Args) returns (l': Local)
    requires On(l, a) && GistOf(l).rest != [] && Passes(GistOf(l).rest[0], a, GistOf(l))
    requires !GistOf(l).rest[0].Call? && !IsTest(GistOf(l).rest[0])
    ensures On(l', a) && GistOf(l') == Next(GistOf(l).rest[0], a, GistOf(l))
  {
    ExecAt(l, PASS);
    l' := Exec(l, PASS);
  }

  /** The first operations of a script all find what they look for. */
  predicate Runs(s: seq<Op>, a: Args, g: Gist) {
    s == [] || (g.rest != [] && g.rest[0] == s[0] && Passes(s[0], a, g) && Runs(s[1..], a, Next(s[0], a, g)))
  }

  function Final(s: seq<Op>, a: Args, g: Gist): Gist
    requires Runs(s, a, g)
  {
    if s == [] then g else Final(s[1..], a, Next(s[0], a, g))
  }

  lemma {:induction false} RunsThrough(l: Local, a: Args, s: seq<Op>) returns (l': Local)
    requires On(l, a) && Runs(s, a, GistOf(l))
    ensures On(l', a) && GistOf(l') == Final(s, a, GistOf(l))
    decreases |s|
  {
    if s == [] {
      l' := l;
    } else {
      var next;
      if s[0].Call? {
        next := CallPasses(l, a, s[0].m);
      } else if IsTest(s[0]) {
        next := TestPasses(l, a);
      } else {
        next := StepPasses(l, a);
      }
      l' := RunsThrough(next, a, s[1..]);
    }
  }

  lemma {:induction false} RunsOn(s: seq<Op>, t: seq<Op>, a: Args, g: Gist)
    requires Runs(s, a, g) && Runs(t, a, Final(s, a, g))
    ensures Runs(s + t, a, g) && Final(s + t, a, g) == Final(t, a, Final(s, a, g))
  {
    if s == [] {
      assert s + t == t;
    } else {
      assert (s + t)[1..] == s[1..] + t;
      RunsOn(s[1..], t, a, Next(s[0], a, g));
    }
  }

  // -------------------------------------------------------------------- the blocks in use

  lemma OneRuns(op: Op, rest: seq<Op>, a: Args, g: Gist)
    requires g.rest == [op] + rest && Passes(op, a, g)
    ensures Runs([op], a, g) && Final([op], a, g) == Next(op, a, g) && Next(op, a, g).rest == rest
  {
    assert g.rest[1..] == rest;
    assert [op][1..] == [];
  }

  /** Checks and calls that change nothing of the gist but the rest. */
  predicate IsQuiet(op: Op) { op.Check? || op.Attach? || (op.Call? && !IsEffect(op.m) && !op.m.GetFullAXTree?) }

  lemma {:induction false} QuietRuns(s: seq<Op>, rest: seq<Op>, a: Args, g: Gist)
    requires g.rest == s + rest && forall i :: 0 <= i < |s| ==> IsQuiet(s[i])
    ensures Runs(s, a, g) && Final(s, a, g) == g.(rest := rest)
  {
    if s == [] {
      assert s + rest == rest;
    } else {
      assert g.rest[0] == s[0] && g.rest[1..] == s[1..] + rest;
      QuietRuns(s[1..], rest, a, Next(s[0], a, g));
    }
  }

  const OBSERVE: seq<Op> :=
    METADATA + [Call(GetFrameTree), Call(GetDocument), Check(DocumentUnavailable)] + METADATA

  lemma DocumentRuns(rest: seq<Op>, a: Args, g: Gist)
    requires g.rest == DOCUMENT + rest
    ensures Runs(DOCUMENT, a, g) && Final(DOCUMENT, a, g) == g.(rest := rest, doc := STAMP)
  {
    assert DOCUMENT == OBSERVE + [ReadStamp];
    assert g.rest == OBSERVE + ([ReadStamp] + rest);
    QuietRuns(OBSERVE, [ReadStamp] + rest, a, g);
    OneRuns(ReadStamp, rest, a, Final(OBSERVE, a, g));
    RunsOn(OBSERVE, [ReadStamp], a, g);
  }

  const READING: seq<Op> := [KeepBefore, Call(GetFullAXTree)]
  const ENDING: seq<Op> := [CheckSnapshot, Check(SnapshotUnavailable), Mint]

  lemma ReadingRuns(rest: seq<Op>, a: Args, g: Gist)
    requires g.rest == READING + rest
    ensures Runs(READING, a, g) && Final(READING, a, g) == g.(rest := rest, before := g.doc, nodes := NODES)
  {
    var tail := [Call(GetFullAXTree)] + rest;
    assert g.rest == [KeepBefore] + tail;
    OneRuns(KeepBefore, tail, a, g);
    OneRuns(Call(GetFullAXTree), rest, a, Final([KeepBefore], a, g));
    RunsOn([KeepBefore], [Call(GetFullAXTree)], a, g);
  }

  lemma EndingRuns(rest: seq<Op>, a: Args, g: Gist)
    requires g.rest == ENDING + rest && g.snapped == g.generation && g.before == g.doc
    ensures Runs(ENDING, a, g) && Final(ENDING, a, g) == g.(rest := rest, refs := Minted(g))
  {
    var minting := [Mint] + rest;
    var checking := [Check(SnapshotUnavailable)] + minting;
    assert g.rest == [CheckSnapshot] + checking;
    OneRuns(CheckSnapshot, checking, a, g);
    var g1 := Final([CheckSnapshot], a, g);
    OneRuns(Check(SnapshotUnavailable), minting, a, g1);
    OneRuns(Mint, rest, a, Final([Check(SnapshotUnavailable)], a, g1));
    RunsOn([Check(SnapshotUnavailable)], [Mint], a, g1);
    RunsOn([CheckSnapshot], [Check(SnapshotUnavailable)] + [Mint], a, g);
  }

  lemma SnapshotParts()
    ensures SNAPSHOT == [BeginSnapshot] + (DOCUMENT + (READING + (DOCUMENT + ENDING)))
  {
  }

  lemma ObservedTwice(a: Args, g: Gist)
    requires g.rest == DOCUMENT + (READING + (DOCUMENT + ENDING)) && g.snapped == g.generation
    ensures Runs(g.rest, a, g)
    ensures Final(g.rest, a, g) == g.(rest := [], doc := STAMP, before := STAMP, nodes := NODES,
                                      refs := Minted(g.(doc := STAMP, nodes := NODES)))
  {
    var second := DOCUMENT + ENDING;
    DocumentRuns(READING + second, a, g);
    var g1 := Final(DOCUMENT, a, g);
    ReadingRuns(second, a, g1);
    var g2 := Final(READING, a, g1);
    DocumentRuns(ENDING, a, g2);
    var g3 := Final(DOCUMENT, a, g2);
    assert ENDING + [] == ENDING;
    EndingRuns([], a, g3);
    RunsOn(DOCUMENT, ENDING, a, g2);
    RunsOn(READING, second, a, g1);
    RunsOn(DOCUMENT, READING + second, a, g);
  }

  /** A snapshot ends with the references of its nodes. */
  lemma SnapshotRuns(a: Args, g: Gist)
    requires g.rest == SNAPSHOT
    ensures Runs(SNAPSHOT, a, g)
    ensures var end := Final(SNAPSHOT, a, g);
            end.rest == [] && end.generation == g.generation + 1
            && end.refs == AxTree.Mint(Origin(SESSION.id, 0, g.generation + 1, STAMP), NODES)
  {
    SnapshotParts();
    var body := DOCUMENT + (READING + (DOCUMENT + ENDING));
    OneRuns(BeginSnapshot, body, a, g);
    ObservedTwice(a, Final([BeginSnapshot], a, g));
    RunsOn([BeginSnapshot], body, a, g);
  }

  const CONFIRMING: seq<Op> := [CheckReference] + ([Call(DescribeNode)] + [CheckGeneration])

  lemma ConfirmingRuns(rest: seq<Op>, a: Args, g: Gist)
    requires g.rest == CONFIRMING + rest && Passes(CheckReference, a, g)
    ensures Runs(CONFIRMING, a, g) && Final(CONFIRMING, a, g) == g.(rest := rest)
  {
    var checked := [Call(DescribeNode)] + ([CheckGeneration] + rest);
    assert g.rest == [CheckReference] + checked;
    OneRuns(CheckReference, checked, a, g);
    var g1 := Final([CheckReference], a, g);
    OneRuns(Call(DescribeNode), [CheckGeneration] + rest, a, g1);
    OneRuns(CheckGeneration, rest, a, Final([Call(DescribeNode)], a, g1));
    RunsOn([Call(DescribeNode)], [CheckGeneration], a, g1);
    RunsOn([CheckReference], [Call(DescribeNode)] + [CheckGeneration], a, g);
  }

  lemma ReferenceParts()
    ensures REFERENCE == [Lookup] + (DOCUMENT + CONFIRMING)
  {
  }

  /** Looking up a reference that the table holds and checking its document. */
  lemma ReferenceRuns(rest: seq<Op>, a: Args, g: Gist)
    requires g.rest == REFERENCE + rest && Passes(Lookup, a, g) && g.refs[a.ref.s].document == STAMP
    ensures Runs(REFERENCE, a, g) && Final(REFERENCE, a, g).rest == rest
  {
    ReferenceParts();
    var verified := CONFIRMING + rest;
    assert g.rest == [Lookup] + (DOCUMENT + verified);
    OneRuns(Lookup, DOCUMENT + verified, a, g);
    var g1 := Final([Lookup], a, g);
    DocumentRuns(verified, a, g1);
    ConfirmingRuns(rest, a, Final(DOCUMENT, a, g1));
    RunsOn(DOCUMENT, CONFIRMING, a, g1);
    RunsOn([Lookup], DOCUMENT + CONFIRMING, a, g);
  }

  // --------------------------------------------------------------------- the run itself

  /** The one node of the snapshot gets the reference with index 0. */
  lemma OneReference(o: Origin)
    ensures var refs := AxTree.Mint(o, NODES);
            NameAt(o, 0) in refs && refs[NameAt(o, 0)] == SavedRef(7, o.generation, o.document)
  {
    assert ById(NODES) == map["1" := NODES[0]] by { assert NODES[..0] == []; }
    assert NODES[1..] == [];
    assert !Foreign(NODES[0], o.document.frameId);
    assert Excluded(NODES, o.document.frameId) == ExcludeForeign(ById(NODES), [], o.document.frameId, {});
    var kept := Kept(NODES, {});
    assert kept == NODES;
    RefsExact(o, kept, |kept|);
    assert Addressable(kept[0], o.document.frameId);
  }

  lemma FirstCommand(open: C.World, queued: C.World, waiting: Local)
    requires open == C.Step(C.INITIAL, C.OpenSession(SESSION)) && queued == C.Step(open, C.Run(0, LOOK))
    requires waiting == Enqueue(Local(Some(SESSION), false, 0, NewTab()), SESSION, LOOK)
    ensures queued == WorldOf(waiting)
  {
    assert open == C.World(Some(SESSION), map[], {}, [], None);
    assert C.LocalOf(open, 0) == Local(Some(SESSION), false, 0, NewTab());
  }

  /** The first command of the first session is in its tab's queue. */
  lemma Queued() returns (waiting: Local)
    ensures waiting == Enqueue(Local(Some(SESSION), false, 0, NewTab()), SESSION, LOOK) && At(waiting)
  {
    C.InitialReachable();
    var open := C.Step(C.INITIAL, C.OpenSession(SESSION));
    C.StepReachable(C.INITIAL, C.OpenSession(SESSION));
    var queued := C.Step(open, C.Run(0, LOOK));
    C.StepReachable(open, C.Run(0, LOOK));
    waiting := Enqueue(Local(Some(SESSION), false, 0, NewTab()), SESSION, LOOK);
    FirstCommand(open, queued, waiting);
  }

  /** A first snapshot waits for its tab's attachment. */
  ghost predicate AwaitsAttachment(l: Local) {
    && l.tab.attaching == Some(Attachment(SESSION, 0, Attaching)) && l.tab.lifetime == 0
    && l.id == 0 && l.session == Some(SESSION) && !l.owned
    && l.tab.detaching.None? && l.tab.chooser.None? && l.tab.queue == [] && l.tab.running.Some?
    && var c := l.tab.running.value;
       && c.wait.AwaitAttaching? && c.inbox.None? && c.rest == ENABLE + SNAPSHOT && c.session == SESSION
       && c.lifetime == 0 && c.handler.None? && c.args == LOOK
  }

  lemma AttachingShape(waiting: Local, started: Local, attaching: Local)
    requires waiting == Enqueue(Local(Some(SESSION), false, 0, NewTab()), SESSION, LOOK)
    requires started == TabMachine.Start(waiting) && Executes(started) && attaching == Exec(started, PASS)
    ensures AwaitsAttachment(attaching)
  {
    var c := waiting.tab.queue[0];
    assert c.rest == [Attach] + SNAPSHOT;
    assert c.rest[1..] == SNAPSHOT;
  }

  /** A session opens, and a snapshot of tab 0 starts and asks for the attachment. */
  lemma AttachmentAsked() returns (l: Local)
    ensures At(l) && AwaitsAttachment(l)
  {
    var waiting := Queued();
    StartAt(waiting);
    var started := TabMachine.Start(waiting);
    ExecAt(started, PASS);
    l := Exec(started, PASS);
    AttachingShape(waiting, started, l);
  }

  /** The browser grants the attachment. */
  lemma Attached() returns (l: Local)
    ensures On(l, LOOK) && GistOf(l).rest == ENABLE + SNAPSHOT
  {
    var attaching := AttachmentAsked();
    AttachedAt(attaching);
    var answered := AttachReply(attaching, true);
    ResumeAt(answered, OK);
    l := Resume(answered, OK);
  }

  /** An upload to the reference with index 0 of a tab's first snapshots. */
  function UploadTo(generation: nat): Args {
    Args(Upload, Text(RefName(SESSION.id, 0, generation, 0)), true, true, true, true)
  }

  /** The snapshot is over: tab 0 is owned and idle, and its one reference is known. */
  lemma Snapshotted() returns (l: Local)
    ensures At(l) && l.id == 0 && l.session == Some(SESSION) && l.owned && l.tab.running.None? && l.tab.queue == []
    ensures l.tab.attaching.None? && l.tab.detaching.None? && l.tab.chooser.None?
    ensures l.tab.refs == AxTree.Mint(Origin(SESSION.id, 0, l.tab.generation, STAMP), NODES)
  {
    var start := Attached();
    QuietRuns(ENABLE, SNAPSHOT, LOOK, GistOf(start));
    SnapshotRuns(LOOK, Final(ENABLE, LOOK, GistOf(start)));
    RunsOn(ENABLE, SNAPSHOT, LOOK, GistOf(start));
    var done := RunsThrough(start, LOOK, ENABLE + SNAPSHOT);
    ExecAt(done, PASS);
    l := Exec(done, PASS);
  }

  const INTERCEPT: seq<Op> := [EnterUpload] + [Call(InterceptOn)]

  /** The upload's script up to the interception of the chooser. */
  lemma UploadBegins(a: Args)
    requires a.action.Upload? && a.filesOk
    ensures exists tail :: Body(a) == [Attach] + (REFERENCE + ([Require(true, InvalidArguments)] + (INTERCEPT + tail)))
  {
    UploadAround(a, [Attach] + REFERENCE, [Require(true, InvalidArguments)] + INTERCEPT, CLICK, CHOOSE, CONFIRM);
  }

  lemma UploadAround(a: Args, p: seq<Op>, x: seq<Op>, y: seq<Op>, z: seq<Op>, end: seq<Op>)
    requires a.action.Upload? && a.filesOk && p == [Attach] + REFERENCE
    requires x == [Require(true, InvalidArguments)] + INTERCEPT && y == CLICK && z == CHOOSE && end == CONFIRM
    ensures Body(a) == [Attach] + (REFERENCE + ([Require(true, InvalidArguments)] + (INTERCEPT + (y + z + end))))
  {
    var enter := [Require(true, InvalidArguments), EnterUpload, Call(InterceptOn)];
    assert x == enter && Body(a) == p + enter + y + z + end;
    Gather(p, x, y, z, end);
    Regroup([Attach], REFERENCE, [Require(true, InvalidArguments)], INTERCEPT, y + z + end);
  }

  lemma Gather(p: seq<Op>, x: seq<Op>, y: seq<Op>, z: seq<Op>, end: seq<Op>)
    ensures p + x + y + z + end == p + (x + (y + z + end))
  {
  }

  lemma Regroup(p: seq<Op>, q: seq<Op>, x: seq<Op>, y: seq<Op>, rest: seq<Op>)
    ensures p + q + (x + y + rest) == p + (q + (x + (y + rest)))
  {
  }

  /** An upload waits for the interception that it asked for, in an owned tab. */
  ghost predicate Intercepting(l: Local) {
    && At(l) && l.id == 0 && l.session == Some(SESSION) && l.owned && !Executes(l)
    && l.tab.chooser == Some(Pending) && l.tab.detaching.None? && l.tab.attaching.None?
  }

  lemma UploadStarts(l: Local) returns (l': Local)
    requires At(l) && l.id == 0 && l.session == Some(SESSION) && l.owned && l.tab.running.None? && l.tab.queue == []
    requires l.tab.attaching.None? && l.tab.detaching.None? && l.tab.chooser.None?
    ensures var a := UploadTo(l.tab.generation);
            On(l', a) && GistOf(l').rest == Body(a) && GistOf(l').refs == l.tab.refs
                && GistOf(l').generation == l.tab.generation
  {
    var a := UploadTo(l.tab.generation);
    EnqueueAt(l, a);
    var queued := Enqueue(l, SESSION, a);
    StartAt(queued);
    l' := TabMachine.Start(queued);
  }

  lemma UploadReaches(l: Local, a: Args, tail: seq<Op>) returns (l': Local)
    requires On(l, a) && a == UploadTo(GistOf(l).generation)
    requires GistOf(l).refs == AxTree.Mint(Origin(SESSION.id, 0, GistOf(l).generation, STAMP), NODES)
    requires GistOf(l).rest == [Attach] + (REFERENCE + ([Require(true, InvalidArguments)] + (INTERCEPT + tail)))
    ensures On(l', a) && GistOf(l').rest == INTERCEPT + tail
  {
    var g := GistOf(l);
    OneReference(Origin(SESSION.id, 0, g.generation, STAMP));
    var required := [Require(true, InvalidArguments)] + (INTERCEPT + tail);
    OneRuns(Attach, REFERENCE + required, a, g);
    var g1 := Final([Attach], a, g);
    ReferenceRuns(required, a, g1);
    var g2 := Final(REFERENCE, a, g1);
    OneRuns(Require(true, InvalidArguments), INTERCEPT + tail, a, g2);
    RunsOn(REFERENCE, [Require(true, InvalidArguments)], a, g1);
    RunsOn([Attach], REFERENCE + [Require(true, InvalidArguments)], a, g);
    l' := RunsThrough(l, a, [Attach] + (REFERENCE + [Require(true, InvalidArguments)]));
  }

  /** An upload has entered its try: a chooser is waited for. */
  ghost predicate Entered(l: Local, rest: seq<Op>) {
    && l.id == 0 && l.session == Some(SESSION) && l.owned && Executes(l)
    && l.tab.chooser == Some(Pending) && l.tab.detaching.None? && l.tab.attaching.None?
    && var c := l.tab.running.value;
       c.session == SESSION && c.lifetime == l.tab.lifetime && c.rest == rest
  }

  lemma EnterShape(l: Local, a: Args, rest: seq<Op>, l': Local)
    requires On(l, a) && GistOf(l).rest == [EnterUpload] + rest && l' == Exec(l, PASS)
    ensures Entered(l', rest)
  {
    assert ([EnterUpload] + rest)[1..] == rest;
  }

  lemma InterceptShape(l: Local, tail: seq<Op>, l': Local)
    requires Entered(l, [Call(InterceptOn)] + tail) && l' == Exec(l, PASS)
    ensures l'.id == 0 && l'.session == Some(SESSION) && l'.owned && !Executes(l')
    ensures l'.tab.chooser == Some(Pending) && l'.tab.detaching.None? && l'.tab.attaching.None?
  {
    assert ([Call(InterceptOn)] + tail)[0] == Call(InterceptOn);
  }

  lemma Intercepts(l: Local, a: Args, tail: seq<Op>) returns (l': Local)
    requires On(l, a) && GistOf(l).rest == INTERCEPT + tail
    ensures Intercepting(l')
  {
    assert INTERCEPT + tail == [EnterUpload] + ([Call(InterceptOn)] + tail);
    ExecAt(l, PASS);
    var entered := Exec(l, PASS);
    EnterShape(l, a, [Call(InterceptOn)] + tail, entered);
    ExecAt(entered, PASS);
    l' := Exec(entered, PASS);
    InterceptShape(entered, tail, l');
  }

  lemma InterceptingReachable() returns (l: Local)
    ensures Intercepting(l)
  {
    var idle := Snapshotted();
    var a := UploadTo(idle.tab.generation);
    var started := UploadStarts(idle);
    UploadBegins(a);
    var tail :| Body(a) == [Attach] + (REFERENCE + ([Require(true, InvalidArguments)] + (INTERCEPT + tail)));
    var ready := UploadReaches(started, a, tail);
    l := Intercepts(ready, a, tail);
  }

  /** A loss of the connection, a detach by the browser, and the answer to the closing of the chooser. */
  function Ending(l: Local): C.World {
    C.Step(C.Step(C.Step(WorldOf(l), C.Disconnect), C.BrowserDetached(0)), C.ChooserClosedAnswered(0))
  }

  lemma EndingReachable(l: Local, v: C.World)
    requires At(l) && v == Ending(l)
    ensures C.Reachable(v)
  {
    var lost := C.Step(WorldOf(l), C.Disconnect);
    C.StepReachable(WorldOf(l), C.Disconnect);
    C.StepReachable(lost, C.BrowserDetached(0));
    C.StepReachable(C.Step(lost, C.BrowserDetached(0)), C.ChooserClosedAnswered(0));
  }

  lemma EndingSendsLate(l: Local, v: C.World)
    requires Intercepting(l) && v == Ending(l)
    ensures var log := C.StateOf(v, 0).detachLog; 0 <= |log| - 1 < |log| && !log[|log| - 1].owned
  {
    var lost := C.Step(WorldOf(l), C.Disconnect);
    LosingBeginsDetach(l, lost);
    var detached := C.Step(lost, C.BrowserDetached(0));
    assert 0 !in detached.owned && C.StateOf(detached, 0).detaching == C.StateOf(lost, 0).detaching;
  }

  lemma LosingBeginsDetach(l: Local, lost: C.World)
    requires Intercepting(l) && lost == C.Step(WorldOf(l), C.Disconnect)
    ensures lost.active.None? && 0 in lost.tabs && 0 in lost.owned && !Executes(C.LocalOf(lost, 0))
    ensures lost.tabs[0].detaching.Some? && lost.tabs[0].detaching.value.stage.ClosingChooser?
  {
  }

  /** Some run sends a detach to a tab that the controller does not own any more. */
  lemma DetachMayOutliveOwnership()
    ensures exists w ::
              C.Reachable(w)
              && exists i :: 0 <= i < |C.StateOf(w, 0).detachLog| && !C.StateOf(w, 0).detachLog[i].owned
  {
    var l := InterceptingReachable();
    EndingReachable(l, Ending(l));
    EndingSendsLate(l, Ending(l));
  }
}
