/**
 * The action bodies of the browser controller, each as the sequence of operations it performs when
 * nothing fails. An operation that waits for the browser ends an atomic step; every other one runs
 * in the same step as its neighbours. TabMachine gives the operations their meaning, including
 * what a failure does.
 */
module Script {
  import opened Options

  /** What a reply may claim about the command's effects. */
  datatype Phase = NotDispatched | OutcomeUnknown | ActionConfirmed | ReadbackComplete

  datatype Action = Snapshot | Screenshot | Release | Click | TypeText | Press | Upload | Download | Navigate

  /** args.ref: absent, present without being text, or text. */
  datatype RefArg = NoRef | NotText | Text(s: string)

  /** The arguments that reach an action body, with the outcome of each check made on them there. */
  datatype Args = Args(action: Action, ref: RefArg, textOk: bool, keyOk: bool, urlOk: bool, filesOk: bool)

  datatype Code =
    | ConnectionLost | DebuggerDetached | DebuggerUnavailable | InvalidArguments | TargetChanged
    | DocumentUnavailable | DocumentChanged | SnapshotUnavailable | ScreenshotUnavailable | StaleRef
    | ViewportUnavailable | NodeNotVisible | TargetObscured | UnsupportedFileChooser | InvalidFileSelection
    | FileChooserCleanupFailed | DownloadReadFailed | InvalidDownloadLink | DownloadLinkChanged
    | DownloadCleanupFailed | UnsupportedKey | NavigationFailed | ReadbackFailed | BrowserCommandFailed

  datatype Method =
    | TabsGet | PageEnable | DomEnable | AccessibilityEnable | GetFrameTree | GetDocument | GetFullAXTree
    | CaptureScreenshot | DescribeNode | DescribeSubtree | ScrollIntoView | GetContentQuads | GetLayoutMetrics
    | GetNodeForLocation | MousePressed | MouseReleased | InterceptOn | InterceptOff | SetFileInputFiles
    | Focus | InsertText | KeyDown | KeyUp | PageNavigate | ResolveNode | ReadLinkState | ReadLinkBlob
    | ReadBlobMeta | ReadBlobPart | ReleaseObjectGroup | DebuggerAttach | DebuggerDetach

  /** The calls whose dispatch a reply must account for. */
  predicate IsEffect(m: Method) {
    m in {MousePressed, MouseReleased, InsertText, KeyDown, KeyUp, PageNavigate, SetFileInputFiles, ReadLinkBlob,
          DebuggerDetach}
  }

  /** The first input event that an action aims at a reference. */
  predicate IsFirstInput(m: Method) { m in {MousePressed, InsertText, KeyDown} }

  datatype Op =
    | Call(m: Method)          // send or metadata: check, dispatch, wait
    | Attach                   // attach(context)
    | WaitChooser              // wait for the file chooser event
    | ReleaseDetach            // wait for detachOwned, expecting the detach
    | Invalidate
    | BeginSnapshot            // invalidate, then remember the generation
    | ReadStamp                // compare the two observations and keep the document stamp
    | KeepBefore               // name the stamp just read `before`
    | CheckSnapshot            // generation and document unchanged during the snapshot
    | CheckSame                // document unchanged during the screenshot
    | Mint                     // publish the references
    | Lookup                   // find the reference in the tab's table
    | CheckReference           // generation and document still those of the reference, else invalidate
    | CheckGeneration          // generation still that of the reference
    | Check(code: Code)        // a check on what the browser answered
    | Require(ok: bool, code: Code)  // a check on the arguments
    | SetPhase(p: Phase)
    | Readback                 // from here on a failure is a failed readback
    | EnterUpload | EnterDownload    // start of a try whose finally must run
    | TakeMeta                 // accept the Blob's size
    | ReadParts(offset: nat)   // the loop over the Blob's parts
    | Finally                  // the finally block of the innermost try
    | Current                  // context.current()
    | Rethrow                  // end of a finally block entered by an exception

  const METADATA: seq<Op> := [Call(TabsGet), Check(TargetChanged)]

  const DOCUMENT: seq<Op> :=
    METADATA + [Call(GetFrameTree), Call(GetDocument), Check(DocumentUnavailable)] + METADATA + [ReadStamp]

  const SNAPSHOT: seq<Op> :=
    [BeginSnapshot] + DOCUMENT + [KeepBefore, Call(GetFullAXTree)] + DOCUMENT
    + [CheckSnapshot, Check(SnapshotUnavailable), Mint]

  const VERIFY: seq<Op> := DOCUMENT + [CheckReference]

  const REFERENCE: seq<Op> := [Lookup] + VERIFY + [Call(DescribeNode), CheckGeneration]

  /** clickReference up to and including the hit test. */
  const AIM: seq<Op> :=
    [Call(ScrollIntoView), Call(GetContentQuads), Call(GetLayoutMetrics), Check(ViewportUnavailable),
     Check(NodeNotVisible), Call(DescribeSubtree), Check(StaleRef)]
    + VERIFY + [Call(GetNodeForLocation)]

  const HIT: seq<Op> :=
    [CheckGeneration, Check(TargetObscured), SetPhase(OutcomeUnknown), Call(MousePressed), Call(MouseReleased)]

  const CLICK: seq<Op> := AIM + HIT

  const LINK: seq<Op> :=
    VERIFY + [Call(ReadLinkState), Check(DownloadReadFailed), Check(InvalidDownloadLink), Check(StaleRef),
              Check(BrowserCommandFailed), Check(InvalidDownloadLink)]

  /** The end of every mutation: the browser acknowledged it, then one fresh snapshot. */
  const CONFIRM: seq<Op> := [SetPhase(ActionConfirmed), Readback] + SNAPSHOT + [SetPhase(ReadbackComplete)]

  const ENABLE: seq<Op> := [Call(PageEnable), Call(DomEnable), Call(AccessibilityEnable)]

  const RELEASE: seq<Op> :=
    METADATA + [Invalidate, SetPhase(OutcomeUnknown), ReleaseDetach, SetPhase(ActionConfirmed)]

  const SCREENSHOT: seq<Op> :=
    DOCUMENT + [KeepBefore, Call(CaptureScreenshot)] + DOCUMENT + [CheckSame, Check(ScreenshotUnavailable)]

  /** upload after its click: the chooser event and the checks on it, then the files. */
  const PICK: seq<Op> :=
    [WaitChooser] + VERIFY
    + [Check(UnsupportedFileChooser), Check(InvalidFileSelection), Call(DescribeNode), Check(UnsupportedFileChooser)]
    + VERIFY

  const FILES: seq<Op> := [SetPhase(OutcomeUnknown), Call(SetFileInputFiles), SetPhase(ActionConfirmed)]

  const CHOOSE: seq<Op> := [SetPhase(ActionConfirmed)] + PICK + FILES + [Finally, Current]

  /** downloadLink: the anchor's node, then the Blob. */
  const RESOLVE: seq<Op> := [EnterDownload] + VERIFY + [Call(ResolveNode), Check(InvalidDownloadLink)] + LINK

  const READ: seq<Op> :=
    [Check(DownloadReadFailed), Check(DownloadReadFailed), Call(ReadBlobMeta), Check(DownloadReadFailed), TakeMeta,
     ReadParts(0)]
    + LINK + [Check(DownloadLinkChanged)] + METADATA + [Finally, Current]

  const TRANSFER: seq<Op> := RESOLVE + [SetPhase(OutcomeUnknown), Call(ReadLinkBlob)] + READ
      + [SetPhase(ReadbackComplete)]

  /** What an action does before its readback snapshot, or altogether when it takes none. */
  function Deed(a: Args): seq<Op> {
    match a.action
    case Release => RELEASE
    case Snapshot => [Attach]
    case Screenshot => [Attach] + SCREENSHOT
    case Click => [Attach] + REFERENCE + CLICK
    case Upload => [Attach] + REFERENCE + [Require(a.filesOk, InvalidArguments), EnterUpload, Call(InterceptOn)]
        + CLICK + CHOOSE
    case Download => [Attach] + REFERENCE + TRANSFER
    case TypeText =>
      [Attach] + REFERENCE + [Require(a.textOk, InvalidArguments), Call(Focus)] + VERIFY
          + [SetPhase(OutcomeUnknown), Call(InsertText)]
    case Press =>
      [Attach]
      + (if a.ref.NoRef? then [Require(a.keyOk, UnsupportedKey)] + DOCUMENT
         else REFERENCE + [Require(a.keyOk, UnsupportedKey), Call(Focus)] + VERIFY)
      + [SetPhase(OutcomeUnknown), Call(KeyDown), Call(KeyUp)]
    case Navigate =>
      [Attach, Require(a.urlOk, InvalidArguments)] + DOCUMENT
      + [Invalidate, SetPhase(OutcomeUnknown), Call(PageNavigate), SetPhase(ActionConfirmed), Check(NavigationFailed)]
  }

  /** execute(context, args) */
  function Body(a: Args): seq<Op> {
    if IsMutation(a.action) then Deed(a) + CONFIRM
    else if a.action.Snapshot? then Deed(a) + SNAPSHOT
    else Deed(a)
  }

  predicate NeedsRef(a: Args) {
    a.action in {Click, TypeText, Upload, Download} || (a.action.Press? && !a.ref.NoRef?)
  }

  predicate IsMutation(a: Action) { a in {Click, TypeText, Press, Upload, Navigate} }

  /** The effects of an action that succeeds, in order. A release may also find nothing to detach. */
  function Effects(a: Action): seq<Method> {
    match a
    case Click => [MousePressed, MouseReleased]
    case Upload => [MousePressed, MouseReleased, SetFileInputFiles]
    case TypeText => [InsertText]
    case Press => [KeyDown, KeyUp]
    case Navigate => [PageNavigate]
    case Download => [ReadLinkBlob]
    case _ => []
  }

  /** The phase in which an action that succeeds leaves its context. */
  function FinalPhase(a: Action): Phase {
    match a
    case Release => ActionConfirmed
    case Snapshot => NotDispatched
    case Screenshot => NotDispatched
    case _ => ReadbackComplete
  }

  // ------------------------------------------------------------------ a discipline for scripts

  /**
   * What is known of a command between two operations: its phase, whether its reference is known
   * to be of the current generation, whether the last snapshot began after the last effect, and
   * whether its session and debugger are known to be current.
   */
  datatype Known = Known(phase: Phase, recent: bool, snapped: bool, live: bool)

  function Forget(k: Known): Known { k.(recent := false, live := false) }

  predicate WeakerThan(a: Known, b: Known) {
    a.phase == b.phase && (a.recent ==> b.recent) && (a.snapped ==> b.snapped) && (a.live ==> b.live)
  }

  /** What may be executed, knowing k, with `rest` of the script and the effects `todo` still to come. */
  predicate Allowed(op: Op, rest: seq<Op>, k: Known, a: Args, todo: seq<Method>) {
    match op
    case Call(m) =>
      IsEffect(m) ==>
        && !m.DebuggerDetach? && k.phase.OutcomeUnknown? && todo != [] && todo[0] == m
        && (IsFirstInput(m) && NeedsRef(a) ==> k.recent)
    case ReleaseDetach => k.phase.OutcomeUnknown? && k.live && a.action.Release? && rest == [SetPhase(ActionConfirmed)]
    case Rethrow => false
    case EnterUpload => a.action.Upload? && Finally in rest
    case EnterDownload => a.action.Download? && Finally in rest
    case SetPhase(p) => !p.NotDispatched? && (p.ReadbackComplete? && IsMutation(a.action) ==> k.snapped)
    case _ => true
  }

  function Then(op: Op, k: Known): Known {
    match op
    case Call(m) => Known(k.phase, false, k.snapped && !IsEffect(m), true)
    case Attach => Known(k.phase, false, k.snapped, true)
    case WaitChooser => Known(k.phase, false, k.snapped, true)
    case ReleaseDetach => Known(k.phase, false, false, false)
    case Invalidate => k.(recent := false)
    case BeginSnapshot => k.(recent := false, snapped := true)
    case Lookup => k.(recent := false)
    case CheckReference => k.(recent := true)
    case CheckGeneration => k.(recent := true)
    case SetPhase(p) => k.(phase := p)
    case ReadParts(_) => Forget(k)
    case Finally => Forget(k)
    case Current => k.(live := true)
    case _ => k
  }

  function StillToDo(op: Op, todo: seq<Method>): seq<Method> {
    if op.Call? && IsEffect(op.m) && todo != [] then todo[1..] else todo
  }

  /**
   * A script may dispatch an effect only in phase outcome_unknown, the first input of an action with
   * a reference only while that reference is recent, a detach only while the command is live, may
   * claim a completed readback only for a snapshot begun after the last effect, and must end in the
   * phase and with the effects of its action.
   */
  predicate Disciplined(s: seq<Op>, k: Known, a: Args, todo: seq<Method>) {
    if s == [] then k.phase == FinalPhase(a.action) && todo == []
    else Allowed(s[0], s[1..], k, a, todo) && Disciplined(s[1..], Then(s[0], k), a, StillToDo(s[0], todo))
  }

  lemma {:induction false} KnowingMoreIsDisciplined(s: seq<Op>, k: Known, more: Known, a: Args, todo: seq<Method>)
    requires Disciplined(s, k, a, todo) && WeakerThan(k, more)
    ensures Disciplined(s, more, a, todo)
    decreases |s|
  {
    if s != [] {
      assert WeakerThan(Then(s[0], k), Then(s[0], more));
      KnowingMoreIsDisciplined(s[1..], Then(s[0], k), Then(s[0], more), a, StillToDo(s[0], todo));
    }
  }

  // -------------------------------------------------------- every action keeps the discipline

  /** An operation that needs no particular knowledge and changes neither phase nor effects. */
  predicate IsPlain(op: Op) {
    match op
    case Call(m) => !IsEffect(m)
    case ReleaseDetach => false
    case BeginSnapshot => false
    case SetPhase(_) => false
    case Rethrow => false
    case _ => true
  }

  predicate EntersNothing(s: seq<Op>) { EnterUpload !in s && EnterDownload !in s }

  predicate AllPlain(s: seq<Op>) { forall i :: 0 <= i < |s| ==> IsPlain(s[i]) }

  lemma {:induction false} PlainPrefix(prefix: seq<Op>, rest: seq<Op>, k: Known, a: Args, todo: seq<Method>)
    requires AllPlain(prefix) && (EnterUpload in prefix ==> a.action.Upload?)
               && (EnterDownload in prefix ==> a.action.Download?)
    requires EnterUpload in prefix || EnterDownload in prefix ==> Finally in rest
    requires Disciplined(rest, Known(k.phase, false, k.snapped, false), a, todo)
    ensures Disciplined(prefix + rest, k, a, todo)
  {
    if prefix == [] {
      assert prefix + rest == rest;
      KnowingMoreIsDisciplined(rest, Known(k.phase, false, k.snapped, false), k, a, todo);
    } else {
      var s, tail := prefix + rest, prefix[1..];
      assert s[1..] == tail + rest && s[0] == prefix[0];
      KnowingMoreIsDisciplined(rest, Known(k.phase, false, k.snapped, false),
                               Known(k.phase, false, Then(s[0], k).snapped, false), a, todo);
      PlainPrefix(tail, rest, Then(s[0], k), a, todo);
    }
  }

  lemma PlainBlocks()
    ensures EntersNothing(METADATA) && EntersNothing(DOCUMENT) && EntersNothing(VERIFY) && EntersNothing(REFERENCE)
              && EntersNothing(LINK)
    ensures AllPlain(METADATA) && AllPlain(DOCUMENT) && AllPlain(VERIFY) && AllPlain(REFERENCE) && AllPlain(LINK)
  {
    assert AllPlain(METADATA);
    assert AllPlain(DOCUMENT);
    assert AllPlain(VERIFY);
  }

  lemma PlainLongBlocks()
    ensures EntersNothing(AIM) && EntersNothing(PICK) && EnterUpload !in RESOLVE && EntersNothing(READ)
    ensures AllPlain(AIM) && AllPlain(PICK) && AllPlain(RESOLVE) && AllPlain(READ)
  {
    PlainBlocks();
  }

  lemma Unfold(op: Op, rest: seq<Op>)
    ensures ([op] + rest)[0] == op && ([op] + rest)[1..] == rest
  {
  }

  lemma PhaseThen(p: Phase, rest: seq<Op>, k: Known, a: Args, todo: seq<Method>)
    requires !p.NotDispatched? && (p.ReadbackComplete? && IsMutation(a.action) ==> k.snapped)
    requires Disciplined(rest, k.(phase := p), a, todo)
    ensures Disciplined([SetPhase(p)] + rest, k, a, todo)
  {
    Unfold(SetPhase(p), rest);
  }

  const UNKNOWN := Known(OutcomeUnknown, false, false, false)
  const CONFIRMED := Known(ActionConfirmed, false, false, false)
  const IDLE := Known(NotDispatched, false, false, false)
  const START := Known(NotDispatched, false, false, true)

  lemma EffectThen(m: Method, rest: seq<Op>, k: Known, a: Args, todo: seq<Method>)
    requires IsEffect(m) && !m.DebuggerDetach? && k.phase == OutcomeUnknown
               && (IsFirstInput(m) && NeedsRef(a) ==> k.recent)
    requires Disciplined(rest, UNKNOWN, a, todo)
    ensures Disciplined([Call(m)] + rest, k, a, [m] + todo)
  {
    KnowingMoreIsDisciplined(rest, UNKNOWN, UNKNOWN.(live := true), a, todo);
    assert Then(Call(m), k) == UNKNOWN.(live := true);
    Unfold(Call(m), rest);
    assert ([m] + todo)[1..] == todo;
  }

  /** The readback snapshot may claim a completed readback, and nothing before it matters. */
  lemma SnapshotThenReadback(a: Args)
    requires IsMutation(a.action)
    ensures Disciplined([BeginSnapshot] + (SNAPSHOT_TAIL + ([SetPhase(ReadbackComplete)] + [])), CONFIRMED, a, [])
  {
    var last := [SetPhase(ReadbackComplete)] + [];
    PhaseThen(ReadbackComplete, [], CONFIRMED.(snapped := true), a, []);
    PlainBlocks();
    PlainPrefix(SNAPSHOT_TAIL, last, CONFIRMED.(snapped := true), a, []);
    Unfold(BeginSnapshot, SNAPSHOT_TAIL + last);
  }

  /** The last part of a mutation, for any phase before it. */
  lemma ConfirmDisciplined(k: Known, a: Args)
    requires IsMutation(a.action)
    ensures Disciplined(CONFIRM, k, a, [])
  {
    SnapshotThenReadback(a);
    var tail := [BeginSnapshot] + (SNAPSHOT_TAIL + ([SetPhase(ReadbackComplete)] + []));
    KnowingMoreIsDisciplined(tail, CONFIRMED, CONFIRMED.(snapped := k.snapped), a, []);
    PlainPrefix([Readback], tail, k.(phase := ActionConfirmed), a, []);
    PhaseThen(ActionConfirmed, [Readback] + tail, k, a, []);
    ConfirmShape();
  }

  lemma ConfirmShape()
    ensures CONFIRM == [SetPhase(ActionConfirmed)]
              + ([Readback] + ([BeginSnapshot] + (SNAPSHOT_TAIL + ([SetPhase(ReadbackComplete)] + []))))
  {
    SnapshotShape();
  }

  lemma PressThenRelease(rest: seq<Op>, a: Args, todo: seq<Method>)
    requires Disciplined(rest, UNKNOWN, a, todo)
    ensures Disciplined([SetPhase(OutcomeUnknown)] + ([Call(MousePressed)] + ([Call(MouseReleased)] + rest)),
                        IDLE.(recent := true), a, [MousePressed] + ([MouseReleased] + todo))
  {
    var release := [Call(MouseReleased)] + rest;
    EffectThen(MouseReleased, rest, UNKNOWN, a, todo);
    EffectThen(MousePressed, release, UNKNOWN.(recent := true), a, [MouseReleased] + todo);
    PhaseThen(OutcomeUnknown, [Call(MousePressed)] + release, IDLE.(recent := true), a,
              [MousePressed] + ([MouseReleased] + todo));
  }

  /** Press and release, the press only to a fresh reference. */
  lemma HitDisciplined(rest: seq<Op>, a: Args, todo: seq<Method>)
    requires Disciplined(rest, UNKNOWN, a, todo)
    ensures Disciplined(HIT + rest, IDLE, a, [MousePressed] + ([MouseReleased] + todo))
  {
    PressThenRelease(rest, a, todo);
    var phase := [SetPhase(OutcomeUnknown)] + ([Call(MousePressed)] + ([Call(MouseReleased)] + rest));
    Unfold(Check(TargetObscured), phase);
    Unfold(CheckGeneration, [Check(TargetObscured)] + phase);
    HitShape(rest);
  }

  lemma HitShape(rest: seq<Op>)
    ensures HIT + rest == [CheckGeneration] + ([Check(TargetObscured)]
              + ([SetPhase(OutcomeUnknown)] + ([Call(MousePressed)] + ([Call(MouseReleased)] + rest))))
  {
  }

  lemma ClickDisciplined(rest: seq<Op>, a: Args, todo: seq<Method>)
    requires Disciplined(rest, UNKNOWN, a, todo)
    ensures Disciplined(AIM + (HIT + rest), IDLE, a, [MousePressed] + ([MouseReleased] + todo))
  {
    HitDisciplined(rest, a, todo);
    PlainLongBlocks();
    PlainPrefix(AIM, HIT + rest, IDLE, a, [MousePressed] + ([MouseReleased] + todo));
  }

  lemma ClickBodyDisciplined(a: Args)
    requires a.action.Click?
    ensures Disciplined(Body(a), START, a, Effects(a.action))
  {
    ConfirmDisciplined(UNKNOWN, a);
    ClickDisciplined(CONFIRM, a, []);
    PlainBlocks();
    PlainPrefix([Attach] + REFERENCE, AIM + (HIT + CONFIRM), START, a, [MousePressed] + ([MouseReleased] + []));
    ClickShape(a);
  }

  lemma ClickShape(a: Args)
    requires a.action.Click?
    ensures Body(a) == [Attach] + REFERENCE + (AIM + (HIT + CONFIRM))
    ensures Effects(a.action) == [MousePressed] + ([MouseReleased] + [])
  {
  }

  lemma FilesDisciplined(rest: seq<Op>, k: Known, a: Args)
    requires !k.recent && !k.snapped && !k.live && a.action.Upload?
    requires Disciplined(rest, CONFIRMED, a, [])
    ensures Disciplined(FILES + rest, k, a, [SetFileInputFiles])
  {
    var after := [SetPhase(ActionConfirmed)] + rest;
    PhaseThen(ActionConfirmed, rest, UNKNOWN, a, []);
    var files := [Call(SetFileInputFiles)] + after;
    EffectThen(SetFileInputFiles, after, UNKNOWN, a, []);
    assert [SetFileInputFiles] + [] == [SetFileInputFiles];
    PhaseThen(OutcomeUnknown, files, k, a, [SetFileInputFiles]);
    assert FILES + rest == [SetPhase(OutcomeUnknown)] + files;
  }

  /** After the click an upload is confirmed, and becomes unknown again for the file selection. */
  lemma ChooseDisciplined(a: Args)
    requires a.action.Upload?
    ensures Disciplined([SetPhase(ActionConfirmed)] + (PICK + (FILES + ([Finally, Current] + CONFIRM))), UNKNOWN, a,
                        [SetFileInputFiles])
  {
    ConfirmDisciplined(CONFIRMED, a);
    PlainPrefix([Finally, Current], CONFIRM, CONFIRMED, a, []);
    var closed := [Finally, Current] + CONFIRM;
    FilesDisciplined(closed, CONFIRMED, a);
    PlainLongBlocks();
    PlainPrefix(PICK, FILES + closed, CONFIRMED, a, [SetFileInputFiles]);
    PhaseThen(ActionConfirmed, PICK + (FILES + closed), UNKNOWN, a, [SetFileInputFiles]);
  }

  lemma UploadBodyDisciplined(a: Args)
    requires a.action.Upload?
    ensures Disciplined(Body(a), START, a, Effects(a.action))
  {
    var rest := [SetPhase(ActionConfirmed)] + (PICK + (FILES + ([Finally, Current] + CONFIRM)));
    ChooseDisciplined(a);
    ClickDisciplined(rest, a, [SetFileInputFiles]);
    PlainBlocks();
    var prefix := [Attach] + REFERENCE + [Require(a.filesOk, InvalidArguments), EnterUpload, Call(InterceptOn)];
    PlainPrefix(prefix, AIM + (HIT + rest), START, a, [MousePressed] + ([MouseReleased] + [SetFileInputFiles]));
    UploadShape(a);
  }

  lemma UploadShape(a: Args)
    requires a.action.Upload?
    ensures Body(a) == [Attach] + REFERENCE + [Require(a.filesOk, InvalidArguments), EnterUpload, Call(InterceptOn)]
              + (AIM + (HIT + ([SetPhase(ActionConfirmed)] + (PICK + (FILES + ([Finally, Current] + CONFIRM))))))
    ensures Effects(a.action) == [MousePressed] + ([MouseReleased] + [SetFileInputFiles])
  {
    assert CHOOSE + CONFIRM == [SetPhase(ActionConfirmed)] + (PICK + (FILES + ([Finally, Current] + CONFIRM)));
    Reassociate([Attach] + REFERENCE + [Require(a.filesOk, InvalidArguments), EnterUpload, Call(InterceptOn)], AIM,
                HIT, CHOOSE, CONFIRM);
  }

  lemma Reassociate(p: seq<Op>, x: seq<Op>, y: seq<Op>, z: seq<Op>, w: seq<Op>)
    ensures p + (x + y) + z + w == p + (x + (y + (z + w)))
  {
  }

  lemma TransferDisciplined(a: Args)
    requires a.action.Download?
    ensures Disciplined([SetPhase(OutcomeUnknown)]
                        + ([Call(ReadLinkBlob)] + (READ + ([SetPhase(ReadbackComplete)] + []))),
                        IDLE, a, [ReadLinkBlob] + [])
  {
    var last := [SetPhase(ReadbackComplete)] + [];
    PhaseThen(ReadbackComplete, [], UNKNOWN, a, []);
    PlainLongBlocks();
    PlainPrefix(READ, last, UNKNOWN, a, []);
    EffectThen(ReadLinkBlob, READ + last, UNKNOWN, a, []);
    PhaseThen(OutcomeUnknown, [Call(ReadLinkBlob)] + (READ + last), IDLE, a, [ReadLinkBlob] + []);
  }

  lemma DownloadBodyDisciplined(a: Args)
    requires a.action.Download?
    ensures Disciplined(Body(a), START, a, Effects(a.action))
  {
    TransferDisciplined(a);
    var tail := [SetPhase(OutcomeUnknown)] + ([Call(ReadLinkBlob)] + (READ + ([SetPhase(ReadbackComplete)] + [])));
    PlainLongBlocks();
    PlainBlocks();
    assert Finally in READ;
    PlainPrefix(RESOLVE, tail, IDLE, a, [ReadLinkBlob] + []);
    PlainPrefix([Attach] + REFERENCE, RESOLVE + tail, START, a, [ReadLinkBlob] + []);
    DownloadShape(a);
  }

  lemma DownloadShape(a: Args)
    requires a.action.Download?
    ensures Body(a) == [Attach] + REFERENCE
              + (RESOLVE + ([SetPhase(OutcomeUnknown)]
                            + ([Call(ReadLinkBlob)] + (READ + ([SetPhase(ReadbackComplete)] + [])))))
    ensures Effects(a.action) == [ReadLinkBlob] + []
  {
  }

  /** VERIFY leaves the reference fresh for the input that follows in the same step. */
  lemma VerifyThenInput(m: Method, rest: seq<Op>, a: Args, todo: seq<Method>)
    requires IsEffect(m) && !m.DebuggerDetach?
    requires Disciplined(rest, UNKNOWN, a, todo)
    ensures Disciplined(DOCUMENT + ([CheckReference] + ([SetPhase(OutcomeUnknown)] + ([Call(m)] + rest))), IDLE, a,
                        [m] + todo)
  {
    var input := [Call(m)] + rest;
    EffectThen(m, rest, UNKNOWN.(recent := true), a, todo);
    PhaseThen(OutcomeUnknown, input, IDLE.(recent := true), a, [m] + todo);
    var tail := [SetPhase(OutcomeUnknown)] + input;
    Unfold(CheckReference, tail);
    PlainBlocks();
    PlainPrefix(DOCUMENT, [CheckReference] + tail, IDLE, a, [m] + todo);
  }

  lemma TypeBodyDisciplined(a: Args)
    requires a.action.TypeText?
    ensures Disciplined(Body(a), START, a, Effects(a.action))
  {
    ConfirmDisciplined(UNKNOWN, a);
    VerifyThenInput(InsertText, CONFIRM, a, []);
    var tail := DOCUMENT + ([CheckReference] + ([SetPhase(OutcomeUnknown)] + ([Call(InsertText)] + CONFIRM)));
    var prefix := [Attach] + REFERENCE + [Require(a.textOk, InvalidArguments), Call(Focus)];
    PlainBlocks();
    PlainPrefix(prefix, tail, START, a, [InsertText] + []);
    TypeShape(a);
  }

  lemma TypeShape(a: Args)
    requires a.action.TypeText?
    ensures Body(a) == [Attach] + REFERENCE + [Require(a.textOk, InvalidArguments), Call(Focus)]
              + (DOCUMENT + ([CheckReference] + ([SetPhase(OutcomeUnknown)] + ([Call(InsertText)] + CONFIRM))))
    ensures Effects(a.action) == [InsertText] + []
  {
  }

  lemma PressBodyDisciplined(a: Args)
    requires a.action.Press?
    ensures Disciplined(Body(a), START, a, Effects(a.action))
  {
    ConfirmDisciplined(UNKNOWN, a);
    EffectThen(KeyUp, CONFIRM, UNKNOWN, a, []);
    PlainBlocks();
    if a.ref.NoRef? { PressFocusedDisciplined(a); } else { PressRefDisciplined(a); }
    assert Effects(a.action) == [KeyDown] + ([KeyUp] + []);
  }

  lemma PressFocusedDisciplined(a: Args)
    requires a.action.Press? && a.ref.NoRef?
    requires Disciplined([Call(KeyUp)] + CONFIRM, UNKNOWN, a, [KeyUp] + []) && AllPlain(DOCUMENT)
    ensures Disciplined(Body(a), START, a, [KeyDown] + ([KeyUp] + []))
  {
    var up := [Call(KeyUp)] + CONFIRM;
    EffectThen(KeyDown, up, UNKNOWN, a, [KeyUp] + []);
    PhaseThen(OutcomeUnknown, [Call(KeyDown)] + up, IDLE, a, [KeyDown] + ([KeyUp] + []));
    var tail := [SetPhase(OutcomeUnknown)] + ([Call(KeyDown)] + up);
    PlainPrefix([Attach, Require(a.keyOk, UnsupportedKey)] + DOCUMENT, tail, START, a, [KeyDown] + ([KeyUp] + []));
    PressFocusedShape(a);
  }

  lemma PressFocusedShape(a: Args)
    requires a.action.Press? && a.ref.NoRef?
    ensures Body(a) == [Attach, Require(a.keyOk, UnsupportedKey)] + DOCUMENT
              + ([SetPhase(OutcomeUnknown)] + ([Call(KeyDown)] + ([Call(KeyUp)] + CONFIRM)))
  {
  }

  lemma PressRefDisciplined(a: Args)
    requires a.action.Press? && !a.ref.NoRef?
    requires Disciplined([Call(KeyUp)] + CONFIRM, UNKNOWN, a, [KeyUp] + []) && AllPlain(REFERENCE)
    ensures Disciplined(Body(a), START, a, [KeyDown] + ([KeyUp] + []))
  {
    var up := [Call(KeyUp)] + CONFIRM;
    VerifyThenInput(KeyDown, up, a, [KeyUp] + []);
    var tail := DOCUMENT + ([CheckReference] + ([SetPhase(OutcomeUnknown)] + ([Call(KeyDown)] + up)));
    var prefix := [Attach] + (REFERENCE + [Require(a.keyOk, UnsupportedKey), Call(Focus)]);
    PressPrefixPlain(a, prefix);
    PlainPrefix(prefix, tail, START, a, [KeyDown] + ([KeyUp] + []));
    PressRefShape(a);
  }

  lemma PressPrefixPlain(a: Args, prefix: seq<Op>)
    requires prefix == [Attach] + (REFERENCE + [Require(a.keyOk, UnsupportedKey), Call(Focus)]) && AllPlain(REFERENCE)
    ensures AllPlain(prefix) && EntersNothing(prefix)
  {
    PlainBlocks();
  }

  lemma PressRefShape(a: Args)
    requires a.action.Press? && !a.ref.NoRef?
    ensures Body(a) == [Attach] + (REFERENCE + [Require(a.keyOk, UnsupportedKey), Call(Focus)])
              + (DOCUMENT + ([CheckReference]
                             + ([SetPhase(OutcomeUnknown)] + ([Call(KeyDown)] + ([Call(KeyUp)] + CONFIRM)))))
  {
  }

  lemma NavigateBodyDisciplined(a: Args)
    requires a.action.Navigate?
    ensures Disciplined(Body(a), START, a, Effects(a.action))
  {
    ConfirmDisciplined(CONFIRMED, a);
    PlainPrefix([Check(NavigationFailed)], CONFIRM, CONFIRMED, a, []);
    var checked := [Check(NavigationFailed)] + CONFIRM;
    PhaseThen(ActionConfirmed, checked, UNKNOWN, a, []);
    var acked := [SetPhase(ActionConfirmed)] + checked;
    EffectThen(PageNavigate, acked, UNKNOWN, a, []);
    PhaseThen(OutcomeUnknown, [Call(PageNavigate)] + acked, IDLE, a, [PageNavigate] + []);
    NavigateFromDocument(a, [SetPhase(OutcomeUnknown)] + ([Call(PageNavigate)] + acked));
  }

  lemma NavigateFromDocument(a: Args, tail: seq<Op>)
    requires a.action.Navigate? && Disciplined(tail, IDLE, a, [PageNavigate] + [])
    requires tail == [SetPhase(OutcomeUnknown)]
               + ([Call(PageNavigate)] + ([SetPhase(ActionConfirmed)] + ([Check(NavigationFailed)] + CONFIRM)))
    ensures Disciplined(Body(a), START, a, Effects(a.action))
  {
    var prefix := [Attach, Require(a.urlOk, InvalidArguments)] + DOCUMENT + [Invalidate];
    PlainBlocks();
    PlainPrefix(prefix, tail, START, a, [PageNavigate] + []);
    NavigateShape(a);
  }

  lemma NavigateShape(a: Args)
    requires a.action.Navigate?
    ensures Body(a) == [Attach, Require(a.urlOk, InvalidArguments)] + DOCUMENT + [Invalidate]
              + ([SetPhase(OutcomeUnknown)]
                 + ([Call(PageNavigate)] + ([SetPhase(ActionConfirmed)] + ([Check(NavigationFailed)] + CONFIRM))))
    ensures Effects(a.action) == [PageNavigate] + []
  {
  }

  const DETACH: seq<Op> := [ReleaseDetach] + [SetPhase(ActionConfirmed)]

  /** The detach itself, by a command known to be live. */
  lemma DetachDisciplined(a: Args)
    requires a.action.Release?
    ensures Disciplined(DETACH, Known(OutcomeUnknown, false, false, true), a, [])
  {
    assert [SetPhase(ActionConfirmed)] == [SetPhase(ActionConfirmed)] + [];
    PhaseThen(ActionConfirmed, [], UNKNOWN, a, []);
    Unfold(ReleaseDetach, [SetPhase(ActionConfirmed)]);
  }

  lemma ReleaseShape(a: Args)
    requires a.action.Release?
    ensures Body(a) == [Call(TabsGet)]
              + ([Check(TargetChanged)] + ([Invalidate] + ([SetPhase(OutcomeUnknown)] + DETACH)))
  {
  }

  lemma ReleaseBodyDisciplined(a: Args)
    requires a.action.Release?
    ensures Disciplined(Body(a), START, a, Effects(a.action))
  {
    DetachDisciplined(a);
    PhaseThen(OutcomeUnknown, DETACH, START, a, []);
    var phase := [SetPhase(OutcomeUnknown)] + DETACH;
    Unfold(Invalidate, phase);
    Unfold(Check(TargetChanged), [Invalidate] + phase);
    Unfold(Call(TabsGet), [Check(TargetChanged)] + ([Invalidate] + phase));
    ReleaseShape(a);
  }

  lemma ScreenshotBodyDisciplined(a: Args)
    requires a.action.Screenshot?
    ensures Disciplined(Body(a), START, a, Effects(a.action))
  {
    PlainBlocks();
    PlainPrefix([Attach] + SCREENSHOT, [], START, a, []);
    assert Body(a) == [Attach] + SCREENSHOT + [];
  }

  const SNAPSHOT_TAIL: seq<Op> :=
    DOCUMENT + [KeepBefore, Call(GetFullAXTree)] + DOCUMENT + [CheckSnapshot, Check(SnapshotUnavailable), Mint]

  lemma SnapshotBodyDisciplined(a: Args)
    requires a.action.Snapshot?
    ensures Disciplined(Body(a), START, a, Effects(a.action))
  {
    PlainBlocks();
    PlainPrefix(SNAPSHOT_TAIL, [], IDLE.(snapped := true), a, []);
    assert SNAPSHOT_TAIL + [] == SNAPSHOT_TAIL;
    Unfold(BeginSnapshot, SNAPSHOT_TAIL);
    PlainPrefix([Attach], [BeginSnapshot] + SNAPSHOT_TAIL, START, a, []);
    SnapshotShape();
  }

  lemma SnapshotShape()
    ensures SNAPSHOT == [BeginSnapshot] + SNAPSHOT_TAIL
  {
  }

  /** Every action body keeps the discipline from its first operation to its last. */
  lemma EveryBodyDisciplined(a: Args)
    ensures Disciplined(Body(a), START, a, Effects(a.action))
  {
    match a.action
    case Click => ClickBodyDisciplined(a);
    case Upload => UploadBodyDisciplined(a);
    case Download => DownloadBodyDisciplined(a);
    case TypeText => TypeBodyDisciplined(a);
    case Press => PressBodyDisciplined(a);
    case Navigate => NavigateBodyDisciplined(a);
    case Release => ReleaseBodyDisciplined(a);
    case Screenshot => ScreenshotBodyDisciplined(a);
    case Snapshot => SnapshotBodyDisciplined(a);
  }

  // --------------------------------------------------------------- minting within one generation

  /** Of a snapshot: not begun, begun, or begun and just found to be of the current generation. */
  datatype Minting = Idle | Begun | Matched

  function Waited(m: Minting): Minting { if m.Matched? then Begun else m }

  /** References are minted once per begun snapshot, in the step that found its generation unchanged. */
  predicate MintsOnce(s: seq<Op>, m: Minting) {
    if s == [] then true
    else
      match s[0]
      case BeginSnapshot => MintsOnce(s[1..], Begun)
      case CheckSnapshot => MintsOnce(s[1..], if m.Begun? then Matched else m)
      case Mint => m.Matched? && MintsOnce(s[1..], Idle)
      case Check(_) => MintsOnce(s[1..], m)
      case _ => MintsOnce(s[1..], Waited(m))
  }

  predicate MintsNothing(s: seq<Op>) {
    forall i :: 0 <= i < |s| ==> !s[i].BeginSnapshot? && !s[i].CheckSnapshot? && !s[i].Mint?
  }

  lemma {:induction false} MintsNothingPrefix(prefix: seq<Op>, rest: seq<Op>, m: Minting)
    requires MintsNothing(prefix) && MintsOnce(rest, m) && MintsOnce(rest, Waited(m))
    ensures MintsOnce(prefix + rest, m)
  {
    if prefix == [] {
      assert prefix + rest == rest;
    } else {
      assert (prefix + rest)[1..] == prefix[1..] + rest;
      MintsNothingPrefix(prefix[1..], rest, m);
      MintsNothingPrefix(prefix[1..], rest, Waited(m));
    }
  }

  /** A script without a snapshot may be entered in any state. */
  lemma {:induction false} MintsNothingAlone(s: seq<Op>, m: Minting)
    requires MintsNothing(s)
    ensures MintsOnce(s, m)
  {
    if s != [] {
      MintsNothingAlone(s[1..], m);
      MintsNothingAlone(s[1..], Waited(m));
    }
  }

  lemma EndingMintsOnce(rest: seq<Op>)
    requires MintsOnce(rest, Idle)
    ensures MintsOnce([CheckSnapshot] + ([Check(SnapshotUnavailable)] + ([Mint] + rest)), Begun)
  {
    Unfold(Mint, rest);
    Unfold(Check(SnapshotUnavailable), [Mint] + rest);
    Unfold(CheckSnapshot, [Check(SnapshotUnavailable)] + ([Mint] + rest));
  }

  lemma SnapshotMintsOnce(rest: seq<Op>)
    requires MintsOnce(rest, Idle)
    ensures MintsOnce(SNAPSHOT + rest, Idle)
  {
    var ending := [CheckSnapshot] + ([Check(SnapshotUnavailable)] + ([Mint] + rest));
    EndingMintsOnce(rest);
    MintsNothingBlocks();
    var middle := DOCUMENT + [KeepBefore, Call(GetFullAXTree)] + DOCUMENT;
    MintsNothingPrefix(middle, ending, Begun);
    Unfold(BeginSnapshot, middle + ending);
    SnapshotThen(rest);
  }

  lemma SnapshotThen(rest: seq<Op>)
    ensures SNAPSHOT + rest
         == [BeginSnapshot] + (DOCUMENT + [KeepBefore, Call(GetFullAXTree)] + DOCUMENT
                               + ([CheckSnapshot] + ([Check(SnapshotUnavailable)] + ([Mint] + rest))))
  {
  }

  lemma MintsNothingBlocks()
    ensures MintsNothing(DOCUMENT) && MintsNothing(VERIFY) && MintsNothing(REFERENCE) && MintsNothing(LINK)
  {
    assert MintsNothing(DOCUMENT);
    assert MintsNothing(VERIFY);
  }

  lemma MintsNothingLongBlocks()
    ensures MintsNothing(CLICK) && MintsNothing(PICK) && MintsNothing(RESOLVE) && MintsNothing(READ)
  {
    MintsNothingBlocks();
    assert MintsNothing(AIM);
  }

  lemma ConfirmMintsOnce()
    ensures MintsOnce(CONFIRM, Idle)
  {
    var last := [SetPhase(ReadbackComplete)];
    MintsNothingAlone(last, Idle);
    SnapshotMintsOnce(last);
    MintsNothingPrefix([SetPhase(ActionConfirmed), Readback], SNAPSHOT + last, Idle);
    assert CONFIRM == [SetPhase(ActionConfirmed), Readback] + (SNAPSHOT + last);
  }

  lemma DeedMintsNothing(a: Args)
    ensures MintsNothing(Deed(a))
  {
    MintsNothingBlocks();
    MintsNothingLongBlocks();
    match a.action
    case Upload => UploadDeedMintsNothing(a);
    case Download => DownloadDeedMintsNothing(a);
    case TypeText => TypeDeedMintsNothing(a);
    case _ =>
  }

  lemma TypeDeedMintsNothing(a: Args)
    requires a.action.TypeText?
    ensures MintsNothing(Deed(a))
  {
    MintsNothingBlocks();
  }

  lemma UploadDeedMintsNothing(a: Args)
    requires a.action.Upload?
    ensures MintsNothing(Deed(a))
  {
    MintsNothingBlocks();
    MintsNothingLongBlocks();
    assert MintsNothing(CHOOSE);
  }

  lemma DownloadDeedMintsNothing(a: Args)
    requires a.action.Download?
    ensures MintsNothing(Deed(a))
  {
    MintsNothingBlocks();
    MintsNothingLongBlocks();
    assert MintsNothing(TRANSFER);
  }

  lemma EveryBodyMintsOnce(a: Args)
    ensures MintsOnce(Body(a), Idle)
  {
    DeedMintsNothing(a);
    ConfirmMintsOnce();
    match a.action
    case Snapshot =>
      SnapshotMintsOnce([]);
      assert SNAPSHOT + [] == SNAPSHOT;
      MintsNothingPrefix(Deed(a), SNAPSHOT, Idle);
    case Release => MintsNothingAlone(Deed(a), Idle);
    case Screenshot => MintsNothingAlone(Deed(a), Idle);
    case Download => MintsNothingAlone(Deed(a), Idle);
    case _ =>
      MintsNothingPrefix(Deed(a), CONFIRM, Idle);
  }
}
