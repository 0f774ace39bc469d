/**
 * Writing a file through a temporary sibling: write all of it, sync it, then rename it over the
 * target. Any number of writers interleave, and the machine may stop at any moment.
 */
module AtomicWrite {
  import opened Numbers
  import opened Options

  // --------------------------------------------------------------- the retried replacement

  /** What the operating system answers to a replacement. */
  datatype Reply = Replaced | Refused(winerror: Option<int>) | OtherError

  const ATTEMPTS := 6

  /** A sharing conflict with a reader, which passes. */
  predicate Transient(r: Reply) { r.Refused? && r.winerror.Some? && r.winerror.value in {5, 32, 33} }

  predicate TriesAgain(r: Reply, attempt: nat) { Transient(r) && attempt < ATTEMPTS - 1 }

  function Power(k: nat): nat { if k == 0 then 1 else 2 * Power(k - 1) }

  lemma {:induction false} PowerBound(k: nat, n: nat)
    requires k <= n
    ensures Power(k) <= Power(n)
    decreases n
  {
    if k < n { PowerBound(k, n - 1); }
  }

  /** _finish(): sleep is in milliseconds. */
  method Finish(replies: seq<Reply>) returns (ok: bool, attempts: nat, slept: nat)
    requires |replies| >= ATTEMPTS
    ensures 1 <= attempts <= ATTEMPTS
    ensures forall k :: 0 <= k < attempts - 1 ==> Transient(replies[k])
    ensures ok <==> replies[attempts - 1].Replaced?
    ensures !ok ==> attempts == ATTEMPTS || !Transient(replies[attempts - 1])
    ensures slept == 5 * (Power(attempts - 1) - 1) && slept <= 155
  {
    slept := 0;
    var attempt := 0;
    while true
      invariant 0 <= attempt < ATTEMPTS && slept == 5 * (Power(attempt) - 1)
      invariant forall k :: 0 <= k < attempt ==> Transient(replies[k])
      decreases ATTEMPTS - attempt
    {
      PowerBound(attempt, 5);
      if replies[attempt].Replaced? { return true, attempt + 1, slept; }
      if !Transient(replies[attempt]) || attempt == 5 { return false, attempt + 1, slept; }
      slept := slept + 5 * Power(attempt);
      attempt := attempt + 1;
    }
  }

  // ------------------------------------------------------------------------------ the writers

  /** A file's bytes, and whether they are on the disk itself. */
  datatype File = File(content: string, synced: bool)

  datatype Pc =
    | Open
    | Write(done: nat)
    | Sync
    | Restrict
    | Replace(attempt: nat)
    | Cleanup(ok: bool)
    | Ended(ok: bool, cleaned: bool)
    | Stopped

  /** `lived` until the machine stops after the writer began. */
  datatype Writer = Writer(data: string, private: bool, pc: Pc, tries: nat, lived: bool)

  /**
   * A writer's temporary file is known by the writer: its name carries a random suffix. `placed` is the
   * file that a writer's replacement put in the target's place, as the disk has it, even when another
   * replacement has followed. `installs` lists every replacement that succeeded, and `shown` those that
   * the directory still reflects.
   */
  datatype World = World(
    first: Option<File>,
    target: Option<File>,
    temps: map<nat, File>,
    placed: map<nat, File>,
    writers: seq<Writer>,
    installs: seq<nat>,
    shown: seq<nat>)

  datatype Event =
    | Begin(data: string, private: bool)
    | Advance(writer: nat, ok: bool, count: nat, reply: Reply)
    | Crash(garbage: map<nat, string>, kept: nat, back: set<nat>)

  function Initial(content: Option<string>): World {
    var file := if content.Some? then Some(File(content.value, true)) else None;
    World(file, file, map[], map[], [], [], [])
  }

  function At(w: World, i: nat, pc: Pc): World
    requires i < |w.writers|
  {
    w.(writers := w.writers[i := w.writers[i].(pc := pc)])
  }

  /** One writer makes its next step; `ok` says whether the step's call succeeds. */
  function OnAdvance(w: World, i: nat, ok: bool, count: nat, reply: Reply): World
    requires i < |w.writers|
  {
    var me := w.writers[i];
    match me.pc
    case Open => if ok then At(w.(temps := w.temps[i := File("", false)]), i, Write(0)) else At(w, i, Cleanup(false))
    case Write(done) =>
      if !ok then At(w, i, Cleanup(false))
      else if done >= |me.data| then At(w, i, Sync)
      else
        var next := Min(done + count + 1, |me.data|);
        At(w.(temps := w.temps[i := File(me.data[..next], false)]), i, Write(next))
    case Sync =>
      if !ok || i !in w.temps then At(w, i, Cleanup(false))
      else At(w.(temps := w.temps[i := w.temps[i].(synced := true)]), i, if me.private then Restrict else Replace(0))
    case Restrict => At(w, i, if ok then Replace(0) else Cleanup(false))
    case Replace(attempt) =>
      var tried := w.(writers := w.writers[i := me.(tries := me.tries + 1)]);
      if reply.Replaced? && i in w.temps then
        At(tried.(target := Some(w.temps[i]), temps := w.temps - {i}, placed := w.placed[i := w.temps[i]],
                   installs := w.installs + [i], shown := w.shown + [i]), i, Cleanup(true))
      else if TriesAgain(reply, attempt) then At(tried, i, Replace(attempt + 1))
      else At(tried, i, Cleanup(false))
    case Cleanup(done) => At(if ok then w.(temps := w.temps - {i}) else w, i, Ended(done, ok))
    case Ended(_, _) => w
    case Stopped => w
  }

  /** The target as the directory has it after some replacements. */
  function Reflected(first: Option<File>, placed: map<nat, File>, shown: seq<nat>): Option<File> {
    if shown == [] then first
    else if shown[|shown| - 1] in placed then Some(placed[shown[|shown| - 1]])
    else None
  }

  /** What a stop of the machine leaves of a file: anything at all, unless it is on the disk itself. */
  function Survivor(f: File, garbage: map<nat, string>, i: nat): File {
    if f.synced then f else File(if i in garbage then garbage[i] else "", true)
  }

  /**
   * The machine stops, and the writers are gone. The directory is not synced by anyone: it may fall
   * back to an earlier replacement, and temporary files may come back. Whatever file is not synced,
   * installed or temporary, holds anything.
   */
  function OnCrash(w: World, garbage: map<nat, string>, kept: nat, back: set<nat>): World {
    var shown := w.shown[..Min(kept, |w.shown|)];
    var first := if w.first.Some? then Some(Survivor(w.first.value, garbage, |w.writers|)) else None;
    var placed := map i | i in w.placed :: Survivor(w.placed[i], garbage, i);
    w.(shown := shown, first := first, placed := placed, target := Reflected(first, placed, shown),
       temps := map i | i in w.temps.Keys + back && i < |w.writers| ::
                  Survivor(if i in w.temps then w.temps[i] else File("", false), garbage, i),
       writers := seq(|w.writers|, i requires 0 <= i < |w.writers| =>
                    w.writers[i].(lived := false, pc := if w.writers[i].pc.Ended? then w.writers[i].pc else Stopped)))
  }

  function Step(w: World, e: Event): World {
    match e
    case Begin(data, private) => w.(writers := w.writers + [Writer(data, private, Open, 0, true)])
    case Advance(i, ok, count, reply) => if i < |w.writers| then OnAdvance(w, i, ok, count, reply) else w
    case Crash(garbage, kept, back) => OnCrash(w, garbage, kept, back)
  }

  function After(w: World, events: seq<Event>): World {
    if events == [] then w else Step(After(w, events[..|events| - 1]), events[|events| - 1])
  }

  // ----------------------------------------------------------------------------- invariants

  /** The temporary file of a writer, by where the writer stands; nothing is known of it once the machine stopped. */
  predicate TempSound(w: World, i: nat)
    requires i < |w.writers|
  {
    var me := w.writers[i];
    if !me.lived then me.pc.Ended? || me.pc.Stopped?
    else
    match me.pc
    case Open => i !in w.temps
    case Write(done) => i in w.temps && done <= |me.data| && w.temps[i].content == me.data[..done]
    case Sync => i in w.temps && w.temps[i].content == me.data
    case Restrict => i in w.temps && w.temps[i] == File(me.data, true)
    case Replace(_) => i in w.temps && w.temps[i] == File(me.data, true)
    case Cleanup(ok) => ok ==> i !in w.temps
    case Ended(ok, cleaned) => ok || cleaned ==> i !in w.temps
    case Stopped => true
  }

  predicate TriesSound(me: Writer) {
    match me.pc
    case Open => me.tries == 0
    case Write(_) => me.tries == 0
    case Sync => me.tries == 0
    case Restrict => me.tries == 0
    case Replace(attempt) => me.tries == attempt < ATTEMPTS
    case _ => me.tries <= ATTEMPTS
  }

  /**
   * A writer has installed its data just when it is past a replacement that succeeded, and what it
   * installed is all of its data, synced before.
   */
  predicate InstallSound(w: World, i: nat)
    requires i < |w.writers|
  {
    && (i in w.installs ==> i in w.placed && w.placed[i] == File(w.writers[i].data, true))
    && match w.writers[i].pc
       case Cleanup(ok) => i in w.installs <==> ok
       case Ended(ok, _) => i in w.installs <==> ok
       case Stopped => true
       case _ => i !in w.installs
  }

  /** The target is what the directory reflects: what the last installer it shows wrote, or what was there at first. */
  predicate TargetSound(w: World, initial: Option<string>) {
    && w.first == Initial(initial).first && w.target == Reflected(w.first, w.placed, w.shown)
    && (forall k :: 0 <= k < |w.shown| ==> w.shown[k] in w.installs)
  }

  predicate WriteInv(w: World, initial: Option<string>) {
    && (forall i :: 0 <= i < |w.writers| ==> TempSound(w, i) && TriesSound(w.writers[i]) && InstallSound(w, i))
    && (forall i :: i in w.temps ==> i < |w.writers|)
    && (forall k :: 0 <= k < |w.installs| ==> w.installs[k] < |w.writers|)
    && TargetSound(w, initial)
  }

  lemma AdvanceKeeps(w: World, initial: Option<string>, i: nat, ok: bool, count: nat, reply: Reply)
    requires WriteInv(w, initial) && i < |w.writers|
    ensures WriteInv(OnAdvance(w, i, ok, count, reply), initial)
  {
    var v := OnAdvance(w, i, ok, count, reply);
    assert TempSound(w, i) && TriesSound(w.writers[i]) && InstallSound(w, i);
    forall j | 0 <= j < |v.writers|
      ensures TempSound(v, j) && TriesSound(v.writers[j]) && InstallSound(v, j)
    {
      assert TempSound(w, j) && TriesSound(w.writers[j]) && InstallSound(w, j);
      if j == i { MoverSound(w, i, ok, count, reply); } else { OthersSound(w, i, ok, count, reply, j); }
    }
    FilesSound(w, initial, i, ok, count, reply);
    IndexesSound(w, i, ok, count, reply);
  }

  lemma FilesSound(w: World, initial: Option<string>, i: nat, ok: bool, count: nat, reply: Reply)
    requires i < |w.writers| && TempSound(w, i) && TargetSound(w, initial)
    ensures TargetSound(OnAdvance(w, i, ok, count, reply), initial)
  {
  }

  lemma IndexesSound(w: World, i: nat, ok: bool, count: nat, reply: Reply)
    requires i < |w.writers| && forall j :: j in w.temps ==> j < |w.writers|
    requires forall k :: 0 <= k < |w.installs| ==> w.installs[k] < |w.writers|
    ensures var v := OnAdvance(w, i, ok, count, reply);
            && (forall j :: j in v.temps ==> j < |v.writers|)
            && (forall k :: 0 <= k < |v.installs| ==> v.installs[k] < |v.writers|)
  {
  }

  lemma MoverSound(w: World, i: nat, ok: bool, count: nat, reply: Reply)
    requires i < |w.writers| && TempSound(w, i) && TriesSound(w.writers[i]) && InstallSound(w, i)
    ensures var v := OnAdvance(w, i, ok, count, reply);
            TempSound(v, i) && TriesSound(v.writers[i]) && InstallSound(v, i)
  {
    var me := w.writers[i];
    assert me.data[..|me.data|] == me.data;
    var v := OnAdvance(w, i, ok, count, reply);
    if me.pc.Replace? && reply.Replaced? { assert v.installs[|w.installs|] == i; }
  }

  lemma OthersSound(w: World, i: nat, ok: bool, count: nat, reply: Reply, j: nat)
    requires i < |w.writers| && j < |w.writers| && j != i
    requires TempSound(w, j) && TriesSound(w.writers[j]) && InstallSound(w, j)
    ensures var v := OnAdvance(w, i, ok, count, reply);
            TempSound(v, j) && TriesSound(v.writers[j]) && InstallSound(v, j)
  {
    var v := OnAdvance(w, i, ok, count, reply);
    assert v.writers[j] == w.writers[j];
    assert j in v.installs <==> j in w.installs;
    assert j in v.temps <==> j in w.temps;
    assert j in w.temps ==> v.temps[j] == w.temps[j];
  }

  lemma StepKeeps(w: World, initial: Option<string>, e: Event)
    requires WriteInv(w, initial)
    ensures WriteInv(Step(w, e), initial)
  {
    match e
    case Begin(data, private) => BeginKeeps(w, initial, data, private);
    case Advance(i, ok, count, reply) => if i < |w.writers| { AdvanceKeeps(w, initial, i, ok, count, reply); }
    case Crash(garbage, kept, back) => CrashKeeps(w, initial, garbage, kept, back);
  }

  lemma BeginKeeps(w: World, initial: Option<string>, data: string, private: bool)
    requires WriteInv(w, initial)
    ensures WriteInv(Step(w, Begin(data, private)), initial)
  {
    var v := Step(w, Begin(data, private));
    forall j | 0 <= j < |v.writers|
      ensures TempSound(v, j) && TriesSound(v.writers[j]) && InstallSound(v, j)
    {
      if j < |w.writers| { assert TempSound(w, j) && TriesSound(w.writers[j]) && InstallSound(w, j); }
    }
  }

  lemma CrashKeeps(w: World, initial: Option<string>, garbage: map<nat, string>, kept: nat, back: set<nat>)
    requires WriteInv(w, initial)
    ensures WriteInv(OnCrash(w, garbage, kept, back), initial)
  {
    var v := OnCrash(w, garbage, kept, back);
    forall j | 0 <= j < |v.writers|
      ensures TempSound(v, j) && TriesSound(v.writers[j]) && InstallSound(v, j)
    {
      assert TempSound(w, j) && TriesSound(w.writers[j]) && InstallSound(w, j);
    }
  }

  lemma {:induction false} EveryRunSound(initial: Option<string>, events: seq<Event>)
    ensures WriteInv(After(Initial(initial), events), initial)
  {
    if events != [] {
      EveryRunSound(initial, events[..|events| - 1]);
      StepKeeps(After(Initial(initial), events[..|events| - 1]), initial, events[|events| - 1]);
    }
  }

  // --------------------------------------------------------------------------- main results

  /**
   * At every moment, and after every crash: the target is what it was at first, or the whole of what one
   * writer wrote that replaced it. Until the first crash that is the last one to replace it.
   */
  lemma TargetAlwaysWhole(initial: Option<string>, events: seq<Event>)
    ensures var w := After(Initial(initial), events);
            if w.shown == [] then w.target == Initial(initial).target
            else
              var last := w.shown[|w.shown| - 1];
              last in w.installs && last < |w.writers| && w.target == Some(File(w.writers[last].data, true))
    ensures (forall i :: 0 <= i < |events| ==> !events[i].Crash?) ==>
              After(Initial(initial), events).shown == After(Initial(initial), events).installs
  {
    EveryRunSound(initial, events);
    ShownIsWhole(After(Initial(initial), events), initial);
    if forall i :: 0 <= i < |events| ==> !events[i].Crash? { AllShown(Initial(initial), events); }
  }

  lemma ShownIsWhole(w: World, initial: Option<string>)
    requires WriteInv(w, initial)
    ensures if w.shown == [] then w.target == Initial(initial).target
            else
              var last := w.shown[|w.shown| - 1];
              last in w.installs && last < |w.writers| && w.target == Some(File(w.writers[last].data, true))
  {
    if w.shown != [] {
      var last := w.shown[|w.shown| - 1];
      assert last in w.installs && InstallSound(w, last);
    }
  }

  lemma {:induction false} AllShown(w: World, events: seq<Event>)
    requires w.shown == w.installs && forall i :: 0 <= i < |events| ==> !events[i].Crash?
    ensures After(w, events).shown == After(w, events).installs
  {
    if events != [] {
      AllShown(w, events[..|events| - 1]);
    }
  }

  /** A write that reported failure never installed its data; one that reported success did. */
  lemma ReportIsTrue(initial: Option<string>, events: seq<Event>, i: nat)
    requires i < |After(Initial(initial), events).writers| && After(Initial(initial), events).writers[i].pc.Ended?
    ensures var w := After(Initial(initial), events); w.writers[i].pc.ok <==> i in w.installs
  {
    EveryRunSound(initial, events);
    assert InstallSound(After(Initial(initial), events), i);
  }

  /**
   * A finished write replaced at most six times, and as long as the machine runs on it leaves no
   * temporary file, if it succeeded or its unlink did.
   */
  lemma NothingLeftBehind(initial: Option<string>, events: seq<Event>, i: nat)
    requires i < |After(Initial(initial), events).writers| && After(Initial(initial), events).writers[i].pc.Ended?
    ensures var w := After(Initial(initial), events);
            && w.writers[i].tries <= ATTEMPTS
            && (w.writers[i].lived && (w.writers[i].pc.ok || w.writers[i].pc.cleaned) ==> i !in w.temps)
  {
    EveryRunSound(initial, events);
    assert TempSound(After(Initial(initial), events), i) && TriesSound(After(Initial(initial), events).writers[i]);
  }

  // ----------------------------------------------------------------------- one write, in place

  /** What each call of a write comes to. */
  datatype Calls = Calls(open: bool, write: bool, written: nat, sync: bool, restrict: bool, replies: seq<Reply>,
                         unlink: bool)

  /** The directory around the target: one temporary name is enough for a single write. */
  class Directory {
    var target: Option<string>
    var temp: Option<string>

    constructor (content: Option<string>)
      ensures target == content && temp == None
    {
      target, temp := content, None;
    }

    /** The body of the try. */
    method WriteAndReplace(data: string, private: bool, calls: Calls) returns (ok: bool)
      requires temp.None? && |calls.replies| >= ATTEMPTS
      modifies this
      ensures target == if ok then Some(data) else old(target)
      ensures ok ==> temp.None?
      ensures ok ==> calls.open && calls.write && calls.sync && (private ==> calls.restrict)
      ensures ok <== calls.open && calls.write && calls.sync && (private ==> calls.restrict)
                && calls.replies[0].Replaced?
    {
      if !calls.open { return false; }
      temp := Some(data[..Min(calls.written, |data|)]);
      if !calls.write { return false; }
      temp := Some(data);
      if !calls.sync || (private && !calls.restrict) { return false; }
      var attempts, slept;
      ok, attempts, slept := Finish(calls.replies);
      if ok { target, temp := temp, None; }
    }

    /** atomic_write_text(), alone: with its finally block. */
    method AtomicWriteText(data: string, private: bool, calls: Calls) returns (ok: bool)
      requires temp.None? && |calls.replies| >= ATTEMPTS
      modifies this
      ensures target == if ok then Some(data) else old(target)
      ensures ok || calls.unlink ==> temp.None?
    {
      ok := WriteAndReplace(data, private, calls);
      if calls.unlink { temp := None; }
    }
  }
}
