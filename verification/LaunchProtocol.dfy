/**
 * Starting, stopping and exiting of the managed server. Launchers take turns under the launch lock;
 * servers exit by themselves at any time and do not take it. What they share is the record file, the
 * stop file and the processes.
 */
module LaunchProtocol {
  import opened Options

  /** A launch token: fresh for every server. */
  type Token = nat

  /** A file: missing, emptied by a write in progress (or unreadable), or naming a token. */
  datatype File = Missing | Torn | Full(token: Token)

  /** A server process, from its start past the record check at its end. */
  datatype Status = Running | Exiting | Matched | Passed | Dead

  predicate Live(s: Status) { !s.Dead? }

  /** Live, and not yet past the deletion of its own record. */
  predicate Unpassed(s: Status) { s.Running? || s.Exiting? || s.Matched? }

  datatype Request = Start | Stop(expected: Option<Token>)

  datatype RetireStage = OpenStop | WriteStop | AwaitExit | CompareRecord | DeleteRecord | DeleteStop

  /** What the lock's holder does next. `record` is what it read, when the file named a token. */
  datatype Pc =
    | ReadRecord
    | Check(record: Option<Token>)
    | Replace(token: Token)
    | Retire(token: Token, stage: RetireStage)
    | WaitForOther(token: Token)
    | Reread(waited: bool)
    | Recheck(record: Option<Token>, waited: bool)
    | Spawn
    | OpenRecord(token: Token)
    | WriteRecord(token: Token)
    | AwaitReady(token: Token)
    | GiveUp(token: Token)
    | CompareOwn(token: Token)
    | DeleteOwn(token: Token)

  datatype Holder = Holder(request: Request, pc: Pc)

  /** A deletion of the record by a server, and a request to stop or a kill by a launcher: kept as history. */
  datatype Deletion = Deletion(server: Token, found: File)
  datatype Stopping = Stopping(request: Request, token: Token)

  datatype World = World(
    record: File, stopFile: File, servers: map<Token, Status>, holder: Option<Holder>,
    deletions: seq<Deletion>, stoppings: seq<Stopping>, kills: seq<Stopping>, obeyed: set<Token>)

  const INITIAL := World(Missing, Missing, map[], None, [], [], [], {})

  /** What the launcher cannot decide: whether the port answers, whether it gives up, and so on. */
  datatype Choice = Choice(otherPort: bool, replace: bool, healthy: bool, giveUp: bool, taken: bool, newToken: Token)

  datatype Event =
    | Acquire(request: Request)
    | Proceed(choice: Choice)
    | ObeyStop(token: Token)     // the server's watcher reads the stop file
    | LeaveRun(token: Token)     // server.run() returns for another reason
    | ReadAtExit(token: Token)
    | DeleteAtExit(token: Token)
    | Die(token: Token)

  predicate Owned(w: World, record: Option<Token>) {
    record.Some? && record.value in w.servers && Live(w.servers[record.value])
  }

  function Named(f: File): Option<Token> { if f.Full? then Some(f.token) else None }

  function At(w: World, pc: Pc): World
    requires w.holder.Some?
  {
    w.(holder := Some(w.holder.value.(pc := pc)))
  }

  function Released(w: World): World { w.(holder := None) }

  /** The holder kills a server. */
  function Killed(w: World, x: Token): World
    requires w.holder.Some?
  {
    w.(servers := w.servers[x := Dead], kills := w.kills + [Stopping(w.holder.value.request, x)])
  }

  /** stop() after its read, and start() when it replaces a deaf server or waits for a live one. */
  function OnCheck(w: World, record: Option<Token>, c: Choice): World
    requires w.holder.Some?
  {
    var request := w.holder.value.request;
    if request.Stop? then
      if (request.expected.Some? && record != request.expected) || !Owned(w, record) then Released(w)
      else At(w, Retire(record.value, OpenStop))
    else if !Owned(w, record) then At(w, Spawn)
    else if c.otherPort then Released(w)
    else if c.replace then At(w, Replace(record.value))
    else At(w, WaitForOther(record.value))
  }

  function OnRetire(w: World, x: Token, stage: RetireStage, c: Choice): World
    requires w.holder.Some? && x in w.servers
  {
    match stage
    case OpenStop => At(w.(stopFile := Torn), Retire(x, WriteStop))
    case WriteStop =>
      var stopping := Stopping(w.holder.value.request, x);
      At(w.(stopFile := Full(x), stoppings := w.stoppings + [stopping]), Retire(x, AwaitExit))
    case AwaitExit =>
      if w.servers[x].Dead? then At(w, Retire(x, CompareRecord))
      else if c.giveUp then At(Killed(w, x), Retire(x, CompareRecord))
      else w
    case CompareRecord => At(w, Retire(x, if w.record == Full(x) then DeleteRecord else DeleteStop))
    case DeleteRecord => At(w.(record := Missing), Retire(x, DeleteStop))
    case DeleteStop =>
      if w.holder.value.request.Stop? then Released(w.(stopFile := Missing))
      else At(w.(stopFile := Missing), Reread(false))
  }

  /** The lock's holder makes its next step. */
  function OnProceed(w: World, h: Holder, c: Choice): World
    requires w.holder == Some(h)
  {
    match h.pc
    case ReadRecord => At(w, Check(Named(w.record)))
    case Check(record) => OnCheck(w, record, c)
    case Replace(x) => At(w, if Owned(w, Some(x)) then Retire(x, OpenStop) else Reread(false))
    case Retire(x, stage) => if x in w.servers then OnRetire(w, x, stage, c) else w
    case WaitForOther(x) =>
      if !Owned(w, Some(x)) || (c.giveUp && c.healthy) then At(w, Reread(true))
      else if c.healthy || c.giveUp then Released(w)
      else w
    case Reread(waited) => At(w, Recheck(Named(w.record), waited))
    case Recheck(record, waited) =>
      if !Owned(w, record) then At(w, Spawn)
      else if waited || c.otherPort then Released(w)
      else At(w, WaitForOther(record.value))
    case Spawn =>
      if c.taken then Released(w)
      else if c.newToken in w.servers then w
      else At(w.(servers := w.servers[c.newToken := Running]), OpenRecord(c.newToken))
    case OpenRecord(x) => At(w.(record := Torn), WriteRecord(x))
    case WriteRecord(x) => At(w.(record := Full(x)), AwaitReady(x))
    case AwaitReady(x) =>
      if !Owned(w, Some(x)) || c.giveUp then At(w, GiveUp(x))
      else if c.healthy then Released(w)
      else w
    case GiveUp(x) => At(if Owned(w, Some(x)) then Killed(w, x) else w, CompareOwn(x))
    case CompareOwn(x) => if w.record == Full(x) then At(w, DeleteOwn(x)) else Released(w)
    case DeleteOwn(x) => Released(w.(record := Missing))
  }

  function Moves(w: World, x: Token, from: Status, to: Status): World {
    if x in w.servers && w.servers[x] == from then w.(servers := w.servers[x := to]) else w
  }

  function Step(w: World, e: Event): World {
    match e
    case Acquire(request) => if w.holder.None? then w.(holder := Some(Holder(request, ReadRecord))) else w
    case Proceed(c) => if w.holder.Some? then OnProceed(w, w.holder.value, c) else w
    case ObeyStop(x) =>
      if x in w.servers && w.servers[x].Running? && w.stopFile == Full(x)
      then Moves(w, x, Running, Exiting).(obeyed := w.obeyed + {x}) else w
    case LeaveRun(x) => Moves(w, x, Running, Exiting)
    case ReadAtExit(x) => Moves(w, x, Exiting, if w.record == Full(x) then Matched else Passed)
    case DeleteAtExit(x) =>
      if x in w.servers && w.servers[x].Matched?
      then Moves(w, x, Matched, Passed).(record := Missing, deletions := w.deletions + [Deletion(x, w.record)]) else w
    case Die(x) => if x in w.servers then w.(servers := w.servers[x := Dead]) else w
  }

  function After(w: World, events: seq<Event>): World {
    if events == [] then w else Step(After(w, events[..|events| - 1]), events[|events| - 1])
  }

  // ----------------------------------------------------------------------------- invariants

  /** No live unpassed server but, perhaps, the given one. */
  predicate OnlyUnpassed(w: World, record: Option<Token>) {
    forall y :: y in w.servers && Unpassed(w.servers[y]) ==> record == Some(y)
  }

  predicate IsDead(w: World, x: Token) { x in w.servers && w.servers[x].Dead? }

  /** What the holder may rely on at each of its steps. */
  predicate HolderSound(w: World, pc: Pc) {
    match pc
    case ReadRecord => true
    case Check(record) => OnlyUnpassed(w, record)
    case Replace(x) => x in w.servers && OnlyUnpassed(w, Some(x))
    case Retire(x, stage) =>
      && x in w.servers && OnlyUnpassed(w, Some(x))
      && (stage.CompareRecord? || stage.DeleteRecord? || stage.DeleteStop? ==> IsDead(w, x))
      && (stage.DeleteRecord? ==> w.record == Full(x))
    case WaitForOther(x) => OnlyUnpassed(w, Some(x))
    case Reread(_) => true
    case Recheck(record, _) => OnlyUnpassed(w, record)
    case Spawn => OnlyUnpassed(w, None)
    case OpenRecord(x) => x in w.servers && OnlyUnpassed(w, Some(x)) && w.record != Full(x)
    case WriteRecord(x) => x in w.servers && OnlyUnpassed(w, Some(x)) && w.record == Torn
    case AwaitReady(x) => x in w.servers && OnlyUnpassed(w, Some(x))
    case GiveUp(x) => x in w.servers && OnlyUnpassed(w, Some(x))
    case CompareOwn(x) => IsDead(w, x) && OnlyUnpassed(w, Some(x))
    case DeleteOwn(x) => IsDead(w, x) && OnlyUnpassed(w, Some(x)) && w.record == Full(x)
  }

  predicate Publishing(w: World, x: Token) {
    w.holder.Some? && (w.holder.value.pc == OpenRecord(x) || w.holder.value.pc == WriteRecord(x))
  }

  /** Every live unpassed server is named by the record, unless its launcher is about to write it. */
  predicate ServersNamed(w: World) {
    && (forall x :: x in w.servers && Unpassed(w.servers[x]) ==> w.record == Full(x) || Publishing(w, x))
    && (forall x :: x in w.servers && w.servers[x].Matched? ==> w.record == Full(x))
    && (w.record.Full? ==> w.record.token in w.servers)
  }

  /** The files are torn only in the middle of a write, and the stop file names the server being retired. */
  predicate FilesSound(w: World) {
    && (w.record.Torn? ==> w.holder.Some? && w.holder.value.pc.WriteRecord?)
    && (!w.stopFile.Missing? ==> w.holder.Some? && w.holder.value.pc.Retire? && !w.holder.value.pc.stage.OpenStop?)
    && (w.stopFile.Full? ==> !w.holder.value.pc.stage.WriteStop? && w.stopFile.token == w.holder.value.pc.token
                             && exists i :: 0 <= i < |w.stoppings| && w.stoppings[i].token == w.stopFile.token)
  }

  predicate Asked(s: Stopping) { s.request.Stop? && s.request.expected.Some? ==> s.request.expected == Some(s.token) }

  predicate Requested(w: World, x: Token) { exists i :: 0 <= i < |w.stoppings| && w.stoppings[i].token == x }

  predicate HistorySound(w: World) {
    && (forall i :: 0 <= i < |w.deletions| ==> w.deletions[i].found == Full(w.deletions[i].server))
    && (forall i :: 0 <= i < |w.stoppings| ==> Asked(w.stoppings[i]))
    && (forall i :: 0 <= i < |w.kills| ==> Asked(w.kills[i]))
    && (forall x :: x in w.obeyed ==> Requested(w, x))
    && (w.holder.Some? && w.holder.value.request.Stop? ==>
        w.holder.value.pc.ReadRecord? || w.holder.value.pc.Check? || w.holder.value.pc.Retire?)
    && (w.holder.Some? && w.holder.value.pc.Retire? ==>
        Asked(Stopping(w.holder.value.request, w.holder.value.pc.token)))
  }

  predicate LaunchInv(w: World) {
    && ServersNamed(w) && FilesSound(w) && HistorySound(w)
    && (w.holder.Some? ==> HolderSound(w, w.holder.value.pc))
  }

  lemma ServerStepKeeps(w: World, e: Event)
    requires LaunchInv(w) && !e.Proceed? && !e.Acquire?
    ensures LaunchInv(Step(w, e))
  {
    if e.ObeyStop? { ObeyKeeps(w, e.token); }
    if e.DeleteAtExit? { DeleteAtExitKeeps(w, e.token); }
  }

  lemma ObeyKeeps(w: World, x: Token)
    requires LaunchInv(w)
    ensures LaunchInv(Step(w, ObeyStop(x)))
  {
  }

  lemma DeleteAtExitKeeps(w: World, x: Token)
    requires LaunchInv(w)
    ensures LaunchInv(Step(w, DeleteAtExit(x)))
  {
  }

  lemma CheckKeeps(w: World, record: Option<Token>, c: Choice)
    requires LaunchInv(w) && w.holder.Some? && w.holder.value.pc == Check(record)
    ensures LaunchInv(OnCheck(w, record, c))
  {
    if w.holder.value.request.Stop? {
      CheckStopKeeps(w, record, c);
    } else if Owned(w, record) {
      CheckOwnedKeeps(w, record, c);
    }
  }

  lemma CheckStopKeeps(w: World, record: Option<Token>, c: Choice)
    requires LaunchInv(w) && w.holder.Some? && w.holder.value.pc == Check(record) && w.holder.value.request.Stop?
    ensures LaunchInv(OnCheck(w, record, c))
  {
  }

  lemma CheckOwnedKeeps(w: World, record: Option<Token>, c: Choice)
    requires LaunchInv(w) && w.holder.Some? && w.holder.value.pc == Check(record) && w.holder.value.request.Start?
    requires Owned(w, record)
    ensures LaunchInv(OnCheck(w, record, c))
  {
  }

  lemma RetireKeeps(w: World, x: Token, stage: RetireStage, c: Choice)
    requires LaunchInv(w) && w.holder.Some? && w.holder.value.pc == Retire(x, stage)
    ensures LaunchInv(OnRetire(w, x, stage, c))
  {
    if stage.WriteStop? { AskingKeeps(w, x, c); }
  }

  lemma AskingKeeps(w: World, x: Token, c: Choice)
    requires LaunchInv(w) && w.holder.Some? && w.holder.value.pc == Retire(x, WriteStop)
    ensures LaunchInv(OnRetire(w, x, WriteStop, c))
  {
    var v := OnRetire(w, x, WriteStop, c);
    assert v.stoppings[|w.stoppings|].token == x;
    forall y | y in v.obeyed
      ensures Requested(v, y)
    {
      var i :| 0 <= i < |w.stoppings| && w.stoppings[i].token == y;
      assert v.stoppings[i].token == y;
    }
  }

  lemma PublishKeeps(w: World, c: Choice)
    requires LaunchInv(w) && w.holder.Some?
    requires var pc := w.holder.value.pc; pc.Spawn? || pc.OpenRecord? || pc.WriteRecord?
    ensures LaunchInv(OnProceed(w, w.holder.value, c))
  {
  }

  lemma WithdrawKeeps(w: World, c: Choice)
    requires LaunchInv(w) && w.holder.Some?
    requires var pc := w.holder.value.pc; pc.AwaitReady? || pc.GiveUp? || pc.CompareOwn? || pc.DeleteOwn?
    ensures LaunchInv(OnProceed(w, w.holder.value, c))
  {
  }

  lemma LookKeeps(w: World, c: Choice)
    requires LaunchInv(w) && w.holder.Some?
    requires var pc := w.holder.value.pc; pc.ReadRecord? || pc.Replace? || pc.WaitForOther? || pc.Reread? || pc.Recheck?
    ensures LaunchInv(OnProceed(w, w.holder.value, c))
  {
  }

  lemma StepKeeps(w: World, e: Event)
    requires LaunchInv(w)
    ensures LaunchInv(Step(w, e))
  {
    match e
    case Acquire(_) =>
    case Proceed(c) =>
      if w.holder.Some? {
        match w.holder.value.pc
        case Check(record) => CheckKeeps(w, record, c);
        case Retire(x, stage) => RetireKeeps(w, x, stage, c);
        case Spawn => PublishKeeps(w, c);
        case OpenRecord(_) => PublishKeeps(w, c);
        case WriteRecord(_) => PublishKeeps(w, c);
        case AwaitReady(_) => WithdrawKeeps(w, c);
        case GiveUp(_) => WithdrawKeeps(w, c);
        case CompareOwn(_) => WithdrawKeeps(w, c);
        case DeleteOwn(_) => WithdrawKeeps(w, c);
        case _ => LookKeeps(w, c);
      }
    case _ => ServerStepKeeps(w, e);
  }

  lemma {:induction false} EveryRunSound(events: seq<Event>)
    ensures LaunchInv(After(INITIAL, events))
  {
    if events != [] {
      EveryRunSound(events[..|events| - 1]);
      StepKeeps(After(INITIAL, events[..|events| - 1]), events[|events| - 1]);
    }
  }

  // --------------------------------------------------------------------------- main results

  /** A server's exit deletes no record but its own. */
  lemma ExitDeletesOnlyItsOwn(events: seq<Event>, i: nat)
    requires i < |After(INITIAL, events).deletions|
    ensures var d := After(INITIAL, events).deletions[i]; d.found == Full(d.server)
  {
    EveryRunSound(events);
  }

  /** At most one live server has not yet passed the deletion of its record. */
  lemma OneLiveServer(events: seq<Event>, x: Token, y: Token)
    requires var s := After(INITIAL, events).servers; x in s && y in s && Unpassed(s[x]) && Unpassed(s[y])
    ensures x == y
  {
    EveryRunSound(events);
    var w := After(INITIAL, events);
    assert w.record == Full(x) || Publishing(w, x);
    assert w.record == Full(y) || Publishing(w, y);
  }

  /** A live server's record is never missing for the next launcher: with the lock free, it names the server. */
  lemma LiveServerIsFound(events: seq<Event>, x: Token)
    requires var w := After(INITIAL, events); w.holder.None? && x in w.servers && Unpassed(w.servers[x])
    ensures After(INITIAL, events).record == Full(x)
  {
    EveryRunSound(events);
  }

  /** A server obeys only a stop request for its own token, and a stop with a token requests only that one. */
  lemma StopReachesOnlyItsTarget(events: seq<Event>, x: Token)
    requires x in After(INITIAL, events).obeyed
    ensures var w := After(INITIAL, events);
            exists i :: 0 <= i < |w.stoppings| && w.stoppings[i].token == x && Asked(w.stoppings[i])
  {
    EveryRunSound(events);
    var w := After(INITIAL, events);
    assert Requested(w, x);
    var i :| 0 <= i < |w.stoppings| && w.stoppings[i].token == x;
    assert Asked(w.stoppings[i]);
  }

  /** A launcher changes the status of a server only by killing it, and records every kill. */
  lemma KillsAreRecorded(w: World, e: Event)
    ensures var v := Step(w, e);
            if v.kills == w.kills then
              e.Acquire? || e.Proceed? ==> forall x :: x in w.servers ==> x in v.servers && v.servers[x] == w.servers[x]
            else
              && e.Proceed? && w.holder.Some? && |v.kills| == |w.kills| + 1 && v.kills[..|w.kills|] == w.kills
              && var k := v.kills[|w.kills|];
                 && k.request == w.holder.value.request && k.token in w.servers && Live(w.servers[k.token])
                 && v.servers == w.servers[k.token := Dead]
  {
    if e.Proceed? && w.holder.Some? {
      match w.holder.value.pc
      case Retire(x, AwaitExit) =>
      case GiveUp(x) =>
      case _ => assert Step(w, e).kills == w.kills;
    }
  }

  /** Whoever a stop with a token killed, after whatever waiting, was the server with that token. */
  lemma StopKillsOnlyItsTarget(events: seq<Event>, i: nat, expected: Token)
    requires i < |After(INITIAL, events).kills| && After(INITIAL, events).kills[i].request == Stop(Some(expected))
    ensures After(INITIAL, events).kills[i].token == expected
  {
    EveryRunSound(events);
    assert Asked(After(INITIAL, events).kills[i]);
  }

  /**
   * In every run, while a stop with a token holds the lock: no step of its own, no answer to the stop
   * file and no other launcher changes the status of another token's server. Such a server may only
   * leave by itself.
   */
  lemma StopTouchesNoOther(events: seq<Event>, expected: Token, e: Event, x: Token)
    requires var w := After(INITIAL, events);
             w.holder.Some? && w.holder.value.request == Stop(Some(expected)) && x != expected && x in w.servers
    requires e.Acquire? || e.Proceed? || e.ObeyStop?
    ensures Step(After(INITIAL, events), e).servers[x] == After(INITIAL, events).servers[x]
  {
    EveryRunSound(events);
    StopTouches(After(INITIAL, events), expected, e, x);
  }

  lemma StopTouches(w: World, expected: Token, e: Event, x: Token)
    requires LaunchInv(w) && w.holder.Some? && w.holder.value.request == Stop(Some(expected))
    requires x != expected && x in w.servers && (e.Acquire? || e.Proceed? || e.ObeyStop?)
    ensures x in Step(w, e).servers && Step(w, e).servers[x] == w.servers[x]
  {
  }

  /** Steps of servers alone. */
  predicate OnlyServers(events: seq<Event>) {
    forall i :: 0 <= i < |events| ==> !events[i].Acquire? && !events[i].Proceed?
  }

  /** What servers do does not depend on who holds the lock. */
  lemma {:induction false} ServersIgnoreLock(w: World, holder: Option<Holder>, events: seq<Event>)
    requires OnlyServers(events)
    ensures After(w.(holder := holder), events) == After(w, events).(holder := holder)
    ensures After(w, events).holder == w.holder
  {
    if events != [] {
      ServersIgnoreLock(w, holder, events[..|events| - 1]);
    }
  }

  /**
   * stop() with another token than the one it reads, whatever the servers do from its taking the lock
   * to its reading and from there to its giving the lock back: the world in the end is the one that the
   * servers alone would have made.
   */
  lemma WrongTokenChangesNothing(w: World, expected: Token, xs: seq<Event>, ys: seq<Event>, c: Choice, c': Choice)
    requires w.holder.None? && OnlyServers(xs) && OnlyServers(ys) && After(w, xs).record != Full(expected)
    ensures var taken := Step(w, Acquire(Stop(Some(expected))));
            var read := Step(After(taken, xs), Proceed(c));
            Step(After(read, ys), Proceed(c')) == After(After(w, xs), ys)
  {
    var h := Holder(Stop(Some(expected)), ReadRecord);
    var found := Named(After(w, xs).record);
    ServersIgnoreLock(w, Some(h), xs);
    ServersIgnoreLock(After(w, xs), Some(h.(pc := Check(found))), ys);
    assert found != Some(expected);
  }

  /** A launcher deletes a record only of a server that is dead. */
  lemma LaunchersDeleteTheDead(events: seq<Event>, c: Choice, x: Token)
    requires var w := After(INITIAL, events);
             w.holder.Some? && w.record == Full(x) && Step(w, Proceed(c)).record.Missing?
    ensures IsDead(After(INITIAL, events), x)
  {
    EveryRunSound(events);
  }
}
