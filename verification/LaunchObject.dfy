/**
 * start(), stop() and the end of serve() on the files and processes they share. A launcher's methods
 * run under the lock; between any two of their file or process operations the servers make whatever
 * steps they like. Every operation is proved to be a step of LaunchProtocol, so its invariants hold
 * throughout.
 */
module LaunchObject {
  import opened Options
  import opened LaunchProtocol

  datatype StopResult = NotOwned | NoServer | Stopped(token: Token)
  datatype StartResult = Existing | Occupied | Started(token: Token) | Failed(token: Token)

  const ANY := Choice(false, false, false, false, false, 0)

  lemma Advanced(w: World, v: World, c: Choice)
    requires LaunchInv(w) && v == Step(w, Proceed(c))
    ensures LaunchInv(v)
  {
    StepKeeps(w, Proceed(c));
  }

  /** What the servers' own steps may do to the shared state. */
  predicate ServersMoved(w: World, v: World) {
    && v.holder == w.holder && v.stopFile == w.stopFile && v.stoppings == w.stoppings
    && v.kills == w.kills && v.servers.Keys == w.servers.Keys
    && (v.record == w.record || v.record.Missing?)
    && w.obeyed <= v.obeyed <= w.obeyed + (if w.stopFile.Full? then {w.stopFile.token} else {})
    && (forall x :: x in w.servers && w.servers[x].Dead? ==> v.servers[x].Dead?)
  }

  lemma ServerStepMoves(w: World, e: Event)
    requires !e.Acquire? && !e.Proceed?
    ensures ServersMoved(w, Step(w, e))
  {
  }

  /** Nothing happened but steps of the servers. */
  ghost predicate OnlyServersActed(w: World, v: World) {
    exists events :: OnlyServers(events) && v == After(w, events)
  }

  lemma OneMore(w: World, events: seq<Event>, e: Event)
    requires OnlyServers(events) && !e.Acquire? && !e.Proceed?
    ensures OnlyServers(events + [e]) && After(w, events + [e]) == Step(After(w, events), e)
  {
    assert (events + [e])[..|events|] == events;
  }

  lemma {:induction false} AfterBoth(w: World, xs: seq<Event>, ys: seq<Event>)
    requires OnlyServers(xs) && OnlyServers(ys)
    ensures OnlyServers(xs + ys) && After(w, xs + ys) == After(After(w, xs), ys)
  {
    if ys == [] {
      assert xs + ys == xs;
    } else {
      AfterBoth(w, xs, ys[..|ys| - 1]);
      assert (xs + ys)[..|xs + ys| - 1] == xs + ys[..|ys| - 1];
    }
  }

  lemma {:induction false} EventsMove(w: World, events: seq<Event>)
    requires OnlyServers(events)
    ensures ServersMoved(w, After(w, events))
  {
    if events != [] {
      EventsMove(w, events[..|events| - 1]);
      ServerStepMoves(After(w, events[..|events| - 1]), events[|events| - 1]);
    }
  }

  lemma ActedMoves(w: World, v: World)
    requires OnlyServersActed(w, v)
    ensures ServersMoved(w, v)
  {
    var events :| OnlyServers(events) && v == After(w, events);
    EventsMove(w, events);
  }

  /** A launcher that only took the lock, looked and gave it back leaves what the servers made of the world. */
  lemma LookedOnly(w: World, held: World, looked: World, h: Holder, k: Holder)
    requires w.holder.None? && OnlyServersActed(w.(holder := Some(h)), held)
    requires OnlyServersActed(held.(holder := Some(k)), looked)
    ensures OnlyServersActed(w, looked.(holder := None))
  {
    var xs :| OnlyServers(xs) && held == After(w.(holder := Some(h)), xs);
    var ys :| OnlyServers(ys) && looked == After(held.(holder := Some(k)), ys);
    ServersIgnoreLock(w, Some(h), xs);
    ServersIgnoreLock(After(w, xs), Some(k), ys);
    AfterBoth(w, xs, ys);
    assert looked.(holder := None) == After(w, xs + ys);
  }

  /** At most one more kill, of that server by that request. */
  predicate MayKill(before: seq<Stopping>, after: seq<Stopping>, kill: Stopping) {
    after == before || after == before + [kill]
  }

  class Runtime {
    var record: File
    var stopFile: File
    var servers: map<Token, Status>
    ghost var holder: Option<Holder>
    ghost var deletions: seq<Deletion>
    ghost var stoppings: seq<Stopping>
    ghost var kills: seq<Stopping>
    ghost var obeyed: set<Token>

    ghost function View(): World
      reads this
    {
      World(record, stopFile, servers, holder, deletions, stoppings, kills, obeyed)
    }

    ghost predicate Valid()
      reads this
    {
      LaunchInv(View())
    }

    constructor ()
      ensures Valid() && View() == INITIAL
    {
      record, stopFile, servers := Missing, Missing, map[];
      holder, deletions, stoppings, kills, obeyed := None, [], [], [], {};
    }

    predicate IsLive(x: Token)
      reads this
    {
      x in servers && Live(servers[x])
    }

    /** One step of one server: its watcher, its way out, or its death. */
    method ServerStep(e: Event)
      requires Valid() && !e.Acquire? && !e.Proceed?
      modifies `record, `servers, `deletions, `obeyed
      ensures Valid() && View() == Step(old(View()), e)
    {
      ServerStepKeeps(View(), e);
      if e.token !in servers { return; }
      match e
      case ObeyStop(x) =>
        if servers[x].Running? && stopFile == Full(x) {
          servers := servers[x := Exiting];
          obeyed := obeyed + {x};
        }
      case LeaveRun(x) => if servers[x].Running? { servers := servers[x := Exiting]; }
      case ReadAtExit(x) =>
        if servers[x].Exiting? { servers := servers[x := if record == Full(x) then Matched else Passed]; }
      case DeleteAtExit(x) =>
        if servers[x].Matched? {
          deletions := deletions + [Deletion(x, record)];
          servers := servers[x := Passed];
          record := Missing;
        }
      case Die(x) => servers := servers[x := Dead];
    }

    /** Any number of steps of the servers. */
    method Others()
      requires Valid()
      modifies `record, `servers, `deletions, `obeyed
      ensures Valid() && ServersMoved(old(View()), View()) && OnlyServersActed(old(View()), View())
    {
      ghost var events := [];
      var steps: nat := *;
      while steps > 0
        invariant Valid() && OnlyServers(events) && View() == After(old(View()), events)
      {
        var e: Event := *;
        if !e.Acquire? && !e.Proceed? {
          OneMore(old(View()), events, e);
          ServerStep(e);
          events := events + [e];
        }
        steps := steps - 1;
      }
      EventsMove(old(View()), events);
    }

    /** _retire_server(), for a server that is owned: ask, wait, kill, and clear both files. */
    method Retire(x: Token, ghost h: Holder)
      requires Valid() && holder == Some(h) && h.pc == LaunchProtocol.Retire(x, OpenStop)
      modifies this
      ensures Valid() && holder == Some(h.(pc := LaunchProtocol.Retire(x, DeleteStop)))
      ensures IsDead(View(), x) && record != Full(x) && stopFile == Full(x) && servers.Keys == old(servers.Keys)
      ensures stoppings == old(stoppings) + [Stopping(h.request, x)]
      ensures MayKill(old(kills), kills, Stopping(h.request, x)) && obeyed <= old(obeyed) + {x}
    {
      AskToStop(x, h);
      Others();
      AwaitOrKill(x, h);
      Others();
      ClearRecord(x, h);
    }

    method AskToStop(x: Token, ghost h: Holder)
      requires Valid() && holder == Some(h) && h.pc == LaunchProtocol.Retire(x, OpenStop)
      modifies this
      ensures Valid() && holder == Some(h.(pc := LaunchProtocol.Retire(x, AwaitExit)))
      ensures stopFile == Full(x) && servers.Keys == old(servers.Keys)
      ensures stoppings == old(stoppings) + [Stopping(h.request, x)]
      ensures kills == old(kills) && obeyed == old(obeyed)
    {
      ghost var w := View();
      stopFile, holder := Torn, Some(h.(pc := LaunchProtocol.Retire(x, WriteStop)));
      Advanced(w, View(), ANY);
      Others();
      w := View();
      stoppings := stoppings + [Stopping(h.request, x)];
      stopFile, holder := Full(x), Some(h.(pc := LaunchProtocol.Retire(x, AwaitExit)));
      Advanced(w, View(), ANY);
    }

    /** A process is killed. */
    method Kill(x: Token, ghost request: Request)
      modifies `servers, `kills
      ensures servers == old(servers)[x := Dead] && kills == old(kills) + [Stopping(request, x)]
    {
      servers := servers[x := Dead];
      kills := kills + [Stopping(request, x)];
    }

    /** process.wait(), and the forced stop when it takes too long. */
    method AwaitOrKill(x: Token, ghost h: Holder)
      requires Valid() && holder == Some(h.(pc := LaunchProtocol.Retire(x, AwaitExit)))
      modifies `servers, `holder, `kills
      ensures Valid() && holder == Some(h.(pc := LaunchProtocol.Retire(x, CompareRecord)))
      ensures IsDead(View(), x) && servers.Keys == old(servers.Keys)
      ensures MayKill(old(kills), kills, Stopping(h.request, x))
      ensures forall y :: y in servers && y != x ==> servers[y] == old(servers)[y]
    {
      ghost var w := View();
      if IsLive(x) { Kill(x, h.request); }
      holder := Some(h.(pc := LaunchProtocol.Retire(x, CompareRecord)));
      Advanced(w, View(), ANY.(giveUp := true));
    }

    method ClearRecord(x: Token, ghost h: Holder)
      requires Valid() && holder == Some(h.(pc := LaunchProtocol.Retire(x, CompareRecord)))
      modifies this
      ensures Valid() && holder == Some(h.(pc := LaunchProtocol.Retire(x, DeleteStop)))
      ensures IsDead(View(), x) && record != Full(x) && servers.Keys == old(servers.Keys)
      ensures stopFile == old(stopFile) && stoppings == old(stoppings)
      ensures kills == old(kills) && obeyed <= old(obeyed) + (if stopFile.Full? then {stopFile.token} else {})
    {
      ghost var w := View();
      var mine := record == Full(x);
      holder := Some(h.(pc := LaunchProtocol.Retire(x, if mine then DeleteRecord else DeleteStop)));
      Advanced(w, View(), ANY);
      if mine {
        Others();
        w := View();
        record, holder := Missing, Some(h.(pc := LaunchProtocol.Retire(x, DeleteStop)));
        Advanced(w, View(), ANY);
      }
    }

    /** The lock is taken and the record read. */
    method ReadUnderLock(ghost request: Request) returns (found: Option<Token>)
      requires Valid() && holder.None?
      modifies this
      ensures Valid() && holder == Some(Holder(request, Check(found))) && servers.Keys == old(servers.Keys)
      ensures stoppings == old(stoppings) && kills == old(kills) && obeyed == old(obeyed)
      ensures record == old(record) || record.Missing?
      ensures found.Some? ==> old(record) == Full(found.value)
      ensures OnlyServersActed(old(View()).(holder := Some(Holder(request, ReadRecord))),
                               View().(holder := Some(Holder(request, ReadRecord))))
    {
      holder := Some(Holder(request, ReadRecord));
      Others();
      ghost var w := View();
      found := Named(record);
      holder := Some(Holder(request, Check(found)));
      Advanced(w, View(), ANY);
    }

    /** The lock is given back, where the protocol's next step does just that. */
    method Release(ghost c: Choice)
      requires Valid() && holder.Some? && Step(View(), Proceed(c)) == View().(holder := None)
      modifies `holder
      ensures Valid() && holder.None?
    {
      ghost var w := View();
      holder := None;
      Advanced(w, View(), c);
    }

    /** The holder goes on, where the protocol's next step changes nothing else. */
    method Go(ghost c: Choice, ghost pc: Pc)
      requires Valid() && holder.Some? && Step(View(), Proceed(c)) == At(View(), pc)
      modifies `holder
      ensures Valid() && holder == Some(old(holder).value.(pc := pc))
    {
      ghost var w := View();
      holder := Some(holder.value.(pc := pc));
      Advanced(w, View(), c);
    }

    method DropStop(ghost h: Holder)
      requires Valid() && holder == Some(h) && h.pc.Retire? && h.pc.stage.DeleteStop? && h.pc.token in servers
      modifies `stopFile, `holder
      ensures Valid() && stopFile.Missing?
      ensures holder == if h.request.Stop? then None else Some(h.(pc := Reread(false)))
    {
      ghost var w := View();
      stopFile := Missing;
      holder := if h.request.Stop? then None else Some(h.(pc := Reread(false)));
      Advanced(w, View(), ANY);
    }

    /** _retire_server() as a whole, for a server found owned: it may have moved on before it is asked. */
    method RetireOwned(x: Token, ghost request: Request, ghost c: Choice)
      requires Valid() && holder.Some? && holder.value.request == request
      requires Step(View(), Proceed(c)) == At(View(), LaunchProtocol.Retire(x, OpenStop))
      modifies this
      ensures Valid() && holder == if request.Stop? then None else Some(Holder(request, Reread(false)))
      ensures IsDead(View(), x) && record != Full(x) && stopFile.Missing? && servers.Keys == old(servers.Keys)
      ensures stoppings == old(stoppings) + [Stopping(request, x)]
      ensures MayKill(old(kills), kills, Stopping(request, x)) && obeyed <= old(obeyed) + {x}
    {
      ghost var h := Holder(request, LaunchProtocol.Retire(x, OpenStop));
      Go(c, h.pc);
      Others();
      Retire(x, h);
      Others();
      DropStop(h.(pc := LaunchProtocol.Retire(x, DeleteStop)));
    }

    /** stop() */
    method Stop(expected: Option<Token>) returns (result: StopResult)
      requires Valid() && holder.None?
      modifies this
      ensures Valid() && holder.None? && servers.Keys == old(servers.Keys)
      ensures !result.Stopped? ==> ServersMoved(old(View()), View()) && OnlyServersActed(old(View()), View())
      ensures result.Stopped? ==>
                && old(record) == Full(result.token) && (expected.Some? ==> expected == Some(result.token))
                && IsDead(View(), result.token) && record != Full(result.token) && stopFile.Missing?
                && stoppings == old(stoppings) + [Stopping(Request.Stop(expected), result.token)]
                && MayKill(old(kills), kills, Stopping(Request.Stop(expected), result.token))
                && obeyed <= old(obeyed) + {result.token}
    {
      ghost var request := Request.Stop(expected);
      var found := ReadUnderLock(request);
      ghost var held := View().(holder := Some(Holder(request, ReadRecord)));
      Others();
      LookedOnly(old(View()), held, View(), Holder(request, ReadRecord), Holder(request, Check(found)));
      ActedMoves(old(View()), View().(holder := None));
      if expected.Some? && found != expected {
        Release(ANY);
        return NotOwned;
      }
      if found.None? || !IsLive(found.value) {
        Release(ANY);
        return NoServer;
      }
      RetireOwned(found.value, request, ANY);
      return Stopped(found.value);
    }

    /** Waits until another window's server answers, is gone, or has had its time. */
    method WaitForOther(x: Token) returns (existing: bool)
      requires Valid() && holder == Some(Holder(Start, LaunchProtocol.WaitForOther(x)))
      modifies this
      ensures Valid() && servers.Keys == old(servers.Keys) && stoppings == old(stoppings) && kills == old(kills)
      ensures holder == if existing then None else Some(Holder(Start, Reread(true)))
    {
      var polls: nat := *;
      while polls > 0 && IsLive(x)
        invariant Valid() && holder == Some(Holder(Start, LaunchProtocol.WaitForOther(x)))
        invariant servers.Keys == old(servers.Keys) && stoppings == old(stoppings) && kills == old(kills)
      {
        var healthy: bool := *;
        if healthy {
          Release(ANY.(healthy := true));
          return true;
        }
        Others();
        polls := polls - 1;
      }
      var healthy: bool := *;
      if IsLive(x) && !healthy {
        Release(ANY.(giveUp := true));
        return true;
      }
      Go(ANY.(giveUp := true, healthy := healthy), Reread(true));
      return false;
    }

    /** The record is read again, and what it names is waited for if that was not done before. */
    method Recheck(waited: bool) returns (existing: bool)
      requires Valid() && holder == Some(Holder(Start, Reread(waited)))
      modifies this
      ensures Valid() && servers.Keys == old(servers.Keys) && stoppings == old(stoppings) && kills == old(kills)
      ensures holder == if existing then None else Some(Holder(Start, LaunchProtocol.Spawn))
      decreases !waited
    {
      Others();
      var found := Named(record);
      Go(ANY, LaunchProtocol.Recheck(found, waited));
      Others();
      var otherPort: bool := *;
      if found.None? || !IsLive(found.value) {
        Go(ANY, LaunchProtocol.Spawn);
        return false;
      }
      if waited || otherPort {
        Release(ANY.(otherPort := otherPort));
        return true;
      }
      Go(ANY, LaunchProtocol.WaitForOther(found.value));
      existing := WaitForOther(found.value);
      if !existing { existing := Recheck(true); }
    }

    /** Popen, and the record of the new server. */
    method Spawn(x: Token)
      requires Valid() && holder == Some(Holder(Start, LaunchProtocol.Spawn)) && x !in servers
      modifies this
      ensures Valid() && holder == Some(Holder(Start, LaunchProtocol.AwaitReady(x)))
      ensures servers.Keys == old(servers.Keys) + {x} && stoppings == old(stoppings) && kills == old(kills)
    {
      ghost var w := View();
      servers, holder := servers[x := Running], Some(Holder(Start, OpenRecord(x)));
      Advanced(w, View(), ANY.(newToken := x));
      Others();
      Publish(x);
    }

    /** The record is emptied, then written. */
    method Publish(x: Token)
      requires Valid() && holder == Some(Holder(Start, OpenRecord(x)))
      modifies this
      ensures Valid() && holder == Some(Holder(Start, LaunchProtocol.AwaitReady(x)))
      ensures servers.Keys == old(servers.Keys) && stoppings == old(stoppings) && kills == old(kills)
    {
      ghost var w := View();
      record, holder := Torn, Some(Holder(Start, WriteRecord(x)));
      Advanced(w, View(), ANY);
      Others();
      w := View();
      record, holder := Full(x), Some(Holder(Start, LaunchProtocol.AwaitReady(x)));
      Advanced(w, View(), ANY);
    }

    /** The new server answers, or it is ended and its record withdrawn. */
    method AwaitReady(x: Token) returns (ready: bool)
      requires Valid() && holder == Some(Holder(Start, LaunchProtocol.AwaitReady(x))) && x in servers
      modifies this
      ensures Valid() && holder.None? && servers.Keys == old(servers.Keys) && stoppings == old(stoppings)
      ensures MayKill(old(kills), kills, Stopping(Start, x))
      ensures OnlyUnpassed(View(), Some(x)) && (!ready ==> IsDead(View(), x) && record != Full(x))
    {
      var polls: nat := *;
      while polls > 0 && IsLive(x)
        invariant Valid() && holder == Some(Holder(Start, LaunchProtocol.AwaitReady(x)))
        invariant servers.Keys == old(servers.Keys) && stoppings == old(stoppings) && kills == old(kills)
      {
        var healthy: bool := *;
        if healthy {
          Release(ANY.(healthy := true));
          return true;
        }
        Others();
        polls := polls - 1;
      }
      Go(ANY.(giveUp := true), LaunchProtocol.GiveUp(x));
      Withdraw(x);
      return false;
    }

    method Withdraw(x: Token)
      requires Valid() && holder == Some(Holder(Start, LaunchProtocol.GiveUp(x))) && x in servers
      modifies this
      ensures Valid() && holder.None? && servers.Keys == old(servers.Keys) && stoppings == old(stoppings)
      ensures MayKill(old(kills), kills, Stopping(Start, x))
      ensures IsDead(View(), x) && record != Full(x) && OnlyUnpassed(View(), Some(x))
    {
      Others();
      ghost var w := View();
      if IsLive(x) { Kill(x, Start); }
      holder := Some(Holder(Start, CompareOwn(x)));
      Advanced(w, View(), ANY);
      Others();
      Unpublish(x);
    }

    method Unpublish(x: Token)
      requires Valid() && holder == Some(Holder(Start, CompareOwn(x)))
      modifies this
      ensures Valid() && holder.None? && servers.Keys == old(servers.Keys)
      ensures stoppings == old(stoppings) && kills == old(kills)
      ensures IsDead(View(), x) && record != Full(x) && OnlyUnpassed(View(), Some(x))
    {
      if record == Full(x) {
        Go(ANY, DeleteOwn(x));
        Others();
        ghost var w := View();
        record, holder := Missing, None;
        Advanced(w, View(), ANY);
      } else {
        Release(ANY);
      }
    }

    /** The first part of start(): is there a server already? */
    method LookForServer() returns (existing: bool)
      requires Valid() && holder.None?
      modifies this
      ensures Valid() && servers.Keys == old(servers.Keys)
      ensures holder == if existing then None else Some(Holder(Start, LaunchProtocol.Spawn))
      ensures old(record).Full? ==> MayKill(old(kills), kills, Stopping(Start, old(record).token))
      ensures !old(record).Full? ==> kills == old(kills)
    {
      var found := ReadUnderLock(Start);
      Others();
      var otherPort: bool, deaf: bool := *, *;
      if found.None? || !IsLive(found.value) {
        Go(ANY, LaunchProtocol.Spawn);
        existing := false;
      } else {
        existing := Face(found.value, otherPort, deaf);
      }
    }

    /** The second part: a server of its own. */
    method LaunchOwn(newToken: Token) returns (ready: bool)
      requires Valid() && holder == Some(Holder(Start, LaunchProtocol.Spawn)) && newToken !in servers
      modifies this
      ensures Valid() && holder.None? && servers.Keys == old(servers.Keys) + {newToken}
      ensures OnlyUnpassed(View(), Some(newToken)) && (!ready ==> IsDead(View(), newToken) && record != Full(newToken))
      ensures MayKill(old(kills), kills, Stopping(Start, newToken))
    {
      Others();
      Spawn(newToken);
      Others();
      ready := AwaitReady(newToken);
    }

    /** start(); newToken is the token that secrets would give. */
    method Launch(newToken: Token) returns (result: StartResult)
      requires Valid() && holder.None? && newToken !in servers
      modifies this
      ensures Valid() && holder.None?
      ensures result.Started? || result.Failed? ==>
                result.token == newToken && servers.Keys == old(servers.Keys) + {newToken}
      ensures result.Existing? || result.Occupied? ==> servers.Keys == old(servers.Keys)
      ensures result.Started? ==> OnlyUnpassed(View(), Some(newToken))
      ensures result.Failed? ==> OnlyUnpassed(View(), None) && IsDead(View(), newToken) && record != Full(newToken)
      ensures old(kills) <= kills
      ensures forall i :: |old(kills)| <= i < |kills| ==>
                kills[i].request.Start? && (kills[i].token == newToken || old(record) == Full(kills[i].token))
    {
      var existing := LookForServer();
      if existing { return Existing; }
      Others();
      var taken: bool := *;
      if taken {
        Release(ANY.(taken := true));
        return Occupied;
      }
      var ready := LaunchOwn(newToken);
      return if ready then Started(newToken) else Failed(newToken);
    }

    /** _retire_server() by a start: it looks again whether the server is alive. */
    method Replace(x: Token)
      requires Valid() && holder == Some(Holder(Start, Check(Some(x)))) && IsLive(x)
      modifies this
      ensures Valid() && holder == Some(Holder(Start, Reread(false))) && servers.Keys == old(servers.Keys)
      ensures IsDead(View(), x)
      ensures stoppings == old(stoppings) || (stoppings == old(stoppings) + [Stopping(Start, x)] && record != Full(x))
      ensures MayKill(old(kills), kills, Stopping(Start, x))
    {
      Go(ANY.(replace := true), LaunchProtocol.Replace(x));
      Others();
      if IsLive(x) {
        RetireOwned(x, Start, ANY);
      } else {
        Go(ANY, Reread(false));
      }
    }

    /** A live server is there: on another port it stays, a deaf one is replaced, any other waited for. */
    method Face(x: Token, otherPort: bool, deaf: bool) returns (existing: bool)
      requires Valid() && holder == Some(Holder(Start, Check(Some(x)))) && IsLive(x)
      modifies this
      ensures Valid() && servers.Keys == old(servers.Keys)
      ensures holder == if existing then None else Some(Holder(Start, LaunchProtocol.Spawn))
      ensures MayKill(old(kills), kills, Stopping(Start, x))
    {
      if otherPort {
        Release(ANY.(otherPort := true));
        return true;
      }
      if deaf {
        Replace(x);
        existing := Recheck(false);
      } else {
        Go(ANY, LaunchProtocol.WaitForOther(x));
        existing := WaitForOther(x);
        if !existing { existing := Recheck(true); }
      }
    }
  }
}
