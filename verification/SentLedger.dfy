/**
 * The effects that a reply accounts for are exactly the effects found in the log of calls: nothing
 * is dispatched without being counted, and nothing is counted that was not dispatched.
 */
module SentLedger {
  import opened Options
  import opened Script
  import opened TabMachine
  import opened TabInvariants
  import opened TabHistory
  import Controller

  /** The effects that the command with this ticket dispatched, in order. */
  function EffectsIn(log: seq<Sent>, ticket: nat): seq<Method> {
    if log == [] then []
    else
      var last := log[|log| - 1];
      EffectsIn(log[..|log| - 1], ticket) + (if last.ticket == ticket && IsEffect(last.call) then [last.call] else [])
  }

  ghost predicate Ledger(t: Tab) {
    && (t.running.Some? ==> EffectsIn(t.log, t.running.value.ticket) == t.running.value.sent)
    && (forall i :: 0 <= i < |t.outcomes| ==> EffectsIn(t.log, i) == t.outcomes[i].sent)
    && (forall k :: |t.outcomes| + Busy(t) <= k ==> EffectsIn(t.log, k) == [])
  }

  lemma EffectsInAppend(log: seq<Sent>, e: Sent, ticket: nat)
    ensures EffectsIn(log + [e], ticket)
              == EffectsIn(log, ticket) + (if e.ticket == ticket && IsEffect(e.call) then [e.call] else [])
  {
    assert (log + [e])[..|log|] == log;
  }

  // -------------------------------------------------------------------- each event, each run

  lemma ShapedKeeps(t: Tab, t': Tab)
    requires Ledger(t) && InOrder(t) && Shaped(t, t')
    ensures Ledger(t')
  {
    if Sends(t, t') {
      var e := t'.log[|t.log|];
      assert t'.log == t.log + [e];
      forall k | 0 <= k
        ensures EffectsIn(t'.log, k)
                  == EffectsIn(t.log, k) + (if e.ticket == k && IsEffect(e.call) then [e.call] else [])
      {
        EffectsInAppend(t.log, e, k);
      }
    }
  }

  /** A command starts with nothing sent. */
  lemma StartKeepsLedger(t: Tab, t': Tab)
    requires Ledger(t) && InOrder(t) && Starts(t, t')
    ensures Ledger(t')
  {
    var c := t.queue[0];
    assert c == NewCommand(|t.outcomes|, c.session, c.lifetime, c.args);
  }

  ghost predicate LedgersKept(w: Controller.World) { forall t :: t in w.tabs ==> Ledger(w.tabs[t]) }

  lemma NewTabLedger()
    ensures Ledger(NewTab()) && InOrder(NewTab())
  {
  }

  lemma TabKeepsLedger(w: Controller.World, v: Controller.World, e: Controller.Event, t: nat)
    requires LedgersKept(w) && Controller.WorldInv(w) && v == Controller.Step(w, e)
    ensures Ledger(Controller.StateOf(v, t))
  {
    NewTabLedger();
    Controller.LocalSound(w, t);
    SoundQueuesFresh(w);
    StepFollows(w, e, v, t);
    var tab, tab' := Controller.StateOf(w, t), Controller.StateOf(v, t);
    if Shaped(tab, tab') { ShapedKeeps(tab, tab'); } else { StartKeepsLedger(tab, tab'); }
  }

  lemma {:induction false} RunKeepsLedgers(worlds: seq<Controller.World>, events: seq<Controller.Event>, k: nat)
    requires Controller.IsRun(worlds, events) && k <= |events|
    ensures LedgersKept(worlds[k])
  {
    if k != 0 {
      RunKeepsLedgers(worlds, events, k - 1);
      Controller.RunSound(worlds, events, k - 1);
      forall t | t in worlds[k].tabs
        ensures Ledger(worlds[k].tabs[t])
      {
        TabKeepsLedger(worlds[k - 1], worlds[k], events[k - 1], t);
      }
    }
  }

  /** The effects behind every reply are exactly those in the log, so its phase speaks of real calls. */
  lemma RepliesAccountForTheLog(w: Controller.World, t: nat, i: nat)
    requires Controller.Reachable(w) && i < |Controller.StateOf(w, t).outcomes|
    ensures var tab := Controller.StateOf(w, t);
            && EffectsIn(tab.log, i) == tab.outcomes[i].sent
            && (tab.outcomes[i].phase.NotDispatched? ==>
                  forall k :: 0 <= k < |tab.log| && tab.log[k].ticket == i ==> !IsEffect(tab.log[k].call))
  {
    var worlds, events :| Controller.IsRun(worlds, events) && worlds[|events|] == w;
    RunKeepsLedgers(worlds, events, |events|);
    NewTabLedger();
    Controller.PhasesTellTheTruth(w, t, i);
    NoEffectsIn(Controller.StateOf(w, t).log, i);
  }

  lemma {:induction false} NoEffectsIn(log: seq<Sent>, ticket: nat)
    ensures EffectsIn(log, ticket) == [] ==>
              forall k :: 0 <= k < |log| && log[k].ticket == ticket ==> !IsEffect(log[k].call)
  {
    if log != [] {
      NoEffectsIn(log[..|log| - 1], ticket);
    }
  }
}
