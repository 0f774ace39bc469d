/**
 * The listener watchdog: a thread that probes the server's port and, after enough failed probes in a
 * row, has the event loop rebuild the listener.
 */
module Watchdog {
  import opened Options

  datatype Config = Config(interval: real, allowed: int)

  /** What comes of an attempt to rebuild. Only NoLoop happens before the rebuild reaches the event loop. */
  datatype Rebuild = NoLoop | Reopened | Declined | Raised | RaisedTimeout | TimedOut

  /** What one pass finds: the server's flags, whether its port answers, and what an attempt would come to. */
  datatype Probe = Probe(started: bool, exiting: bool, answers: bool, rebuild: Rebuild)

  /** A rebuild handed to the event loop that the watchdog still remembers. */
  datatype Future = Future(done: bool)

  datatype Kind = Busy | NotRunning | Answering | Failing

  /** One pass as it happened: its highest count of misses, and the rebuild it handed over, if any. */
  datatype Pass = Pass(kind: Kind, peak: int, scheduled: bool, unfinishedBefore: nat, failed: bool)

  /** `unfinished` counts the rebuilds in the event loop, and `passes` is the history; the thread sees neither. */
  datatype State = State(misses: int, delay: real, pending: Option<Future>, unfinished: nat, passes: seq<Pass>)

  datatype Event = LoopFinishes | Wake(probe: Probe)

  function Initial(c: Config): State { State(0, c.interval, None, 0, []) }

  function Pause(c: Config): real { if c.interval * 4.0 < 60.0 then c.interval * 4.0 else 60.0 }

  /** The attempt at the end of a pass. */
  function Attempt(c: Config, s: State, r: Rebuild): State {
    var scheduled := !r.NoLoop?;
    var failed := !r.Reopened? && !r.RaisedTimeout? && !r.TimedOut?;
    s.(misses := if failed then c.allowed - 1 else 0,
       delay := if failed then Pause(c) else c.interval,
       pending := if r.TimedOut? then Some(Future(false)) else if r.RaisedTimeout? then Some(Future(true)) else None,
       unfinished := if r.TimedOut? then s.unfinished + 1 else s.unfinished,
       passes := s.passes + [Pass(Failing, s.misses + 1, scheduled, s.unfinished, failed)])
  }

  /** One pass of the loop, after its wait. */
  function OnWake(c: Config, s: State, p: Probe): State {
    if s.pending.Some? && !s.pending.value.done then
      s.(delay := c.interval, passes := s.passes + [Pass(Busy, s.misses, false, s.unfinished, false)])
    else
      var free := s.(delay := c.interval, pending := None);
      if !p.started || p.exiting then
        free.(misses := 0, passes := s.passes + [Pass(NotRunning, s.misses, false, s.unfinished, false)])
      else if p.answers then
        free.(misses := 0, passes := s.passes + [Pass(Answering, s.misses, false, s.unfinished, false)])
      else if s.misses + 1 < c.allowed then
        free.(misses := s.misses + 1, passes := s.passes + [Pass(Failing, s.misses + 1, false, s.unfinished, false)])
      else Attempt(c, free, p.rebuild)
  }

  /** The event loop gets to a rebuild and finishes it. */
  function OnFinish(s: State): State {
    if s.unfinished == 0 then s
    else s.(unfinished := s.unfinished - 1, pending := if s.pending.Some? then Some(Future(true)) else None)
  }

  function Step(c: Config, s: State, e: Event): State {
    match e
    case LoopFinishes => OnFinish(s)
    case Wake(p) => OnWake(c, s, p)
  }

  function After(c: Config, events: seq<Event>): State {
    if events == [] then Initial(c) else Step(c, After(c, events[..|events| - 1]), events[|events| - 1])
  }

  // ------------------------------------------------------------------------------ invariants

  /** How many probes at the end of the history failed in a row. A pass that waits for a rebuild probes nothing. */
  function Streak(passes: seq<Pass>): nat {
    if passes == [] then 0
    else
      var before := Streak(passes[..|passes| - 1]);
      match passes[|passes| - 1].kind
      case Busy => before
      case Failing => before + 1
      case _ => 0
  }

  /** A rebuild is handed over only when none is unfinished, by a running server, after enough failing probes. */
  predicate Justified(c: Config, passes: seq<Pass>, k: nat)
    requires k < |passes|
  {
    passes[k].scheduled ==>
        passes[k].kind.Failing? && passes[k].unfinishedBefore == 0 && Streak(passes[..k + 1]) >= c.allowed
  }

  predicate PassSound(c: Config, passes: seq<Pass>, k: nat)
    requires k < |passes|
  {
    Justified(c, passes, k) && (c.allowed >= 1 ==> passes[k].peak <= c.allowed)
  }

  predicate WatchInv(c: Config, s: State) {
    && s.unfinished == (if s.pending.Some? && !s.pending.value.done then 1 else 0)
    && s.misses <= Streak(s.passes)
    && (c.allowed >= 1 ==> 0 <= s.misses < c.allowed)
    && s.delay == (if s.passes != [] && s.passes[|s.passes| - 1].failed then Pause(c) else c.interval)
    && forall k :: 0 <= k < |s.passes| ==> PassSound(c, s.passes, k)
  }

  lemma PassKeeps(c: Config, passes: seq<Pass>, pass: Pass)
    requires forall k :: 0 <= k < |passes| ==> PassSound(c, passes, k)
    requires pass.scheduled ==> pass.kind.Failing? && pass.unfinishedBefore == 0 && Streak(passes) + 1 >= c.allowed
    requires c.allowed >= 1 ==> pass.peak <= c.allowed
    ensures forall k :: 0 <= k < |passes| + 1 ==> PassSound(c, passes + [pass], k)
    ensures Streak(passes + [pass])
              == match pass.kind case Busy => Streak(passes) case Failing => Streak(passes) + 1 case _ => 0
  {
    var longer := passes + [pass];
    StreakAppend(passes, pass);
    forall k | 0 <= k < |longer|
      ensures PassSound(c, longer, k)
    {
      if k < |passes| {
        assert PassSound(c, passes, k);
        assert longer[..k + 1] == passes[..k + 1];
      } else {
        assert longer[..k + 1] == longer;
      }
    }
  }

  lemma StreakAppend(passes: seq<Pass>, pass: Pass)
    ensures Streak(passes + [pass])
              == match pass.kind case Busy => Streak(passes) case Failing => Streak(passes) + 1 case _ => 0
  {
    assert (passes + [pass])[..|passes|] == passes;
  }

  lemma AttemptKeeps(c: Config, s: State, r: Rebuild)
    requires WatchInv(c, s) && s.unfinished == 0 && s.misses + 1 >= c.allowed
    ensures WatchInv(c, Attempt(c, s.(delay := c.interval, pending := None), r))
  {
    var failed := !r.Reopened? && !r.RaisedTimeout? && !r.TimedOut?;
    PassKeeps(c, s.passes, Pass(Failing, s.misses + 1, !r.NoLoop?, s.unfinished, failed));
  }

  /** A pass that hands over nothing. */
  lemma QuietKeeps(c: Config, s: State, v: State, pass: Pass)
    requires WatchInv(c, s) && v.passes == s.passes + [pass] && !pass.scheduled && !pass.failed && v.delay == c.interval
    requires v.unfinished == s.unfinished
               && (v.pending == s.pending || (v.pending.None? && s.pending.Some? && s.pending.value.done))
    requires pass.kind.Busy? ==> v.misses == s.misses && pass.peak == s.misses
    requires pass.kind.NotRunning? || pass.kind.Answering? ==> v.misses == 0 && pass.peak == s.misses
    requires pass.kind.Failing? ==> v.misses == s.misses + 1 == pass.peak < c.allowed
    ensures WatchInv(c, v)
  {
    PassKeeps(c, s.passes, pass);
  }

  lemma WakeKeeps(c: Config, s: State, p: Probe)
    requires WatchInv(c, s)
    ensures WatchInv(c, OnWake(c, s, p))
  {
    var v := OnWake(c, s, p);
    var pass := v.passes[|s.passes|];
    if s.pending.Some? && !s.pending.value.done {
      QuietKeeps(c, s, v, pass);
    } else if p.started && !p.exiting && !p.answers && s.misses + 1 >= c.allowed {
      AttemptKeeps(c, s, p.rebuild);
    } else {
      QuietKeeps(c, s, v, pass);
    }
  }

  lemma StepKeeps(c: Config, s: State, e: Event)
    requires WatchInv(c, s)
    ensures WatchInv(c, Step(c, s, e))
  {
    match e
    case LoopFinishes =>
    case Wake(p) => WakeKeeps(c, s, p);
  }

  lemma {:induction false} EveryRunSound(c: Config, events: seq<Event>)
    ensures WatchInv(c, After(c, events))
  {
    if events != [] {
      EveryRunSound(c, events[..|events| - 1]);
      StepKeeps(c, After(c, events[..|events| - 1]), events[|events| - 1]);
    }
  }

  // --------------------------------------------------------------------------- main results

  /** Never two unfinished rebuilds, and the watchdog remembers the one there is. */
  lemma AtMostOneRebuild(c: Config, events: seq<Event>)
    ensures var s := After(c, events);
            s.unfinished <= 1 && (s.unfinished == 1 <==> s.pending.Some? && !s.pending.value.done)
  {
    EveryRunSound(c, events);
  }

  /** Every rebuild follows enough failing probes in a row of a running server, and starts alone. */
  lemma RebuildsJustified(c: Config, events: seq<Event>, k: nat)
    requires k < |After(c, events).passes| && After(c, events).passes[k].scheduled
    ensures var passes := After(c, events).passes;
            passes[k].kind.Failing? && passes[k].unfinishedBefore == 0 && Streak(passes[..k + 1]) >= c.allowed
  {
    EveryRunSound(c, events);
    assert PassSound(c, After(c, events).passes, k);
  }

  /** The pause is one of two constants: it does not grow with the failures in a row. */
  lemma PauseNeverGrows(c: Config, events: seq<Event>)
    ensures var s := After(c, events);
            s.delay == if s.passes != [] && s.passes[|s.passes| - 1].failed then Pause(c) else c.interval
  {
    EveryRunSound(c, events);
  }

  const FAILING := Wake(Probe(true, false, false, NoLoop))

  ghost predicate MissesBounded(c: Config) {
    forall events, k :: 0 <= k < |After(c, events).passes| ==> After(c, events).passes[k].peak <= c.allowed
  }

  /** In every run misses stay within the allowance, if and only if at least one miss is allowed. */
  lemma MissesWithinAllowance(c: Config)
    ensures MissesBounded(c) <==> c.allowed >= 1
  {
    if c.allowed >= 1 {
      forall events, k | 0 <= k < |After(c, events).passes|
        ensures After(c, events).passes[k].peak <= c.allowed
      {
        EveryRunSound(c, events);
        assert PassSound(c, After(c, events).passes, k);
      }
    } else {
      var run := [FAILING];
      assert run[..0] == [];
      assert After(c, run) == OnWake(c, Initial(c), FAILING.probe);
      assert After(c, run).passes[0].peak == 1;
    }
  }

  // ---------------------------------------------------------------------------- the thread

  class ListenerWatchdog {
    const config: Config
    var misses: int
    var delay: real
    var pending: Option<Future>
    ghost var unfinished: nat
    ghost var passes: seq<Pass>

    ghost function View(): State
      reads this
    {
      State(misses, delay, pending, unfinished, passes)
    }

    ghost predicate Valid()
      reads this
    {
      WatchInv(config, View())
    }

    constructor (c: Config)
      ensures Valid() && config == c && View() == Initial(c)
    {
      config, misses, delay, pending := c, 0, c.interval, None;
      unfinished, passes := 0, [];
    }

    /** The body of the loop. */
    method OnePass(p: Probe)
      requires Valid()
      modifies this
      ensures Valid() && View() == Step(config, old(View()), Wake(p))
    {
      StepKeeps(config, View(), Wake(p));
      Look(p);
    }

    method Look(p: Probe)
      modifies this
      ensures View() == OnWake(config, old(View()), p)
    {
      delay := config.interval;
      if pending.Some? {
        if !pending.value.done {
          passes := passes + [Pass(Busy, misses, false, unfinished, false)];
          return;
        }
        pending := None;
      }
      if !p.started || p.exiting || p.answers {
        var kind := if !p.started || p.exiting then NotRunning else Answering;
        passes := passes + [Pass(kind, misses, false, unfinished, false)];
        misses := 0;
        return;
      }
      misses := misses + 1;
      if misses < config.allowed {
        passes := passes + [Pass(Failing, misses, false, unfinished, false)];
        return;
      }
      Rebuild(p.rebuild);
    }

    /** The attempt, from the handing over of the rebuild to its result. */
    method Rebuild(r: Rebuild)
      requires pending.None? && delay == config.interval
      modifies this
      ensures View() == Attempt(config, old(View()).(misses := old(misses) - 1), r)
    {
      var failed := r.NoLoop? || r.Declined? || r.Raised?;
      passes := passes + [Pass(Failing, misses, !r.NoLoop?, unfinished, failed)];
      if r.TimedOut? || r.RaisedTimeout? {
        pending := Some(Future(r.RaisedTimeout?));
        if r.TimedOut? { unfinished := unfinished + 1; }
        misses := 0;
        return;
      }
      var ok := r.Reopened?;
      misses := if ok then 0 else config.allowed - 1;
      if !ok { delay := if config.interval * 4.0 < 60.0 then config.interval * 4.0 else 60.0; }
    }

    /** The event loop runs the rebuild that the watchdog stopped waiting for. */
    method Finish()
      requires Valid()
      modifies this
      ensures Valid() && View() == Step(config, old(View()), LoopFinishes)
    {
      StepKeeps(config, View(), LoopFinishes);
      if pending.Some? && !pending.value.done { pending := Some(Future(true)); }
      unfinished := 0;
    }
  }
}
