/**
 * Which processes survive a server: the forced stop, the normal exit and the emergency stopper each
 * work it out in their own way. All three read one snapshot of the process table.
 */
module ProcessTree {
  import opened Options

  /** A live process: its parent, and its creation time where it can be read. */
  datatype Proc = Proc(ppid: nat, created: Option<real>)
  type Table = map<nat, Proc>

  /**
   * What a ledger entry holds under "created": a number (0 when missing), an integer too big for a
   * float, or something that is no number at all.
   */
  datatype Record = NoDict | BadTime | TooBig | Created(at: real)

  /** A ledger entry; pid is None when its key is no integer. */
  datatype Entry = Entry(pid: Option<nat>, record: Record)

  /** The ledger file: unreadable, an empty value, some other value that is no dictionary, or entries. */
  datatype Ledger = Unreadable | Empty | NoEntries | Entries(list: seq<Entry>)

  const TOLERANCE := 0.01

  predicate Near(a: real, b: real) { -TOLERANCE <= a - b <= TOLERANCE }

  predicate Matches(t: Table, e: Entry) {
    && e.pid.Some? && e.pid.value in t && t[e.pid.value].created.Some?
    && e.record.Created? && Near(t[e.pid.value].created.value, e.record.at)
  }

  function EntriesOf(l: Ledger): seq<Entry> { if l.Entries? then l.list else [] }

  /** The processes that the ledger proves to be the ones recorded. */
  function Roots(t: Table, l: Ledger): set<nat> {
    set i | 0 <= i < |EntriesOf(l)| && Matches(t, EntriesOf(l)[i]) :: EntriesOf(l)[i].pid.value
  }

  // ----------------------------------------------------------------- ancestors in the table

  /** n steps from a process to its parents. */
  function Ancestor(t: Table, d: nat, n: nat): Option<nat>
    decreases n
  {
    if n == 0 then Some(d) else if d !in t then None else Ancestor(t, t[d].ppid, n - 1)
  }

  /** d is a child of r, or a child of a child, and so on. */
  ghost predicate Below(t: Table, r: nat, d: nat) {
    exists n: nat :: n >= 1 && Ancestor(t, d, n) == Some(r)
  }

  ghost predicate AtOrBelow(t: Table, r: nat, d: nat) { d == r || Below(t, r, d) }

  lemma {:induction false} AncestorSum(t: Table, d: nat, m: nat, n: nat)
    requires Ancestor(t, d, m).Some?
    ensures Ancestor(t, d, m + n) == Ancestor(t, Ancestor(t, d, m).value, n)
    decreases m
  {
    if m != 0 { AncestorSum(t, t[d].ppid, m - 1, n); }
  }

  lemma BelowIsLive(t: Table, r: nat, d: nat)
    requires Below(t, r, d)
    ensures d in t
  {
  }

  lemma ChildBelow(t: Table, r: nat, d: nat)
    requires d in t && AtOrBelow(t, r, t[d].ppid)
    ensures Below(t, r, d)
  {
    if t[d].ppid == r {
      assert Ancestor(t, r, 0) == Some(r);
      assert Ancestor(t, d, 1) == Some(r);
    } else {
      var n: nat :| n >= 1 && Ancestor(t, t[d].ppid, n) == Some(r);
      assert Ancestor(t, d, n + 1) == Some(r);
    }
  }

  lemma ParentOf(t: Table, r: nat, d: nat)
    requires Below(t, r, d)
    ensures d in t && AtOrBelow(t, r, t[d].ppid)
  {
    var n: nat :| n >= 1 && Ancestor(t, d, n) == Some(r);
    assert Ancestor(t, d, n) == Ancestor(t, t[d].ppid, n - 1);
  }

  /** Two ancestors of one process are one above the other. */
  lemma OneLine(t: Table, p: nat, r: nat, d: nat)
    requires Below(t, p, d) && Below(t, r, d)
    ensures r == p || Below(t, p, r) || Below(t, r, p)
  {
    var i: nat :| i >= 1 && Ancestor(t, d, i) == Some(r);
    var j: nat :| j >= 1 && Ancestor(t, d, j) == Some(p);
    if i < j {
      AncestorSum(t, d, i, j - i);
    } else if j < i {
      AncestorSum(t, d, j, i - j);
    }
  }

  lemma BelowTransitive(t: Table, p: nat, r: nat, d: nat)
    requires Below(t, p, r) && Below(t, r, d)
    ensures Below(t, p, d)
  {
    var i: nat :| i >= 1 && Ancestor(t, d, i) == Some(r);
    var j: nat :| j >= 1 && Ancestor(t, r, j) == Some(p);
    AncestorSum(t, d, i, j);
  }

  // --------------------------------------------------------------------- growing by parents

  /** What a loop over processes sees of each: its pid and, when readable, its parent's. */
  datatype Link = Link(pid: nat, parent: Option<nat>)

  predicate Joins(link: Link, s: set<nat>) { link.parent.Some? && link.parent.value in s }

  predicate Closed(links: seq<Link>, s: set<nat>) {
    forall i :: 0 <= i < |links| && Joins(links[i], s) ==> links[i].pid in s
  }

  /** The least set that contains the roots and, with a process, all its linked children. */
  ghost predicate IsClosure(links: seq<Link>, roots: set<nat>, s: set<nat>) {
    && roots <= s && Closed(links, s)
    && forall other: set<nat> :: roots <= other && Closed(links, other) ==> s <= other
  }

  function Pids(links: seq<Link>): set<nat> { set i | 0 <= i < |links| :: links[i].pid }

  /** The loop that grows a set in place until nothing is added. */
  method GrowByParent(links: seq<Link>, roots: set<nat>) returns (grown: set<nat>)
    ensures IsClosure(links, roots, grown)
    ensures grown <= roots + Pids(links)
  {
    grown := roots;
    var changed := true;
    while changed
      invariant roots <= grown <= roots + Pids(links)
      invariant forall other: set<nat> :: roots <= other && Closed(links, other) ==> grown <= other
      invariant !changed ==> Closed(links, grown)
      decreases |roots + Pids(links) - grown|, changed
    {
      ghost var before := grown;
      changed := false;
      for i := 0 to |links|
        invariant before <= grown <= roots + Pids(links)
        invariant forall other: set<nat> :: roots <= other && Closed(links, other) ==> grown <= other
        invariant if changed then before != grown else before == grown
        invariant !changed ==> forall j :: 0 <= j < i && Joins(links[j], grown) ==> links[j].pid in grown
      {
        var child := links[i];
        if child.pid !in grown && child.parent.Some? && child.parent.value in grown {
          assert child.pid in Pids(links);
          grown := grown + {child.pid};
          changed := true;
        }
      }
      if changed { SmallerRest(roots + Pids(links), before, grown); }
    }
  }

  lemma SmallerRest(all: set<nat>, before: set<nat>, grown: set<nat>)
    requires before < grown <= all
    ensures |all - grown| < |all - before|
  {
    assert !(grown <= before);
    var x :| x in grown && x !in before;
    assert all - grown <= (all - before) - {x};
    Subset(all - grown, (all - before) - {x});
  }

  lemma {:induction false} Subset(a: set<nat>, b: set<nat>)
    requires a <= b
    ensures |a| <= |b|
    decreases |a|
  {
    if a != {} {
      var x :| x in a;
      Subset(a - {x}, b - {x});
    }
  }

  // --------------------------------------------------------- the closure, in terms of ancestors

  /** The links list exactly some processes of the table, with their true parents. */
  predicate Truthful(t: Table, links: seq<Link>) {
    forall i :: 0 <= i < |links| ==> links[i].pid in t && links[i].parent == Some(t[links[i].pid].ppid)
  }

  /** A set that, with a process below a root, lists everything between them. */
  ghost predicate Convexly(t: Table, roots: set<nat>, s: set<nat>) {
    forall r, d :: r in roots && d in s && Below(t, r, d) ==> t[d].ppid == r || t[d].ppid in s
  }

  ghost function UnderRoots(t: Table, roots: set<nat>, s: set<nat>): set<nat> {
    roots + set d | d in s && exists r :: r in roots && Below(t, r, d)
  }

  lemma UnderRootsClosed(t: Table, links: seq<Link>, roots: set<nat>)
    requires Truthful(t, links)
    ensures Closed(links, UnderRoots(t, roots, Pids(links)))
  {
    var s := UnderRoots(t, roots, Pids(links));
    forall i | 0 <= i < |links| && Joins(links[i], s)
      ensures links[i].pid in s
    {
      var d := links[i].pid;
      var q := t[d].ppid;
      if q in roots {
        ChildBelow(t, q, d);
      } else {
        var r :| r in roots && Below(t, r, q);
        ChildBelow(t, r, d);
      }
    }
  }

  lemma {:induction false} Inherited(t: Table, links: seq<Link>, roots: set<nat>, s: set<nat>, r: nat, d: nat, n: nat)
    requires Truthful(t, links) && Convexly(t, roots, Pids(links)) && roots <= s && Closed(links, s)
    requires r in roots && d in Pids(links) && Ancestor(t, d, n) == Some(r)
    ensures d in s
    decreases n
  {
    if n != 0 {
      var i :| 0 <= i < |links| && links[i].pid == d;
      assert Below(t, r, d);
      var q := t[d].ppid;
      if q != r { Inherited(t, links, roots, s, r, q, n - 1); }
      assert Joins(links[i], s);
    }
  }

  /** The loop's result is the roots with everything listed below them. */
  lemma ClosureIsUnderRoots(t: Table, links: seq<Link>, roots: set<nat>, s: set<nat>)
    requires Truthful(t, links) && Convexly(t, roots, Pids(links)) && IsClosure(links, roots, s)
    ensures s == UnderRoots(t, roots, Pids(links))
  {
    UnderRootsClosed(t, links, roots);
    assert s <= UnderRoots(t, roots, Pids(links));
    forall d | d in UnderRoots(t, roots, Pids(links))
      ensures d in s
    {
      if d !in roots {
        var r :| r in roots && Below(t, r, d);
        var n: nat :| n >= 1 && Ancestor(t, d, n) == Some(r);
        Inherited(t, links, roots, s, r, d, n);
      }
    }
  }

  // ---------------------------------------------------------------------- the forced stop

  /** process.children(recursive=True): every process below, each once. */
  ghost predicate Lists(t: Table, p: nat, children: seq<nat>) {
    && (forall d :: d in children <==> Below(t, p, d))
    && (forall i, j :: 0 <= i < j < |children| ==> children[i] != children[j])
  }

  function LinksOf(t: Table, children: seq<nat>): seq<Link>
    requires forall i :: 0 <= i < |children| ==> children[i] in t
  {
    seq(|children|, i requires 0 <= i < |children| => Link(children[i], Some(t[children[i]].ppid)))
  }

  /** A ledger entry protects a descendant of this very server that it proves to be the one recorded. */
  predicate Protects(t: Table, p: nat, children: seq<nat>, e: Entry) {
    Matches(t, e) && e.pid.value != p && e.pid.value in children && e.record.at > 0.0
  }

  function ForcedRoots(t: Table, p: nat, children: seq<nat>, l: Ledger): set<nat> {
    set i | 0 <= i < |EntriesOf(l)| && Protects(t, p, children, EntriesOf(l)[i]) :: EntriesOf(l)[i].pid.value
  }

  function Reversed(s: seq<nat>): seq<nat> { if s == [] then [] else Reversed(s[1..]) + [s[0]] }

  function Without(s: seq<nat>, kept: set<nat>): seq<nat> {
    if s == [] then [] else (if s[0] in kept then [] else [s[0]]) + Without(s[1..], kept)
  }

  lemma {:induction false} WithoutElements(s: seq<nat>, kept: set<nat>)
    ensures forall d :: d in Without(s, kept) <==> d in s && d !in kept
  {
    if s != [] {
      WithoutElements(s[1..], kept);
      assert s == [s[0]] + s[1..];
    }
  }

  lemma {:induction false} ReversedElements(s: seq<nat>)
    ensures forall d :: d in Reversed(s) <==> d in s
  {
    if s != [] {
      ReversedElements(s[1..]);
      assert s == [s[0]] + s[1..];
    }
  }

  /** A time that no float holds, of any process but the server: the conversion raises, and nothing catches it. */
  predicate UpsetsStop(p: nat, e: Entry) { e.pid.Some? && e.pid.value != p && e.record.TooBig? }

  predicate LedgerUpsetsStop(p: nat, l: Ledger) {
    exists i :: 0 <= i < |EntriesOf(l)| && UpsetsStop(p, EntriesOf(l)[i])
  }

  /** The roots that the ledger protects, entry by entry. */
  method ProtectedRoots(t: Table, p: nat, children: seq<nat>, l: Ledger) returns (raised: bool, roots: set<nat>)
    ensures raised <==> LedgerUpsetsStop(p, l)
    ensures !raised ==> roots == ForcedRoots(t, p, children, l)
  {
    raised, roots := false, {};
    var entries := EntriesOf(l);
    for i := 0 to |entries|
      invariant forall j :: 0 <= j < i ==> !UpsetsStop(p, entries[j])
      invariant roots == set j | 0 <= j < i && Protects(t, p, children, entries[j]) :: entries[j].pid.value
    {
      var e := entries[i];
      if e.pid.None? || e.pid.value == p || e.record.NoDict? { continue; }
      if e.record.TooBig? {
        assert UpsetsStop(p, entries[i]);
        return true, {};
      }
      if e.pid.value in children && e.record.Created? && e.record.at > 0.0 && e.pid.value in t
         && t[e.pid.value].created.Some? && Near(t[e.pid.value].created.value, e.record.at) {
        roots := roots + {e.pid.value};
      }
    }
  }

  /** terminate_managed_server_tree(): whom it spares, and whom it ends, deepest last found first, the server last. */
  method ForcedStop(t: Table, p: nat, children: seq<nat>, l: Ledger)
    returns (raised: bool, spared: set<nat>, doomed: seq<nat>)
    requires Lists(t, p, children)
    ensures raised <==> LedgerUpsetsStop(p, l)
    ensures raised ==> doomed == []
    ensures !raised ==> IsForcedStop(t, p, children, l, spared) && doomed == Reversed(Without(children, spared)) + [p]
  {
    forall i | 0 <= i < |children|
      ensures children[i] in t
    {
      assert children[i] in children;
      BelowIsLive(t, p, children[i]);
    }
    spared, doomed := {}, [];
    var roots;
    raised, roots := ProtectedRoots(t, p, children, l);
    if raised { return; }
    spared := GrowByParent(LinksOf(t, children), roots);
    var i := |children|;
    assert children[i..] == [];
    while i > 0
      invariant 0 <= i <= |children|
      invariant doomed == Reversed(Without(children[i..], spared))
    {
      i := i - 1;
      assert children[i..][1..] == children[i + 1..] && children[i..][0] == children[i];
      ghost var rest := Without(children[i + 1..], spared);
      if children[i] !in spared {
        assert ([children[i]] + rest)[1..] == rest;
        doomed := doomed + [children[i]];
      } else {
        assert Without(children[i..], spared) == rest;
      }
    }
    assert children[0..] == children;
    doomed := doomed + [p];
  }

  ghost predicate IsForcedStop(t: Table, p: nat, children: seq<nat>, l: Ledger, spared: set<nat>) {
    && (forall i :: 0 <= i < |children| ==> children[i] in t)
    && IsClosure(LinksOf(t, children), ForcedRoots(t, p, children, l), spared)
  }

  lemma ForcedShape(t: Table, p: nat, children: seq<nat>, l: Ledger)
    requires Lists(t, p, children) && forall i :: 0 <= i < |children| ==> children[i] in t
    ensures var links := LinksOf(t, children);
            && Truthful(t, links) && Pids(links) == (set d | d in children)
            && Convexly(t, ForcedRoots(t, p, children, l), Pids(links))
    ensures ForcedRoots(t, p, children, l) <= (set d | d in children)
  {
    var links, roots := LinksOf(t, children), ForcedRoots(t, p, children, l);
    forall d | d in children
      ensures d in Pids(links)
    {
      var i :| 0 <= i < |children| && children[i] == d;
      assert links[i].pid == d;
    }
    forall r, d | r in roots && d in Pids(links) && Below(t, r, d)
      ensures t[d].ppid == r || t[d].ppid in Pids(links)
    {
      ParentOf(t, r, d);
      if t[d].ppid != r { BelowTransitive(t, p, r, t[d].ppid); }
    }
  }

  /** The forced stop spares exactly the verified descendants and everything below them. */
  lemma ForcedSpares(t: Table, p: nat, children: seq<nat>, l: Ledger, spared: set<nat>)
    requires Lists(t, p, children) && IsForcedStop(t, p, children, l, spared)
    ensures forall d :: d in spared <==>
              Below(t, p, d) && exists r :: r in ForcedRoots(t, p, children, l) && AtOrBelow(t, r, d)
  {
    var links, roots := LinksOf(t, children), ForcedRoots(t, p, children, l);
    ForcedShape(t, p, children, l);
    ClosureIsUnderRoots(t, links, roots, spared);
    forall d
      ensures d in spared <==> Below(t, p, d) && exists r :: r in roots && AtOrBelow(t, r, d)
    {
      if d in spared && d in roots { assert AtOrBelow(t, d, d); }
      if d in spared && d !in roots {
        var r :| r in roots && Below(t, r, d);
        assert AtOrBelow(t, r, d);
      }
    }
  }

  /** Spared and doomed part the server and its descendants between them; the server is always doomed. */
  lemma ForcedPartition(t: Table, p: nat, children: seq<nat>, l: Ledger, spared: set<nat>, doomed: seq<nat>)
    requires Lists(t, p, children) && IsForcedStop(t, p, children, l, spared) && !Below(t, p, p)
    requires doomed == Reversed(Without(children, spared)) + [p]
    ensures doomed[|doomed| - 1] == p && p !in spared
    ensures forall d :: AtOrBelow(t, p, d) <==> d in spared || d in doomed
    ensures forall d :: !(d in spared && d in doomed)
  {
    ForcedSpares(t, p, children, l, spared);
    WithoutElements(children, spared);
    ReversedElements(Without(children, spared));
  }

  // ---------------------------------------------------------------------- the normal exit

  /** A process is kept at the normal exit when it is a verified root or below one. */
  ghost predicate KeptAtExit(t: Table, l: Ledger, d: nat) {
    exists r :: r in Roots(t, l) && AtOrBelow(t, r, d)
  }

  /** A value that is no dictionary where one is expected, or a time that no float holds, of a readable process. */
  predicate Upset(t: Table, e: Entry) {
    e.pid.Some? && e.pid.value in t && t[e.pid.value].created.Some? && (e.record.NoDict? || e.record.TooBig?)
  }

  predicate LedgerUpsets(t: Table, l: Ledger) {
    l.NoEntries? || exists i :: 0 <= i < |EntriesOf(l)| && Upset(t, EntriesOf(l)[i])
  }

  /** psutil's answers to children(recursive=True), for every process. */
  ghost predicate Answers(t: Table, below: map<nat, seq<nat>>) {
    t.Keys <= below.Keys && forall r :: r in below ==> Lists(t, r, below[r])
  }

  datatype Exit = Raised | Terminate(children: seq<nat>)

  /** _children_to_terminate() */
  method ChildrenToTerminate(t: Table, below: map<nat, seq<nat>>, p: nat, l: Ledger) returns (exit: Exit)
    requires Answers(t, below) && p in t
    ensures exit.Raised? <==> LedgerUpsets(t, l)
    ensures exit.Terminate? ==> forall d :: d in exit.children <==> Below(t, p, d) && !KeptAtExit(t, l, d)
  {
    if l.NoEntries? { return Raised; }
    var keep: set<nat> := {};
    var entries := EntriesOf(l);
    for i := 0 to |entries|
      invariant forall j :: 0 <= j < i ==> !Upset(t, entries[j])
      invariant forall d :: d in keep
                  <==> exists j :: 0 <= j < i && Matches(t, entries[j]) && AtOrBelow(t, entries[j].pid.value, d)
    {
      var e := entries[i];
      if e.pid.None? || e.pid.value !in t || t[e.pid.value].created.None? { continue; }
      if e.record.NoDict? || e.record.TooBig? {
        assert Upset(t, entries[i]);
        return Raised;
      }
      if e.record.Created? && Near(t[e.pid.value].created.value, e.record.at) {
        assert Matches(t, entries[i]);
        keep := keep + {e.pid.value} + (set d | d in below[e.pid.value]);
      }
    }
    assert forall d :: d in keep <==> KeptAtExit(t, l, d) by { KeptByEntry(t, l); }
    var left := [];
    var children := below[p];
    for i := 0 to |children|
      invariant forall d :: d in left <==> d in children[..i] && d !in keep
    {
      if children[i] !in keep { left := left + [children[i]]; }
    }
    assert children[..|children|] == children;
    return Terminate(left);
  }

  lemma KeptByEntry(t: Table, l: Ledger)
    ensures forall d :: KeptAtExit(t, l, d) <==>
              exists j :: 0 <= j < |EntriesOf(l)| && Matches(t, EntriesOf(l)[j])
                  && AtOrBelow(t, EntriesOf(l)[j].pid.value, d)
  {
    forall d
      ensures KeptAtExit(t, l, d) <==>
                exists j :: 0 <= j < |EntriesOf(l)| && Matches(t, EntriesOf(l)[j])
                    && AtOrBelow(t, EntriesOf(l)[j].pid.value, d)
    {
      if KeptAtExit(t, l, d) {
        var r :| r in Roots(t, l) && AtOrBelow(t, r, d);
        var j :| 0 <= j < |EntriesOf(l)| && Matches(t, EntriesOf(l)[j]) && EntriesOf(l)[j].pid.value == r;
      }
      if j :| 0 <= j < |EntriesOf(l)| && Matches(t, EntriesOf(l)[j]) && AtOrBelow(t, EntriesOf(l)[j].pid.value, d) {
        assert EntriesOf(l)[j].pid.value in Roots(t, l);
      }
    }
  }

  // --------------------------------------------------------------------------- agreement

  /** Every creation time is later than the tolerance around zero, the time of an entry that has none. */
  predicate ClocksPastTolerance(t: Table) {
    forall d :: d in t && t[d].created.Some? ==> t[d].created.value > TOLERANCE
  }

  /** The ledger proves the server itself, or an ancestor of it, to be detached. */
  ghost predicate ServerIsKept(t: Table, p: nat, l: Ledger) { KeptAtExit(t, l, p) }

  lemma RootsBelowServer(t: Table, p: nat, children: seq<nat>, l: Ledger)
    requires Lists(t, p, children) && ClocksPastTolerance(t)
    ensures forall r :: r in ForcedRoots(t, p, children, l) <==> r in Roots(t, l) && Below(t, p, r) && r != p
  {
    forall r
      ensures r in ForcedRoots(t, p, children, l) <==> r in Roots(t, l) && Below(t, p, r) && r != p
    {
      if r in Roots(t, l) && Below(t, p, r) && r != p {
        var i :| 0 <= i < |EntriesOf(l)| && Matches(t, EntriesOf(l)[i]) && EntriesOf(l)[i].pid.value == r;
        assert Protects(t, p, children, EntriesOf(l)[i]);
      }
    }
  }

  /**
   * Normal exit and forced stop, for every snapshot: they spare the same descendants, except that a
   * ledger entry which proves the server itself or an ancestor of it makes the normal exit spare all.
   */
  lemma ExitAgainstForcedStop(t: Table, p: nat, children: seq<nat>, l: Ledger, spared: set<nat>, d: nat)
    requires Lists(t, p, children) && IsForcedStop(t, p, children, l, spared) && ClocksPastTolerance(t)
    requires Below(t, p, d)
    ensures KeptAtExit(t, l, d) <==> d in spared || ServerIsKept(t, p, l)
  {
    ForcedSpares(t, p, children, l, spared);
    RootsBelowServer(t, p, children, l);
    if KeptAtExit(t, l, d) {
      var r :| r in Roots(t, l) && AtOrBelow(t, r, d);
      if r == p {
        assert AtOrBelow(t, p, p);
      } else if r == d {
        assert AtOrBelow(t, d, d);
      } else {
        OneLine(t, p, r, d);
        if Below(t, p, r) { assert r in ForcedRoots(t, p, children, l); }
      }
    }
    if ServerIsKept(t, p, l) {
      var r :| r in Roots(t, l) && AtOrBelow(t, r, p);
      if r != p { BelowTransitive(t, r, p, d); }
      assert AtOrBelow(t, r, d);
    }
  }

  /** A process that is, or is below, a verified descendant of the server. */
  ghost predicate UnderVerified(t: Table, p: nat, l: Ledger, d: nat) {
    exists r :: r in Roots(t, l) && Below(t, p, r) && r != p && AtOrBelow(t, r, d)
  }

  lemma SparedIsUnderVerified(t: Table, p: nat, children: seq<nat>, l: Ledger, spared: set<nat>)
    requires Lists(t, p, children) && IsForcedStop(t, p, children, l, spared) && ClocksPastTolerance(t)
    ensures forall d :: Below(t, p, d) ==> (d in spared <==> UnderVerified(t, p, l, d))
  {
    ForcedSpares(t, p, children, l, spared);
    RootsBelowServer(t, p, children, l);
  }

  /**
   * Exit and forced stop agree on every descendant exactly when the ledger proves neither the server
   * nor an ancestor of it, or proves a process at or above every descendant, below the server.
   */
  lemma SurvivorsAgree(t: Table, p: nat, children: seq<nat>, l: Ledger, spared: set<nat>)
    requires Lists(t, p, children) && IsForcedStop(t, p, children, l, spared) && ClocksPastTolerance(t)
    ensures (forall d :: Below(t, p, d) ==> (KeptAtExit(t, l, d) <==> d in spared))
       <==> (!ServerIsKept(t, p, l) || forall d :: Below(t, p, d) ==> UnderVerified(t, p, l, d))
  {
    SparedIsUnderVerified(t, p, children, l, spared);
    forall d | Below(t, p, d)
      ensures KeptAtExit(t, l, d) <==> d in spared || ServerIsKept(t, p, l)
    {
      ExitAgainstForcedStop(t, p, children, l, spared, d);
    }
  }

  lemma OrphanHasNoAncestor(t: Table, d: nat, r: nat)
    requires d in t && t[d].ppid !in t && t[d].ppid != r
    ensures !Below(t, r, d)
  {
    forall n: nat | n >= 1
      ensures Ancestor(t, d, n) != Some(r)
    {
      assert Ancestor(t, d, n) == Ancestor(t, t[d].ppid, n - 1);
    }
  }

  /** A server with one child, and a ledger that proves the server: the exit keeps the child, the forced stop ends
      it. */
  lemma ServerInLedgerDisagrees()
    ensures var t: Table := map[1 := Proc(0, Some(10.0)), 2 := Proc(1, Some(20.0))];
            var l := Entries([Entry(Some(1), Created(10.0))]);
            && ClocksPastTolerance(t) && Lists(t, 1, [2])
            && IsForcedStop(t, 1, [2], l, {}) && KeptAtExit(t, l, 2)
  {
    var t: Table := map[1 := Proc(0, Some(10.0)), 2 := Proc(1, Some(20.0))];
    var l := Entries([Entry(Some(1), Created(10.0))]);
    assert Ancestor(t, 1, 0) == Some(1) && Ancestor(t, 2, 1) == Some(1);
    assert Below(t, 1, 2);
    OrphanHasNoAncestor(t, 1, 1);
    forall d | Below(t, 1, d)
      ensures d == 2
    {
      BelowIsLive(t, 1, d);
    }
    assert Matches(t, EntriesOf(l)[0]) && 1 in Roots(t, l);
    assert AtOrBelow(t, 1, 2);
    assert ForcedRoots(t, 1, [2], l) == {};
  }

  // -------------------------------------------------------------------- the emergency stopper

  /** One row of the snapshot: whether the process can be opened, and whether it identifies itself as ours. */
  datatype Row = Row(pid: nat, ppid: nat, opens: bool, ours: bool)

  predicate Examined(row: Row, excluded: set<nat>) { row.pid !in excluded && row.opens }

  function Details(rows: seq<Row>, excluded: set<nat>): seq<Row> {
    if rows == [] then []
    else
      var last := rows[|rows| - 1];
      Details(rows[..|rows| - 1], excluded) + (if Examined(last, excluded) then [last] else [])
  }

  function RowLinks(rows: seq<Row>): seq<Link> {
    seq(|rows|, i requires 0 <= i < |rows| => Link(rows[i].pid, Some(rows[i].ppid)))
  }

  function Identified(rows: seq<Row>): set<nat> { set i | 0 <= i < |rows| && rows[i].ours :: rows[i].pid }

  lemma {:induction false} DetailsExamined(rows: seq<Row>, excluded: set<nat>)
    ensures forall i :: 0 <= i < |Details(rows, excluded)| ==>
              Examined(Details(rows, excluded)[i], excluded) && Details(rows, excluded)[i] in rows
  {
    if rows != [] { DetailsExamined(rows[..|rows| - 1], excluded); }
  }

  /** What the stopper ends: everything of ours and below it, less what the ledger proves and everything below that. */
  ghost predicate IsDiscovery(t: Table, details: seq<Row>, l: Ledger, selected: set<nat>, keep: set<nat>) {
    IsClosure(RowLinks(details), Identified(details), selected) && IsClosure(RowLinks(details), Roots(t, l), keep)
  }

  /** The verified roots, read from the ledger entry by entry. */
  method VerifiedRoots(t: Table, l: Ledger) returns (raised: bool, roots: set<nat>)
    ensures raised <==> LedgerUpsets(t, l)
    ensures !raised ==> roots == Roots(t, l)
  {
    raised, roots := l.NoEntries?, {};
    if raised { return; }
    var entries := EntriesOf(l);
    for i := 0 to |entries|
      invariant forall j :: 0 <= j < i ==> !Upset(t, entries[j])
      invariant roots == set j | 0 <= j < i && Matches(t, entries[j]) :: entries[j].pid.value
    {
      var e := entries[i];
      if e.pid.None? || e.pid.value !in t || t[e.pid.value].created.None? { continue; }
      if e.record.NoDict? || e.record.TooBig? {
        assert Upset(t, entries[i]);
        raised := true;
        return;
      }
      if e.record.Created? && Near(t[e.pid.value].created.value, e.record.at) { roots := roots + {e.pid.value}; }
    }
  }

  /** discover_faustus_processes() */
  method Discover(t: Table, rows: seq<Row>, excluded: set<nat>, l: Ledger)
    returns (raised: bool, pids: set<nat>, ghost selected: set<nat>, ghost keep: set<nat>)
    ensures raised <==> LedgerUpsets(t, l)
    ensures !raised ==> IsDiscovery(t, Details(rows, excluded), l, selected, keep) && pids == selected - keep
    ensures pids !! excluded
    ensures forall d :: d in pids ==> exists i :: 0 <= i < |rows| && rows[i].pid == d && rows[i].opens
  {
    pids, selected, keep := {}, {}, {};
    var details := [];
    for i := 0 to |rows|
      invariant details == Details(rows[..i], excluded)
    {
      assert rows[..i + 1][..i] == rows[..i];
      if rows[i].pid in excluded || !rows[i].opens { continue; }
      details := details + [rows[i]];
    }
    assert rows[..|rows|] == rows;
    var chosen := GrowByParent(RowLinks(details), set i | 0 <= i < |details| && details[i].ours :: details[i].pid);
    selected := chosen;
    var roots;
    raised, roots := VerifiedRoots(t, l);
    if raised { return; }
    var kept := GrowByParent(RowLinks(details), roots);
    keep := kept;
    pids := chosen - kept;
    DetailsExamined(rows, excluded);
    forall d | d in pids
      ensures d !in excluded && exists i :: 0 <= i < |rows| && rows[i].pid == d && rows[i].opens
    {
      assert d in Identified(details) + Pids(RowLinks(details));
      var k :| 0 <= k < |details| && details[k].pid == d;
      assert details[k] in rows;
    }
  }

  /** The stopper keeps what the normal exit keeps, when it sees every process between a verified root and what is
      below it. */
  lemma DiscoveryKeepsAlike(t: Table, details: seq<Row>, l: Ledger, selected: set<nat>, keep: set<nat>, d: nat)
    requires IsDiscovery(t, details, l, selected, keep) && d in Pids(RowLinks(details))
    requires Truthful(t, RowLinks(details)) && Convexly(t, Roots(t, l), Pids(RowLinks(details)))
    ensures d in keep <==> KeptAtExit(t, l, d)
  {
    var links, roots := RowLinks(details), Roots(t, l);
    ClosureIsUnderRoots(t, links, roots, keep);
    if d in keep {
      if d in roots {
        assert AtOrBelow(t, d, d);
      } else {
        var r :| r in roots && Below(t, r, d);
        assert AtOrBelow(t, r, d);
      }
    }
  }
}
