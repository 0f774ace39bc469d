/**
 * The browser controller as the object it is: a session, a table of tabs and a set of owned tabs,
 * which its methods update in place. Each method here runs from its call to its first await, and is
 * proved to make exactly the step that module Controller gives to it.
 */
module ControllerObject {
  import opened Options
  import opened Script
  import opened TabMachine
  import opened TabInvariants
  import opened Controller

  /** The part of a debugger event's source and parameters that decides what the controller does. */
  datatype Source = Source(tab: Option<nat>, child: bool)
  datatype Notice =
    | FileChooserOpened
    | DocumentUpdated
    | FrameNavigated(parent: Option<string>)
    | NavigatedWithinDocument(frame: Option<string>)
    | OtherNotice

  datatype Change = Change(url: Option<string>, status: Option<string>)

  function FrameOf(t: Tab): Option<string> { if t.document.Some? then Some(t.document.value.frameId) else None }

  /** Whether a notice ends the document of a tab. A child frame's navigation does not. */
  predicate EndsDocument(t: Tab, n: Notice) {
    match n
    case DocumentUpdated => true
    case FrameNavigated(parent) => parent.None? || parent.value == ""
    case NavigatedWithinDocument(frame) => frame == FrameOf(t)
    case _ => false
  }

  /** state() makes the tab's record and changes nothing else. */
  function Recorded(w: World, t: nat): World { Merge(w, LocalOf(w, t)) }

  function OnNotice(w: World, source: Source, n: Notice): World {
    if source.child || source.tab.None? then w
    else if n.FileChooserOpened? then OnChooserShown(w, source.tab.value)
    else if EndsDocument(StateOf(w, source.tab.value), n) then OnDocumentReplaced(w, source.tab.value)
    else if n.NavigatedWithinDocument? then Recorded(w, source.tab.value)
    else w
  }

  /** A step of one tab that leaves its command alone is an update of the tab's record. */
  lemma MergeIsUpdate(w: World, l: Local)
    requires w.active.None? && !Executes(l)
    ensures Merge(w, l)
              == w.(tabs := w.tabs[l.id := l.tab], owned := if l.owned then w.owned + {l.id} else w.owned - {l.id})
  {
  }

  lemma SameOwner(w: World, l: Local)
    requires w.active.None? && !Executes(l) && l.owned == (l.id in w.owned)
    ensures Merge(w, l) == w.(tabs := w.tabs[l.id := l.tab])
  {
    MergeIsUpdate(w, l);
  }

  /** What detachOwned() makes of the record of an owned tab. */
  function Released(t: Tab): Tab { TabMachine.DetachOwned(Local(None, true, 0, t)).tab }

  lemma SweepIsDetachAll(w: World)
    ensures DetachAll(w) == map t | t in w.tabs :: if t in w.owned then Released(w.tabs[t]) else w.tabs[t]
  {
  }

  /** Between two steps no command executes, and every owned tab has its record. */
  lemma Resting(w: World, t: nat)
    requires WorldInv(w) && w.active.None?
    ensures !Executes(LocalOf(w, t)) && w.owned <= w.tabs.Keys
  {
    LocalSound(w, t);
  }

  lemma RecordedKeeps(w: World, t: nat)
    requires WorldInv(w) && w.active.None?
    ensures WorldInv(Recorded(w, t))
  {
    LocalSound(w, t);
    Resting(w, t);
    CalmStepKeeps(w, LocalOf(w, t));
  }

  lemma TabNoticeKeeps(w: World, t: nat)
    requires WorldInv(w) && w.active.None?
    ensures WorldInv(OnChooserShown(w, t)) && WorldInv(OnDocumentReplaced(w, t)) && WorldInv(Recorded(w, t))
  {
    ChooserShownKeeps(w, t);
    DocumentEventKeeps(w, t);
    RecordedKeeps(w, t);
  }

  lemma NoticeKeeps(w: World, source: Source, n: Notice)
    requires WorldInv(w) && w.active.None?
    ensures WorldInv(OnNotice(w, source, n))
  {
    if source.tab.Some? {
      TabNoticeKeeps(w, source.tab.value);
      NoticeIsOne(w, source, n, OnNotice(w, source, n));
    }
  }

  lemma NoticeIsOne(w: World, source: Source, n: Notice, v: World)
    requires source.tab.Some? && v == OnNotice(w, source, n)
    ensures var t := source.tab.value;
            v == w || v == OnChooserShown(w, t) || v == OnDocumentReplaced(w, t) || v == Recorded(w, t)
  {
  }

  /** Two worlds that are the same are both sound. */
  lemma SameSound(w: World, v: World)
    requires WorldInv(w) && v == w
    ensures WorldInv(v)
  {
  }

  class BrowserController {
    var session: Option<Session>
    var tabs: map<nat, Tab>
    var owned: set<nat>
    ghost var disconnects: seq<Disconnection>

    /** The object between two steps, when no command executes. */
    ghost function View(): World
      reads this
    {
      World(session, tabs, owned, disconnects, None)
    }

    ghost predicate Valid()
      reads this
    {
      WorldInv(View())
    }

    constructor ()
      ensures Valid() && View() == INITIAL
    {
      session, tabs, owned := None, map[], {};
      disconnects := [];
      new;
      InitialReachable();
      ReachableSound(INITIAL);
    }

    method State(t: nat) returns (tab: Tab)
      modifies `tabs
      ensures tab == StateOf(old(View()), t) && tabs == old(tabs)[t := tab]
    {
      if t !in tabs { tabs := tabs[t := NewTab()]; }
      tab := tabs[t];
    }

    method Invalidate(t: nat)
      modifies `tabs
      ensures tabs == old(tabs)[t := Invalidated(StateOf(old(View()), t))]
    {
      var tab := State(t);
      if tab.chooser == Some(Pending) { tab := tab.(chooser := Some(Refused)); }
      tabs := tabs[t := tab.(generation := tab.generation + 1, refs := map[], document := None)];
    }

    method InvalidateEach()
      modifies `tabs
      ensures tabs == InvalidateAll(old(tabs))
    {
      var todo := tabs.Keys;
      while todo != {}
        invariant todo <= tabs.Keys == old(tabs).Keys
        invariant forall t :: t in tabs ==> tabs[t] == if t in todo then old(tabs)[t] else Invalidated(old(tabs)[t])
        decreases |todo|
      {
        var t :| t in todo;
        Invalidate(t);
        todo := todo - {t};
      }
    }

    method OpenSession(s: Session) returns (ok: bool)
      requires Valid()
      modifies this
      ensures Valid() && ok == old(session.None?)
      ensures View() == OnOpenSession(old(View()), s)
    {
      OpenSessionKeeps(View(), s);
      ghost var next := OnOpenSession(View(), s);
      ok := session.None?;
      if ok { Open(s); }
      SameSound(next, View());
    }

    method Open(s: Session)
      requires session.None?
      modifies this
      ensures View() == OnOpenSession(old(View()), s)
    {
      session := Some(s);
      InvalidateEach();
      disconnects := Disturbed(disconnects, false);
    }

    /** Joins a detach in flight, does nothing for a tab not owned, else begins one. */
    method DetachOwned(t: nat)
      modifies `tabs
      ensures tabs == old(tabs)[t := TabMachine.DetachOwned(LocalOf(old(View()), t)).tab]
    {
      var tab := State(t);
      if tab.detaching.Some? || t !in owned { return; }
      tab := tab.(detaches := tab.detaches + 1,
                  detaching := Some(Detachment(if tab.chooser.Some? then ClosingChooser else Detaching, tab.lifetime)));
      if tab.chooser.None? { tab := SendDetach(tab, true, tab.lifetime); }
      tabs := tabs[t := tab];
    }

    method DetachOwnedTab(t: nat)
      requires t in owned && t in tabs
      modifies `tabs
      ensures tabs == old(tabs)[t := Released(old(tabs)[t])]
    {
      DetachOwned(t);
    }

    method SweepOwned()
      requires owned <= tabs.Keys
      modifies `tabs
      ensures tabs == map t | t in old(tabs) :: if t in owned then Released(old(tabs)[t]) else old(tabs)[t]
    {
      var todo := owned;
      while todo != {}
        invariant todo <= owned && tabs.Keys == old(tabs).Keys
        invariant forall t :: t in tabs ==>
                    tabs[t] == if t in owned && t !in todo then Released(old(tabs)[t]) else old(tabs)[t]
        decreases |todo|
      {
        var t :| t in todo;
        DetachOwnedTab(t);
        todo := todo - {t};
      }
    }

    method DetachEach()
      requires owned <= tabs.Keys
      modifies `tabs
      ensures tabs == DetachAll(old(View()))
    {
      SweepIsDetachAll(View());
      SweepOwned();
    }

    /** disconnect() up to its first await, with the promises it then waits for. */
    method Disconnect()
      requires Valid()
      modifies this
      ensures Valid() && View() == BeginDisconnect(old(View()))
    {
      BeginDisconnectKeeps(View());
      Resting(View(), 0);
      ghost var next := BeginDisconnect(View());
      Close();
      SameSound(next, View());
    }

    method Close()
      requires owned <= tabs.Keys
      modifies this
      ensures View() == BeginDisconnect(old(View()))
    {
      session := None;
      InvalidateEach();
      ghost var stale := View();
      DetachEach();
      var begun := Disconnection(FirstDetaches(DetachPromises(stale)), AttachPromises(stale), false, false);
      disconnects := disconnects + [begun];
    }

    method OnDetach(source: Option<nat>)
      requires Valid()
      modifies this
      ensures Valid()
      ensures View() == if source.None? then old(View())
                        else Merge(old(View()), Detached(LocalOf(old(View()), source.value)))
    {
      if source.None? { return; }
      DetachEventKeeps(View(), source.value);
      Resting(View(), source.value);
      ghost var next := Merge(View(), Detached(LocalOf(View(), source.value)));
      Drop(source.value);
      SameSound(next, View());
    }

    method Drop(t: nat)
      requires !Executes(LocalOf(View(), t))
      modifies this
      ensures View() == Merge(old(View()), Detached(LocalOf(old(View()), t)))
    {
      MergeIsUpdate(View(), Detached(LocalOf(View(), t)));
      var tab := State(t);
      owned := owned - {t};
      tabs := tabs[t := tab.(lifetime := tab.lifetime + 1, attached := false)];
      Invalidate(t);
    }

    /** invalidate(), called between two steps. */
    method Replace(t: nat)
      requires !Executes(LocalOf(View(), t))
      modifies `tabs
      ensures View() == OnDocumentReplaced(old(View()), t)
    {
      SameOwner(View(), LocalOf(View(), t).(tab := Invalidated(StateOf(View(), t))));
      Invalidate(t);
    }

    method OnEvent(source: Source, n: Notice)
      requires Valid()
      modifies `tabs
      ensures Valid() && View() == OnNotice(old(View()), source, n)
    {
      if source.child || source.tab.None? { return; }
      NoticeKeeps(View(), source, n);
      Resting(View(), source.tab.value);
      ghost var next := OnNotice(View(), source, n);
      OnTabEvent(source.tab.value, n);
      SameSound(next, View());
    }

    method OnTabEvent(t: nat, n: Notice)
      requires !Executes(LocalOf(View(), t))
      modifies `tabs
      ensures View() == OnNotice(old(View()), Source(Some(t), false), n)
    {
      if n.FileChooserOpened? {
        SameOwner(View(), LocalOf(View(), t).(tab := ChooserOpened(StateOf(View(), t))));
        var tab := State(t);
        if tab.chooser == Some(Pending) { tabs := tabs[t := tab.(chooser := Some(Opened))]; }
        return;
      }
      var ends := n.DocumentUpdated? || (n.FrameNavigated? && (n.parent.None? || n.parent.value == ""));
      if n.NavigatedWithinDocument? {
        var tab := State(t);
        SameOwner(old(View()), LocalOf(old(View()), t));
        ends := n.frame == FrameOf(tab);
      }
      if ends { Replace(t); }
    }

    method OnTabUpdated(t: nat, change: Change)
      requires Valid()
      modifies `tabs
      ensures Valid()
      ensures View() == if change.url.Some? || change.status == Some("loading")
                        then OnDocumentReplaced(old(View()), t)
                        else old(View())
    {
      if change.url.Some? || change.status == Some("loading") {
        DocumentEventKeeps(View(), t);
        Resting(View(), t);
        ghost var next := OnDocumentReplaced(View(), t);
        Replace(t);
        SameSound(next, View());
      }
    }

    method OnTabRemoved(t: nat)
      requires Valid()
      modifies this
      ensures Valid() && View() == Merge(old(View()), Detached(LocalOf(old(View()), t)))
    {
      OnDetach(Some(t));
    }

    /** run() for a command on a tab: it joins the tab's queue, under the session and lifetime of this moment. */
    method Run(t: nat, args: Args) returns (ticket: nat)
      requires Valid() && session.Some?
      modifies `tabs
      ensures Valid() && View() == OnRun(old(View()), t, args)
      ensures ticket == StateOf(old(View()), t).tickets
    {
      RunKeeps(View(), t, args);
      Resting(View(), t);
      ghost var next := OnRun(View(), t, args);
      ticket := Queue(t, args);
      SameSound(next, View());
    }

    method Queue(t: nat, args: Args) returns (ticket: nat)
      requires session.Some? && !Executes(LocalOf(View(), t))
      modifies `tabs
      ensures View() == OnRun(old(View()), t, args) && ticket == StateOf(old(View()), t).tickets
    {
      SameOwner(View(), Enqueue(LocalOf(View(), t), session.value, args));
      var tab := State(t);
      ticket := tab.tickets;
      var command := NewCommand(ticket, session.value, tab.lifetime, args);
      tabs := tabs[t := tab.(tickets := ticket + 1, queue := tab.queue + [command])];
    }
  }
}
