/**
 * The relay as the object it is: the current connection, every connection made so far, and the
 * controller it drives. Each method is proved to make the step that module Relay gives to it, so
 * the relay's invariants hold of the object after every call.
 */
module RelayObject {
  import opened Options
  import opened Script
  import opened Relay
  import ControllerObject
  import TabMachine
  import C = Controller

  class BrowserRelay {
    const controller: ControllerObject.BrowserController
    var connection: Option<nat>
    var conns: seq<Connection>
    // the length of the cleanup chain: one disconnect for every connection lost
    var cleanups: nat

    ghost function View(): System
      reads this, controller
    {
      System(connection, conns, controller.View())
    }

    ghost predicate Ready()
      reads this, controller
    {
      controller.Valid() && cleanups == |controller.disconnects|
    }

    ghost predicate Valid()
      reads this, controller
    {
      SystemInv(View()) && Ready()
    }

    constructor ()
      ensures View() == INITIAL && fresh(controller) && Valid()
    {
      controller := new ControllerObject.BrowserController();
      connection, conns, cleanups := None, [], 0;
      new;
      InitialReachable();
      ReachableSound(INITIAL);
    }

    method Connect(ok: bool)
      requires Valid()
      modifies this
      ensures View() == Step(old(View()), Event.Connect(ok)) && Valid()
    {
      StepKeeps(View(), Event.Connect(ok));
      if connection.Some? || !ok { return; }
      connection, conns := Some(|conns|), conns + [NEW];
    }

    /** Only the current connection can be lost, and only once. */
    method Lose(c: nat)
      requires c < |conns| && Ready()
      modifies this, controller
      ensures View() == Relay.Lose(old(View()), c) && Ready()
    {
      if connection != Some(c) { return; }
      connection := None;
      conns := conns[c := conns[c].(ready := false)];
      controller.Disconnect();
      cleanups := cleanups + 1;
    }

    method OnClose(c: nat)
      requires Valid() && c < |conns|
      modifies this, controller
      ensures View() == Step(old(View()), SocketLost(c)) && Valid()
    {
      StepKeeps(View(), SocketLost(c));
      Lose(c);
    }

    /** onmessage: a frame joins the connection's chain. */
    method OnMessage(c: nat, frame: Frame)
      requires Valid() && c < |conns|
      modifies this
      ensures View() == Step(old(View()), Arrive(c, frame)) && Valid()
    {
      StepKeeps(View(), Arrive(c, frame));
      conns := conns[c := conns[c].(inbox := conns[c].inbox + [frame], received := conns[c].received + [frame])];
    }

    /** The end of message(), and of its place in the chain. */
    method Reply(c: nat, r: Result, sendOk: bool)
      requires c < |conns| && Ready()
      modifies this, controller
      ensures View() == SendResult(old(View()), c, r, sendOk) && Ready()
    {
      conns := conns[c := Handled(conns[c])];
      if connection == Some(c) {
        if sendOk {
          conns := conns[c := conns[c].(results := conns[c].results + [r])];
        } else {
          Lose(c);
        }
      }
    }

    /** message() throws: the chain ends the connection. */
    method Fail(c: nat)
      requires c < |conns| && Ready()
      modifies this, controller
      ensures View() == Refuse(old(View()), c) && Ready()
    {
      conns := conns[c := Handled(conns[c])];
      Lose(c);
    }

    /** A command for a tab is queued there, and the connection waits for its result. */
    method Ask(c: nat, id: string, t: nat, args: Args)
      requires c < |conns| && Ready() && controller.session.Some?
      modifies this, controller
      ensures var s := old(View());
              var waiting := s.conns[c].(doing := AwaitCommand(id, t, C.StateOf(s.world, t).tickets));
              View() == Put(s, c, waiting).(world := C.OnRun(s.world, t, args))
      ensures Ready()
    {
      var ticket := controller.Run(t, args);
      ghost var asked := controller.View();
      conns := conns[c := conns[c].(doing := AwaitCommand(id, t, ticket))];
      ControllerObject.SameSound(asked, controller.View());
    }

    /** A command that is neither early nor repeated reaches the controller. */
    method Run(c: nat, id: string, request: Request, sendOk: bool)
      requires c < |conns| && Ready()
      modifies this, controller
      ensures View() == RunCommand(old(View()), c, id, request, sendOk)
      ensures Ready()
    {
      conns := conns[c := Marked(conns[c], id)];
      if controller.session.None? || request.UnknownAction? || request.BadTab? {
        var code := if controller.session.None? then ConnectionLost else InvalidArguments;
        Reply(c, Result(id, Answered(Some(code), NotDispatched)), sendOk);
      } else if request.ListTabs? {
        conns := conns[c := conns[c].(doing := AwaitTabs(id, controller.session.value))];
      } else {
        Ask(c, id, request.tab, request.args);
      }
    }

    method Handle(c: nat, frame: Frame, sendOk: bool)
      requires c < |conns| && Ready()
      modifies this, controller
      ensures View() == HandleFrame(old(View()), c, frame, sendOk) && Ready()
    {
      match frame
      case Pong => conns := conns[c := Handled(conns[c])];
      case Ping => if sendOk { conns := conns[c := Handled(conns[c])]; } else { Fail(c); }
      case Ready(id) =>
        if conns[c].readyStarted || !IsUuid(id) {
          Fail(c);
        } else {
          conns := conns[c := conns[c].(readyStarted := true, doing := AwaitCleanup(cleanups, id))];
        }
      case ErrorFrame => Fail(c);
      case Malformed => Fail(c);
      case Command(id, request) =>
        if !IsUuid(id) {
          Fail(c);
        } else if !conns[c].ready {
          Reply(c, Result(id, NotReady), sendOk);
        } else if id in conns[c].seen {
          Reply(c, Result(id, Duplicate), sendOk);
        } else {
          Run(c, id, request, sendOk);
        }
    }

    /** message(), up to its first await, for the next frame of a connection's chain. */
    method Message(c: nat, sendOk: bool)
      requires Valid() && c < |conns|
      modifies this, controller
      ensures View() == Step(old(View()), Process(c, sendOk)) && Valid()
    {
      StepKeeps(View(), Process(c, sendOk));
      if !conns[c].doing.Idle? || conns[c].inbox == [] { return; }
      var frame := conns[c].inbox[0];
      conns := conns[c := conns[c].(inbox := conns[c].inbox[1..])];
      if connection != Some(c) {
        conns := conns[c := Handled(conns[c])];
      } else {
        Handle(c, frame, sendOk);
      }
    }

    /** The ready handshake, once the cleanup it waited for is over. */
    method Open(c: nat)
      requires Valid() && c < |conns| && conns[c].doing.AwaitCleanup?
                 && CleanedUp(controller.View(), conns[c].doing.cleanups)
      modifies this, controller
      ensures View() == Step(old(View()), ResumeReady(c)) && Valid()
      ensures old(connection) == Some(c) ==> conns[c].ready && controller.session.Some?
    {
      StepKeeps(View(), ResumeReady(c));
      var id := conns[c].doing.id;
      if connection == Some(c) {
        OpeningIsSafe(View(), c);
        conns := conns[c := Handled(conns[c]).(ready := true)];
        var isOpen := controller.OpenSession(TabMachine.Session(c, id));
        assert isOpen;
      } else {
        conns := conns[c := Handled(conns[c])];
      }
    }
  }
}
