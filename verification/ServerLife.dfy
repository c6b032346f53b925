/** What the pipe server gets done: it starts, serves whoever connects, lets clients go, and stops for good. */
module ServerLife {
  import opened Bytes
  import opened PipeServer

  // ---------- The accept thread ----------

  /** The accept thread's next steps, each call it makes succeeding. */
  function Accepted(s: Server, steps: nat): Server
    decreases steps
  {
    if steps == 0 || s.accepting.Off? then s else Accepted(Step(s, Accept(true)), steps - 1)
  }

  /** Nothing is in the way of a start. */
  predicate AtRest(s: Server) { !s.running && !s.acceptThread && s.registered == {} && s.stopper.Idle? }

  /** A server at rest runs after a start whose calls succeed; any other start leaves whoever is served alone. */
  lemma StartMeans(s: Server, descriptorOk: bool, threadOk: bool)
    requires Inv(s) && Enabled(s, Start(descriptorOk, threadOk))
    ensures var n := Step(s, Start(descriptorOk, threadOk));
      && n.threads == s.threads && n.registered == s.registered && n.next == s.next && n.listener == s.listener
      && (if AtRest(s) && descriptorOk then
            && (n.running <==> threadOk) && (n.descriptor <==> threadOk) && (n.acceptThread <==> threadOk)
            && n.accepting == (if threadOk then Checking else s.accepting)
          else n == s)
  {
    hide Tables, Fresh, Joins, Reports;
  }

  /**
   From the head of its loop the accept thread of a running server registers the next client to connect, with a
   thread of its own, if fewer than 32 are registered, and nobody otherwise; then it is at the head of its loop.
   */
  lemma AdmitsOne(s: Server)
    requires Inv(s) && s.running && s.accepting == Checking
    ensures var (n, p) := (Accepted(s, 6), s.next);
      && n.running && n.accepting == Checking && n.descriptor && p !in s.threads && n.next == p + 1
      && (if |s.registered| < 32 then
            n.registered == s.registered + {p} && n.threads == s.threads[p := Client(Serving, 0, 0)]
          else n.registered == s.registered && n.threads == s.threads)
  {
    hide *;
    var p := s.next;
    NextIsFresh(s);
    RunningHasDescriptor(s);
    var d := s.(accepting := Admitting(p), next := p + 1, listener := Some(p));
    ToAdmission(s);
    FromAdmission(d, p);
    AcceptedOn(s, 4, 2);
  }

  lemma {:induction false} AcceptedOn(s: Server, steps: nat, more: nat)
    ensures Accepted(s, steps + more) == Accepted(Accepted(s, steps), more)
    decreases steps
  {
    hide Step;
    if s.accepting.Off? {
    } else if steps > 0 {
      AcceptedOn(Step(s, Accept(true)), steps - 1, more);
    }
  }

  lemma AcceptedOnce(s: Server, steps: nat)
    requires !s.accepting.Off? && steps > 0
    ensures Accepted(s, steps) == Accepted(Accepts(s, true), steps - 1)
  {
  }

  lemma AcceptedNone(s: Server)
    ensures Accepted(s, 0) == s
  {
  }

  // Four steps: the pipe is created, offered and connected to.
  lemma ToAdmission(s: Server)
    requires s.running && s.accepting == Checking
    ensures Accepted(s, 4) == s.(accepting := Admitting(s.next), next := s.next + 1, listener := Some(s.next))
  {
    hide Accepted;
    var p := s.next;
    AcceptedOnce(s, 4);
    AcceptedOnce(s.(accepting := Creating), 3);
    AcceptedOnce(s.(accepting := Offering(p), next := p + 1), 2);
    AcceptedOnce(s.(accepting := Waiting(p), next := p + 1, listener := Some(p)), 1);
    AcceptedNone(s.(accepting := Admitting(p), next := p + 1, listener := Some(p)));
  }

  // Two more: it is registered or closed.
  lemma FromAdmission(s: Server, p: Pipe)
    requires s.running && s.accepting == Admitting(p) && s.listener == Some(p)
    ensures var n := Accepted(s, 2);
      if |s.registered| < 32 then
        n == s.(listener := None, accepting := Checking, registered := s.registered + {p},
                threads := s.threads[p := Client(Serving, 0, 0)])
      else n == s.(listener := None, accepting := Checking)
  {
    hide Accepted;
    AcceptedOnce(s, 2);
    var n := Accepts(s, true);
    AcceptedOnce(n, 1);
    AcceptedNone(Accepts(n, true));
  }

  lemma NextIsFresh(s: Server)
    requires Inv(s)
    ensures s.next !in s.threads
  {
    hide Fresh, Joins, Reports, Flags;
  }

  lemma RunningHasDescriptor(s: Server)
    requires Inv(s) && s.running
    ensures s.descriptor
  {
    hide Fresh, Joins, Reports, Tables;
  }

  // How many steps are left to a thread that finds the flag down.
  function StepsLeft(a: Accepting): nat {
    match a
    case Off => 0
    case Checking => 1
    case Clearing(_, last) => if last then 1 else 2
    case Offering(_) => 2
    case Creating => 3
    case Admitting(_) => 3
    case Waiting(_) => 4
  }

  /** Once the running flag is down the accept thread is gone four steps on at the latest, and no client was added. */
  lemma {:induction false} AcceptEnds(s: Server, steps: nat)
    requires !s.running && (steps >= 4 || StepsLeft(s.accepting) <= steps)
    ensures var n := Accepted(s, steps);
      n.accepting.Off? && n.registered == s.registered && n.threads == s.threads && !n.running
    decreases steps
  {
    if !s.accepting.Off? {
      AcceptEnds(Step(s, Accept(true)), steps - 1);
    }
  }

  // ---------- A client ----------

  /** A client's own steps. */
  function Steps(s: Server, actions: seq<Action>): Server
    decreases actions
  {
    if actions == [] then s
    else if Enabled(s, actions[0]) then Steps(Step(s, actions[0]), actions[1..]) else Steps(s, actions[1..])
  }

  /** A client whose thread leaves its loop is unregistered and ended three steps on, reported gone if it connected. */
  lemma ClientGoes(s: Server, p: Pipe)
    requires Inv(s) && p in s.threads && s.threads[p].at.Serving?
    ensures var (n, c) := (Steps(s, [Leave(p), Proceed(p), Proceed(p), Proceed(p)]), s.threads[p].connected);
      && n.registered == s.registered - {p} && n.running == s.running && n.accepting == s.accepting
      && n.threads == s.threads[p := Client(Ended, c, if c > 0 then 1 else 0)]
  {
    ServingIsUnreported(s, p);
    hide *;
    var c := s.threads[p].connected;
    var gone := if c > 0 then 1 else 0;
    assert [Leave(p), Proceed(p), Proceed(p), Proceed(p)][1..] == [Proceed(p), Proceed(p), Proceed(p)];
    assert [Proceed(p), Proceed(p), Proceed(p)][1..] == [Proceed(p), Proceed(p)];
    assert [Proceed(p), Proceed(p)][1..] == [Proceed(p)] && [Proceed(p)][1..] == [];
    var leaving := s.(threads := s.threads[p := Client(Leaving, c, 0)]);
    var removing := s.(threads := s.threads[p := Client(Removing, c, gone)]);
    var disposing := s.(registered := s.registered - {p}, threads := s.threads[p := Client(Disposing, c, gone)]);
    var ended := s.(registered := s.registered - {p}, threads := s.threads[p := Client(Ended, c, gone)]);
    LeaveStep(s, p);
    ProceedStep(leaving, p);
    ProceedStep(removing, p);
    ProceedStep(disposing, p);
    assert leaving.threads[p := removing.threads[p]] == removing.threads;
    assert removing.threads[p := disposing.threads[p]] == disposing.threads;
    assert disposing.threads[p := ended.threads[p]] == ended.threads;
    StepsFirst(s, Leave(p), [Proceed(p), Proceed(p), Proceed(p)]);
    StepsFirst(leaving, Proceed(p), [Proceed(p), Proceed(p)]);
    StepsFirst(removing, Proceed(p), [Proceed(p)]);
    StepsFirst(disposing, Proceed(p), []);
    NoSteps(ended);
    assert [Leave(p)] + [Proceed(p), Proceed(p), Proceed(p)] == [Leave(p), Proceed(p), Proceed(p), Proceed(p)];
    assert [Proceed(p)] + [Proceed(p), Proceed(p)] == [Proceed(p), Proceed(p), Proceed(p)];
    assert [Proceed(p)] + [Proceed(p)] == [Proceed(p), Proceed(p)] && [Proceed(p)] + [] == [Proceed(p)];
  }

  lemma NoSteps(s: Server)
    ensures Steps(s, []) == s
  {
  }

  lemma StepsFirst(s: Server, a: Action, rest: seq<Action>)
    requires Enabled(s, a)
    ensures Steps(s, [a] + rest) == Steps(Step(s, a), rest)
  {
    assert ([a] + rest)[1..] == rest;
  }

  lemma LeaveStep(s: Server, p: Pipe)
    requires p in s.threads && s.threads[p].at.Serving?
    ensures Enabled(s, Leave(p))
    ensures Step(s, Leave(p)) == s.(threads := s.threads[p := s.threads[p].(at := Leaving)])
  {
  }

  // The three steps behind the loop.
  lemma ProceedStep(s: Server, p: Pipe)
    requires p in s.threads && (s.threads[p].at.Leaving? || s.threads[p].at.Removing? || s.threads[p].at.Disposing?)
    ensures Enabled(s, Proceed(p))
    ensures var (c, n) := (s.threads[p], Step(s, Proceed(p)));
      match c.at
      case Leaving =>
        var gone := c.disconnected + if c.connected > 0 then 1 else 0;
        n == s.(threads := s.threads[p := Client(Removing, c.connected, gone)])
      case Removing =>
        n == s.(registered := s.registered - {p},
                threads := s.threads[p := Client(Disposing, c.connected, c.disconnected)])
      case Disposing => n == s.(threads := s.threads[p := Client(Ended, c.connected, c.disconnected)])
      case _ => true
  {
  }

  lemma ServingIsUnreported(s: Server, p: Pipe)
    requires Inv(s) && p in s.threads && s.threads[p].at.Serving?
    ensures s.threads[p].disconnected == 0
  {
    hide Fresh, Joins, Tables, Flags;
    assert Reports(s.threads[p]);
  }

  // ---------- Stop ----------

  /** The joins of some clients, all in time. */
  function Joining(pipes: seq<Pipe>): seq<Action> {
    if pipes == [] then [] else [JoinClient(pipes[0], true)] + Joining(pipes[1..])
  }

  predicate AllEnded(s: Server, pipes: set<Pipe>) { forall p | p in pipes :: p in s.threads && s.threads[p].at.Ended? }

  lemma {:induction false} JoinsAll(s: Server, pipes: seq<Pipe>)
    requires s.stopper.Joining? && !s.stopper.acceptLeft && AllEnded(s, s.stopper.left)
    requires forall p | p in s.stopper.left :: p in pipes
    ensures Steps(s, Joining(pipes)) == s.(stopper := s.stopper.(left := {}))
    decreases pipes
  {
    var left := s.stopper.left;
    if pipes == [] {
      assert forall p | p in left :: p in pipes;
      assert left == {};
    } else {
      var p, rest := pipes[0], pipes[1..];
      assert Joining(pipes)[1..] == Joining(rest);
      assert forall q | q in left :: q == p || q in rest;
      if p in left {
        JoinsAll(Step(s, JoinClient(p, true)), rest);
      } else {
        JoinsAll(s, rest);
      }
    }
  }

  /**
   Stop succeeds whenever the threads it waits for end in time: with the accept thread and every client it found
   ended, its joins and its last section leave the server at rest with nothing registered and no descriptor.
   */
  lemma StopSucceeds(s: Server, pipes: seq<Pipe>)
    requires Inv(s) && s.stopper.Joining? && s.stopper.stopped && s.stopper.acceptLeft
    requires s.accepting.Off? && AllEnded(s, s.stopper.left) && forall p | p in s.stopper.left :: p in pipes
    ensures var n := Step(s, JoinAccept(true));
      var m := Steps(n, Joining(pipes));
      Enabled(m, StopEnd) && AtRest(Step(m, StopEnd)) && !Step(m, StopEnd).descriptor && Step(m, StopEnd).listener == None
  {
    assert !s.running by { StoppingIsDown(s); }
    hide Inv;
    JoinsAll(Step(s, JoinAccept(true)), pipes);
  }

  lemma StoppingIsDown(s: Server)
    requires Inv(s) && s.stopper.Joining?
    ensures !s.running
  {
    hide Fresh, Tables, Reports, Flags;
  }

  /** Stop lowers the flag and waits for everything there is to wait for, or finds nothing and frees the descriptor. */
  lemma StopMeans(s: Server)
    requires Inv(s) && Enabled(s, Stop)
    ensures var n := Step(s, Stop);
      && !n.running && n.registered == s.registered && n.threads == s.threads && n.accepting == s.accepting
      && (if AtRest(s) then n.stopper.Idle? && !n.descriptor
          else
            && n.stopper == PipeServer.Stopper.Joining(s.registered, s.registered, s.acceptThread, true)
            && n.descriptor == s.descriptor)
  {
    hide Fresh, Tables, Reports, Flags;
  }
}
