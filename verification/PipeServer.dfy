/**
 The life of the pipe server: one thread starts and stops it, one thread accepts, and each
 client has a thread. Every lock section and every blocking call is one step; clients and
 their threads are added and removed together, so one set stands for both tables.
 */
module PipeServer {
  import opened Bytes

  const MAX_CLIENTS := 32

  type Pipe = nat

  // Where the accept thread is in its loop.
  datatype Accepting =
    | Off
    | Checking                  // about to read the running flag
    | Creating                  // about to create a pipe with the descriptor
    | Offering(pipe: Pipe)      // about to publish the pipe as the listener
    | Waiting(pipe: Pipe)       // waiting for a connection
    | Admitting(pipe: Pipe)     // connected, about to register the client
    | Clearing(closing: Option<Pipe>, last: bool)   // in the finally block; last when the loop was left

  datatype Where = Serving | Leaving | Removing | Disposing | Ended

  /** A client thread, and how often it has reported. */
  datatype Client = Client(at: Where, connected: nat, disconnected: nat)

  // The thread inside Stop: what it found registered, what it has yet to join, and whether all joins succeeded.
  datatype Stopper = Idle | Joining(found: set<Pipe>, left: set<Pipe>, acceptLeft: bool, stopped: bool)

  datatype Server = Server(
    running: bool, descriptor: bool, acceptThread: bool, listener: Option<Pipe>, registered: set<Pipe>,
    accepting: Accepting, threads: map<Pipe, Client>, next: Pipe, stopper: Stopper)

  datatype Action =
    | Start(descriptorOk: bool, threadOk: bool) | Stop
    | JoinAccept(ended: bool) | JoinClient(pipe: Pipe, ended: bool) | StopEnd
    | Accept(ok: bool)
    | Greet(pipe: Pipe) | Leave(pipe: Pipe) | Proceed(pipe: Pipe)

  const NEW_SERVER := Server(false, false, false, None, {}, Off, map[], 0, Idle)

  predicate Enabled(s: Server, a: Action) {
    match a
    case Start(_, _) => s.stopper.Idle?
    case Stop => s.stopper.Idle?
    case JoinAccept(ended) => s.stopper.Joining? && s.stopper.acceptLeft && (ended ==> s.accepting.Off?)
    case JoinClient(p, ended) =>
      s.stopper.Joining? && !s.stopper.acceptLeft && p in s.stopper.left && p in s.threads
        && (ended ==> s.threads[p].at.Ended?)
    case StopEnd => s.stopper.Joining? && !s.stopper.acceptLeft && s.stopper.left == {}
    case Accept(_) => !s.accepting.Off?
    case Greet(p) => p in s.threads && s.threads[p].at.Serving? && s.threads[p].connected == 0
    case Leave(p) => p in s.threads && s.threads[p].at.Serving?
    case Proceed(p) =>
      p in s.threads && (s.threads[p].at.Leaving? || s.threads[p].at.Removing? || s.threads[p].at.Disposing?)
  }

  /** Start, when it does not throw, under the lock. */
  function Started(s: Server, descriptorOk: bool, threadOk: bool): Server {
    if s.running || s.acceptThread || s.registered != {} || !descriptorOk then s
    else if threadOk then s.(running := true, descriptor := true, acceptThread := true, accepting := Checking)
    else s.(running := false, descriptor := false, acceptThread := false)
  }

  /** Stop's first section: nothing to stop, or the flag goes down and everything is noted for joining. */
  function Stopping(s: Server): Server {
    if !s.running && !s.acceptThread && s.registered == {} then s.(descriptor := false)
    else s.(running := false, stopper := Joining(s.registered, s.registered, s.acceptThread, true))
  }

  /** Stop's second section; it throws instead when a join timed out. */
  function Stopped(s: Server): Server
    requires s.stopper.Joining?
  {
    if s.stopper.stopped
    then s.(acceptThread := false, listener := None, registered := {}, descriptor := false, stopper := Idle)
    else s.(stopper := Idle)
  }

  function Unlisten(s: Server, pipe: Pipe): Server { if s.listener == Some(pipe) then s.(listener := None) else s }

  /** The accept thread's next step; ok is the outcome of the call it makes. */
  function Accepts(s: Server, ok: bool): Server
    requires !s.accepting.Off?
  {
    match s.accepting
    case Checking => s.(accepting := if s.running then Creating else Off)
    case Creating =>
      if ok then s.(accepting := Offering(s.next), next := s.next + 1)
      else s.(accepting := Clearing(None, false))
    case Offering(p) =>
      if s.running then s.(listener := Some(p), accepting := Waiting(p)) else s.(accepting := Clearing(Some(p), true))
    case Waiting(p) => s.(accepting := if ok then Admitting(p) else Clearing(Some(p), false))
    case Admitting(p) =>
      var u := Unlisten(s, p);
      if !s.running || |s.registered| >= MAX_CLIENTS || !ok then u.(accepting := Clearing(Some(p), false))
      else
        u.(registered := s.registered + {p}, threads := s.threads[p := Client(Serving, 0, 0)],
           accepting := Clearing(None, false))
    case Clearing(p, last) =>
      (if p.Some? then Unlisten(s, p.value) else s).(accepting := if last then Off else Checking)
  }

  function At(s: Server, p: Pipe, c: Client): Server { s.(threads := s.threads[p := c]) }

  /** The finally block of a client thread. */
  function Proceeds(s: Server, p: Pipe): Server
    requires p in s.threads
  {
    var c := s.threads[p];
    match c.at
    case Leaving => At(s, p, c.(at := Removing, disconnected := c.disconnected + if c.connected > 0 then 1 else 0))
    case Removing => At(s, p, c.(at := Disposing)).(registered := s.registered - {p})
    case Disposing => At(s, p, c.(at := Ended))
    case _ => s
  }

  function Step(s: Server, a: Action): Server
    requires Enabled(s, a)
  {
    match a
    case Start(descriptorOk, threadOk) => Started(s, descriptorOk, threadOk)
    case Stop => Stopping(s)
    case JoinAccept(ended) => s.(stopper := s.stopper.(acceptLeft := false, stopped := s.stopper.stopped && ended))
    case JoinClient(p, ended) =>
      s.(stopper := s.stopper.(left := s.stopper.left - {p}, stopped := s.stopper.stopped && ended))
    case StopEnd => Stopped(s)
    case Accept(ok) => Accepts(s, ok)
    case Greet(p) => At(s, p, s.threads[p].(connected := 1))
    case Leave(p) => At(s, p, s.threads[p].(at := Leaving))
    case Proceed(p) => Proceeds(s, p)
  }

  // ---------- The invariant ----------

  predicate InService(c: Client) { c.at.Serving? || c.at.Leaving? || c.at.Removing? }

  /** A client is registered exactly from its admission to its own removal. */
  ghost predicate Tables(s: Server) {
    && |s.registered| <= MAX_CLIENTS
    && (forall p | p in s.registered :: p in s.threads && InService(s.threads[p]))
    && (forall p | p in s.threads && InService(s.threads[p]) :: p in s.registered)
    && (forall p | p in s.threads :: p < s.next)
  }

  /**
   A client has reported gone as often as it reported connected, once it is past that point, and never
   more than once.
   */
  predicate Reports(c: Client) {
    c.connected <= 1 && c.disconnected == (if c.at.Serving? || c.at.Leaving? then 0 else c.connected)
  }

  // Pipes the accept thread is handling are not yet clients.
  predicate Fresh(s: Server) {
    match s.accepting
    case Offering(p) => p < s.next && p !in s.threads
    case Waiting(p) => p < s.next && p !in s.threads
    case Admitting(p) => p < s.next && p !in s.threads
    case _ => true
  }

  /** While a Stop is under way nothing new is registered, and what was joined has ended. */
  ghost predicate Joins(s: Server) {
    s.stopper.Joining? ==>
      && !s.running && s.registered <= s.stopper.found && s.stopper.left <= s.stopper.found
      && (forall p | p in s.stopper.found :: p in s.threads)
      && (s.stopper.stopped ==>
            && (!s.stopper.acceptLeft ==> s.accepting.Off?)
            && (forall p | p in s.stopper.found && p !in s.stopper.left :: s.threads[p].at.Ended?))
  }

  predicate Holding(a: Accepting, p: Pipe) {
    a == Waiting(p) || a == Admitting(p) || (a.Clearing? && a.closing == Some(p))
  }

  predicate Flags(s: Server) {
    && (s.running ==> s.acceptThread && s.descriptor)
    && (!s.accepting.Off? ==> s.acceptThread && s.descriptor)
    && (s.listener.Some? ==> Holding(s.accepting, s.listener.value))
  }

  ghost predicate Inv(s: Server) {
    Tables(s) && Fresh(s) && Joins(s) && Flags(s) && forall p | p in s.threads :: Reports(s.threads[p])
  }

  lemma NewServerOk()
    ensures Inv(NEW_SERVER)
  {
  }

  lemma ControlKeeps(s: Server, a: Action)
    requires Inv(s) && Enabled(s, a) && (a.Start? || a.Stop? || a.JoinAccept? || a.JoinClient? || a.StopEnd?)
    ensures Inv(Step(s, a))
  {
    if a.StopEnd? && s.stopper.stopped {
      EndedAreGone(s);
    }
  }

  // Every joined client had removed itself.
  lemma EndedAreGone(s: Server)
    requires Inv(s) && s.stopper.Joining? && s.stopper.stopped && s.stopper.left == {}
    ensures s.registered == {}
  {
    forall p
      ensures p !in s.registered
    {
      if p in s.stopper.found {
        assert s.threads[p].at.Ended?;
      }
    }
  }

  lemma AdmitTables(s: Server, n: Server, p: Pipe)
    requires Tables(s) && p < s.next && p !in s.threads && |s.registered| < MAX_CLIENTS && n.next == s.next
    requires n.registered == s.registered + {p} && n.threads == s.threads[p := Client(Serving, 0, 0)]
    ensures Tables(n)
  {
    assert p !in s.registered;
  }

  lemma AdmitStep(s: Server, p: Pipe)
    requires Fresh(s) && s.accepting == Admitting(p) && s.running && |s.registered| < MAX_CLIENTS
    ensures var n := Accepts(s, true);
      n.next == s.next && n.registered == s.registered + {p} && n.threads == s.threads[p := Client(Serving, 0, 0)]
        && Fresh(n)
  {
  }

  lemma AdmittingIsFresh(s: Server, p: Pipe)
    requires Fresh(s) && s.accepting == Admitting(p)
    ensures p < s.next && p !in s.threads
  {
  }

  lemma AdmitReports(s: Server, p: Pipe)
    requires Inv(s) && s.accepting == Admitting(p)
    ensures forall q | q in Accepts(s, true).threads :: Reports(Accepts(s, true).threads[q])
  {
    hide Tables, Fresh, Joins, Flags;
  }

  lemma AdmitKeeps(s: Server, p: Pipe)
    requires Inv(s) && s.accepting == Admitting(p) && s.running && |s.registered| < MAX_CLIENTS
    ensures Inv(Accepts(s, true))
  {
    hide Tables, Fresh, Joins, Flags, Reports, Accepts;
    AdmitStep(s, p);
    assert p < s.next && p !in s.threads by { AdmittingIsFresh(s, p); }
    AdmitTables(s, Accepts(s, true), p);
    AdmitReports(s, p);
    AdmitFlags(s, p);
  }

  lemma AdmitFlags(s: Server, p: Pipe)
    requires Inv(s) && s.accepting == Admitting(p) && s.running && |s.registered| < MAX_CLIENTS
    ensures Joins(Accepts(s, true)) && Flags(Accepts(s, true))
  {
    hide Tables, Fresh, Reports;
  }

  lemma LoopKeeps(s: Server, ok: bool)
    requires Inv(s) && !s.accepting.Off? && Accepts(s, ok).registered == s.registered
      && Accepts(s, ok).threads == s.threads
    ensures Inv(Accepts(s, ok))
  {
    hide Reports, InService;
  }

  lemma AcceptKeeps(s: Server, ok: bool)
    requires Inv(s) && !s.accepting.Off?
    ensures Inv(Accepts(s, ok))
  {
    hide Tables, Fresh, Joins, Flags, Reports;
    if s.accepting.Admitting? && s.running && |s.registered| < MAX_CLIENTS && ok {
      AdmitKeeps(s, s.accepting.pipe);
    } else {
      LoopKeeps(s, ok);
    }
  }

  // A client's own step: its entry changes, and at its removal the set of clients.
  lemma ClientTables(s: Server, n: Server, p: Pipe)
    requires Tables(s) && p in s.threads && p in n.threads && n.threads == s.threads[p := n.threads[p]]
      && n.next == s.next
    requires if InService(s.threads[p]) && !InService(n.threads[p]) then n.registered == s.registered - {p}
             else n.registered == s.registered && InService(s.threads[p]) == InService(n.threads[p])
    ensures Tables(n)
  {
    hide InService;
    assert |s.registered - {p}| <= |s.registered|;
  }

  lemma ClientRest(s: Server, n: Server, p: Pipe)
    requires Fresh(s) && Joins(s) && Flags(s) && p in s.threads && p in n.threads
      && n.threads == s.threads[p := n.threads[p]]
    requires n == s.(threads := n.threads, registered := n.registered) && n.registered <= s.registered
      && !s.threads[p].at.Ended?
    ensures Fresh(n) && Joins(n) && Flags(n)
  {
  }

  // What such a step changes.
  lemma ClientStep(s: Server, a: Action)
    requires Enabled(s, a) && (a.Greet? || a.Leave? || a.Proceed?) && Reports(s.threads[a.pipe])
    ensures var (p, n) := (a.pipe, Step(s, a));
      && p in n.threads && n.threads == s.threads[p := n.threads[p]] && Reports(n.threads[p])
      && n == s.(threads := n.threads, registered := n.registered) && n.registered <= s.registered
      && (if InService(s.threads[p]) && !InService(n.threads[p]) then n.registered == s.registered - {p}
          else n.registered == s.registered && InService(s.threads[p]) == InService(n.threads[p]))
  {
  }

  lemma ClientKeeps(s: Server, a: Action)
    requires Inv(s) && Enabled(s, a) && (a.Greet? || a.Leave? || a.Proceed?)
    ensures Inv(Step(s, a))
  {
    hide Tables, Fresh, Joins, Flags, Reports, Step, InService;
    var n := Step(s, a);
    ClientStep(s, a);
    ClientTables(s, n, a.pipe);
    ClientRest(s, n, a.pipe);
  }

  /** Every step of every thread keeps the invariant. */
  lemma StepKeeps(s: Server, a: Action)
    requires Inv(s) && Enabled(s, a)
    ensures Inv(Step(s, a))
  {
    hide Tables, Fresh, Joins, Flags, Reports, Accepts, Proceeds;
    match a
    case Accept(ok) => AcceptKeeps(s, ok);
    case Greet(_) => ClientKeeps(s, a);
    case Leave(_) => ClientKeeps(s, a);
    case Proceed(_) => ClientKeeps(s, a);
    case _ => ControlKeeps(s, a);
  }

  ghost function Run(s: Server, actions: seq<Action>): (r: Server)
    requires Inv(s)
    ensures Inv(r)
    decreases actions
  {
    if actions == [] then s
    else if Enabled(s, actions[0]) then StepKeeps(s, actions[0]); Run(Step(s, actions[0]), actions[1..])
    else Run(s, actions[1..])
  }

  // ---------- What every run promises ----------

  ghost function After(actions: seq<Action>): (s: Server)
    ensures Inv(s)
  {
    NewServerOk();
    Run(NEW_SERVER, actions)
  }

  /** Never more than 32 clients, and the security descriptor is live whenever a pipe is created with it. */
  lemma AlwaysSafe(actions: seq<Action>)
    ensures var s := After(actions);
      |s.registered| <= MAX_CLIENTS && (s.accepting.Creating? ==> s.descriptor)
  {
    hide After, Fresh, Joins, Reports;
  }

  /** A client that has ended reported gone exactly once if it had reported connected, and not at all otherwise. */
  lemma ReportedOnce(actions: seq<Action>, p: Pipe)
    requires p in After(actions).threads && After(actions).threads[p].at.Ended?
    ensures After(actions).threads[p].disconnected == After(actions).threads[p].connected <= 1
  {
    hide After, Fresh, Joins, Flags, Tables;
  }

  /** Once Stop has cleared the flag no step registers a client, until a Start that finds everything stopped. */
  lemma NoneAdmittedAfterStop(actions: seq<Action>, a: Action)
    requires Enabled(After(actions), a) && !After(actions).running
    ensures Step(After(actions), a).registered <= After(actions).registered
    ensures Step(After(actions), a).running ==>
      a.Start? && !After(actions).acceptThread && After(actions).registered == {} && After(actions).accepting.Off?
  {
    hide After, Fresh, Joins, Reports, Tables;
  }

  /**
   Stop returns normally only when the accept thread and every client thread it found have ended;
   nothing is left registered.
   */
  lemma StopWaits(actions: seq<Action>)
    requires Enabled(After(actions), StopEnd) && After(actions).stopper.stopped
    ensures var s := After(actions);
      && s.accepting.Off? && s.registered == {}
      && (forall p | p in s.stopper.found :: p in s.threads && s.threads[p].at.Ended?)
      && !Step(s, StopEnd).descriptor && !Step(s, StopEnd).acceptThread
  {
    hide After, Fresh, Flags, Reports;
    EndedAreGone(After(actions));
  }
}
