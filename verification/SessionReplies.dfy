/** Requests, their ids and their answers. */
module SessionReplies {
  import opened Wrappers
  import opened SessionStates
  import opened SessionProtocol
  import opened SessionTeardown

  /** Positions of the requests among the dequeued commands. */
  function Requests(taken: seq<Taken>): seq<nat> {
    if taken == [] then []
    else
      var n := |taken| - 1;
      Requests(taken[..n]) + (if taken[n].cmd.Request? then [n] else [])
  }

  /** All of them, in queue order and once each. */
  lemma {:induction false} RequestsAre(taken: seq<Taken>)
    ensures var rs := Requests(taken);
            && (forall i | 0 <= i < |rs| :: rs[i] < |taken| && taken[rs[i]].cmd.Request?)
            && (forall i, j | 0 <= i < j < |rs| :: rs[i] < rs[j])
            && (forall p | 0 <= p < |taken| && taken[p].cmd.Request? :: p in rs)
    decreases |taken|
  {
    if taken != [] {
      var n := |taken| - 1;
      RequestsAre(taken[..n]);
      forall p | 0 <= p < |taken| && taken[p].cmd.Request? ensures p in Requests(taken) {
        if p < n { assert taken[..n][p] == taken[p]; }
      }
    }
  }

  lemma RequestsSnoc(taken: seq<Taken>, t: Taken)
    ensures Requests(taken + [t]) == Requests(taken) + if t.cmd.Request? then [|taken|] else []
  {
    assert (taken + [t])[..|taken|] == taken;
  }

  /** How the provider's operation for the `i`-th request ended, if it did. */
  function OutcomeAt(h: History, i: nat): Option<Outcome> { if i in h.outcomes then Some(h.outcomes[i]) else None }

  /** Which answers a request may get: what the provider said, if it could be asked;
      `Cancelled`, if a cancel arrived while it was in flight; or a refusal. */
  predicate PayloadOk(k: Kind, p: Payload, how: Decision, t: Taken, cancelled: bool, said: Option<Outcome>) {
    match how
    case ByProvider => said.Some? && p == PayloadOf(said.value) && if k == Exec then t.life == Connected else t.files
    case ByCancel => cancelled && p == Fail(Cancelled) && (k == Exec ==> t.life == Connected)
    case ByState =>
      if k == Exec then t.life != Connected && p == Fail(NotConnected)
      else !t.files && p == Fail(ProviderUnavailable)
  }

  predicate Fits(a: Answer, t: Taken, cancelled: bool, said: Option<Outcome>) {
    && t.cmd.Request? && a.kind == t.cmd.kind && a.id == IdOf(t.cmd.ticket)
    && PayloadOk(a.kind, a.payload, a.how, t, cancelled, said)
  }

  predicate InService(pc: Pc) { pc.Serving? || pc.Replying? || pc.Holding? }

  /** The request the driver is working on is the last one it dequeued. */
  ghost predicate Current(t: Taken, task: Task, cancelled: bool, said: Option<Outcome>) {
    var pc := task.pc;
    InService(pc) ==>
      && t.cmd == Request(pc.kind, pc.ticket) && t.life == task.life && t.files == task.files
      && (pc.Serving? ==> (pc.kind == Exec ==> t.life == Connected) && (pc.notified ==> cancelled))
      && (!pc.Serving? ==> PayloadOk(pc.kind, pc.payload, pc.how, t, cancelled, said))
  }

  ghost predicate Served(taken: seq<Taken>, task: Task, h: History) {
    var rs := Requests(taken);
    && |rs| == |h.answers| + (if InService(task.pc) then 1 else 0)
    && (forall i | 0 <= i < |rs| :: rs[i] < |taken|)
    && (forall i | 0 <= i < |h.answers| :: Fits(h.answers[i], taken[rs[i]], i in h.cancelled, OutcomeAt(h, i)))
    && (InService(task.pc) ==>
          Current(taken[rs[|h.answers|]], task, |h.answers| in h.cancelled, OutcomeAt(h, |h.answers|)))
    && (forall i | i in h.cancelled :: i < |rs|)
  }

  lemma TakingKeepsServed(taken: seq<Taken>, task: Task, h: History, cmd: Command)
    requires Served(taken, task, h) && task.pc == Head
    ensures Served(taken + [Taken(cmd, task.life, task.files)], task.(pc := Dispatch(cmd, task.life)), h)
  {
    var t := Taken(cmd, task.life, task.files);
    RequestsSnoc(taken, t);
    hide Fits, Requests;
    forall i | 0 <= i < |h.answers|
      ensures Fits(h.answers[i], (taken + [t])[Requests(taken + [t])[i]], i in h.cancelled, OutcomeAt(h, i))
    {
      assert Fits(h.answers[i], taken[Requests(taken)[i]], i in h.cancelled, OutcomeAt(h, i));
    }
  }

  /** The answer goes out and the driver is done with the request. */
  lemma AnsweringKeepsServed(taken: seq<Taken>, task: Task, h: History, delivered: bool, pc: Pc)
    requires Served(taken, task, h) && (task.pc.Replying? || task.pc.Holding?) && !InService(pc)
    ensures var a := Answer(task.pc.kind, IdOf(task.pc.ticket), task.pc.payload, task.pc.how, delivered);
            Served(taken, task.(pc := pc), h.(answers := h.answers + [a]))
  {
    hide Requests, PayloadOk;
  }

  lemma MovingKeepsServed(taken: seq<Taken>, task: Task, task': Task, h: History, h': History)
    requires Served(taken, task, h)
    requires if InService(task.pc) then InService(task'.pc) else !InService(task'.pc)
    requires forall t, c, o :: Current(t, task, c, o) ==> Current(t, task', c, o)
    requires h'.answers == h.answers && h'.cancelled == h.cancelled && h'.outcomes == h.outcomes
    ensures Served(taken, task', h')
  {
    hide Requests, Fits, Current, InService;
  }

  lemma DriverKeepsServed(s: State, d: DriverStep)
    requires Served(s.wires.taken, s.task, s.history) && Continues(s.task.pc) && DriveNext(s, d).Some?
    ensures var n := DriveNext(s, d).value; Served(n.wires.taken, n.task, n.history)
  {
    hide Served, Dispatch, Finished, Interrupted, IdOf, Batched, Reported, TransitionOf;
    var n := DriveNext(s, d).value;
    var taken, task, h := s.wires.taken, s.task, s.history;
    match (d, task.pc)
    case (TakeCommand, Head) =>
      if |taken| < |s.wires.commands| {
        TakingKeepsServed(taken, task, h, s.wires.commands[|taken|]);
      } else {
        ShuttingKeepsServed(taken, task, h);
      }
    case (LockSlot, Replying(_, _, _, _)) =>
      if n.task.pc == Head {
        AnsweringKeepsServed(taken, task, h, false, Head);
      } else {
        MovingKeepsServed(taken, task, n.task, h, h);
      }
    case (Reply, Holding(_, _, _, _, em)) => AnsweringKeepsServed(taken, task, h, em in s.gates.live, n.task.pc);
    case (Finish(o), Serving(_, _, _)) => FinishKeepsServed(taken, task, h, o);
    case (Deliver, _) => LoggingKeepsServed(taken, task, n.task, h, n.history);
    case _ =>
      LeavesAnswers(s, d);
      hide DriveNext;
      MovingKeepsServed(taken, task, n.task, h, n.history);
  }

  /** The provider's own outcome becomes the payload, if the provider was asked. */
  lemma FinishKeepsServed(taken: seq<Taken>, task: Task, h: History, o: Outcome)
    requires Served(taken, task, h) && task.pc.Serving?
    ensures Served(taken, Finished(task, o).value, h.(outcomes := h.outcomes[|h.answers| := o]))
    ensures var pc := Finished(task, o).value.pc;
            && pc.Replying? && pc.kind == task.pc.kind && pc.ticket == task.pc.ticket
            && pc.payload == if pc.kind == Fs && !task.files then Fail(ProviderUnavailable) else PayloadOf(o)
  {
    hide Requests, Fits;
  }

  lemma ShuttingKeepsServed(taken: seq<Taken>, task: Task, h: History)
    requires Served(taken, task, h) && task.pc == Head
    ensures Served(taken, task.(pc := Dispatch(Shutdown, task.life)), h)
  {
    hide Requests, Fits;
  }

  lemma LoggingKeepsServed(taken: seq<Taken>, task: Task, task': Task, h: History, h': History)
    requires Served(taken, task, h) && !InService(task.pc) && !InService(task'.pc)
    requires h'.answers == h.answers && h'.cancelled == h.cancelled && h'.outcomes == h.outcomes
    ensures Served(taken, task', h')
  {
    hide Requests, Fits;
  }

  lemma LeavesAnswers(s: State, d: DriverStep)
    requires Continues(s.task.pc) && DriveNext(s, d).Some?
    requires !d.TakeCommand? && !d.LockSlot? && !d.Reply? && !d.Deliver? && !(d.Finish? && s.task.pc.Serving?)
    ensures var n := DriveNext(s, d).value;
            && n.wires.taken == s.wires.taken && n.history.answers == s.history.answers
            && n.history.cancelled == s.history.cancelled && n.history.outcomes == s.history.outcomes
            && InService(n.task.pc) == InService(s.task.pc)
            && forall t, c, o :: Current(t, s.task, c, o) ==> Current(t, n.task, c, o)
  {
  }

  /** A cancel marks the request in flight, if there is one. */
  lemma NotifyKeepsServed(s: State)
    requires Served(s.wires.taken, s.task, s.history)
    ensures var n := Notify(s); Served(n.wires.taken, n.task, n.history)
  {
    hide Requests, Fits;
  }

  lemma ServedKept(s: State, l: Label)
    requires Served(s.wires.taken, s.task, s.history) && Continues(s.task.pc) && Next(s, l).Some?
    ensures var n := Next(s, l).value; Served(n.wires.taken, n.task, n.history)
  {
    hide DriveNext, DownNext, Notify;
    match l
    case Drive(d) => DriverKeepsServed(s, d);
    case CallCancel => NotifyKeepsServed(s);
    case Teardown(_) => NotifyKeepsServed(s);
    case _ => hide Requests, Fits, Current;
  }

  // ---------------------------------------------------------------------------
  // Ids.
  // ---------------------------------------------------------------------------

  predicate Asks(cmd: Command, t: nat) { cmd.Request? && cmd.ticket == t }

  /** Every ticket is on its way, or its call has returned; it returned an id exactly
      when the request was accepted into the queue, which happens once. */
  ghost predicate Numbered(w: Wires, c: Clients) {
    && |w.taken| <= |w.commands|
    && (forall i | 0 <= i < |w.taken| :: w.taken[i].cmd == w.commands[i])
    && (forall i | 0 <= i < |w.commands| && w.commands[i].Request? ::
          var t := w.commands[i].ticket; t in c.returned && c.returned[t] == IdOf(t))
    && (forall i, j | 0 <= i < j < |w.commands| && w.commands[i].Request? && w.commands[j].Request? ::
          w.commands[i].ticket != w.commands[j].ticket)
    && (forall t | t in c.sending :: t < c.issued && t !in c.returned)
    && (forall t | t in c.returned :: t < c.issued &&
          (c.returned[t] == 0 || exists i :: 0 <= i < |w.commands| && Asks(w.commands[i], t)))
  }

  lemma AcceptKeepsNumbered(w: Wires, c: Clients, cmd: Command)
    requires Numbered(w, c) && !cmd.Request?
    ensures Numbered(w.(commands := w.commands + [cmd]), c)
  {
    hide IdOf;
    var cs := w.commands + [cmd];
    forall t | t in c.returned && c.returned[t] != 0 ensures exists i :: 0 <= i < |cs| && Asks(cs[i], t) {
      var i :| 0 <= i < |w.commands| && Asks(w.commands[i], t);
      assert Asks(cs[i], t);
    }
  }

  lemma SubmitKeepsNumbered(s: State, t: nat)
    requires Numbered(s.wires, s.clients) && SubmitNext(s, t).Some?
    ensures var n := SubmitNext(s, t).value; Numbered(n.wires, n.clients)
  {
    hide IdOf;
    var n := SubmitNext(s, t).value;
    var cs := n.wires.commands;
    forall x | x in n.clients.returned && n.clients.returned[x] != 0
      ensures exists i :: 0 <= i < |cs| && Asks(cs[i], x)
    {
      if x == t {
        assert Asks(cs[|cs| - 1], t);
      } else {
        var i :| 0 <= i < |s.wires.commands| && Asks(s.wires.commands[i], x);
        assert Asks(cs[i], x);
      }
    }
  }

  lemma DriverKeepsNumbered(s: State, d: DriverStep)
    requires Numbered(s.wires, s.clients) && DriveNext(s, d).Some?
    ensures var n := DriveNext(s, d).value; Numbered(n.wires, n.clients)
  {
    hide IdOf, Dispatch, Finished, Interrupted;
    if d.TakeCommand? && |s.wires.taken| < |s.wires.commands| {
      TakeKeepsNumbered(s.wires, s.clients, Taken(s.wires.commands[|s.wires.taken|], s.task.life, s.task.files));
      hide Numbered;
    } else {
      var n := DriveNext(s, d).value;
      assert n.wires.taken == s.wires.taken && n.wires.commands == s.wires.commands && n.clients == s.clients;
      hide DriveNext;
    }
  }

  lemma TakeKeepsNumbered(w: Wires, c: Clients, t: Taken)
    requires Numbered(w, c) && |w.taken| < |w.commands| && t.cmd == w.commands[|w.taken|]
    ensures Numbered(w.(taken := w.taken + [t]), c)
  {
  }

  lemma NumberedKept(s: State, l: Label)
    requires Numbered(s.wires, s.clients) && Next(s, l).Some?
    ensures var n := Next(s, l).value; Numbered(n.wires, n.clients)
  {
    hide DriveNext, DownNext, SubmitNext, Numbered;
    match l
    case Drive(d) => DriverKeepsNumbered(s, d);
    case Submit(t) => SubmitKeepsNumbered(s, t);
    case Post(cmd) => AcceptKeepsNumbered(s.wires, s.clients, cmd);
    case Teardown(_) => AcceptKeepsNumbered(s.wires, s.clients, Shutdown);
    case Allocate(k) => AllocateKeepsNumbered(s.wires, s.clients, k);
    case Arrive(ev) => ArrivalKeepsNumbered(s.wires, s.clients, ev);
    case _ =>
  }

  lemma AllocateKeepsNumbered(w: Wires, c: Clients, k: Kind)
    requires Numbered(w, c)
    ensures Numbered(w, Clients(c.issued + 1, c.sending[c.issued := k], c.returned))
  {
  }

  lemma ArrivalKeepsNumbered(w: Wires, c: Clients, ev: ProviderEvent)
    requires Numbered(w, c)
    ensures Numbered(w.(arrived := w.arrived + [ev]), c)
  {
  }
}
