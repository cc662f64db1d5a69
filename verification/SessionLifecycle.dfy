/** The order in which session states are reported. */
module SessionLifecycle {
  import opened Wrappers
  import opened SessionStates
  import opened SessionProtocol
  import opened SessionTeardown
  import opened SessionBatches

  /** Which state may be reported after which. */
  predicate Allowed(a: Life, b: Life) {
    match b
    case Idle => false
    case Connecting => a == Idle || a == Disconnected || a == Failed
    case Connected => a == Connecting
    case Disconnecting => a == Connected
    case Disconnected => true
    case Failed => a != Disconnecting
  }

  function LastLife(ls: seq<Life>): Life { if ls == [] then Idle else ls[|ls| - 1] }

  ghost predicate Grammar(ls: seq<Life>) {
    forall i | 0 <= i < |ls| :: Allowed(LastLife(ls[..i]), ls[i])
  }

  lemma GrammarSnoc(ls: seq<Life>, b: Life)
    ensures Grammar(ls + [b]) <==> Grammar(ls) && Allowed(LastLife(ls), b)
    ensures LastLife(ls + [b]) == b
  {
    var t := ls + [b];
    assert t[..|ls|] == ls;
    forall i | 0 <= i < |ls| ensures t[..i] == ls[..i] && t[i] == ls[i] {}
    if Grammar(t) {
      forall i | 0 <= i < |ls| ensures Allowed(LastLife(ls[..i]), ls[i]) {
        assert Allowed(LastLife(t[..i]), t[i]);
      }
      assert Allowed(LastLife(t[..|ls|]), t[|ls|]);
    }
  }

  /** The emissions the driver is committed to before its next await or poll. */
  function Owed(pc: Pc): seq<Life> {
    match pc
    case Say(b, _, cont) => States(b) + Owed(cont)
    case Saying(cont) => Owed(cont)
    case Enter(to, cont) => [to] + Owed(cont)
    case _ => []
  }

  /** Where the driver gets to once they are out. */
  function Rest(pc: Pc): Pc {
    match pc
    case Say(_, _, cont) => Rest(cont)
    case Saying(cont) => Rest(cont)
    case Enter(_, cont) => Rest(cont)
    case _ => pc
  }

  predicate Settled(rest: Pc, last: Life) {
    match rest
    case Opening(_) => last == Connecting
    case Aborting => last == Connecting
    case Dropping => last == Disconnecting
    case Closing => last == Disconnecting
    case Exited => true
    case _ => last != Connecting && last != Disconnecting
  }

  /** The states reported so far and those the driver is committed to report. */
  function Told(log: seq<Emission>, pc: Pc): seq<Life> { LogStates(log) + Owed(pc) }

  /** The states in the batch about to be emitted. */
  function Said(pc: Pc): seq<Life> { if pc.Say? then States(pc.batch) else [] }

  ghost predicate LifeCycle(log: seq<Emission>, task: Task) {
    && Grammar(Told(log, task.pc))
    && Settled(Rest(task.pc), LastLife(Told(log, task.pc)))
    && task.life == LastLife(LogStates(log) + Said(task.pc))
  }

  lemma StatesOne(a: Event, b: Event)
    ensures States([]) == [] && States([a]) == if a.StateChanged? then [a.to] else []
    ensures States([a, b]) == States([a]) + States([b])
  {
    assert [a][..0] == [] && [b][..0] == [] && [a, b][..1] == [a];
  }

  lemma StatesSnoc(es: seq<Event>, a: Event)
    ensures States(es + [a]) == States(es) + if a.StateChanged? then [a.to] else []
  {
    assert (es + [a])[..|es|] == es;
  }

  /** A batch drained from the provider's events reports at most one state. */
  lemma {:induction false} ReportedStates(es: seq<ProviderEvent>)
    ensures States(AllReported(es)) == []
    ensures LastTransition(es).Some? ==> LastTransition(es).value == Disconnected || LastTransition(es).value == Failed
    decreases |es|
  {
    if es != [] {
      var n := |es| - 1;
      ReportedStates(es[..n]);
      match es[n]
      case Received(bytes) => StatesSnoc(AllReported(es[..n]), Data(bytes));
      case Hangup => assert AllReported(es) == AllReported(es[..n]);
      case Broken(code) => StatesSnoc(AllReported(es[..n]), Error(code));
    }
  }

  lemma BatchStates(es: seq<ProviderEvent>)
    ensures var t := LastTransition(es); States(BatchOf(es)) == if t.Some? then [t.value] else []
  {
    ReportedStates(es);
    if LastTransition(es).Some? { StatesSnoc(AllReported(es), StateChanged(LastTransition(es).value)); }
  }

  lemma Assoc(a: seq<Life>, b: seq<Life>, c: seq<Life>)
    ensures a + b + c == a + (b + c)
  {
  }

  /** An emission only moves states from the commitments into the log. */
  lemma DeliverKeepsLife(log: seq<Emission>, task: Task, e: Emission, pc: Pc)
    requires LifeCycle(log, task) && task.pc.Say? && Tail(task.pc.cont) && e.batch == task.pc.batch
    requires pc == Saying(task.pc.cont) || pc == task.pc.cont
    ensures LifeCycle(log + [e], task.(pc := pc))
  {
    hide Grammar, LastLife, States, Settled, LogBytes, Bytes;
    LogSnoc(log, e);
    assert Owed(pc) == Owed(task.pc.cont) && Rest(pc) == Rest(task.pc) && Said(pc) == [];
    hide LogStates, Owed, Rest;
    Assoc(LogStates(log), States(e.batch), Owed(pc));
    assert LogStates(log + [e]) + [] == LogStates(log + [e]);
  }

  lemma AssignKeepsLife(log: seq<Emission>, task: Task, to: Life, cont: Pc)
    requires LifeCycle(log, task) && task.pc == Enter(to, cont)
    ensures LifeCycle(log, task.(life := to, pc := Say([StateChanged(to)], Report, cont)))
  {
    hide Grammar, States;
    StatesOne(StateChanged(to), StateChanged(to));
  }

  /** Between emissions the driver commits itself to at most one new state. */
  lemma CommitKeepsLife(log: seq<Emission>, task: Task, task': Task, x: Option<Life>)
    requires LifeCycle(log, task) && !Emitting(task.pc)
    requires Owed(task'.pc) == if x.Some? then [x.value] else []
    requires x.Some? ==> Allowed(task.life, x.value)
    requires Settled(Rest(task'.pc), if x.Some? then x.value else task.life)
    requires (Said(task'.pc) == [] && task'.life == task.life)
             || (x.Some? && Said(task'.pc) == [x.value] && task'.life == x.value)
    ensures LifeCycle(log, task')
  {
    hide Allowed, Settled, Grammar, States;
    var told := LogStates(log);
    assert told + [] == told;
    if x.Some? { GrammarSnoc(told, x.value); }
  }

  /** Between emissions the driver's variable is the last state reported. */
  lemma AtRest(log: seq<Emission>, task: Task)
    requires LifeCycle(log, task) && !Emitting(task.pc)
    ensures task.life == LastLife(LogStates(log)) && Settled(task.pc, task.life)
  {
    assert LogStates(log) + [] == LogStates(log);
  }

  lemma DispatchKeepsLife(log: seq<Emission>, task: Task, cmd: Command)
    requires LifeCycle(log, task) && task.pc == Head
    ensures LifeCycle(log, task.(pc := Dispatch(cmd, task.life)))
  {
    hide LifeCycle, States;
    var pc := Dispatch(cmd, task.life);
    AtRest(log, task);
    ErrorStates(InvalidState);
    ErrorStates(NotConnected);
    CommitKeepsLife(log, task, task.(pc := pc), if pc.Enter? then Some(pc.to) else None);
  }

  lemma FinishKeepsLife(log: seq<Emission>, task: Task, o: Outcome)
    requires LifeCycle(log, task) && Finished(task, o).Some?
    ensures LifeCycle(log, Finished(task, o).value)
  {
    hide LifeCycle, States;
    var t := Finished(task, o).value;
    AtRest(log, task);
    ErrorStates(Cancelled);
    if o.Bad? { ErrorStates(o.code); }
    var x := if t.pc.Enter? then Some(t.pc.to) else if t.pc.Say? && t.pc.cont.Enter? then Some(t.pc.cont.to) else None;
    CommitKeepsLife(log, task, t, x);
  }

  lemma InterruptKeepsLife(log: seq<Emission>, task: Task)
    requires LifeCycle(log, task) && Interrupted(task).Some?
    ensures LifeCycle(log, Interrupted(task).value)
  {
    hide LifeCycle, States;
    AtRest(log, task);
    ErrorStates(Cancelled);
    CommitKeepsLife(log, task, Interrupted(task).value, None);
  }

  lemma DrainKeepsLife(log: seq<Emission>, task: Task, es: seq<ProviderEvent>, from: Origin, t: Option<Life>)
    requires LifeCycle(log, task) && task.pc.Draining? && t == LastTransition(es)
    ensures LifeCycle(log, task.(pc := Say(BatchOf(es), from, Head), life := if t.Some? then t.value else task.life))
  {
    hide LifeCycle, States, BatchOf, LastTransition, AllReported;
    AtRest(log, task);
    ReportedStates(es);
    BatchStates(es);
    var next := task.(pc := Say(BatchOf(es), from, Head), life := if t.Some? then t.value else task.life);
    CommitKeepsLife(log, task, next, t);
  }

  lemma ErrorStates(c: Code)
    ensures States([Error(c)]) == []
    ensures States([Error(c), StateChanged(Failed)]) == [Failed]
  {
    StatesOne(Error(c), StateChanged(Failed));
  }

  lemma DriverKeepsLife(s: State, d: DriverStep)
    requires LifeCycle(s.history.log, s.task) && Continues(s.task.pc) && Drained(s.wires, s.task.pc)
    requires DriveNext(s, d).Some?
    ensures var n := DriveNext(s, d).value; LifeCycle(n.history.log, n.task)
  {
    hide LifeCycle, Finished, Interrupted, Dispatch, Drained;
    var n := DriveNext(s, d).value;
    var log, task := s.history.log, s.task;
    match (d, task.pc)
    case (Create(ok, code), Start) => CreateKeepsLife(log, task, n.task, code);
    case (TakeCommand, Head) =>
      if |s.wires.taken| < |s.wires.commands| {
        DispatchKeepsLife(log, task, s.wires.commands[|s.wires.taken|]);
      } else {
        DispatchKeepsLife(log, task, Shutdown);
      }
    case (DrainDone, Draining(lo, b, t)) => DrainDoneKeepsLife(s);
    case (Deliver, Say(b, from, cont)) => DeliverKeepsLife(log, task, Emission(b, from, s.gates.active), n.task.pc);
    case (Return, Saying(cont)) => ReturnKeepsLife(log, task);
    case (Assign, Enter(to, cont)) => AssignKeepsLife(log, task, to, cont);
    case (Finish(o), _) => FinishKeepsLife(log, task, o);
    case (Cancel, _) => InterruptKeepsLife(log, task);
    case (Assign, Dropping) => MoveKeepsLife(log, task, n.task);
    case _ => MoveKeepsLife(log, task, n.task);
  }

  lemma CreateKeepsLife(log: seq<Emission>, task: Task, task': Task, code: Code)
    requires LifeCycle(log, task) && task.pc == Start
    requires task' == task.(pc := Head)
             || task' == Task(Say([Error(code), StateChanged(Failed)], Report, Exited), Failed, false)
    ensures LifeCycle(log, task')
  {
    hide LifeCycle, States;
    AtRest(log, task);
    ErrorStates(code);
    CommitKeepsLife(log, task, task', if task'.pc.Say? then Some(Failed) else None);
  }

  lemma ReturnKeepsLife(log: seq<Emission>, task: Task)
    requires LifeCycle(log, task) && task.pc.Saying? && Tail(task.pc.cont)
    ensures LifeCycle(log, task.(pc := task.pc.cont))
  {
    hide Grammar, LastLife, Settled;
    assert Said(task.pc.cont) == [];
  }

  /** A step that reports nothing between points of the same kind. */
  lemma MoveKeepsLife(log: seq<Emission>, task: Task, task': Task)
    requires LifeCycle(log, task) && !Emitting(task.pc) && !Emitting(task'.pc) && task'.life == task.life
    requires forall last :: Settled(task.pc, last) ==> Settled(task'.pc, last)
    ensures LifeCycle(log, task')
  {
    hide Grammar, LastLife;
    assert Rest(task.pc) == task.pc && Rest(task'.pc) == task'.pc;
    hide Settled;
  }

  lemma DrainDoneKeepsLife(s: State)
    requires LifeCycle(s.history.log, s.task) && Drained(s.wires, s.task.pc) && s.task.pc.Draining?
    ensures LifeCycle(s.history.log, DriveNext(s, DrainDone).value.task)
  {
    hide LifeCycle, AllReported, LastTransition, Batched;
    var pc := s.task.pc;
    assert Batched(pc.batch, pc.transition) == BatchOf(s.wires.arrived[pc.lo..s.wires.consumed]);
    DrainKeepsLife(s.history.log, s.task, s.wires.arrived[pc.lo..s.wires.consumed],
                   Drain(pc.lo, s.wires.consumed), pc.transition);
  }

  lemma LifeKept(s: State, l: Label)
    requires LifeCycle(s.history.log, s.task) && Continues(s.task.pc) && Drained(s.wires, s.task.pc)
    requires Next(s, l).Some?
    ensures var n := Next(s, l).value; LifeCycle(n.history.log, n.task)
  {
    hide LifeCycle, DriveNext, Drained, DownNext;
    match l
    case Drive(d) => DriverKeepsLife(s, d);
    case Prompt(fp) => PromptKeepsLife(s.history.log, s.task, fp, s.gates.active);
    case CallCancel => NotifyKeepsLife(s);
    case Teardown(_) => NotifyKeepsLife(s);
    case _ =>
  }

  lemma PromptKeepsLife(log: seq<Emission>, task: Task, fp: string, active: bool)
    requires LifeCycle(log, task)
    ensures LifeCycle(log + [Emission([HostKeyPrompt(fp)], Gate, active)], task)
  {
    var e := Emission([HostKeyPrompt(fp)], Gate, active);
    LogSnoc(log, e);
    StatesOne(e.batch[0], e.batch[0]);
    assert LogStates(log) + [] == LogStates(log);
  }

  lemma NotifyKeepsLife(s: State)
    requires LifeCycle(s.history.log, s.task)
    ensures var n := Notify(s); n.history.log == s.history.log && LifeCycle(n.history.log, n.task)
  {
    if Notify(s).task != s.task { MoveKeepsLife(s.history.log, s.task, Notify(s).task); }
  }
}
