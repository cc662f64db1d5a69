/** What the driver itself reports about each command it dequeues. */
module SessionScripts {
  import opened Wrappers
  import opened SessionStates
  import opened SessionProtocol
  import opened SessionTeardown
  import opened SessionLifecycle

  /** The reports a command brings, as far as its operation has got. */
  function Script(t: Taken, end: Option<End>): seq<Event> {
    match t.cmd
    case Connect =>
      if t.life == Connecting || t.life == Connected then [Error(InvalidState)]
      else [StateChanged(Connecting)] + Opened(end)
    case Send => if t.life != Connected then [Error(NotConnected)] else Complaint(end)
    case Disconnect =>
      if t.life != Connected && t.life != Connecting then []
      else [StateChanged(Disconnecting), StateChanged(Disconnected)]
    case _ => []
  }

  function Opened(end: Option<End>): seq<Event> {
    if end.None? then []
    else if end.value.CutShort? then [Error(Cancelled), StateChanged(Disconnected)]
    else if end.value.outcome.Good? then [StateChanged(Connected)]
    else [Error(end.value.outcome.code), StateChanged(Failed)]
  }

  function Complaint(end: Option<End>): seq<Event> {
    if end.None? then []
    else if end.value.CutShort? then [Error(Cancelled)]
    else if end.value.outcome.Good? then []
    else [Error(end.value.outcome.code)]
  }

  function EndOf(ends: map<nat, End>, n: nat): Option<End> { if n in ends then Some(ends[n]) else None }

  function Scripts(taken: seq<Taken>, ends: map<nat, End>): seq<Event> {
    if taken == [] then []
    else Scripts(taken[..|taken| - 1], ends) + Script(taken[|taken| - 1], EndOf(ends, |taken|))
  }

  function Refusal(h: History): seq<Event> {
    if h.refused.Some? then [Error(h.refused.value), StateChanged(Failed)] else []
  }

  /** The driver's own emissions, without drained batches and host-key prompts. */
  function Reports(log: seq<Emission>): seq<Event> {
    if log == [] then []
    else Reports(log[..|log| - 1]) + (if log[|log| - 1].from == Report then log[|log| - 1].batch else [])
  }

  /** The reports the driver is committed to make without learning anything new. */
  function Due(pc: Pc): seq<Event> {
    match pc
    case Say(b, from, cont) => (if from == Report then b else []) + Due(cont)
    case Saying(cont) => Due(cont)
    case Enter(to, cont) => [StateChanged(to)] + Due(cont)
    case Aborting => [Error(Cancelled), StateChanged(Disconnected)]
    case Dropping => [StateChanged(Disconnected)]
    case Closing => [StateChanged(Disconnected)]
    case _ => []
  }

  /** A connect or send in flight is the last command dequeued, and has not ended. */
  ghost predicate Underway(rest: Pc, taken: seq<Taken>, ends: map<nat, End>) {
    rest.Opening? || rest.Sending? ==>
      && taken != [] && |taken| !in ends
      && var t := taken[|taken| - 1];
         if rest.Opening? then t.cmd == Connect && t.life != Connecting && t.life != Connected
         else t.cmd == Send && t.life == Connected
  }

  ghost predicate Scripted(h: History, taken: seq<Taken>, pc: Pc) {
    && Reports(h.log) + Due(pc) == Refusal(h) + Scripts(taken, h.ends)
    && (forall k | k in h.ends :: k <= |taken|)
    && Underway(Rest(pc), taken, h.ends)
    && (pc == Start ==> taken == [] && h.refused.None?)
  }

  lemma ReportsSnoc(log: seq<Emission>, e: Emission)
    ensures Reports(log + [e]) == Reports(log) + if e.from == Report then e.batch else []
  {
    assert (log + [e])[..|log|] == log;
  }

  lemma {:induction false} ScriptsFrame(taken: seq<Taken>, ends: map<nat, End>, n: nat, end: End)
    requires |taken| < n
    ensures Scripts(taken, ends[n := end]) == Scripts(taken, ends)
    decreases |taken|
  {
    if taken != [] { ScriptsFrame(taken[..|taken| - 1], ends, n, end); }
  }

  lemma EventsAssoc(a: seq<Event>, b: seq<Event>, c: seq<Event>)
    ensures (a + b) + c == a + (b + c) && a + [] == a && [] + a == a
  {
  }

  /** Dequeuing a command starts its script. */
  lemma TakingKeepsScripts(h: History, taken: seq<Taken>, task: Task, cmd: Command)
    requires Scripted(h, taken, task.pc) && task.pc == Head
    ensures Scripted(h, taken + [Taken(cmd, task.life, task.files)], Dispatch(cmd, task.life))
  {
    var t := Taken(cmd, task.life, task.files);
    var pc := Dispatch(cmd, task.life);
    assert (taken + [t])[..|taken|] == taken;
    assert Due(pc) == Script(t, None);
    EventsAssoc(Refusal(h), Scripts(taken, h.ends), Due(pc));
    EventsAssoc(Reports(h.log), [], []);
    hide Scripts, Refusal, Reports;
    ScriptsSnoc(taken, t, h.ends);
    assert Scripts(taken + [t], h.ends) == Scripts(taken, h.ends) + Script(t, None);
  }

  lemma ScriptsSnoc(taken: seq<Taken>, t: Taken, ends: map<nat, End>)
    ensures Scripts(taken + [t], ends) == Scripts(taken, ends) + Script(t, EndOf(ends, |taken| + 1))
  {
    assert (taken + [t])[..|taken|] == taken;
  }

  /** The end of a connect or send completes its script. */
  lemma EndingKeepsScripts(h: History, taken: seq<Taken>, pc: Pc, end: End, pc': Pc)
    requires Scripted(h, taken, pc) && (pc.Opening? || pc.Sending?)
    requires Due(pc') == if pc.Opening? then Opened(Some(end)) else Complaint(Some(end))
    requires !Rest(pc').Opening? && !Rest(pc').Sending? && pc' != Start
    ensures Scripted(h.(ends := h.ends[|taken| := end]), taken, pc')
  {
    var n := |taken| - 1;
    var t := taken[n];
    var ends := h.ends[|taken| := end];
    ScriptsFrame(taken[..n], h.ends, |taken|, end);
    assert Scripts(taken, h.ends) == Scripts(taken[..n], h.ends) + Script(t, None);
    assert Scripts(taken, ends) == Scripts(taken[..n], h.ends) + Script(t, Some(end));
    assert Due(pc) == [];
    hide Reports, Scripts, Due, Rest, Refusal;
    assert Script(t, Some(end)) == Script(t, None) + Due(pc');
    EventsAssoc(Refusal(h) + Scripts(taken[..n], h.ends), Script(t, None), Due(pc'));
    EventsAssoc(Refusal(h), Scripts(taken[..n], h.ends), Script(t, None));
    hide Script, Opened, Complaint;
    EventsAssoc(Refusal(h), Scripts(taken[..n], h.ends), Script(t, Some(end)));
    EventsAssoc(Reports(h.log), [], []);
    EndsRefuse(h, ends);
  }

  lemma EndsRefuse(h: History, ends: map<nat, End>)
    ensures Refusal(h.(ends := ends)) == Refusal(h)
  {
  }

  /** Reporting, and moving on without news. */
  lemma MovingKeepsScripts(h: History, h': History, taken: seq<Taken>, pc: Pc, pc': Pc)
    requires Scripted(h, taken, pc) && Reports(h'.log) + Due(pc') == Reports(h.log) + Due(pc)
    requires h'.ends == h.ends && h'.refused == h.refused && pc' != Start
    requires Rest(pc') == Rest(pc) || (!Rest(pc').Opening? && !Rest(pc').Sending?)
    ensures Scripted(h', taken, pc')
  {
    hide Reports, Due, Scripts, Rest;
  }

  lemma DeliverKeepsScripts(h: History, taken: seq<Taken>, pc: Pc, e: Emission, pc': Pc)
    requires Scripted(h, taken, pc) && pc.Say? && Tail(pc.cont) && e.batch == pc.batch && e.from == pc.from
    requires pc' == Saying(pc.cont) || pc' == pc.cont
    ensures Scripted(h.(log := h.log + [e]), taken, pc')
  {
    ReportsSnoc(h.log, e);
    var said := if e.from == Report then e.batch else [];
    assert Due(pc) == said + Due(pc.cont) && Due(pc') == Due(pc.cont) && Rest(pc') == Rest(pc) && pc' != Start;
    hide Due, Rest, Reports;
    EventsAssoc(Reports(h.log), said, Due(pc.cont));
    MovingKeepsScripts(h, h.(log := h.log + [e]), taken, pc, pc');
  }

  function Concluded(task: Task, end: End): Option<Task> {
    if end.CutShort? then Interrupted(task) else Finished(task, end.outcome)
  }

  lemma DueOf(c: Code, to: Life)
    ensures Due(Say([Error(c)], Report, Head)) == [Error(c)]
    ensures Due(Say([Error(c)], Report, Enter(to, Head))) == [Error(c), StateChanged(to)]
    ensures Due(Enter(to, Head)) == [StateChanged(to)]
  {
    EventsAssoc([Error(c)], [], []);
    EventsAssoc([StateChanged(to)], [], []);
    assert Due(Enter(to, Head)) == [StateChanged(to)] + Due(Head);
    assert [Error(c)] + [StateChanged(to)] == [Error(c), StateChanged(to)];
  }

  /** What is due once an operation has ended. */
  lemma DueAtEnd(task: Task, end: End)
    requires Concluded(task, end).Some?
    ensures var pc, pc' := task.pc, Concluded(task, end).value.pc;
            && pc != Start && pc' != Start && !Rest(pc').Opening? && !Rest(pc').Sending?
            && Due(pc') == (if pc.Opening? then Opened(Some(end))
                            else if pc.Sending? then Complaint(Some(end))
                            else Due(pc))
  {
    var pc, pc' := task.pc, Concluded(task, end).value.pc;
    var c := if end.Ended? && end.outcome.Bad? then end.outcome.code else Cancelled;
    DueOf(c, Failed);
    DueOf(c, Connected);
    DueOf(c, Disconnected);
    assert Due(Aborting) == [Error(Cancelled), StateChanged(Disconnected)];
    assert Due(Closing) == [StateChanged(Disconnected)];
    assert Due(Head) == [] && (pc.Serving? || pc.Stopping? ==> Due(pc) == [] && Due(pc') == []);
    hide Due;
  }

  lemma FinishKeepsScripts(s: State, end: End, task: Task)
    requires Scripted(s.history, s.wires.taken, s.task.pc) && Concluded(s.task, end) == Some(task)
    ensures Scripted(Noted(s, end).history, s.wires.taken, task.pc)
  {
    hide Scripted, Opened, Complaint;
    DueAtEnd(s.task, end);
    hide Finished, Due;
    if s.task.pc.Opening? || s.task.pc.Sending? {
      EndingKeepsScripts(s.history, s.wires.taken, s.task.pc, end, task.pc);
    } else {
      MovingKeepsScripts(s.history, Noted(s, end).history, s.wires.taken, s.task.pc, task.pc);
    }
  }

  lemma DriverKeepsScripts(s: State, d: DriverStep)
    requires Scripted(s.history, s.wires.taken, s.task.pc) && Continues(s.task.pc) && DriveNext(s, d).Some?
    ensures var n := DriveNext(s, d).value; Scripted(n.history, n.wires.taken, n.task.pc)
  {
    hide Finished, Interrupted, Dispatch, Scripted;
    var n := DriveNext(s, d).value;
    var h, taken, task := s.history, s.wires.taken, s.task;
    match (d, task.pc)
    case (Create(ok, code), Start) => CreateKeepsScripts(h, n.history, taken, n.task.pc, code);
    case (TakeCommand, Head) =>
      if |taken| < |s.wires.commands| {
        TakingKeepsScripts(h, taken, task, s.wires.commands[|taken|]);
      } else {
        ClosingKeepsScripts(h, taken, task);
      }
    case (Deliver, Say(b, from, cont)) =>
      DeliverKeepsScripts(h, taken, task.pc, Emission(b, from, s.gates.active), n.task.pc);
    case (Finish(o), _) => FinishKeepsScripts(s, Ended(o), n.task);
    case (Cancel, _) => FinishKeepsScripts(s, CutShort, n.task);
    case _ => OthersKeepScripts(s, d);
  }

  lemma CreateKeepsScripts(h: History, h': History, taken: seq<Taken>, pc: Pc, code: Code)
    requires Scripted(h, taken, Start)
    requires (h' == h && pc == Head)
             || (h' == h.(refused := Some(code)) && pc == Say([Error(code), StateChanged(Failed)], Report, Exited))
    ensures Scripted(h', taken, pc)
  {
    EventsAssoc(Reports(h.log), [], []);
    EventsAssoc(Refusal(h'), [], []);
    assert Refusal(h) == [] && Scripts(taken, h.ends) == [] && Reports(h.log) == [];
    if pc.Say? {
      EventsAssoc(pc.batch, [], []);
      assert Due(pc) == pc.batch + Due(Exited) == pc.batch;
      assert Rest(pc) == Rest(Exited) == Exited;
    }
  }

  lemma ClosingKeepsScripts(h: History, taken: seq<Taken>, task: Task)
    requires Scripted(h, taken, task.pc) && task.pc == Head
    ensures Scripted(h, taken, Dispatch(Shutdown, task.life))
  {
    MovingKeepsScripts(h, h, taken, Head, Dispatch(Shutdown, task.life));
  }

  lemma OthersKeepScripts(s: State, d: DriverStep)
    requires Scripted(s.history, s.wires.taken, s.task.pc) && Continues(s.task.pc) && DriveNext(s, d).Some?
    requires !d.Create? && !d.TakeCommand? && !d.Deliver? && !d.Finish? && !d.Cancel?
    ensures var n := DriveNext(s, d).value; Scripted(n.history, n.wires.taken, n.task.pc)
  {
    hide Scripted, Batched, Reported, TransitionOf, IdOf;
    var n := DriveNext(s, d).value;
    EventsAssoc(Due(s.task.pc), [], []);
    assert n.history.log == s.history.log && n.history.ends == s.history.ends && n.history.refused == s.history.refused;
    assert n.wires.taken == s.wires.taken && Due(n.task.pc) == Due(s.task.pc) && n.task.pc != Start;
    assert Rest(n.task.pc) == Rest(s.task.pc) || (!Rest(n.task.pc).Opening? && !Rest(n.task.pc).Sending?);
    hide DriveNext, Due, Rest;
    MovingKeepsScripts(s.history, n.history, s.wires.taken, s.task.pc, n.task.pc);
  }

  lemma ScriptsKept(s: State, l: Label)
    requires Scripted(s.history, s.wires.taken, s.task.pc) && Continues(s.task.pc) && Next(s, l).Some?
    ensures var n := Next(s, l).value; Scripted(n.history, n.wires.taken, n.task.pc)
  {
    hide Scripted, DriveNext, DownNext, Notify;
    match l
    case Drive(d) => DriverKeepsScripts(s, d);
    case Prompt(fp) =>
      PromptKeepsScripts(s.history, s.wires.taken, s.task.pc, Emission([HostKeyPrompt(fp)], Gate, s.gates.active));
    case CallCancel => NotifyKeepsScripts(s);
    case Teardown(_) => NotifyKeepsScripts(s);
    case _ =>
  }

  lemma PromptKeepsScripts(h: History, taken: seq<Taken>, pc: Pc, e: Emission)
    requires Scripted(h, taken, pc) && e.from == Gate
    ensures Scripted(h.(log := h.log + [e]), taken, pc)
  {
    ReportsSnoc(h.log, e);
    EventsAssoc(Reports(h.log), [], []);
  }

  lemma NotifyKeepsScripts(s: State)
    requires Scripted(s.history, s.wires.taken, s.task.pc)
    ensures var n := Notify(s); Scripted(n.history, n.wires.taken, n.task.pc)
  {
    hide Reports, Scripts;
  }
}
