/** Whether the driver has a file provider, from the history alone; and when it stops. */
module SessionFiles {
  import opened Wrappers
  import opened SessionStates
  import opened SessionProtocol
  import opened SessionTeardown
  import opened SessionBatches
  import opened SessionLifecycle
  import opened SessionScripts

  /** What a command makes of the file capability: a connect that was not refused and
      succeeded brings what the provider offered, a disconnect while connected takes it away. */
  function CapabilityAfter(t: Taken, end: Option<End>, before: bool): bool {
    match t.cmd
    case Connect =>
      if t.life != Connecting && t.life != Connected && end.Some? && end.value.Ended? && end.value.outcome.Good?
      then end.value.outcome.files
      else before
    case Disconnect => if t.life == Connected || t.life == Connecting then false else before
    case _ => before
  }

  function FilesAfter(taken: seq<Taken>, ends: map<nat, End>): bool {
    if taken == [] then false
    else
      var n := |taken| - 1;
      CapabilityAfter(taken[n], EndOf(ends, |taken|), FilesAfter(taken[..n], ends))
  }

  /** The driver's variable is that, and was whenever a command was dequeued; only between
      dequeuing a disconnect and dropping the provider does it lag behind. */
  ghost predicate FilesKnown(ends: map<nat, End>, taken: seq<Taken>, task: Task) {
    && (forall i | 0 <= i < |taken| :: taken[i].files == FilesAfter(taken[..i], ends))
    && (if Rest(task.pc) == Dropping then !FilesAfter(taken, ends) else task.files == FilesAfter(taken, ends))
  }

  lemma {:induction false} FilesFrame(taken: seq<Taken>, ends: map<nat, End>, n: nat, end: End)
    requires |taken| < n
    ensures FilesAfter(taken, ends[n := end]) == FilesAfter(taken, ends)
    decreases |taken|
  {
    if taken != [] { FilesFrame(taken[..|taken| - 1], ends, n, end); }
  }

  /** Where an emission leads, two deep. */
  lemma RestIs(pc: Pc)
    ensures pc.Say? || pc.Saying? || pc.Enter? ==> Rest(pc) == Rest(pc.cont)
    ensures (pc.Say? || pc.Saying? || pc.Enter?) && pc.cont.Enter? ==> Rest(pc) == Rest(pc.cont.cont)
  {
  }

  lemma TakingKeepsFiles(h: History, taken: seq<Taken>, task: Task, cmd: Command)
    requires Scripted(h, taken, task.pc) && FilesKnown(h.ends, taken, task) && task.pc == Head
    ensures FilesKnown(h.ends, taken + [Taken(cmd, task.life, task.files)], task.(pc := Dispatch(cmd, task.life)))
  {
    hide Reports, Scripts, Due;
    var t := Taken(cmd, task.life, task.files);
    var all := taken + [t];
    assert all[..|taken|] == taken;
    forall i | 0 <= i < |all| ensures all[i].files == FilesAfter(all[..i], h.ends) {
      if i < |taken| { assert all[..i] == taken[..i] && all[i] == taken[i]; }
    }
    assert EndOf(h.ends, |all|) == None;
  }

  lemma EndingKeepsFiles(h: History, taken: seq<Taken>, task: Task, end: End, task': Task)
    requires Scripted(h, taken, task.pc) && FilesKnown(h.ends, taken, task)
    requires (task.pc.Opening? || task.pc.Sending?) && Concluded(task, end) == Some(task')
    ensures FilesKnown(h.ends[|taken| := end], taken, task')
  {
    hide Reports, Scripts, Due;
    RestIs(task'.pc);
    var n, ends := |taken| - 1, h.ends[|taken| := end];
    forall i | 0 <= i < |taken| ensures FilesAfter(taken[..i], ends) == FilesAfter(taken[..i], h.ends) {
      FilesFrame(taken[..i], h.ends, |taken|, end);
    }
    assert FilesAfter(taken, ends) == CapabilityAfter(taken[n], Some(end), FilesAfter(taken[..n], h.ends));
    assert FilesAfter(taken, h.ends) == CapabilityAfter(taken[n], None, FilesAfter(taken[..n], h.ends));
  }

  lemma MovingKeepsFiles(ends: map<nat, End>, taken: seq<Taken>, task: Task, task': Task)
    requires FilesKnown(ends, taken, task)
    requires (task'.files == task.files && (Rest(task'.pc) == Dropping <==> Rest(task.pc) == Dropping))
             || (task.pc == Dropping && task' == Task(Closing, task.life, false))
    ensures FilesKnown(ends, taken, task')
  {
    hide FilesAfter;
  }

  lemma DriverKeepsFiles(s: State, d: DriverStep)
    requires FilesKnown(s.history.ends, s.wires.taken, s.task) && Scripted(s.history, s.wires.taken, s.task.pc)
    requires Continues(s.task.pc) && DriveNext(s, d).Some?
    ensures var n := DriveNext(s, d).value; FilesKnown(n.history.ends, n.wires.taken, n.task)
  {
    var n := DriveNext(s, d).value;
    var h, taken, task := s.history, s.wires.taken, s.task;
    hide FilesKnown, Scripted;
    match (d, task.pc)
    case (TakeCommand, Head) =>
      hide Dispatch;
      if |taken| < |s.wires.commands| {
        TakingKeepsFiles(h, taken, task, s.wires.commands[|taken|]);
      } else {
        StoppingKeepsFiles(h.ends, taken, task);
      }
    case (Finish(o), Opening(_)) => EndingKeepsFiles(h, taken, task, Ended(o), n.task);
    case (Finish(o), Sending(_)) => EndingKeepsFiles(h, taken, task, Ended(o), n.task);
    case (Cancel, Opening(_)) => EndingKeepsFiles(h, taken, task, CutShort, n.task);
    case (Cancel, Sending(_)) => EndingKeepsFiles(h, taken, task, CutShort, n.task);
    case (Create(_, _), Start) => CreatingKeepsFiles(h, taken, task, n.task);
    case _ =>
      OthersLeaveFiles(s, d);
      hide DriveNext, Rest;
      MovingKeepsFiles(h.ends, taken, task, n.task);
  }

  lemma StoppingKeepsFiles(ends: map<nat, End>, taken: seq<Taken>, task: Task)
    requires FilesKnown(ends, taken, task) && task.pc == Head
    ensures FilesKnown(ends, taken, task.(pc := Dispatch(Shutdown, task.life)))
  {
    MovingKeepsFiles(ends, taken, task, task.(pc := Dispatch(Shutdown, task.life)));
  }

  lemma CreatingKeepsFiles(h: History, taken: seq<Taken>, task: Task, task': Task)
    requires FilesKnown(h.ends, taken, task) && Scripted(h, taken, task.pc) && task.pc == Start
    requires Rest(task'.pc) != Dropping && (task'.files == task.files || !task'.files)
    ensures FilesKnown(h.ends, taken, task')
  {
    hide Reports, Scripts, Due;
  }

  lemma OthersLeaveFiles(s: State, d: DriverStep)
    requires Continues(s.task.pc) && DriveNext(s, d).Some? && !d.TakeCommand? && !d.Create?
    requires (d.Finish? || d.Cancel?) ==> !s.task.pc.Opening? && !s.task.pc.Sending?
    ensures var n := DriveNext(s, d).value;
            && n.history.ends == s.history.ends && n.wires.taken == s.wires.taken
            && ((n.task.files == s.task.files && (Rest(n.task.pc) == Dropping <==> Rest(s.task.pc) == Dropping))
                || (s.task.pc == Dropping && n.task == Task(Closing, s.task.life, false)))
  {
    hide IdOf, Batched, Reported, TransitionOf;
  }

  lemma FilesKept(s: State, l: Label)
    requires FilesKnown(s.history.ends, s.wires.taken, s.task) && Scripted(s.history, s.wires.taken, s.task.pc)
    requires Continues(s.task.pc) && Next(s, l).Some?
    ensures var n := Next(s, l).value; FilesKnown(n.history.ends, n.wires.taken, n.task)
  {
    hide FilesKnown, Scripted, DriveNext, DownNext, Notify;
    match l
    case Drive(d) => DriverKeepsFiles(s, d);
    case CallCancel => NotifyKeepsFiles(s);
    case Teardown(_) => NotifyKeepsFiles(s);
    case _ =>
  }

  lemma NotifyKeepsFiles(s: State)
    requires FilesKnown(s.history.ends, s.wires.taken, s.task)
    ensures var n := Notify(s); FilesKnown(n.history.ends, n.wires.taken, n.task)
  {
    hide FilesAfter;
  }

  // ---------------------------------------------------------------------------
  // When the driver stops, and when events stop.
  // ---------------------------------------------------------------------------

  predicate Stops(pc: Pc) { pc == Stopping || pc == Exited }

  /** A dequeued Shutdown is the last command and stops the driver; besides it only a refused
      provider or the end of the session does. */
  ghost predicate StopsInTime(taken: seq<Taken>, pc: Pc, h: History, g: Gates) {
    && (forall i | 0 <= i < |taken| && taken[i].cmd == Shutdown :: i == |taken| - 1 && Stops(pc))
    && (Stops(Rest(pc)) ==>
          h.refused.Some? || g.down == Returned || (taken != [] && taken[|taken| - 1].cmd == Shutdown))
    && (g.active <==> !EventsSilenced(g.down))
  }

  lemma DriverLeavesDown(s: State, d: DriverStep)
    requires DriveNext(s, d).Some?
    ensures var n := DriveNext(s, d).value;
            n.gates.active == s.gates.active && n.gates.down == s.gates.down
            && (n.history.refused == s.history.refused || n.history.refused.Some?)
  {
    hide IdOf, Batched, Reported, TransitionOf, Dispatch, Finished, Interrupted;
  }

  /** The driver gets to its end by a Shutdown, the end of the session, or a refusal. */
  lemma DriverEnds(s: State, d: DriverStep)
    requires Continues(s.task.pc) && DriveNext(s, d).Some? && !Stops(Rest(s.task.pc))
    ensures var n := DriveNext(s, d).value;
            Stops(Rest(n.task.pc)) ==>
              || n.history.refused.Some?
              || (d.TakeCommand? && (|s.wires.taken| >= |s.wires.commands| ==> s.gates.down == Returned)
                  && (|s.wires.taken| < |s.wires.commands| ==> s.wires.commands[|s.wires.taken|] == Shutdown))
  {
    hide IdOf, Batched, Reported, TransitionOf, Unlocked, WithSlot;
    RestIs(s.task.pc);
    RestIs(DriveNext(s, d).value.task.pc);
  }

  /** Once stopping it stays so, and it takes commands at the head of its loop only. */
  lemma DriverTakesOne(s: State, d: DriverStep)
    requires DriveNext(s, d).Some?
    ensures var n := DriveNext(s, d).value;
            && (Stops(s.task.pc) ==> Stops(n.task.pc) && n.wires.taken == s.wires.taken)
            && (n.wires.taken == s.wires.taken
                || (s.task.pc == Head && d.TakeCommand? && |s.wires.taken| < |s.wires.commands|
                    && n.wires.taken == s.wires.taken
                       + [Taken(s.wires.commands[|s.wires.taken|], s.task.life, s.task.files)]))
            && (s.task.pc == Head && d.TakeCommand? && |s.wires.taken| < |s.wires.commands| ==>
                  |n.wires.taken| == |s.wires.taken| + 1
                  && (s.wires.commands[|s.wires.taken|] == Shutdown ==> Stops(n.task.pc)))
  {
    hide IdOf, Batched, Reported, TransitionOf, Unlocked, WithSlot;
  }

  lemma DriverStopsInTime(s: State, d: DriverStep)
    requires StopsInTime(s.wires.taken, s.task.pc, s.history, s.gates) && Continues(s.task.pc)
    requires DriveNext(s, d).Some?
    ensures var n := DriveNext(s, d).value; StopsInTime(n.wires.taken, n.task.pc, n.history, n.gates)
  {
    DriverLeavesDown(s, d);
    if !Stops(Rest(s.task.pc)) { DriverEnds(s, d); }
    DriverTakesOne(s, d);
    if d.TakeCommand? { TakesAtHead(s, d); }
    hide DriveNext, EventsSilenced;
    var n := DriveNext(s, d).value;
    assert n.gates.active <==> !EventsSilenced(n.gates.down);
    assert forall i | 0 <= i < |n.wires.taken| && n.wires.taken[i].cmd == Shutdown :: Stops(n.task.pc);
    assert forall i | 0 <= i < |n.wires.taken| && n.wires.taken[i].cmd == Shutdown :: i == |n.wires.taken| - 1;
    assert Stops(Rest(n.task.pc)) && Stops(Rest(s.task.pc)) ==>
        || n.history.refused.Some? || n.gates.down == Returned
        || (n.wires.taken != [] && n.wires.taken[|n.wires.taken| - 1].cmd == Shutdown);
    assert Stops(Rest(n.task.pc)) && !Stops(Rest(s.task.pc)) ==>
        || n.history.refused.Some? || n.gates.down == Returned
        || (n.wires.taken != [] && n.wires.taken[|n.wires.taken| - 1].cmd == Shutdown);
  }

  lemma TakesAtHead(s: State, d: DriverStep)
    requires DriveNext(s, d).Some? && d.TakeCommand?
    ensures s.task.pc == Head && Rest(s.task.pc) == Head
  {
  }

  lemma DownSilences(g: Gates, pc: Pc, timeout: bool)
    requires DownNext(g, pc, timeout).Some? && (g.active <==> !EventsSilenced(g.down))
    ensures var n := DownNext(g, pc, timeout).value; n.active <==> !EventsSilenced(n.down)
    ensures g.down != Returned
  {
  }

  lemma NotifyLeaves(s: State)
    ensures var n := Notify(s);
            && n.wires == s.wires && n.gates == s.gates && n.history.refused == s.history.refused
            && Stops(n.task.pc) == Stops(s.task.pc) && Stops(Rest(n.task.pc)) == Stops(Rest(s.task.pc))
  {
  }

  lemma StopsKept(s: State, l: Label)
    requires StopsInTime(s.wires.taken, s.task.pc, s.history, s.gates) && Continues(s.task.pc) && Next(s, l).Some?
    ensures var n := Next(s, l).value; StopsInTime(n.wires.taken, n.task.pc, n.history, n.gates)
  {
    hide DriveNext, DownNext, Notify, Rest;
    match l
    case Drive(d) =>
      hide StopsInTime;
      DriverStopsInTime(s, d);
    case CallCancel => NotifyLeaves(s);
    case Teardown(timeout) =>
      NotifyLeaves(s);
      if s.gates.down != Up && s.gates.down != Sent { DownSilences(s.gates, s.task.pc, timeout); }
    case _ =>
  }
}
