/** Every operation that a command calls for comes to an end, which is kept in the history. */
module SessionEnds {
  import opened Wrappers
  import opened SessionStates
  import opened SessionProtocol
  import opened SessionTeardown
  import opened SessionLifecycle
  import opened SessionScripts
  import opened SessionFiles

  /** The command is a connect or a send that is not refused. */
  predicate Operates(t: Taken) {
    || (t.cmd == Connect && t.life != Connecting && t.life != Connected)
    || (t.cmd == Send && t.life == Connected)
  }

  predicate Operating(pc: Pc) { Rest(pc).Opening? || Rest(pc).Sending? }

  /** An end is known for exactly the operations of the commands dequeued, but for the one
      under way. */
  ghost predicate EndsKnown(ends: map<nat, End>, taken: seq<Taken>, pc: Pc) {
    && (forall k | k in ends :: 0 < k <= |taken| && Operates(taken[k - 1]))
    && (forall i | 0 <= i < |taken| && Operates(taken[i]) ::
          i + 1 in ends || (i == |taken| - 1 && Operating(pc)))
  }

  lemma TakingKeepsEnds(ends: map<nat, End>, taken: seq<Taken>, t: Taken)
    requires EndsKnown(ends, taken, Head)
    ensures EndsKnown(ends, taken + [t], Dispatch(t.cmd, t.life))
  {
    var all := taken + [t];
    RestIs(Dispatch(t.cmd, t.life));
    forall i | 0 <= i < |all| && Operates(all[i])
      ensures i + 1 in ends || (i == |all| - 1 && Operating(Dispatch(t.cmd, t.life))) {
      if i < |taken| { assert all[i] == taken[i]; }
    }
  }

  /** What a driver step does to the ends, apart from dequeuing. */
  lemma DriverEndsOne(s: State, d: DriverStep)
    requires Continues(s.task.pc) && DriveNext(s, d).Some? && !d.TakeCommand?
    ensures var n := DriveNext(s, d).value;
            && n.wires.taken == s.wires.taken
            && if (d.Finish? || d.Cancel?) && (s.task.pc.Opening? || s.task.pc.Sending?)
               then n.history.ends ==
                      s.history.ends[|s.wires.taken| := if d.Cancel? then CutShort else Ended(d.outcome)]
               else n.history.ends == s.history.ends && (Operating(s.task.pc) ==> Operating(n.task.pc))
  {
    hide IdOf, Batched, Reported, TransitionOf, Dispatch, Unlocked, WithSlot;
  }

  lemma DriverKeepsEnds(s: State, d: DriverStep)
    requires EndsKnown(s.history.ends, s.wires.taken, s.task.pc) && Scripted(s.history, s.wires.taken, s.task.pc)
    requires Continues(s.task.pc) && DriveNext(s, d).Some?
    ensures var n := DriveNext(s, d).value; EndsKnown(n.history.ends, n.wires.taken, n.task.pc)
  {
    var h, taken, pc := s.history, s.wires.taken, s.task.pc;
    if d.TakeCommand? {
      hide EndsKnown, Dispatch, Scripted;
      if |taken| < |s.wires.commands| {
        TakingKeepsEnds(h.ends, taken, Taken(s.wires.commands[|taken|], s.task.life, s.task.files));
      } else {
        StoppingKeepsEnds(h.ends, taken, s.task.life);
      }
    } else {
      DriverEndsOne(s, d);
      if pc.Opening? || pc.Sending? { OperationIsLast(h, taken, pc); }
      hide DriveNext, Scripted, Operating, Operates;
    }
  }

  lemma StoppingKeepsEnds(ends: map<nat, End>, taken: seq<Taken>, life: Life)
    requires EndsKnown(ends, taken, Head)
    ensures EndsKnown(ends, taken, Dispatch(Shutdown, life))
  {
  }

  lemma OperationIsLast(h: History, taken: seq<Taken>, pc: Pc)
    requires Scripted(h, taken, pc) && (pc.Opening? || pc.Sending?)
    ensures taken != [] && Operates(taken[|taken| - 1]) && |taken| !in h.ends
  {
    hide Reports, Scripts, Due;
  }

  lemma NotifyKeepsEnds(s: State)
    requires EndsKnown(s.history.ends, s.wires.taken, s.task.pc)
    ensures var n := Notify(s); EndsKnown(n.history.ends, n.wires.taken, n.task.pc)
  {
    hide Operates;
  }

  lemma EndsKept(s: State, l: Label)
    requires EndsKnown(s.history.ends, s.wires.taken, s.task.pc) && Scripted(s.history, s.wires.taken, s.task.pc)
    requires Continues(s.task.pc) && Next(s, l).Some?
    ensures var n := Next(s, l).value; EndsKnown(n.history.ends, n.wires.taken, n.task.pc)
  {
    hide EndsKnown, Scripted, DriveNext, DownNext, Notify;
    match l
    case Drive(d) => DriverKeepsEnds(s, d);
    case CallCancel => NotifyKeepsEnds(s);
    case Teardown(_) => NotifyKeepsEnds(s);
    case _ =>
  }

  /** The command at `i` is a connect that was carried out and succeeded. */
  predicate Opens(taken: seq<Taken>, ends: map<nat, End>, i: nat)
    requires i < |taken|
  {
    && taken[i].cmd == Connect && taken[i].life != Connecting && taken[i].life != Connected
    && i + 1 in ends && ends[i + 1].Ended? && ends[i + 1].outcome.Good?
  }

  predicate Closes(t: Taken) { t.cmd == Disconnect && (t.life == Connected || t.life == Connecting) }

  /** It got a file provider, and no later connect succeeded and no later disconnect found
      a session. */
  ghost predicate Grants(taken: seq<Taken>, ends: map<nat, End>, i: nat) {
    && i < |taken| && Opens(taken, ends, i) && ends[i + 1].outcome.files
    && forall j | i < j < |taken| :: !Opens(taken, ends, j) && !Closes(taken[j])
  }

  lemma GrantsSnoc(taken: seq<Taken>, ends: map<nat, End>, i: nat)
    requires i < |taken|
    ensures var n := |taken| - 1;
            Grants(taken, ends, i) <==>
              if i == n then Opens(taken, ends, n) && ends[n + 1].outcome.files
              else Grants(taken[..n], ends, i) && !Opens(taken, ends, n) && !Closes(taken[n])
  {
    var before := taken[..|taken| - 1];
    assert forall j: nat | j < |before| :: before[j] == taken[j] && (Opens(before, ends, j) <==> Opens(taken, ends, j));
  }

  /** The file capability, without recursion: the last connect or disconnect that changed
      anything was a connect that brought a file provider. */
  lemma {:induction false} FilesAfterIs(taken: seq<Taken>, ends: map<nat, End>)
    ensures FilesAfter(taken, ends) <==> exists i :: Grants(taken, ends, i)
    decreases |taken|
  {
    if taken != [] {
      var n := |taken| - 1;
      FilesAfterIs(taken[..n], ends);
      GrantsSnoc(taken, ends, n);
      if i: nat :| i < n && Grants(taken, ends, i) {
        GrantsSnoc(taken, ends, i);
      }
      if i: nat :| Grants(taken[..n], ends, i) {
        GrantsSnoc(taken, ends, i);
      }
    }
  }

  /** The history records what happens: what is handed to a callback, how operations end,
      and what a cancel finds in flight. */
  lemma HistoryRecords(s: State, l: Label)
    requires Next(s, l).Some?
    ensures var n := Next(s, l).value; var before, after := s.history, n.history;
            && (match l
                case Drive(Deliver) =>
                  && s.task.pc.Say?
                  && var heard := n.task.pc == Saying(s.task.pc.cont);
                     after.log == before.log + [Emission(s.task.pc.batch, s.task.pc.from, heard)]
                case Prompt(fp) =>
                  after.log == before.log + [Emission([HostKeyPrompt(fp)], Gate, n.gates.gate == Some(HostKeyGate))]
                case _ => after.log == before.log)
            && (match l
                case Drive(Finish(o)) =>
                  && after.outcomes == (if s.task.pc.Serving?
                                        then before.outcomes[|before.answers| := o] else before.outcomes)
                  && after.ends == (if s.task.pc.Opening? || s.task.pc.Sending?
                                    then before.ends[|s.wires.taken| := Ended(o)] else before.ends)
                case Drive(Cancel) =>
                  && after.outcomes == before.outcomes
                  && after.ends == (if s.task.pc.Opening? || s.task.pc.Sending?
                                    then before.ends[|s.wires.taken| := CutShort] else before.ends)
                case _ => after.outcomes == before.outcomes && after.ends == before.ends)
            && (after.cancelled == if (l == CallCancel || (l.Teardown? && s.gates.down == Sent)) && s.task.pc.Serving?
                                   then before.cancelled + {|before.answers|} else before.cancelled)
            && (after.answers == before.answers
                || (after.answers[..|before.answers|] == before.answers && |after.answers| == |before.answers| + 1
                    && (after.answers[|before.answers|].delivered <==> n.task.pc.Answering?)))
  {
    hide IdOf, Batched, Reported, TransitionOf, Dispatch, Finished, Interrupted;
  }
}
