/** The driver gets on: nothing it waits for but the provider and returning callbacks. */
module SessionProgress {
  import opened Wrappers
  import opened SessionStates
  import opened SessionProtocol
  import opened SessionTeardown
  import opened SessionReplies
  import opened SessionRuns

  /** Nothing is left to do for the driver. */
  predicate CaughtUp(s: State) {
    || s.task.pc == Exited
    || (s.task.pc == Head && |s.wires.taken| == |s.wires.commands| && s.wires.consumed == |s.wires.arrived|)
  }

  predicate Awaits(pc: Pc) {
    pc.Opening? || pc.Aborting? || pc.Sending? || pc.Closing? || pc.Serving? || pc.Stopping?
  }

  /** A step that brings the driver on, with a provider that always succeeds. */
  function Forward(s: State): Label {
    if s.gates.gate == Some(HostKeyGate) then PromptReturn
    else
      match s.task.pc
      case Start => Drive(Create(true, Cancelled))
      case Head => Drive(if |s.wires.taken| < |s.wires.commands| then TakeCommand else CommandsEmpty)
      case Polled => Drive(if s.wires.consumed < |s.wires.arrived| then TakeEvent else EventsEmpty)
      case Draining(_, _, _) => Drive(DrainDone)
      case Say(_, _, _) => Drive(Deliver)
      case Saying(_) => Drive(Return)
      case Enter(_, _) => Drive(Assign)
      case Dropping => Drive(Assign)
      case Replying(k, _, _, _) =>
        if SlotOf(s.gates, k).lock == Some(Owner) then Teardown(true) else Drive(LockSlot)
      case Holding(_, _, _, _, _) => Drive(Reply)
      case Answering(_, _) => Drive(ReplyReturn)
      case _ => Drive(Finish(Good(0, true)))
  }

  /** How many steps of its own the driver is from the next command or event, or, with
      nothing `left` to drain, from resting at the head of its loop. */
  function Steps(pc: Pc, left: bool): nat {
    match pc
    case Start => 2
    case Head => 1
    case Polled => if left then 0 else 2
    case Draining(_, _, _) => 4
    case Say(_, _, cont) => 2 + Steps(cont, left)
    case Saying(cont) => 1 + Steps(cont, left)
    case Enter(_, cont) => 3 + Steps(cont, left)
    case Opening(_) => 5
    case Aborting => 7
    case Sending(_) => 2
    case Dropping => 6
    case Closing => 5
    case Serving(_, _, _) => 5
    case Replying(_, _, _, _) => 4
    case Holding(_, _, _, _, _) => 3
    case Answering(_, _) => 2
    case Stopping => 2
    case Exited => 0
  }

  function StepsLeft(s: State): nat { Steps(s.task.pc, s.wires.consumed < |s.wires.arrived|) }

  function Unread(s: State): nat
    requires |s.wires.taken| <= |s.wires.commands|
  {
    |s.wires.commands| - |s.wires.taken|
  }

  function Undrained(s: State): nat
    requires s.wires.consumed <= |s.wires.arrived|
  {
    |s.wires.arrived| - s.wires.consumed
  }

  function Locked(s: State): nat {
    (if s.gates.gate == Some(HostKeyGate) then 1 else 0) + (if s.gates.down.Took? then 1 else 0)
  }

  ghost predicate Counts(s: State) {
    |s.wires.taken| <= |s.wires.commands| && s.wires.consumed <= |s.wires.arrived|
  }

  /** `n` is nearer to catching up than `s`. */
  ghost predicate Nearer(n: State, s: State)
    requires Counts(s) && Counts(n)
  {
    || Unread(n) < Unread(s)
    || (Unread(n) == Unread(s) && Undrained(n) < Undrained(s))
    || (Unread(n) == Unread(s) && Undrained(n) == Undrained(s) && StepsLeft(n) < StepsLeft(s))
    || (Unread(n) == Unread(s) && Undrained(n) == Undrained(s) && StepsLeft(n) == StepsLeft(s)
        && Locked(n) < Locked(s))
  }

  lemma StepsAre(b: seq<Event>, from: Origin, to: Life, left: bool)
    ensures Steps(Enter(to, Head), left) == 4 && Steps(Say(b, from, Head), left) == 3
    ensures Steps(Say(b, from, Enter(to, Head)), left) == 6
  {
    assert Steps(Enter(to, Head), left) == 3 + Steps(Head, left);
  }

  lemma DriverForwardAtLocks(s: State, d: DriverStep)
    requires Locks(s.gates, s.task.pc) && Counts(s) && Forward(s) == Drive(d)
    requires s.task.pc.Say? || s.task.pc.Saying? || s.task.pc.Replying? || s.task.pc.Holding? || s.task.pc.Answering?
    ensures DriveNext(s, d).Some? && Counts(DriveNext(s, d).value) && Nearer(DriveNext(s, d).value, s)
  {
    hide IdOf, TakenOut, EventsSilenced;
    SomeoneHolds(s.gates.gate);
    if s.task.pc.Replying? { SomeoneHolds(SlotOf(s.gates, s.task.pc.kind).lock); }
  }

  lemma DriverForwardAtEnds(s: State, d: DriverStep)
    requires Awaits(s.task.pc) && Counts(s) && Forward(s) == Drive(d)
    ensures DriveNext(s, d).Some? && Counts(DriveNext(s, d).value) && Nearer(DriveNext(s, d).value, s)
  {
    hide IdOf, Batched, Reported, TransitionOf, Dispatch, Unlocked, WithSlot, LockAndLook, CallBack, Emit;
    var left := s.wires.consumed < |s.wires.arrived|;
    StepsAre([Error(Cancelled)], Report, Disconnected, left);
    StepsAre([], Report, Connected, left);
  }

  lemma DriverForward(s: State, d: DriverStep)
    requires Locks(s.gates, s.task.pc) && Counts(s) && !CaughtUp(s) && Forward(s) == Drive(d)
    ensures DriveNext(s, d).Some? && Counts(DriveNext(s, d).value) && Nearer(DriveNext(s, d).value, s)
  {
    var pc := s.task.pc;
    if pc.Say? || pc.Saying? || pc.Replying? || pc.Holding? || pc.Answering? {
      DriverForwardAtLocks(s, d);
    } else if Awaits(pc) {
      DriverForwardAtEnds(s, d);
    } else {
      hide Locks, IdOf, Batched, Reported, TransitionOf, Dispatch, Finished, Interrupted, Unlocked, WithSlot;
      hide LockAndLook, CallBack, Emit;
      match pc
      case Start =>
      case Head =>
        if |s.wires.taken| < |s.wires.commands| {
          assert Unread(DriveNext(s, d).value) < Unread(s);
        } else {
          assert DriveNext(s, d).value == At(s, Polled);
        }
      case Polled =>
        if s.wires.consumed < |s.wires.arrived| {
          assert Undrained(DriveNext(s, d).value) < Undrained(s);
        } else {
          assert DriveNext(s, d).value == At(s, Head);
        }
      case Draining(lo, b, t) =>
        StepsAre(Batched(b, t), Drain(lo, s.wires.consumed), Idle, s.wires.consumed < |s.wires.arrived|);
        assert StepsLeft(DriveNext(s, d).value) == 3;
      case Enter(_, cont) =>
        assert StepsLeft(DriveNext(s, d).value) == 2 + Steps(cont, s.wires.consumed < |s.wires.arrived|);
      case Dropping =>
    }
  }

  lemma ForwardGoesOn(s: State)
    requires Locks(s.gates, s.task.pc) && Counts(s) && !CaughtUp(s)
    ensures Next(s, Forward(s)).Some? && Counts(Next(s, Forward(s)).value) && Nearer(Next(s, Forward(s)).value, s)
  {
    hide DriveNext;
    match Forward(s)
    case Drive(d) => DriverForward(s, d);
    case Teardown(_) => assert s.gates.down.Took? && s.task.pc.Replying?;
    case _ =>
  }

  /** From every reachable state the driver can read all commands it was sent, answer every
      request among them and drain every provider event, or come to its end. It needs nothing for it but operations
      of the provider to end and callbacks to return. */
  lemma {:induction false} DriverCatchesUp(run: seq<Label>) returns (more: seq<Label>)
    requires After(run).Some?
    ensures After(run + more).Some? && CaughtUp(After(run + more).value)
    ensures var s := After(run + more).value;
            s.task.pc == Head ==>
              && |s.wires.taken| == |s.wires.commands| && |s.history.answers| == |Requests(s.wires.taken)|
              && s.wires.consumed == |s.wires.arrived| && LogBytes(s.history.log) == BytesReceived(s.wires.arrived)
    ensures forall l | l in more :: l.Drive? || l == PromptReturn || l == Teardown(true)
    decreases var s := After(run).value; if Counts(s) then Unread(s) else 0,
              var s := After(run).value; if Counts(s) then Undrained(s) else 0,
              StepsLeft(After(run).value), Locked(After(run).value)
  {
    hide After, Next, Requests, LogBytes, BytesReceived;
    var s := After(run).value;
    ReachableCounts(run);
    if CaughtUp(s) {
      assert run + [] == run;
      ExactlyOnce(run);
      StreamConservation(run);
      assert s.wires.arrived[..|s.wires.arrived|] == s.wires.arrived;
      return [];
    }
    ForwardGoesOn(s);
    OneStepOn(run, Forward(s));
    hide Steps, StepsLeft, Locked, Unread, Undrained;
    var rest := DriverCatchesUp(run + [Forward(s)]);
    more := [Forward(s)] + rest;
    assert run + more == run + [Forward(s)] + rest;
  }

  lemma ReachableCounts(run: seq<Label>)
    requires After(run).Some?
    ensures Counts(After(run).value) && Locks(After(run).value.gates, After(run).value.task.pc)
  {
    hide After, Locks;
    InvHolds(run);
  }

  /** From every reachable state teardown can return and the driver come to its end, which
      needs no step of the clients and no further event. */
  lemma SessionCanEnd(run: seq<Label>) returns (more: seq<Label>)
    requires After(run).Some?
    ensures After(run + more).Some? && After(run + more).value.gates.down == Returned
    ensures After(run + more).value.task.pc == Exited
    ensures forall l | l in more :: l.Drive? || l == PromptReturn || l == Teardown(true)
  {
    hide After, Next;
    var down := TeardownFinishes(run);
    var caught := DriverCatchesUp(run + down);
    more := down + caught;
    assert run + down + caught == run + more;
    ReachableCounts(run + down);
    TeardownSilence(run + down, caught);
    var s := After(run + more).value;
    if s.task.pc == Head {
      var last := Drive(TakeCommand);
      HeadEnds(s);
      OneStepOn(run + more, last);
      assert run + more + [last] == run + (more + [last]);
      more := more + [last];
      if After(run + more).value.task.pc == Stopping {
        var stopped := Drive(Finish(Good(0, true)));
        OneStepOn(run + more, stopped);
        assert run + more + [stopped] == run + (more + [stopped]);
        more := more + [stopped];
      }
    }
  }

  lemma HeadEnds(s: State)
    requires s.task.pc == Head && |s.wires.taken| == |s.wires.commands| && s.gates.down == Returned
    ensures var n := Next(s, Drive(TakeCommand));
            && n.Some? && n.value.gates.down == Returned && (n.value.task.pc == Stopping || n.value.task.pc == Exited)
            && (n.value.task.pc == Stopping ==>
                  && var m := Next(n.value, Drive(Finish(Good(0, true))));
                     m.Some? && m.value.task.pc == Exited && m.value.gates.down == Returned)
  {
  }

  /** Whatever an awaited operation ends with can come, and a cancel, by a client or by
      teardown, that finds a connect, a send or a request in flight can win against it. */
  lemma CancelCanWin(s: State, l: Label, o: Outcome)
    requires l == CallCancel || (l.Teardown? && s.gates.down == Sent)
    ensures Awaits(s.task.pc) ==> Next(s, Drive(Finish(o))).Some?
    ensures InFlight(s.task.pc) ==>
              && Next(s, l).Some?
              && var n := Next(s, l).value;
                 && Next(n, Drive(Finish(o))).Some? && Next(n, Drive(Cancel)).Some?
                 && var pc := Next(n, Drive(Cancel)).value.task.pc;
                    match s.task.pc
                    case Opening(_) => pc == Aborting
                    case Sending(_) => pc == Say([Error(Cancelled)], Report, Head)
                    case Serving(k, t, _) => pc == Replying(k, t, Fail(Cancelled), ByCancel)
                    case _ => false
  {
    hide IdOf, Batched, Reported, TransitionOf, Dispatch, WithSlot, Unlocked, LockAndLook, CallBack, Emit, DownNext;
  }

  /** What teardown waits for: the driver or a timeout once, then locks and callbacks. */
  lemma TeardownWaitsFor(s: State, timeout: bool)
    requires Locks(s.gates, s.task.pc)
    ensures var n, g := Next(s, Teardown(timeout)), s.gates;
            match g.down
            case Up => n.Some?
            case Sent => n.Some?
            case Signalled => n.Some? <==> timeout || s.task.pc == Exited
            case Waited => (n.Some? <==> g.gate == None) && (n.Some? ==> !n.value.gates.active)
            case EventsOff => n.Some? <==> !HoldsSlot(s.task.pc, Fs)
            case Took(k, em) =>
              && (n.Some? <==> s.task.pc != Answering(k, em))
              && (n.Some? ==> em !in n.value.gates.live && SlotOf(n.value.gates, k) == Slot(None, None))
            case FilesOff => n.Some? <==> !HoldsSlot(s.task.pc, Exec)
            case Returned => n.None?
  {
    hide Notify, Accept;
    SomeoneHolds(s.gates.fs.lock);
    SomeoneHolds(s.gates.exec.lock);
  }

  /** What is always possible: provider events and commands while the driver lives, a prompt
      while no callback holds the gate. */
  lemma InputsArePossible(s: State, ev: ProviderEvent, cmd: Command, fingerprint: string, k: Kind, t: nat)
    ensures s.task.pc != Exited ==> Next(s, Arrive(ev)).Some?
    ensures Next(s, Post(cmd)).Some? <==> !cmd.Request? && !cmd.Shutdown?
    ensures Next(s, Prompt(fingerprint)).Some? <==> s.gates.gate == None && s.task.pc != Start
    ensures Next(s, Allocate(k)).Some? && (Next(s, Submit(t)).Some? <==> t in s.clients.sending)
    ensures Next(s, Register(k)).Some? <==> s.gates.down == Up && SlotOf(s.gates, k).lock == None
  {
  }
}
