/** What holds after every run of the session protocol, whatever the interleaving. */
module SessionRuns {
  import opened Wrappers
  import opened SessionStates
  import opened SessionProtocol
  import opened SessionTeardown
  import opened SessionBatches
  import opened SessionLifecycle
  import opened SessionReplies
  import opened SessionScripts
  import opened SessionFiles
  import opened SessionEnds

  /** Once the emitter is off nothing gets through, so what got through is a prefix. */
  ghost predicate Fading(log: seq<Emission>, active: bool) {
    && (active ==> forall i | 0 <= i < |log| :: log[i].delivered)
    && (forall i, j | 0 <= i < j < |log| && log[j].delivered :: log[i].delivered)
  }

  ghost predicate Inv(s: State) {
    && Locks(s.gates, s.task.pc)
    && Drained(s.wires, s.task.pc)
    && Conserved(s.history.log, s.wires, s.task.pc)
    && Framed(s.history.log, s.wires, s.task.pc)
    && Shaped(s.history.log, s.wires, s.task.pc)
    && LifeCycle(s.history.log, s.task)
    && Served(s.wires.taken, s.task, s.history)
    && Numbered(s.wires, s.clients)
    && Scripted(s.history, s.wires.taken, s.task.pc)
    && FilesKnown(s.history.ends, s.wires.taken, s.task)
    && EndsKnown(s.history.ends, s.wires.taken, s.task.pc)
    && StopsInTime(s.wires.taken, s.task.pc, s.history, s.gates)
    && Fading(s.history.log, s.gates.active)
  }

  lemma FadingKept(s: State, l: Label)
    requires Fading(s.history.log, s.gates.active) && Next(s, l).Some?
    ensures var n := Next(s, l).value; Fading(n.history.log, n.gates.active)
  {
    hide Dispatch, Finished, Interrupted, Reported, TransitionOf, Batched, IdOf;
  }

  lemma InvKept(s: State, l: Label)
    requires Inv(s) && Next(s, l).Some?
    ensures Inv(Next(s, l).value)
  {
    hide Drained, Conserved, Framed, Shaped, LifeCycle, Served, Numbered, Scripted, FilesKnown;
    hide EndsKnown, StopsInTime, Fading;
    hide Next;
    assert Continues(s.task.pc);
    LocksKept(s, l);
    DrainedKept(s, l);
    Conserves(s, l);
    FrameKept(s, l);
    ShapeKept(s, l);
    LifeKept(s, l);
    ServedKept(s, l);
    NumberedKept(s, l);
    ScriptsKept(s, l);
    FilesKept(s, l);
    EndsKept(s, l);
    StopsKept(s, l);
    FadingKept(s, l);
    hide Locks;
  }

  lemma FlowInit()
    ensures var s := Init();
            && Drained(s.wires, s.task.pc) && Conserved(s.history.log, s.wires, s.task.pc)
            && Framed(s.history.log, s.wires, s.task.pc) && Shaped(s.history.log, s.wires, s.task.pc)
  {
    assert LogBytes([]) == [] && Bytes([]) == [] && BytesReceived([]) == [];
  }

  lemma LifeInit()
    ensures LifeCycle([], Init().task)
  {
    assert LogStates([]) == [] && Owed(Start) == [] && Said(Start) == [] && Rest(Start) == Start;
    assert Told([], Start) == [];
  }

  lemma RepliesInit()
    ensures var s := Init();
            && Served(s.wires.taken, s.task, s.history) && Numbered(s.wires, s.clients)
  {
    hide Fits, PayloadOk, Script, Dispatch, IdOf;
    assert Requests([]) == [] && Rest(Start) == Start;
  }

  lemma ScriptsInit()
    ensures var s := Init(); Scripted(s.history, s.wires.taken, s.task.pc)
  {
    hide Script, Dispatch;
    assert Reports([]) == [] && Scripts([], map[]) == [] && Due(Start) == [];
  }

  lemma FilesInit()
    ensures var s := Init();
            && FilesKnown(s.history.ends, s.wires.taken, s.task)
            && EndsKnown(s.history.ends, s.wires.taken, s.task.pc)
            && StopsInTime(s.wires.taken, s.task.pc, s.history, s.gates)
  {
    assert Rest(Start) == Start && FilesAfter([], map[]) == false;
  }

  lemma InvInit()
    ensures Inv(Init())
  {
    hide Drained, Conserved, Framed, Shaped, LifeCycle, Served, Numbered, Scripted, FilesKnown, EndsKnown, StopsInTime;
    FlowInit();
    LifeInit();
    RepliesInit();
    ScriptsInit();
    FilesInit();
  }

  lemma {:induction false} InvHolds(run: seq<Label>)
    requires After(run).Some?
    ensures Inv(After(run).value)
    decreases |run|
  {
    hide Inv;
    if run == [] {
      InvInit();
    } else {
      InvHolds(run[..|run| - 1]);
      InvKept(After(run[..|run| - 1]).value, run[|run| - 1]);
    }
  }

  /** A run that got one step further. */
  lemma LastStep(run: seq<Label>, more: seq<Label>)
    requires more != [] && After(run + more).Some?
    ensures var n := |more| - 1;
            After(run + more[..n]).Some? && After(run + more) == Next(After(run + more[..n]).value, more[n])
  {
    hide Next;
    var n := |more| - 1;
    assert (run + more)[..|run + more| - 1] == run + more[..n];
  }

  // ---------------------------------------------------------------------------
  // Teardown silence.
  // ---------------------------------------------------------------------------

  /** No event, file or exec callback is running. */
  predicate Quiet(s: State) {
    s.gates.gate == None && !s.task.pc.Saying? && !s.task.pc.Answering?
  }

  /** The callbacks made so far. */
  function CallbacksMade(s: State): (seq<Emission>, seq<Answer>) {
    (Heard(s.history.log), HeardAnswers(s.history.answers))
  }

  function Heard(log: seq<Emission>): seq<Emission> {
    if log == [] then []
    else Heard(log[..|log| - 1]) + (if log[|log| - 1].delivered then [log[|log| - 1]] else [])
  }

  function HeardAnswers(as_: seq<Answer>): seq<Answer> {
    if as_ == [] then []
    else HeardAnswers(as_[..|as_| - 1]) + (if as_[|as_| - 1].delivered then [as_[|as_| - 1]] else [])
  }

  lemma UnheardIsNothing(log: seq<Emission>, e: Emission, as_: seq<Answer>, a: Answer)
    ensures !e.delivered ==> Heard(log + [e]) == Heard(log)
    ensures !a.delivered ==> HeardAnswers(as_ + [a]) == HeardAnswers(as_)
  {
    assert (log + [e])[..|log|] == log && (as_ + [a])[..|as_|] == as_;
    assert Heard(log) + [] == Heard(log) && HeardAnswers(as_) + [] == HeardAnswers(as_);
  }

  /** With teardown complete no gate opens any more. */
  lemma ClosedGates(s: State, l: Label)
    requires Locks(s.gates, s.task.pc) && s.gates.down == Returned && Next(s, l).Some?
    ensures var n := Next(s, l).value;
            && Quiet(s) && n.gates.down == Returned
            && (n.history.log == s.history.log
                || exists e :: n.history.log == s.history.log + [e] && !e.delivered)
            && (n.history.answers == s.history.answers
                || exists a :: n.history.answers == s.history.answers + [a] && !a.delivered)
  {
    hide IdOf, Dispatch, Finished, Interrupted, Reported, TransitionOf, Batched;
  }

  lemma StaysDown(s: State, l: Label)
    requires Locks(s.gates, s.task.pc) && s.gates.down == Returned && Next(s, l).Some?
    ensures Quiet(s) && Next(s, l).value.gates.down == Returned
    ensures CallbacksMade(Next(s, l).value) == CallbacksMade(s)
  {
    var n := Next(s, l).value;
    ClosedGates(s, l);
    hide Next, Heard, HeardAnswers, Locks;
    var log, answers := s.history.log, s.history.answers;
    if e :| n.history.log == log + [e] && !e.delivered {
      UnheardIsNothing(log, e, [], Answer(Fs, 0, Value(0), ByState, true));
    }
    if a :| n.history.answers == answers + [a] && !a.delivered {
      UnheardIsNothing([], Emission([], Report, true), answers, a);
    }
  }

  /** Once `shutdown_and_join` has returned, with the driver joined or left behind, no
      callback is running and none is ever made again. */
  lemma {:induction false} TeardownSilence(run: seq<Label>, more: seq<Label>)
    requires After(run).Some? && After(run).value.gates.down == Returned && After(run + more).Some?
    ensures Quiet(After(run + more).value) && After(run + more).value.gates.down == Returned
    ensures CallbacksMade(After(run + more).value) == CallbacksMade(After(run).value)
    decreases |more|
  {
    hide After, Next, CallbacksMade, Quiet, Locks, Drained, Conserved, Framed, Shaped;
    hide LifeCycle, Served, Numbered, Scripted, FilesKnown;
    hide EndsKnown, StopsInTime, Fading;
    if more == [] {
      assert run + more == run;
      InvHolds(run);
      QuietWhenDown(After(run).value);
    } else {
      var n := |more| - 1;
      LastStep(run, more);
      TeardownSilence(run, more[..n]);
      InvHolds(run + more[..n]);
      InvHolds(run + more);
      StaysDown(After(run + more[..n]).value, more[n]);
      QuietWhenDown(After(run + more).value);
    }
  }

  lemma QuietWhenDown(s: State)
    requires Locks(s.gates, s.task.pc) && s.gates.down == Returned
    ensures Quiet(s)
  {
  }

  /** What brings teardown nearer to its end: a running callback returns, or else the next
      step of teardown itself, without waiting for the driver. */
  function Onward(s: State): Label {
    if s.gates.gate == Some(HostKeyGate) then PromptReturn
    else
      match s.task.pc
      case Saying(_) => Drive(Return)
      case Holding(_, _, _, _, _) => Drive(Reply)
      case Answering(_, _) => Drive(ReplyReturn)
      case _ => Teardown(true)
  }

  function Rank(d: Down): nat {
    match d
    case Up => 8
    case Sent => 7
    case Signalled => 6
    case Waited => 5
    case EventsOff => 4
    case Took(k, _) => if k == Fs then 3 else 1
    case FilesOff => 2
    case Returned => 0
  }

  function Remaining(s: State): nat {
    4 * Rank(s.gates.down)
    + (if s.gates.gate == Some(HostKeyGate) then 1 else 0)
    + (match s.task.pc case Holding(_, _, _, _, _) => 2 case Saying(_) => 1 case Answering(_, _) => 1 case _ => 0)
  }

  /** Teardown never gets stuck. */
  lemma OnwardGoesOn(s: State)
    requires Locks(s.gates, s.task.pc) && s.gates.down != Returned
    ensures Next(s, Onward(s)).Some? && Remaining(Next(s, Onward(s)).value) < Remaining(s)
  {
    hide IdOf, Dispatch, Finished, Interrupted, Reported, TransitionOf, Batched;
    match Onward(s)
    case Drive(d) => ReturningGoesOn(s, d);
    case Teardown(_) =>
      NotifyIsQuiet(s);
      if s.gates.down != Up && s.gates.down != Sent { DownGoesOn(s.gates, s.task.pc); }
      hide Notify, DownNext, Locks;
    case _ =>
  }

  lemma DownGoesOn(g: Gates, pc: Pc)
    requires Locks(g, pc) && g.gate != Some(HostKeyGate) && !pc.Saying? && !pc.Holding? && !pc.Answering?
    requires g.down != Up && g.down != Sent && g.down != Returned
    ensures var n := DownNext(g, pc, true); n.Some? && Rank(n.value.down) < Rank(g.down) && n.value.gate == g.gate
  {
    SomeoneHolds(g.gate);
    SomeoneHolds(g.fs.lock);
    SomeoneHolds(g.exec.lock);
  }

  lemma SomeoneHolds(lock: Option<Holder>)
    ensures lock == None || lock == Some(Driver) || lock == Some(HostKeyGate) || lock == Some(Owner)
  {
    if lock.Some? {
      match lock.value
      case Driver =>
      case HostKeyGate =>
      case Owner =>
    }
  }

  lemma ReturningGoesOn(s: State, d: DriverStep)
    requires Continues(s.task.pc) && s.gates.gate != Some(HostKeyGate)
    requires match s.task.pc
             case Saying(_) => d == Return
             case Holding(_, _, _, _, _) => d == Reply
             case Answering(_, _) => d == ReplyReturn
             case _ => false
    ensures DriveNext(s, d).Some? && Remaining(DriveNext(s, d).value) < Remaining(s)
  {
    hide IdOf, Dispatch, Finished, Interrupted, Reported, TransitionOf, Batched, Rank;
  }

  lemma NotifyIsQuiet(s: State)
    ensures var n := Notify(s);
            n.gates == s.gates && (n.task.pc == s.task.pc || (InFlight(n.task.pc) && InFlight(s.task.pc)))
  {
  }

  /** Every run can be brought to the return of teardown by steps of teardown and returning
      callbacks alone, whatever the driver awaits. */
  lemma {:induction false} TeardownFinishes(run: seq<Label>) returns (more: seq<Label>)
    requires After(run).Some?
    ensures After(run + more).Some? && After(run + more).value.gates.down == Returned
    ensures forall l | l in more ::
              l == Teardown(true) || l == PromptReturn || l in {Drive(Return), Drive(Reply), Drive(ReplyReturn)}
    decreases Remaining(After(run).value)
  {
    hide After, Next, Remaining, Locks;
    var s := After(run).value;
    if s.gates.down == Returned {
      assert run + [] == run;
      return [];
    }
    ReachableLocks(run);
    OnwardGoesOn(s);
    OneStepOn(run, Onward(s));
    var rest := TeardownFinishes(run + [Onward(s)]);
    more := [Onward(s)] + rest;
    assert run + more == run + [Onward(s)] + rest;
  }

  lemma ReachableLocks(run: seq<Label>)
    requires After(run).Some?
    ensures Locks(After(run).value.gates, After(run).value.task.pc)
  {
    hide After, Locks;
    InvHolds(run);
  }

  lemma OneStepOn(run: seq<Label>, l: Label)
    requires After(run).Some?
    ensures After(run + [l]) == Next(After(run).value, l)
  {
    hide Next;
    assert (run + [l])[..|run|] == run;
  }

  // ---------------------------------------------------------------------------
  // Life cycle.
  // ---------------------------------------------------------------------------

  /** What reached the callback is the beginning of what was emitted. */
  lemma {:induction false} HeardIsPrefix(log: seq<Emission>)
    requires forall i, j | 0 <= i < j < |log| && log[j].delivered :: log[i].delivered
    ensures Heard(log) <= log
    ensures (exists i :: 0 <= i < |log| && !log[i].delivered) || Heard(log) == log
    decreases |log|
  {
    if log != [] {
      var n := |log| - 1;
      HeardIsPrefix(log[..n]);
      if log[n].delivered {
        assert Heard(log[..n]) == log[..n];
        assert log == log[..n] + [log[n]];
      } else {
        assert Heard(log) == Heard(log[..n]);
      }
    }
  }

  lemma {:induction false} PrefixStates(log: seq<Emission>, n: nat)
    requires n <= |log| && Grammar(LogStates(log))
    ensures Grammar(LogStates(log[..n]))
    decreases |log|
  {
    if n < |log| {
      var k := |log| - 1;
      GrammarPrefix(LogStates(log[..k]), States(log[k].batch));
      PrefixStates(log[..k], n);
      assert log[..k][..n] == log[..n];
    } else {
      assert log[..n] == log;
    }
  }

  lemma GrammarPrefix(a: seq<Life>, b: seq<Life>)
    requires Grammar(a + b)
    ensures Grammar(a)
  {
    forall i | 0 <= i < |a| ensures Allowed(LastLife(a[..i]), a[i]) {
      assert Allowed(LastLife((a + b)[..i]), (a + b)[i]);
      assert (a + b)[..i] == a[..i];
    }
  }

  lemma LifecycleAt(log: seq<Emission>, task: Task)
    requires LifeCycle(log, task)
    requires forall i, j | 0 <= i < j < |log| && log[j].delivered :: log[i].delivered
    ensures Grammar(LogStates(log)) && Grammar(LogStates(Heard(log)))
    ensures task.pc == Head || task.pc == Polled ==>
              task.life == LastLife(LogStates(log)) && task.life != Connecting && task.life != Disconnecting
  {
    hide Grammar, Heard, LogStates;
    GrammarPrefix(LogStates(log), Owed(task.pc));
    assert LogStates(log) + [] == LogStates(log);
    HeardIsPrefix(log);
    hide LifeCycle;
    assert Heard(log) == log[..|Heard(log)|];
    PrefixStates(log, |Heard(log)|);
  }

  /** Every state trace obeys the life cycle, both as emitted and as heard; at the head of
      the loop the driver's state is the last one emitted, and no transitional one. */
  lemma LifecycleGrammar(run: seq<Label>)
    requires After(run).Some?
    ensures var s := After(run).value;
            && Grammar(LogStates(s.history.log)) && Grammar(LogStates(Heard(s.history.log)))
            && (AtHead(s) ==> s.task.life == LastLife(LogStates(s.history.log))
                              && s.task.life != Connecting && s.task.life != Disconnecting)
  {
    hide After, Grammar, LifeCycle, LogStates, Heard;
    InvHolds(run);
    LifecycleAt(After(run).value.history.log, After(run).value.task);
  }

  // ---------------------------------------------------------------------------
  // Stream conservation.
  // ---------------------------------------------------------------------------

  /** At the head of the loop the bytes emitted are the bytes received so far; every
      batch has at most one state change, last, and the drained batches partition the
      provider's events, each telling exactly what its range amounts to. */
  lemma StreamConservation(run: seq<Label>)
    requires After(run).Some?
    ensures var s := After(run).value;
            && s.wires.consumed <= |s.wires.arrived|
            && (AtHead(s) ==> LogBytes(s.history.log) == BytesReceived(s.wires.arrived[..s.wires.consumed])
                              && Frontier(s.history.log) == s.wires.consumed)
            && LogBytes(s.history.log) <= BytesReceived(s.wires.arrived[..s.wires.consumed])
            && Contiguous(s.history.log)
            && forall i | 0 <= i < |s.history.log| :: BatchShape(s.history.log[i], s.wires.arrived)
  {
    hide After, LogBytes, BytesReceived, BatchShape, Contiguous, Frontier;
    InvHolds(run);
    var s := After(run).value;
    assert AtHead(s) ==> Bytes(Pending(s.task.pc)) == [];
    assert LogBytes(s.history.log) + [] == LogBytes(s.history.log);
  }

  // ---------------------------------------------------------------------------
  // Exactly-once replies.
  // ---------------------------------------------------------------------------

  /** Answers match the dequeued requests one to one and in queue order, with the right id
      and a payload the code allows; only the request in service has none yet. */
  lemma ExactlyOnce(run: seq<Label>)
    requires After(run).Some?
    ensures var s := After(run).value; var rs := Requests(s.wires.taken);
            && |rs| == |s.history.answers| + (if InService(s.task.pc) then 1 else 0)
            && (forall i | 0 <= i < |s.history.answers| ::
                  && rs[i] < |s.wires.taken| && rs[i] < |s.wires.commands|
                  && s.wires.taken[rs[i]].cmd == s.wires.commands[rs[i]]
                  && var said := OutcomeAt(s.history, i);
                     Fits(s.history.answers[i], s.wires.taken[rs[i]], i in s.history.cancelled, said))
  {
    hide After, Requests, Fits;
    InvHolds(run);
  }

  /** Ids are non-zero and pairwise distinct while fewer than 2^64 - 1 were handed out,
      and then a call returned non-zero exactly if its request was queued. */
  lemma IdsIdentifyRequests(run: seq<Label>)
    requires After(run).Some? && After(run).value.clients.issued < U64
    ensures var s := After(run).value;
            && (forall i | 0 <= i < |s.history.answers| :: s.history.answers[i].id != 0)
            && (forall i, j | 0 <= i < j < |s.history.answers| :: s.history.answers[i].id != s.history.answers[j].id)
            && (forall t | t in s.clients.returned ::
                  s.clients.returned[t] != 0
                  <==> exists i :: 0 <= i < |s.wires.commands| && Asks(s.wires.commands[i], t))
  {
    hide After, Requests, IdOf, Locks, Drained, Conserved, Framed, Shaped, LifeCycle, Scripted;
    hide FilesKnown, StopsInTime, Fading, PayloadOk;
    InvHolds(run);
    var s := After(run).value;
    var rs, answers := Requests(s.wires.taken), s.history.answers;
    RequestsAre(s.wires.taken);
    forall t | 0 <= t < s.clients.issued ensures IdOf(t) != 0 { IdsAreUnique(t, t); }
    forall i | 0 <= i < |answers| ensures answers[i].id != 0 {
      assert Fits(answers[i], s.wires.taken[rs[i]], i in s.history.cancelled, OutcomeAt(s.history, i));
    }
    forall i, j | 0 <= i < j < |answers| ensures answers[i].id != answers[j].id {
      assert Fits(answers[i], s.wires.taken[rs[i]], i in s.history.cancelled, OutcomeAt(s.history, i));
      assert Fits(answers[j], s.wires.taken[rs[j]], j in s.history.cancelled, OutcomeAt(s.history, j));
      IdsAreUnique(s.wires.commands[rs[i]].ticket, s.wires.commands[rs[j]].ticket);
    }
  }

  predicate InFlight(pc: Pc) { pc.Opening? || pc.Sending? || pc.Serving? }

  /** A cancel with no operation in flight changes nothing at all, and no run can tell. What
      it says lies in `InFlight`: a cancel is lost while a state or an error is being
      reported (Connecting included), while a cancelled connect or a Disconnect waits for the
      provider, while events are drained, and between taking a command and awaiting it. */
  lemma IdleCancelIsLost(run: seq<Label>, more: seq<Label>)
    requires After(run).Some? && !InFlight(After(run).value.task.pc)
    ensures After(run + [CallCancel] + more) == After(run + more)
  {
    assert (run + [CallCancel])[..|run|] == run;
    assert After(run + [CallCancel]) == After(run);
    SameFuture(run + [CallCancel], run, more);
  }

  lemma {:induction false} SameFuture(a: seq<Label>, b: seq<Label>, more: seq<Label>)
    requires After(a) == After(b)
    ensures After(a + more) == After(b + more)
    decreases |more|
  {
    hide Next;
    if more == [] {
      assert a + more == a && b + more == b;
    } else {
      var n := |more| - 1;
      SameFuture(a, b, more[..n]);
      assert (a + more)[..|a + more| - 1] == a + more[..n] && (b + more)[..|b + more| - 1] == b + more[..n];
    }
  }

  /** From its registration until teardown takes the emitter out, every answer of that
      kind reaches the callback. */
  lemma {:induction false} RegisteredAnswersArrive(run: seq<Label>, more: seq<Label>, k: Kind)
    requires After(run).Some? && SlotOf(After(run).value.gates, k).em.Some?
    requires After(run + more).Some?
    ensures var s, n := After(run).value, After(run + more).value;
            && (SlotOf(n.gates, k).em.Some? || TakenOut(n.gates.down, k))
            && (SlotOf(n.gates, k).em.Some? ==> Arrived(s.history.answers, n.history.answers, k))
    decreases |more|
  {
    hide After, Inv, Next, TakenOut;
    if more == [] {
      assert run + more == run;
    } else {
      var n := |more| - 1;
      LastStep(run, more);
      RegisteredAnswersArrive(run, more[..n], k);
      InvHolds(run + more[..n]);
      AnswerArrives(After(run + more[..n]).value, more[n], k);
    }
  }

  /** Every answer of kind `k` since `before` was delivered. */
  ghost predicate Arrived(before: seq<Answer>, after: seq<Answer>, k: Kind) {
    before <= after && forall i | |before| <= i < |after| && after[i].kind == k :: after[i].delivered
  }

  lemma AnswerArrives(s: State, l: Label, k: Kind)
    requires Inv(s) && Next(s, l).Some? && (SlotOf(s.gates, k).em.Some? || TakenOut(s.gates.down, k))
    ensures var n := Next(s, l).value;
            && (SlotOf(n.gates, k).em.Some? || TakenOut(n.gates.down, k))
            && (SlotOf(n.gates, k).em.Some? ==>
                  SlotOf(s.gates, k).em.Some? && Arrived(s.history.answers, n.history.answers, k))
  {
    hide Drained, Conserved, Framed, Shaped, LifeCycle, Served, Numbered, Scripted, FilesKnown;
    hide EndsKnown, StopsInTime, Fading;
    hide IdOf, Dispatch, Finished, Interrupted, Reported, TransitionOf, Batched;
    if l.Drive? { DrivenAnswerArrives(s, l.d, k); }
    hide DriveNext;
  }

  lemma DrivenAnswerArrives(s: State, d: DriverStep, k: Kind)
    requires Locks(s.gates, s.task.pc) && DriveNext(s, d).Some?
    ensures var n := DriveNext(s, d).value;
            && n.gates.down == s.gates.down && SlotOf(n.gates, k).em == SlotOf(s.gates, k).em
            && (SlotOf(n.gates, k).em.Some? ==> Arrived(s.history.answers, n.history.answers, k))
  {
    hide IdOf, Dispatch, Finished, Interrupted, Reported, TransitionOf, Batched;
  }

  // ---------------------------------------------------------------------------
  // Reports.
  // ---------------------------------------------------------------------------

  /** At the head of the loop the driver's own reports are, in queue order, exactly the
      scripts of the commands dequeued: the states a connect or disconnect goes through, the
      errors of refused, failed and cancelled commands, and nothing for the others. */
  lemma CommandsAreReported(run: seq<Label>)
    requires After(run).Some? && AtHead(After(run).value)
    ensures var s := After(run).value;
            Reports(s.history.log) == Refusal(s.history) + Scripts(s.wires.taken, s.history.ends)
  {
    hide After, Reports, Scripts;
    InvHolds(run);
    var s := After(run).value;
    assert Due(s.task.pc) == [];
    EventsAssoc(Reports(s.history.log), [], []);
  }

  // ---------------------------------------------------------------------------
  // The same in plain words.
  // ---------------------------------------------------------------------------

  /** Whether the driver had a file provider at a request is decided by the commands before
      it and how they ended; the same at the head of the loop. */
  lemma FilesAreKnown(run: seq<Label>)
    requires After(run).Some?
    ensures var s := After(run).value;
            && (forall i | 0 <= i < |s.wires.taken| ::
                  && s.wires.taken[i].files == FilesAfter(s.wires.taken[..i], s.history.ends)
                  && (s.wires.taken[i].files <==> exists j :: Grants(s.wires.taken[..i], s.history.ends, j)))
            && (AtHead(s) ==> s.task.files == FilesAfter(s.wires.taken, s.history.ends))
  {
    hide After, Locks, Drained, Conserved, Framed, Shaped, LifeCycle, Served, Numbered, Scripted, StopsInTime;
    hide FilesAfter, EndsKnown;
    InvHolds(run);
    var s := After(run).value;
    forall i | 0 <= i < |s.wires.taken|
      ensures s.wires.taken[i].files <==> exists j :: Grants(s.wires.taken[..i], s.history.ends, j) {
      FilesAfterIs(s.wires.taken[..i], s.history.ends);
    }
  }

  /** What the driver has said about the `i`-th command once it is back at the head. */
  lemma CommandsInWords(run: seq<Label>, i: nat)
    requires After(run).Some? && AtHead(After(run).value) && i < |After(run).value.wires.taken|
    ensures var s := After(run).value; var t, ends := s.wires.taken[i], s.history.ends;
            var said := Script(t, EndOf(ends, i + 1));
            var open := t.life == Connected || t.life == Connecting;
            && (t.cmd == Connect && open ==> said == [Error(InvalidState)])
            && (t.cmd == Connect && !open ==>
                  && i + 1 in ends
                  && said == [StateChanged(Connecting)] +
                             match ends[i + 1]
                             case Ended(Good(_, _)) => [StateChanged(Connected)]
                             case Ended(Bad(c)) => [Error(c), StateChanged(Failed)]
                             case CutShort => [Error(Cancelled), StateChanged(Disconnected)])
            && (t.cmd == Send && t.life != Connected ==> said == [Error(NotConnected)])
            && (t.cmd == Send && t.life == Connected ==>
                  && i + 1 in ends
                  && said == match ends[i + 1]
                             case Ended(Good(_, _)) => []
                             case Ended(Bad(c)) => [Error(c)]
                             case CutShort => [Error(Cancelled)])
            && (t.cmd == Disconnect ==>
                  said == if open then [StateChanged(Disconnecting), StateChanged(Disconnected)] else [])
            && (t.cmd.Request? || t.cmd == Configure || t.cmd == Shutdown ==> said == [])
  {
    hide After, Locks, Drained, Conserved, Framed, Shaped, LifeCycle, Served, Numbered, Scripted, FilesKnown;
    hide StopsInTime, Fading;
    InvHolds(run);
    var s := After(run).value;
    assert Rest(s.task.pc) == s.task.pc;
    assert Operates(s.wires.taken[i]) ==> i + 1 in s.history.ends;
  }

  /** What an answer is: a refusal in the one state or for want of a file provider, else what
      the provider said, or `Cancelled` if a cancel came in time. */
  lemma AnswersInWords(run: seq<Label>, i: nat)
    requires After(run).Some? && i < |After(run).value.history.answers|
    ensures var s := After(run).value; var a, h := s.history.answers[i], s.history;
            i < |Requests(s.wires.taken)| && Requests(s.wires.taken)[i] < |s.wires.taken|
            && var p := Requests(s.wires.taken)[i]; var t := s.wires.taken[p];
               && t.cmd.Request? && a.kind == t.cmd.kind && (t.cmd.ticket < U64 - 1 ==> a.id == t.cmd.ticket + 1)
               && (if a.kind == Exec && t.life != Connected then a.payload == Fail(NotConnected)
                   else || (i in h.cancelled && a.payload == Fail(Cancelled))
                        || (if a.kind == Fs && !FilesAfter(s.wires.taken[..p], h.ends)
                            then a.payload == Fail(ProviderUnavailable)
                            else i in h.outcomes
                                 && a.payload ==
                                    match h.outcomes[i] case Good(v, _) => Value(v) case Bad(c) => Fail(c)))
  {
    hide After, Requests, FilesAfter;
    ExactlyOnce(run);
    FilesAreKnown(run);
    var s := After(run).value;
    var p := Requests(s.wires.taken)[i];
    assert Fits(s.history.answers[i], s.wires.taken[p], i in s.history.cancelled, OutcomeAt(s.history, i));
  }

  /** The life cycle, state by state. */
  lemma LifecycleInWords(run: seq<Label>, i: nat)
    requires After(run).Some? && i < |LogStates(After(run).value.history.log)|
    ensures var ls := LogStates(After(run).value.history.log);
            && ls[i] != Idle
            && (ls[i] == Connecting ==> i == 0 || ls[i - 1] == Disconnected || ls[i - 1] == Failed)
            && (ls[i] == Connected ==> i > 0 && ls[i - 1] == Connecting)
            && (ls[i] == Disconnecting ==> i > 0 && ls[i - 1] == Connected)
            && (i > 0 && ls[i - 1] == Connecting ==> ls[i] == Connected || ls[i] == Failed || ls[i] == Disconnected)
            && (i > 0 && ls[i - 1] == Disconnecting ==> ls[i] == Disconnected)
  {
    hide After, LogStates;
    LifecycleGrammar(run);
    var ls := LogStates(After(run).value.history.log);
    assert Allowed(LastLife(ls[..i]), ls[i]);
    if i > 0 { assert ls[..i][i - 1] == ls[i - 1]; }
  }

  /** Until teardown silences them all events reach the callback. */
  lemma EventsArrive(run: seq<Label>)
    requires After(run).Some? && After(run).value.gates.down in {Up, Sent, Signalled, Waited}
    ensures forall i | 0 <= i < |After(run).value.history.log| :: After(run).value.history.log[i].delivered
  {
    hide After, Locks, Drained, Conserved, Framed, Shaped, LifeCycle, Served, Numbered, Scripted, FilesKnown;
    hide EndsKnown;
    InvHolds(run);
  }

  /** Shutdown is the last command dequeued; then the driver stops, and it stops for nothing
      else but the lack of a provider or the end of the session. */
  lemma ShutdownStops(run: seq<Label>, i: nat)
    requires After(run).Some?
    ensures var s := After(run).value; var taken, pc := s.wires.taken, s.task.pc;
            && (i < |taken| && taken[i].cmd == Shutdown ==> i == |taken| - 1 && (pc == Stopping || pc == Exited))
            && (pc == Stopping || pc == Exited ==>
                  s.history.refused.Some? || s.gates.down == Returned
                  || (taken != [] && taken[|taken| - 1].cmd == Shutdown))
  {
    hide After, Locks, Drained, Conserved, Framed, Shaped, LifeCycle, Served, Numbered, Scripted, FilesKnown;
    hide EndsKnown;
    InvHolds(run);
    assert Rest(Stopping) == Stopping && Rest(Exited) == Exited;
  }

  /** What clients, provider and gate put in: the queue grows by exactly the commands sent
      while the driver lives, the provider's channel by its events, a slot gets a new emitter. */
  lemma InputsAreTaken(s: State, l: Label)
    requires Next(s, l).Some?
    ensures var n := Next(s, l).value; var before, after := s.wires.commands, n.wires.commands;
            && (s.task.pc != Exited && l.Post? ==> after == before + [l.cmd])
            && (s.task.pc != Exited && l.Submit? ==>
                  l.ticket in s.clients.sending && after == before + [Request(s.clients.sending[l.ticket], l.ticket)])
            && (s.task.pc != Exited && l.Teardown? && s.gates.down == Up ==> after == before + [Shutdown])
            && (s.task.pc == Exited || (!l.Post? && !l.Submit? && !(l.Teardown? && s.gates.down == Up)) ==>
                  after == before)
    ensures var n := Next(s, l).value;
            && (l.Arrive? ==> n.wires.arrived == s.wires.arrived + [l.ev])
            && (!l.Arrive? ==> n.wires.arrived == s.wires.arrived)
            && (l.Allocate? ==> n.clients.sending == s.clients.sending[s.clients.issued := l.kind]
                                && n.clients.issued == s.clients.issued + 1)
            && (l.Register? ==>
                  SlotOf(n.gates, l.kind) == Slot(Some(s.gates.made), None) && s.gates.made in n.gates.live)
  {
    hide IdOf, Dispatch, Finished, Interrupted, Reported, TransitionOf, Batched;
  }
}
