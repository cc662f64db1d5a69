/** Batches of provider events: nothing lost, nothing reordered. */
module SessionBatches {
  import opened Wrappers
  import opened SessionStates
  import opened SessionProtocol
  import opened SessionTeardown

  lemma LogSnoc(log: seq<Emission>, e: Emission)
    ensures LogStates(log + [e]) == LogStates(log) + States(e.batch)
    ensures LogBytes(log + [e]) == LogBytes(log) + Bytes(e.batch)
  {
    assert (log + [e])[..|log|] == log;
  }

  /** The batch being drained is what the events since `lo` amount to. */
  ghost predicate Drained(w: Wires, pc: Pc) {
    && w.consumed <= |w.arrived|
    && (pc.Draining? ==>
          && pc.lo < w.consumed && pc.batch == AllReported(w.arrived[pc.lo..w.consumed])
          && pc.transition == LastTransition(w.arrived[pc.lo..w.consumed]))
  }

  lemma DrainOneKeepsDrained(s: State, lo: nat, batch: seq<Event>, t: Option<Life>)
    requires lo <= s.wires.consumed < |s.wires.arrived|
    requires batch == AllReported(s.wires.arrived[lo..s.wires.consumed])
    requires t == LastTransition(s.wires.arrived[lo..s.wires.consumed])
    ensures var n := DrainOne(s, lo, batch, t).value; Drained(n.wires, n.task.pc)
  {
    hide AllReported, LastTransition, Reported, TransitionOf;
    var w := s.wires;
    OneMoreEvent(w.arrived[lo..w.consumed], w.arrived[w.consumed]);
    assert w.arrived[lo..w.consumed + 1] == w.arrived[lo..w.consumed] + [w.arrived[w.consumed]];
  }

  lemma NothingYet(w: Wires)
    requires w.consumed <= |w.arrived|
    ensures w.arrived[w.consumed..w.consumed] == [] && AllReported([]) == [] && LastTransition([]) == None
  {
  }

  lemma DrainedKept(s: State, l: Label)
    requires Drained(s.wires, s.task.pc) && Continues(s.task.pc) && Next(s, l).Some?
    ensures var n := Next(s, l).value; Drained(n.wires, n.task.pc)
  {
    hide AllReported, LastTransition;
    match l
    case Drive(TakeEvent) =>
      NothingYet(s.wires);
      DrainOneKeepsDrained(s, s.wires.consumed, [], None);
    case Drive(DrainMore) => DrainOneKeepsDrained(s, s.task.pc.lo, s.task.pc.batch, s.task.pc.transition);
    case Drive(d) => DriverLeavesDrained(s, d);
    case Arrive(ev) =>
      if s.task.pc.Draining? {
        var w := s.wires;
        assert (w.arrived + [ev])[s.task.pc.lo..w.consumed] == w.arrived[s.task.pc.lo..w.consumed];
      }
    case _ =>
  }

  lemma DriverLeavesDrained(s: State, d: DriverStep)
    requires Drained(s.wires, s.task.pc) && Continues(s.task.pc) && DriveNext(s, d).Some?
    requires !d.TakeEvent? && !d.DrainMore?
    ensures var n := DriveNext(s, d).value; Drained(n.wires, n.task.pc) && !n.task.pc.Draining?
  {
    hide AllReported, LastTransition;
  }

  /** The batch that is being built or about to be emitted. */
  function Pending(pc: Pc): seq<Event> { if pc.Draining? || pc.Say? then pc.batch else [] }

  /** Terminal bytes emitted or pending are exactly those of the events consumed so far. */
  ghost predicate Conserved(log: seq<Emission>, w: Wires, pc: Pc) {
    && w.consumed <= |w.arrived|
    && LogBytes(log) + Bytes(Pending(pc)) == BytesReceived(w.arrived[..w.consumed])
  }

  /** Where the last drained range ended. */
  function Frontier(log: seq<Emission>): nat {
    if log == [] then 0
    else if log[|log| - 1].from.Drain? then log[|log| - 1].from.hi
    else Frontier(log[..|log| - 1])
  }

  /** The drained ranges follow one another without gap or overlap. */
  ghost predicate Contiguous(log: seq<Emission>) {
    forall i | 0 <= i < |log| && log[i].from.Drain? :: log[i].from.lo == Frontier(log[..i])
  }

  ghost predicate Framed(log: seq<Emission>, w: Wires, pc: Pc) {
    && Contiguous(log)
    && Frontier(log) == (if pc.Draining? then pc.lo
                         else if pc.Say? && pc.from.Drain? then pc.from.lo
                         else w.consumed)
    && (pc.Say? && pc.from.Drain? ==> pc.from.hi == w.consumed)
  }

  ghost predicate Shaped(log: seq<Emission>, w: Wires, pc: Pc) {
    && (forall i | 0 <= i < |log| :: BatchShape(log[i], w.arrived))
    && (pc.Say? ==> BatchShape(Emission(pc.batch, pc.from, true), w.arrived))
  }

  lemma BytesSnoc(es: seq<Event>, a: Event)
    ensures Bytes([]) == [] && Bytes(es + [a]) == Bytes(es) + if a.Data? then a.bytes else []
  {
    assert (es + [a])[..|es|] == es;
  }

  lemma NoDataInError(a: Event, b: Event)
    requires !a.Data? && !b.Data?
    ensures Bytes([a]) == [] && Bytes([a, b]) == []
  {
    BytesSnoc([], a);
    BytesSnoc([a], b);
    assert [] + [a] == [a] && [a] + [b] == [a, b];
  }

  /** A driver step other than emitting and draining. */
  predicate Ordinary(s: State, d: DriverStep) {
    !s.task.pc.Say? && !s.task.pc.Draining? && !d.TakeEvent?
  }

  /** Such a step leaves the channel alone and prepares a report without terminal bytes. */
  lemma OrdinaryReports(s: State, d: DriverStep)
    requires Ordinary(s, d) && Continues(s.task.pc) && DriveNext(s, d).Some?
    ensures var n := DriveNext(s, d).value;
            && n.history.log == s.history.log && n.wires.arrived == s.wires.arrived
            && n.wires.consumed == s.wires.consumed && !n.task.pc.Draining?
            && (n.task.pc.Say? ==> n.task.pc.from == Report && n.task.pc.batch != [])
            && IsReport(Pending(n.task.pc))
  {
  }

  predicate IsReport(b: seq<Event>) {
    || b == []
    || (|b| == 1 && !b[0].Data?)
    || (|b| == 2 && b[0].Error? && b[1].StateChanged?)
  }

  lemma ReportHasNoData(b: seq<Event>)
    requires IsReport(b)
    ensures Bytes(b) == []
  {
    if |b| == 1 { NoDataInError(b[0], b[0]); assert b == [b[0]]; }
    if |b| == 2 { NoDataInError(b[0], b[1]); assert b == [b[0], b[1]]; }
  }

  lemma OneMoreByteRun(es: seq<ProviderEvent>, e: ProviderEvent)
    ensures BytesReceived(es + [e]) == BytesReceived(es) + if e.Received? then e.bytes else []
  {
    assert (es + [e])[..|es|] == es;
  }

  lemma DrainOneConserves(s: State, lo: nat, batch: seq<Event>, t: Option<Life>)
    requires s.wires.consumed < |s.wires.arrived|
    requires LogBytes(s.history.log) + Bytes(batch) == BytesReceived(s.wires.arrived[..s.wires.consumed])
    ensures var n := DrainOne(s, lo, batch, t).value; Conserved(n.history.log, n.wires, n.task.pc)
  {
    hide LogBytes, Bytes, BytesReceived;
    var w := s.wires;
    var e := w.arrived[w.consumed];
    OneMoreByteRun(w.arrived[..w.consumed], e);
    assert w.arrived[..w.consumed + 1] == w.arrived[..w.consumed] + [e];
    match e
    case Received(bytes) => BytesSnoc(batch, Data(bytes));
    case Hangup => assert batch + [] == batch;
    case Broken(code) => BytesSnoc(batch, Error(code));
  }

  lemma DriverConserves(s: State, d: DriverStep)
    requires Conserved(s.history.log, s.wires, s.task.pc) && Continues(s.task.pc) && DriveNext(s, d).Some?
    ensures var n := DriveNext(s, d).value; Conserved(n.history.log, n.wires, n.task.pc)
  {
    hide LogBytes, Bytes, BytesReceived, Reported, TransitionOf;
    var pc, log := s.task.pc, s.history.log;
    if Ordinary(s, d) {
      OrdinaryReports(s, d);
      var n := DriveNext(s, d).value;
      ReportHasNoData(Pending(n.task.pc));
      ReportHasNoData(Pending(pc));
      hide DriveNext, IsReport;
    } else if pc.Draining? && d.DrainMore? {
      DrainOneConserves(s, pc.lo, pc.batch, pc.transition);
    } else if pc.Draining? {
      BytesSnoc(pc.batch, StateChanged(if pc.transition.Some? then pc.transition.value else Idle));
    } else if d.TakeEvent? {
      DrainOneConserves(s, s.wires.consumed, [], None);
    } else {
      LogSnoc(log, Emission(pc.batch, pc.from, s.gates.active));
      BytesSnoc([], Error(Cancelled));
    }
  }

  /** The other actors neither read the channel nor touch a pending batch. */
  lemma OthersLeaveFlow(s: State, l: Label)
    requires Next(s, l).Some? && !l.Drive? && !l.Arrive? && !l.Prompt?
    ensures var n := Next(s, l).value;
            && n.history.log == s.history.log
            && n.wires.arrived == s.wires.arrived && n.wires.consumed == s.wires.consumed
            && (n.task.pc == s.task.pc
                || (!Emitting(n.task.pc) && !n.task.pc.Draining? && !Emitting(s.task.pc) && !s.task.pc.Draining?))
  {
  }

  predicate Emitting(pc: Pc) { pc.Say? || pc.Saying? || pc.Enter? }

  lemma PromptConserves(log: seq<Emission>, w: Wires, pc: Pc, fp: string, active: bool)
    requires Conserved(log, w, pc)
    ensures Conserved(log + [Emission([HostKeyPrompt(fp)], Gate, active)], w, pc)
  {
    hide BytesReceived;
    LogSnoc(log, Emission([HostKeyPrompt(fp)], Gate, active));
    NoDataInError(HostKeyPrompt(fp), HostKeyPrompt(fp));
    assert LogBytes(log) + [] == LogBytes(log);
  }

  lemma ArrivalConserves(log: seq<Emission>, w: Wires, pc: Pc, ev: ProviderEvent)
    requires Conserved(log, w, pc)
    ensures Conserved(log, w.(arrived := w.arrived + [ev]), pc)
  {
    assert (w.arrived + [ev])[..w.consumed] == w.arrived[..w.consumed];
  }

  lemma Conserves(s: State, l: Label)
    requires Conserved(s.history.log, s.wires, s.task.pc) && Continues(s.task.pc) && Next(s, l).Some?
    ensures var n := Next(s, l).value; Conserved(n.history.log, n.wires, n.task.pc)
  {
    match l
    case Drive(d) => DriverConserves(s, d);
    case Arrive(ev) => ArrivalConserves(s.history.log, s.wires, s.task.pc, ev);
    case Prompt(fp) => PromptConserves(s.history.log, s.wires, s.task.pc, fp, s.gates.active);
    case _ =>
      hide LogBytes, Bytes, BytesReceived;
      OthersLeaveFlow(s, l);
      hide Next;
  }

  lemma FrontierSnoc(log: seq<Emission>, e: Emission)
    ensures Frontier(log + [e]) == if e.from.Drain? then e.from.hi else Frontier(log)
    ensures Contiguous(log) && (e.from.Drain? ==> e.from.lo == Frontier(log)) ==> Contiguous(log + [e])
  {
    var t := log + [e];
    assert t[..|log|] == log;
    if Contiguous(log) && (e.from.Drain? ==> e.from.lo == Frontier(log)) {
      forall i | 0 <= i < |t| && t[i].from.Drain? ensures t[i].from.lo == Frontier(t[..i]) {
        if i < |log| { assert t[..i] == log[..i] && t[i] == log[i]; }
      }
    }
  }

  lemma DriverKeepsFrame(s: State, d: DriverStep)
    requires Framed(s.history.log, s.wires, s.task.pc) && Continues(s.task.pc) && DriveNext(s, d).Some?
    ensures var n := DriveNext(s, d).value; Framed(n.history.log, n.wires, n.task.pc)
  {
    hide Contiguous, Frontier, AllReported, Reported, TransitionOf, Batched, IsReport;
    var pc, log := s.task.pc, s.history.log;
    if Ordinary(s, d) {
      OrdinaryReports(s, d);
      hide DriveNext;
    } else if pc.Say? {
      FrontierSnoc(log, Emission(pc.batch, pc.from, s.gates.active));
    }
  }

  lemma FrameKept(s: State, l: Label)
    requires Framed(s.history.log, s.wires, s.task.pc) && Continues(s.task.pc) && Next(s, l).Some?
    ensures var n := Next(s, l).value; Framed(n.history.log, n.wires, n.task.pc)
  {
    hide Contiguous, Frontier, DriveNext, DownNext;
    match l
    case Drive(d) => DriverKeepsFrame(s, d);
    case Arrive(ev) =>
    case Prompt(fp) => FrontierSnoc(s.history.log, Emission([HostKeyPrompt(fp)], Gate, s.gates.active));
    case _ =>
      OthersLeaveFlow(s, l);
      hide Next;
  }

  lemma {:induction false} ReportsHaveNoState(es: seq<ProviderEvent>, i: nat)
    requires i < |AllReported(es)|
    ensures !AllReported(es)[i].StateChanged?
    decreases |es|
  {
    var before := AllReported(es[..|es| - 1]);
    if i < |before| { ReportsHaveNoState(es[..|es| - 1], i); }
  }

  lemma DrainShape(arrived: seq<ProviderEvent>, lo: nat, hi: nat, delivered: bool)
    requires lo < hi <= |arrived|
    ensures BatchShape(Emission(BatchOf(arrived[lo..hi]), Drain(lo, hi), delivered), arrived)
  {
    var es := arrived[lo..hi];
    var b := BatchOf(es);
    BatchIsNonempty(es);
    forall i | 0 <= i < |b| - 1 ensures !b[i].StateChanged? {
      ReportsHaveNoState(es, i);
    }
  }

  lemma ArrivalKeepsShape(e: Emission, arrived: seq<ProviderEvent>, ev: ProviderEvent)
    requires BatchShape(e, arrived)
    ensures BatchShape(e, arrived + [ev])
  {
    if e.from.Drain? {
      assert (arrived + [ev])[e.from.lo..e.from.hi] == arrived[e.from.lo..e.from.hi];
    }
  }

  lemma DriverKeepsShape(s: State, d: DriverStep)
    requires Shaped(s.history.log, s.wires, s.task.pc) && Continues(s.task.pc) && Drained(s.wires, s.task.pc)
    requires DriveNext(s, d).Some?
    ensures var n := DriveNext(s, d).value; Shaped(n.history.log, n.wires, n.task.pc)
  {
    var pc := s.task.pc;
    if Ordinary(s, d) {
      OrdinaryReports(s, d);
      hide DriveNext;
    } else {
      hide BatchShape;
      if pc.Say? {
        hide AllReported, Reported, TransitionOf, Batched, BatchOf;
        DeliveryKeepsShape(s.history.log, s.wires.arrived, pc.batch, pc.from, s.gates.active);
      } else if d.DrainDone? {
        hide AllReported, LastTransition;
        DrainShape(s.wires.arrived, pc.lo, s.wires.consumed, true);
      }
    }
  }

  lemma DeliveryKeepsShape(log: seq<Emission>, arrived: seq<ProviderEvent>, b: seq<Event>, from: Origin,
                           delivered: bool)
    requires forall i | 0 <= i < |log| :: BatchShape(log[i], arrived)
    requires BatchShape(Emission(b, from, true), arrived)
    ensures var t := log + [Emission(b, from, delivered)]; forall i | 0 <= i < |t| :: BatchShape(t[i], arrived)
  {
    assert BatchShape(Emission(b, from, delivered), arrived);
    hide BatchShape;
  }

  lemma ShapeKept(s: State, l: Label)
    requires Shaped(s.history.log, s.wires, s.task.pc) && Continues(s.task.pc) && Drained(s.wires, s.task.pc)
    requires Next(s, l).Some?
    ensures var n := Next(s, l).value; Shaped(n.history.log, n.wires, n.task.pc)
  {
    hide DriveNext, DownNext, BatchOf;
    match l
    case Drive(d) => DriverKeepsShape(s, d);
    case Arrive(ev) =>
      forall e | BatchShape(e, s.wires.arrived) ensures BatchShape(e, s.wires.arrived + [ev]) {
        ArrivalKeepsShape(e, s.wires.arrived, ev);
      }
      hide BatchShape;
    case Prompt(fp) =>
      DeliveryKeepsShape(s.history.log, s.wires.arrived, [HostKeyPrompt(fp)], Gate, s.gates.active);
      hide BatchShape;
    case _ =>
      hide BatchShape;
      OthersLeaveFlow(s, l);
      hide Next;
  }

  // ---------------------------------------------------------------------------
  // What a drained batch says, event by event.
  // ---------------------------------------------------------------------------

  function Codes(es: seq<Event>): seq<Code> {
    if es == [] then []
    else Codes(es[..|es| - 1]) + (if es[|es| - 1].Error? then [es[|es| - 1].code] else [])
  }

  function BrokenCodes(es: seq<ProviderEvent>): seq<Code> {
    if es == [] then []
    else BrokenCodes(es[..|es| - 1]) + (if es[|es| - 1].Broken? then [es[|es| - 1].code] else [])
  }

  lemma CodesSnoc(es: seq<Event>, a: Event)
    ensures Codes([]) == [] && Codes(es + [a]) == Codes(es) + if a.Error? then [a.code] else []
  {
    assert (es + [a])[..|es|] == es;
  }

  lemma {:induction false} ReportsTell(es: seq<ProviderEvent>)
    ensures Bytes(AllReported(es)) == BytesReceived(es) && Codes(AllReported(es)) == BrokenCodes(es)
    decreases |es|
  {
    if es != [] {
      var n := |es| - 1;
      var before := AllReported(es[..n]);
      ReportsTell(es[..n]);
      match es[n]
      case Received(bytes) =>
        BytesSnoc(before, Data(bytes));
        CodesSnoc(before, Data(bytes));
      case Hangup => assert before + [] == before;
      case Broken(code) =>
        BytesSnoc(before, Error(code));
        CodesSnoc(before, Error(code));
    }
  }

  /** A drained batch carries the bytes and the errors of its events in order, and ends in
      Disconnected if the last event that is not data is a hangup, in Failed if it is an
      error, and without a state if all is data. */
  lemma {:induction false} BatchTells(es: seq<ProviderEvent>, k: nat)
    ensures Bytes(BatchOf(es)) == BytesReceived(es) && Codes(BatchOf(es)) == BrokenCodes(es)
    ensures k < |es| && !es[k].Received? && (forall i | k < i < |es| :: es[i].Received?) ==>
              var last := BatchOf(es)[|BatchOf(es)| - 1];
              last == StateChanged(if es[k].Hangup? then Disconnected else Failed)
    ensures (forall i | 0 <= i < |es| :: es[i].Received?) ==> LastTransition(es) == None
  {
    ReportsTell(es);
    if LastTransition(es).Some? {
      BytesSnoc(AllReported(es), StateChanged(LastTransition(es).value));
      CodesSnoc(AllReported(es), StateChanged(LastTransition(es).value));
    }
    if k < |es| && !es[k].Received? && forall i | k < i < |es| :: es[i].Received? { TransitionIs(es, k); }
    if forall i | 0 <= i < |es| :: es[i].Received? { DataIsNoTransition(es); }
  }

  lemma {:induction false} TransitionIs(es: seq<ProviderEvent>, k: nat)
    requires k < |es| && !es[k].Received? && forall i | k < i < |es| :: es[i].Received?
    ensures LastTransition(es) == Some(if es[k].Hangup? then Disconnected else Failed)
    decreases |es|
  {
    if k < |es| - 1 {
      assert es[|es| - 1].Received?;
      TransitionIs(es[..|es| - 1], k);
    }
  }

  lemma {:induction false} DataIsNoTransition(es: seq<ProviderEvent>)
    requires forall i | 0 <= i < |es| :: es[i].Received?
    ensures LastTransition(es) == None
    decreases |es|
  {
    if es != [] {
      assert es[|es| - 1].Received?;
      DataIsNoTransition(es[..|es| - 1]);
    }
  }
}
