/** Who holds which callback gate, and what teardown leaves behind. */
module SessionTeardown {
  import opened Wrappers
  import opened SessionStates
  import opened SessionProtocol

  predicate HoldsSlot(pc: Pc, k: Kind) {
    (pc.Holding? || pc.Answering?) && pc.kind == k
  }

  /** Teardown has taken the emitter out of slot `k`. */
  predicate TakenOut(d: Down, k: Kind) {
    d == Returned || d == Took(k, if d.Took? then d.em else 0) || (k == Fs && (d == FilesOff || d.Took?))
  }

  predicate EventsSilenced(d: Down) { d == EventsOff || d.Took? || d == FilesOff || d == Returned }

  /** What may follow an emission. */
  predicate Tail(pc: Pc) {
    pc == Head || pc == Opening(false) || pc == Dropping || pc == Exited || (pc.Enter? && Tail(pc.cont))
  }

  predicate Continues(pc: Pc) {
    pc.Say? || pc.Saying? || pc.Enter? ==> Tail(pc.cont)
  }

  ghost predicate SlotLocks(g: Gates, pc: Pc, k: Kind) {
    var slot := SlotOf(g, k);
    && slot.lock != Some(HostKeyGate)
    && (slot.lock == Some(Driver) <==> HoldsSlot(pc, k))
    && (slot.lock == Some(Owner) <==> g.down.Took? && g.down.kind == k)
    && (TakenOut(g.down, k) ==> slot.em == None && slot.lock != Some(Driver))
    && (slot.em.Some? ==> slot.em.value in g.live)
    && (pc.Holding? && pc.kind == k ==> slot.em == Some(pc.em))
  }

  ghost predicate Locks(g: Gates, pc: Pc) {
    && Continues(pc)
    && g.gate != Some(Owner)
    && (g.gate == Some(Driver) <==> pc.Saying?)
    && (EventsSilenced(g.down) ==> !g.active && g.gate == None)
    && SlotLocks(g, pc, Fs) && SlotLocks(g, pc, Exec)
    && (forall em | em in g.live :: em < g.made)
    && (g.fs.em.Some? ==> g.fs.em != g.exec.em)
    && (g.down.Took? ==> g.down.em < g.made && g.fs.em != Some(g.down.em) && g.exec.em != Some(g.down.em))
  }

  lemma DriverKeepsSlot(s: State, d: DriverStep, k: Kind)
    requires SlotLocks(s.gates, s.task.pc, k) && Continues(s.task.pc) && DriveNext(s, d).Some?
    ensures var n := DriveNext(s, d).value; SlotLocks(n.gates, n.task.pc, k)
  {
    hide IdOf, Batched, Reported, TransitionOf, TakenOut;
  }

  lemma DriverContinues(s: State, d: DriverStep)
    requires Continues(s.task.pc) && DriveNext(s, d).Some?
    ensures Continues(DriveNext(s, d).value.task.pc)
  {
    hide IdOf, Batched, Reported, TransitionOf, Unlocked, WithSlot;
  }

  /** The driver opens the event gate only while it is active, and touches of the slots only
      their mutexes. */
  lemma DriverAtGates(s: State, d: DriverStep)
    requires Continues(s.task.pc) && DriveNext(s, d).Some? && (s.gates.gate == Some(Driver) <==> s.task.pc.Saying?)
    ensures var n := DriveNext(s, d).value; var g, g' := s.gates, n.gates;
            && g'.down == g.down && g'.active == g.active && g'.live == g.live && g'.made == g.made
            && g'.fs.em == g.fs.em && g'.exec.em == g.exec.em
            && (g'.gate == Some(Driver) <==> n.task.pc.Saying?)
            && (g'.gate == g.gate || g'.gate == None || (g'.gate == Some(Driver) && g.active))
  {
    hide IdOf, Batched, Reported, TransitionOf, Dispatch, Tail;
    DriverContinues(s, d);
    DriverSpeaks(s, d);
  }

  /** Only by delivering a batch does the driver get into a callback. */
  lemma DriverSpeaks(s: State, d: DriverStep)
    requires Continues(s.task.pc) && DriveNext(s, d).Some?
    ensures DriveNext(s, d).value.task.pc.Saying? ==> s.task.pc.Say? && d == Deliver && s.gates.active
  {
    hide IdOf, Batched, Reported, TransitionOf, Unlocked, WithSlot;
  }

  lemma DriverKeepsLocks(s: State, d: DriverStep)
    requires Locks(s.gates, s.task.pc) && DriveNext(s, d).Some?
    ensures var n := DriveNext(s, d).value; Locks(n.gates, n.task.pc)
  {
    hide DriveNext, TakenOut, EventsSilenced, SlotLocks;
    DriverContinues(s, d);
    DriverKeepsSlot(s, d, Fs);
    DriverKeepsSlot(s, d, Exec);
    DriverAtGates(s, d);
  }

  lemma TeardownKeepsSlot(g: Gates, pc: Pc, timeout: bool, k: Kind)
    requires Locks(g, pc) && DownNext(g, pc, timeout).Some?
    ensures SlotLocks(DownNext(g, pc, timeout).value, pc, k)
  {
  }

  lemma TeardownKeepsLocks(g: Gates, pc: Pc, timeout: bool)
    requires Locks(g, pc) && DownNext(g, pc, timeout).Some?
    ensures Locks(DownNext(g, pc, timeout).value, pc)
  {
    TeardownKeepsSlot(g, pc, timeout, Fs);
    TeardownKeepsSlot(g, pc, timeout, Exec);
  }

  /** What concerns neither slots nor emitters: moving the event gate or teardown's first
      steps, or the driver between two places outside callbacks. */
  lemma OthersKeepLocks(g: Gates, pc: Pc, g': Gates, pc': Pc)
    requires Locks(g, pc) && g' == g.(gate := g'.gate, down := g'.down)
    requires pc' == pc || (!Callback(pc) && !Callback(pc') && Continues(pc'))
    requires g'.down == g.down || (g.down == Up && g'.down == Sent) || (g.down == Sent && g'.down == Signalled)
    requires g'.gate == g.gate
             || (g.gate != Some(Driver) && (g'.gate == None || (g'.gate == Some(HostKeyGate) && g.active)))
    ensures Locks(g', pc')
  {
    hide Tail;
  }

  predicate Callback(pc: Pc) { pc.Saying? || pc.Holding? || pc.Answering? }

  lemma RegisterKeepsLocks(g: Gates, pc: Pc, k: Kind)
    requires Locks(g, pc) && RegisterNext(g, k).Some?
    ensures Locks(RegisterNext(g, k).value, pc)
  {
    hide Tail;
  }

  lemma LocksKept(s: State, l: Label)
    requires Locks(s.gates, s.task.pc) && Next(s, l).Some?
    ensures var n := Next(s, l).value; Locks(n.gates, n.task.pc)
  {
    var n := Next(s, l).value;
    var g, pc := s.gates, s.task.pc;
    hide DriveNext, DownNext, RegisterNext;
    match l
    case Drive(d) => hide Locks; DriverKeepsLocks(s, d);
    case Register(k) => hide Locks; RegisterKeepsLocks(g, pc, k);
    case Teardown(timeout) =>
      if g.down == Up || g.down == Sent {
        OthersKeepLocks(g, pc, n.gates, n.task.pc);
      } else {
        hide Locks;
        TeardownKeepsLocks(g, pc, timeout);
      }
    case _ => OthersKeepLocks(g, pc, n.gates, n.task.pc);
  }
}
