/** The session driver, its clients, the provider, the host-key gate and teardown as one
    transition system (rust-core/src/session.rs; callback gates in rust-core/src/ffi.rs). */
module SessionProtocol {
  import opened Wrappers
  import opened SessionStates

  datatype Code = InvalidState | NotConnected | Cancelled | ProviderUnavailable | OtherCode(n: int)

  datatype ProviderEvent = Received(bytes: seq<int>) | Hangup | Broken(code: Code)

  datatype Event =
    | StateChanged(to: Life) | Data(bytes: seq<int>) | Error(code: Code) | HostKeyPrompt(fingerprint: string)

  datatype Kind = Fs | Exec

  /** A request carries its ticket: how many ids were handed out before it. */
  datatype Command = Connect | Send | Disconnect | Configure | Request(kind: Kind, ticket: nat) | Shutdown

  const U64: nat := 0x1_0000_0000_0000_0000

  /** `fetch_add(1) + 1` on a 64-bit counter. */
  function IdOf(ticket: nat): nat { (ticket + 1) % U64 }

  lemma IdsAreUnique(a: nat, b: nat)
    requires a < U64 - 1 && b < U64 - 1
    ensures IdOf(a) != 0 && (IdOf(a) == IdOf(b) <==> a == b)
  {
  }

  /** What a request was answered with, and who decided it. */
  datatype Payload = Value(v: int) | Fail(code: Code)
  datatype Decision = ByProvider | ByCancel | ByState

  /** How an awaited provider operation ends; `files` is the capability found after connecting. */
  datatype Outcome = Good(v: int, files: bool) | Bad(code: Code)

  /** Where a batch came from: the driver's own report, a drain of provider events
      `lo .. hi`, or the host-key gate. */
  datatype Origin = Report | Drain(lo: nat, hi: nat) | Gate

  datatype Emission = Emission(batch: seq<Event>, from: Origin, delivered: bool)

  /** A dequeued command, with the driver's variables at that moment. */
  datatype Taken = Taken(cmd: Command, life: Life, files: bool)

  datatype Answer = Answer(kind: Kind, id: nat, payload: Payload, how: Decision, delivered: bool)

  /** Where the driver task is. */
  datatype Pc =
    | Start
    | Head                                                                 // polling commands
    | Polled                                                               // no command; polling events
    | Draining(lo: nat, batch: seq<Event>, transition: Option<Life>)
    | Say(batch: seq<Event>, from: Origin, cont: Pc)                       // about to emit
    | Saying(cont: Pc)                                                     // inside the callback
    | Enter(to: Life, cont: Pc)                                            // about to set the state
    | Opening(notified: bool)                                              // connect in flight
    | Aborting                                                             // disconnect after a cancel
    | Sending(notified: bool)
    | Dropping                                                             // giving up the file capability
    | Closing                                                              // disconnect in flight
    | Serving(kind: Kind, ticket: nat, notified: bool)                     // request in flight
    | Replying(kind: Kind, ticket: nat, payload: Payload, how: Decision)    // about to lock the slot
    | Holding(kind: Kind, ticket: nat, payload: Payload, how: Decision, em: nat)  // slot locked
    | Answering(kind: Kind, em: nat)                                       // inside the callback
    | Stopping                                                             // bounded disconnect
    | Exited

  datatype Holder = Driver | HostKeyGate | Owner

  /** A result-callback slot: the registered emitter and who holds the slot's mutex. */
  datatype Slot = Slot(em: Option<nat>, lock: Option<Holder>)

  /** Progress of `shutdown_and_join`. */
  datatype Down = Up | Sent | Signalled | Waited | EventsOff | Took(kind: Kind, em: nat) | FilesOff | Returned

  /** The channels: everything ever sent, and how far it was read. */
  datatype Wires = Wires(commands: seq<Command>, taken: seq<Taken>, arrived: seq<ProviderEvent>, consumed: nat)

  /** Ids handed out, requests not yet sent, and what the callers got back. */
  datatype Clients = Clients(issued: nat, sending: map<nat, Kind>, returned: map<nat, nat>)

  /** The driver task and its variables. */
  datatype Task = Task(pc: Pc, life: Life, files: bool)

  /** The event emitter's flag and mutex, the two slots, the emitters that are active, how
      many were made, and the progress of teardown. */
  datatype Gates = Gates(
    active: bool, gate: Option<Holder>, fs: Slot, exec: Slot, live: set<nat>, made: nat, down: Down)

  /** How an operation that only reports, a connect or a send, ended. */
  datatype End = Ended(outcome: Outcome) | CutShort

  /** Emissions, answers, which requests were in flight when a cancel arrived, how the
      provider operations of requests ended, how those of the other commands ended (by the
      number of commands dequeued then), and the error if there was no provider at all. */
  datatype History = History(
    log: seq<Emission>, answers: seq<Answer>, cancelled: set<nat>,
    outcomes: map<nat, Outcome>, ends: map<nat, End>, refused: Option<Code>)

  datatype State = State(wires: Wires, clients: Clients, task: Task, gates: Gates, history: History)

  function Init(): State {
    State(Wires([], [], [], 0), Clients(0, map[], map[]), Task(Start, Idle, false),
          Gates(true, None, Slot(None, None), Slot(None, None), {}, 0, Up), History([], [], {}, map[], map[], None))
  }

  function SlotOf(g: Gates, k: Kind): Slot { if k == Fs then g.fs else g.exec }

  function WithSlot(g: Gates, k: Kind, slot: Slot): Gates {
    if k == Fs then g.(fs := slot) else g.(exec := slot)
  }

  // ---------------------------------------------------------------------------
  // Provider events.
  // ---------------------------------------------------------------------------

  /** The events a provider event contributes to the batch. */
  function Reported(e: ProviderEvent): seq<Event> {
    match e
    case Received(bytes) => [Data(bytes)]
    case Hangup => []
    case Broken(code) => [Error(code)]
  }

  function TransitionOf(e: ProviderEvent): Option<Life> {
    match e
    case Received(_) => None
    case Hangup => Some(Disconnected)
    case Broken(_) => Some(Failed)
  }

  function AllReported(es: seq<ProviderEvent>): seq<Event> {
    if es == [] then [] else AllReported(es[..|es| - 1]) + Reported(es[|es| - 1])
  }

  /** The latest transition among the events. */
  function LastTransition(es: seq<ProviderEvent>): Option<Life> {
    if es == [] then None
    else
      var t := TransitionOf(es[|es| - 1]);
      if t.Some? then t else LastTransition(es[..|es| - 1])
  }

  function Batched(batch: seq<Event>, transition: Option<Life>): seq<Event> {
    if transition.Some? then batch + [StateChanged(transition.value)] else batch
  }

  /** The one batch that a drain of `es` hands over. */
  function BatchOf(es: seq<ProviderEvent>): seq<Event> {
    Batched(AllReported(es), LastTransition(es))
  }

  method CollectProviderEvent(ev: ProviderEvent, batch: seq<Event>, transition: Option<Life>)
    returns (batch': seq<Event>, transition': Option<Life>)
    ensures batch' == batch + Reported(ev)
    ensures transition' == if TransitionOf(ev).Some? then TransitionOf(ev) else transition
  {
    batch', transition' := batch, transition;
    match ev
    case Received(bytes) =>
      batch' := batch + [Data(bytes)];
    case Hangup =>
      transition' := Some(Disconnected);
    case Broken(code) =>
      batch' := batch + [Error(code)];
      transition' := Some(Failed);
  }

  lemma OneMoreEvent(es: seq<ProviderEvent>, e: ProviderEvent)
    ensures AllReported(es + [e]) == AllReported(es) + Reported(e)
    ensures LastTransition(es + [e]) == if TransitionOf(e).Some? then TransitionOf(e) else LastTransition(es)
  {
    assert (es + [e])[..|es|] == es;
  }

  /** The drain arm of the loop, when `pending` is everything available. */
  method DrainEvents(first: ProviderEvent, pending: seq<ProviderEvent>, state: Life)
    returns (batch: seq<Event>, state': Life)
    ensures batch == BatchOf([first] + pending) != []
    ensures state' == if LastTransition([first] + pending).Some? then LastTransition([first] + pending).value else state
  {
    var transition := None;
    batch, transition := CollectProviderEvent(first, [], None);
    OneMoreEvent([], first);
    assert [first] + pending[..0] == [first] == [] + [first];
    var i := 0;
    while i < |pending|
      invariant 0 <= i <= |pending|
      invariant batch == AllReported([first] + pending[..i]) && transition == LastTransition([first] + pending[..i])
    {
      OneMoreEvent([first] + pending[..i], pending[i]);
      assert [first] + pending[..i + 1] == [first] + pending[..i] + [pending[i]];
      batch, transition := CollectProviderEvent(pending[i], batch, transition);
      i := i + 1;
    }
    assert pending[..i] == pending;
    BatchIsNonempty([first] + pending);
    state' := state;
    if transition.Some? {
      state' := transition.value;
      batch := batch + [StateChanged(transition.value)];
    }
  }

  /** Every drained event shows up, so the emptiness test in the loop never fires. */
  lemma BatchIsNonempty(es: seq<ProviderEvent>)
    requires es != []
    ensures BatchOf(es) != []
  {
  }

  function States(es: seq<Event>): seq<Life> {
    if es == [] then []
    else States(es[..|es| - 1]) + (if es[|es| - 1].StateChanged? then [es[|es| - 1].to] else [])
  }

  function Bytes(es: seq<Event>): seq<int> {
    if es == [] then []
    else Bytes(es[..|es| - 1]) + (if es[|es| - 1].Data? then es[|es| - 1].bytes else [])
  }

  function BytesReceived(es: seq<ProviderEvent>): seq<int> {
    if es == [] then []
    else BytesReceived(es[..|es| - 1]) + (if es[|es| - 1].Received? then es[|es| - 1].bytes else [])
  }

  /** The states, and the terminal bytes, handed to the event emitter so far. */
  function LogStates(log: seq<Emission>): seq<Life> {
    if log == [] then [] else LogStates(log[..|log| - 1]) + States(log[|log| - 1].batch)
  }

  function LogBytes(log: seq<Emission>): seq<int> {
    if log == [] then [] else LogBytes(log[..|log| - 1]) + Bytes(log[|log| - 1].batch)
  }

  /** A batch holds at most one state change, at its end, and that one is the latest
      transition of the drain it came from. */
  ghost predicate BatchShape(e: Emission, arrived: seq<ProviderEvent>) {
    && e.batch != []
    && (forall i | 0 <= i < |e.batch| - 1 :: !e.batch[i].StateChanged?)
    && (e.from.Drain? ==>
          && e.from.lo < e.from.hi <= |arrived|
          && e.batch == BatchOf(arrived[e.from.lo..e.from.hi]))
  }

  // ---------------------------------------------------------------------------
  // Steps. A step that is not enabled is None.
  // ---------------------------------------------------------------------------

  datatype DriverStep =
    | Create(ok: bool, code: Code)       // create_provider
    | TakeCommand | CommandsEmpty | TakeEvent | EventsEmpty
    | DrainMore | DrainDone
    | Deliver | Return                   // emit_batch up to the callback, and its return
    | Assign                             // set_state
    | Finish(outcome: Outcome)           // the awaited operation completes
    | Cancel                             // its cancel branch wins
    | LockSlot | Reply | ReplyReturn

  datatype Label =
    | Drive(d: DriverStep)
    | Arrive(ev: ProviderEvent)
    | Prompt(fingerprint: string) | PromptReturn
    | Allocate(kind: Kind) | Submit(ticket: nat) | Post(cmd: Command) | CallCancel | Register(kind: Kind)
    | Teardown(timeout: bool)

  function At(s: State, pc: Pc): State { s.(task := s.task.(pc := pc)) }

  /** `notify_waiters`: only an operation in flight hears it, nothing is stored. */
  function Notify(s: State): State {
    match s.task.pc
    case Opening(_) => At(s, Opening(true))
    case Sending(_) => At(s, Sending(true))
    case Serving(k, t, _) =>
      At(s, Serving(k, t, true)).(history := s.history.(cancelled := s.history.cancelled + {|s.history.answers|}))
    case _ => s
  }

  /** What the driver does with a command. */
  function Dispatch(cmd: Command, life: Life): Pc {
    match cmd
    case Shutdown => if life == Connected || life == Connecting then Stopping else Exited
    case Configure => Head
    case Connect =>
      if life == Connecting || life == Connected then Say([Error(InvalidState)], Report, Head)
      else Enter(Connecting, Opening(false))
    case Send =>
      if life != Connected then Say([Error(NotConnected)], Report, Head) else Sending(false)
    case Disconnect =>
      if life == Connected || life == Connecting then Enter(Disconnecting, Dropping) else Head
    case Request(k, t) =>
      if k == Exec && life != Connected then Replying(k, t, Fail(NotConnected), ByState)
      else Serving(k, t, false)
  }

  function PayloadOf(o: Outcome): Payload { if o.Good? then Value(o.v) else Fail(o.code) }

  /** Keeps the history of how operations end. */
  function Noted(s: State, end: End): State {
    var h := s.history;
    if s.task.pc.Serving? && end.Ended? then s.(history := h.(outcomes := h.outcomes[|h.answers| := end.outcome]))
    else if s.task.pc.Opening? || s.task.pc.Sending? then s.(history := h.(ends := h.ends[|s.wires.taken| := end]))
    else s
  }

  /** The awaited provider operation completes. */
  function Finished(task: Task, o: Outcome): Option<Task> {
    match task.pc
    case Opening(_) =>
      if o.Good? then Some(Task(Enter(Connected, Head), task.life, o.files))
      else Some(task.(pc := Say([Error(o.code)], Report, Enter(Failed, Head))))
    case Aborting => Some(task.(pc := Say([Error(Cancelled)], Report, Enter(Disconnected, Head))))
    case Sending(_) => Some(task.(pc := if o.Good? then Head else Say([Error(o.code)], Report, Head)))
    case Closing => Some(task.(pc := Enter(Disconnected, Head)))
    case Serving(k, t, _) =>
      if k == Fs && !task.files then Some(task.(pc := Replying(k, t, Fail(ProviderUnavailable), ByState)))
      else Some(task.(pc := Replying(k, t, PayloadOf(o), ByProvider)))
    case Stopping => Some(task.(pc := Exited))
    case _ => None
  }

  /** The cancel branch of the awaited operation wins. */
  function Interrupted(task: Task): Option<Task> {
    match task.pc
    case Opening(true) => Some(task.(pc := Aborting))
    case Sending(true) => Some(task.(pc := Say([Error(Cancelled)], Report, Head)))
    case Serving(k, t, true) => Some(task.(pc := Replying(k, t, Fail(Cancelled), ByCancel)))
    case _ => None
  }

  /** One event out of the provider channel. */
  function DrainOne(s: State, lo: nat, batch: seq<Event>, transition: Option<Life>): Option<State> {
    if s.wires.consumed < |s.wires.arrived| then
      var e := s.wires.arrived[s.wires.consumed];
      var t := TransitionOf(e);
      Some(At(s, Draining(lo, batch + Reported(e), if t.Some? then t else transition)).(
             wires := s.wires.(consumed := s.wires.consumed + 1)))
    else None
  }

  function Logged(s: State, batch: seq<Event>, from: Origin): State {
    s.(history := s.history.(log := s.history.log + [Emission(batch, from, s.gates.active)]))
  }

  /** The emitter's gate: the mutex is held across the callback, and a deactivated
      emitter calls nothing. */
  function Emit(s: State, batch: seq<Event>, from: Origin, cont: Pc): Option<State> {
    if s.gates.gate != None then None
    else if s.gates.active then
      Some(At(Logged(s, batch, from), Saying(cont)).(gates := s.gates.(gate := Some(Driver))))
    else Some(At(Logged(s, batch, from), cont))
  }

  function Answered(s: State, k: Kind, t: nat, p: Payload, how: Decision, delivered: bool): State {
    s.(history := s.history.(answers := s.history.answers + [Answer(k, IdOf(t), p, how, delivered)]))
  }

  function Unlocked(g: Gates, k: Kind): Gates { WithSlot(g, k, SlotOf(g, k).(lock := None)) }

  /** Lock the slot and look for an emitter; the guard lives until the callback is over. */
  function LockAndLook(s: State, k: Kind, t: nat, p: Payload, how: Decision): Option<State> {
    var slot := SlotOf(s.gates, k);
    if slot.lock != None then None
    else if slot.em == None then Some(At(Answered(s, k, t, p, how, false), Head))
    else Some(At(s, Holding(k, t, p, how, slot.em.value)).(
                gates := WithSlot(s.gates, k, slot.(lock := Some(Driver)))))
  }

  function CallBack(s: State, k: Kind, t: nat, p: Payload, how: Decision, em: nat): State {
    if em in s.gates.live then At(Answered(s, k, t, p, how, true), Answering(k, em))
    else At(Answered(s, k, t, p, how, false), Head).(gates := Unlocked(s.gates, k))
  }

  function TakeNext(s: State): Option<State> {
    var w := s.wires;
    if |w.taken| < |w.commands| then
      var cmd := w.commands[|w.taken|];
      Some(At(s, Dispatch(cmd, s.task.life)).(
             wires := w.(taken := w.taken + [Taken(cmd, s.task.life, s.task.files)])))
    else if s.gates.down == Returned then Some(At(s, Dispatch(Shutdown, s.task.life)))  // every sender is gone
    else None
  }

  function WithTask(s: State, task: Option<Task>): Option<State> {
    if task.None? then None else Some(s.(task := task.value))
  }

  function DriveNext(s: State, d: DriverStep): Option<State> {
    match (d, s.task.pc)
    case (Create(ok, code), Start) =>
      if ok then Some(At(s, Head))
      else Some(s.(task := Task(Say([Error(code), StateChanged(Failed)], Report, Exited), Failed, false),
                   history := s.history.(refused := Some(code))))
    case (TakeCommand, Head) => TakeNext(s)
    case (CommandsEmpty, Head) =>
      if |s.wires.taken| == |s.wires.commands| then Some(At(s, Polled)) else None
    case (EventsEmpty, Polled) =>
      if s.wires.consumed == |s.wires.arrived| then Some(At(s, Head)) else None
    case (TakeEvent, Polled) => DrainOne(s, s.wires.consumed, [], None)
    case (DrainMore, Draining(lo, b, t)) => DrainOne(s, lo, b, t)
    case (DrainDone, Draining(lo, b, t)) =>
      Some(s.(task := s.task.(pc := Say(Batched(b, t), Drain(lo, s.wires.consumed), Head),
                              life := if t.Some? then t.value else s.task.life)))
    case (Deliver, Say(b, from, cont)) => Emit(s, b, from, cont)
    case (Return, Saying(cont)) => Some(At(s, cont).(gates := s.gates.(gate := None)))
    case (Assign, Enter(to, cont)) =>
      Some(s.(task := s.task.(life := to, pc := Say([StateChanged(to)], Report, cont))))
    case (Assign, Dropping) => Some(s.(task := s.task.(files := false, pc := Closing)))
    case (Finish(o), _) => WithTask(Noted(s, Ended(o)), Finished(s.task, o))
    case (Cancel, _) => WithTask(Noted(s, CutShort), Interrupted(s.task))
    case (LockSlot, Replying(k, t, p, how)) => LockAndLook(s, k, t, p, how)
    case (Reply, Holding(k, t, p, how, em)) => Some(CallBack(s, k, t, p, how, em))
    case (ReplyReturn, Answering(k, _)) => Some(At(s, Head).(gates := Unlocked(s.gates, k)))
    case _ => None
  }

  /** The receiver lives as long as the driver. */
  function Accept(s: State, cmd: Command): State {
    if s.task.pc == Exited then s
    else s.(wires := s.wires.(commands := s.wires.commands + [cmd]))
  }

  function SubmitNext(s: State, t: nat): Option<State> {
    var c := s.clients;
    if t !in c.sending then None
    else Some(Accept(s, Request(c.sending[t], t)).(
                clients := c.(sending := c.sending - {t},
                              returned := c.returned[t := if s.task.pc == Exited then 0 else IdOf(t)])))
  }

  /** Callbacks are registered before teardown starts; registering again replaces. */
  function RegisterNext(g: Gates, k: Kind): Option<Gates> {
    if g.down != Up || SlotOf(g, k).lock != None then None
    else Some(WithSlot(g, k, Slot(Some(g.made), None)).(made := g.made + 1, live := g.live + {g.made}))
  }

  /** Take the emitter out of its slot (the guard stays held) and deactivate it. */
  function TakeSlot(g: Gates, k: Kind, done: Down): Option<Gates> {
    var slot := SlotOf(g, k);
    if slot.lock != None then None
    else if slot.em == None then Some(g.(down := done))
    else Some(WithSlot(g, k, Slot(None, Some(Owner))).(down := Took(k, slot.em.value)))
  }

  /** The rest of `shutdown_and_join`, once `Shutdown` and the cancel are out. */
  function DownNext(g: Gates, pc: Pc, timeout: bool): Option<Gates> {
    match g.down
    case Up => None
    case Sent => None
    case Signalled => if timeout || pc == Exited then Some(g.(down := Waited)) else None
    case Waited => if g.gate != None then None else Some(g.(active := false, down := EventsOff))
    case EventsOff => TakeSlot(g, Fs, FilesOff)
    case Took(k, em) =>
      if pc == Answering(k, em) then None
      else Some(Unlocked(g, k).(live := g.live - {em}, down := if k == Fs then FilesOff else Returned))
    case FilesOff => TakeSlot(g, Exec, Returned)
    case Returned => None
  }

  function WithGates(s: State, g: Option<Gates>): Option<State> {
    if g.None? then None else Some(s.(gates := g.value))
  }

  function TeardownNext(s: State, timeout: bool): Option<State> {
    match s.gates.down
    case Up => Some(Accept(s, Shutdown).(gates := s.gates.(down := Sent)))
    case Sent => Some(Notify(s).(gates := s.gates.(down := Signalled)))
    case _ => WithGates(s, DownNext(s.gates, s.task.pc, timeout))
  }

  function PromptNext(s: State, fingerprint: string): Option<State> {
    if s.gates.gate != None || s.task.pc == Start then None
    else Some(Logged(s, [HostKeyPrompt(fingerprint)], Gate).(
                gates := s.gates.(gate := if s.gates.active then Some(HostKeyGate) else None)))
  }

  function Next(s: State, l: Label): Option<State> {
    match l
    case Drive(d) => DriveNext(s, d)
    case Arrive(ev) =>
      if s.task.pc == Exited then None
      else Some(s.(wires := s.wires.(arrived := s.wires.arrived + [ev])))
    case Prompt(fp) => PromptNext(s, fp)
    case PromptReturn => if s.gates.gate == Some(HostKeyGate) then Some(s.(gates := s.gates.(gate := None))) else None
    case Allocate(k) =>
      Some(s.(clients := s.clients.(issued := s.clients.issued + 1,
                                    sending := s.clients.sending[s.clients.issued := k])))
    case Submit(t) => SubmitNext(s, t)
    case Post(cmd) => if cmd.Request? || cmd.Shutdown? then None else Some(Accept(s, cmd))
    case CallCancel => Some(Notify(s))
    case Register(k) => WithGates(s, RegisterNext(s.gates, k))
    case Teardown(timeout) => TeardownNext(s, timeout)
  }

  /** The state after a run of the whole system, if every step of it was enabled. */
  function After(run: seq<Label>): Option<State> {
    if run == [] then Some(Init())
    else
      match After(run[..|run| - 1])
      case None => None
      case Some(s) => Next(s, run[|run| - 1])
  }

  /** At the top of the driver's loop. */
  predicate AtHead(s: State) { s.task.pc == Head || s.task.pc == Polled }
}
