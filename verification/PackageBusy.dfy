/** The package panel's busy flag against the table of pending commands
    (app/cpp/AppController.cpp). */
module PackageBusy {
  import opened Wrappers
  import opened SessionStates

  datatype Kind = ResourceSnapshot | EnvironmentProbe | PackageList | PackageSearch
                | PackageInstall | PackageUpdate | PackageRemove

  /** A live session: ids given out so far, to commands and to file requests alike, and
      whether its driver has stopped, after which it gives out 0. */
  datatype Session = Session(issued: nat, stopped: bool)

  /** A command result; `failed` is an error record or a non-zero exit status. */
  datatype ExecResult = ExecResult(id: nat, failed: bool)

  /** The controller's fields that matter here. */
  datatype Panel = Panel(session: Option<Session>, life: Life, pending: map<nat, Kind>, busy: bool, snapshotBusy: bool)

  /** `QChar::isSpace`. */
  predicate IsSpace(c: char) {
    var n := c as int;
    9 <= n <= 13 || n in {0x20, 0x85, 0xA0, 0x1680, 0x2028, 0x2029, 0x202F, 0x205F, 0x3000} || 0x2000 <= n <= 0x200A
  }

  /** Nothing is left of `s` when trimmed. */
  predicate IsBlank(s: string) { forall i | 0 <= i < |s| :: IsSpace(s[i]) }

  function Ready(p: Panel): bool { p.session.Some? && p.life == Connected }

  // ---------------------------------------------------------------------------
  // What each handler does to the fields.
  // ---------------------------------------------------------------------------

  function NextId(p: Panel): nat {
    if !Ready(p) || p.session.value.stopped then 0 else p.session.value.issued + 1
  }

  function Submitted(p: Panel, kind: Kind): Panel {
    var id := NextId(p);
    if id == 0 then p
    else p.(session := Some(Session(id, false)), pending := p.pending[id := kind])
  }

  /** Set the flag, submit, and take it back if nothing was submitted. */
  function Started(p: Panel, kind: Kind): Panel {
    var q := Submitted(p, kind);
    q.(busy := NextId(p) != 0)
  }

  function Requested(p: Panel, kind: Kind): Panel {
    if !Ready(p) || p.busy then p else Started(p, kind)
  }

  function SnapshotRequested(p: Panel): Panel {
    if !Ready(p) then p.(snapshotBusy := false)
    else if p.snapshotBusy then p
    else Submitted(p, ResourceSnapshot).(snapshotBusy := NextId(p) != 0)
  }

  /** Probes and package mutations that succeed go on to read the package list. */
  predicate Chains(kind: Kind) { kind != ResourceSnapshot && kind != PackageList && kind != PackageSearch }

  function Ingested(p: Panel, r: ExecResult): Panel {
    if r.id !in p.pending then p
    else
      var kind := p.pending[r.id];
      var q := p.(pending := p.pending - {r.id});
      if kind == ResourceSnapshot then q.(snapshotBusy := false)
      else if Chains(kind) && !r.failed then Started(q.(busy := false), PackageList)
      else q.(busy := false)
  }

  function AllIngested(p: Panel, batch: seq<ExecResult>): Panel {
    if batch == [] then p else Ingested(AllIngested(p, batch[..|batch| - 1]), batch[|batch| - 1])
  }

  function Cleared(p: Panel): Panel { p.(pending := map[], busy := false, snapshotBusy := false) }

  function StateSet(p: Panel, life: Life): Panel {
    if life == Disconnected || life == Failed then Cleared(p.(life := life)) else p.(life := life)
  }

  /** A file request draws an id too. */
  function Drawn(p: Panel): Panel {
    if p.session.None? || p.session.value.stopped then p
    else p.(session := Some(Session(p.session.value.issued + 1, false)))
  }

  /** Everything that can happen to the panel. */
  datatype Action =
    | ProbeEnvironment
    | Search(query: string)
    | Mutate(kind: Kind, name: string, command: string)
    | RefreshSnapshot
    | SnapshotCaptured
    | Results(batch: seq<ExecResult>)
    | StateChange(life: Life)
    | Teardown
    | NewSession
    | FileRequest
    | DriverStops

  function Next(p: Panel, a: Action): Panel {
    match a
    case ProbeEnvironment => Requested(p, EnvironmentProbe)
    case Search(query) => if IsBlank(query) then p else Requested(p, PackageSearch)
    case Mutate(kind, name, command) =>
      if IsBlank(name) || command == "" || !Mutation(kind) then p else Requested(p, kind)
    case RefreshSnapshot => SnapshotRequested(p)
    case SnapshotCaptured => p.(snapshotBusy := false)
    case Results(batch) => AllIngested(p, batch)
    case StateChange(life) => StateSet(p, life)
    case Teardown => Cleared(p).(session := None)
    case NewSession => if p.session.None? then p.(session := Some(Session(0, false))) else p
    case FileRequest => Drawn(p)
    case DriverStops => if p.session.Some? then p.(session := Some(p.session.value.(stopped := true))) else p
  }

  predicate Mutation(kind: Kind) { kind == PackageInstall || kind == PackageUpdate || kind == PackageRemove }

  function Run(actions: seq<Action>): Panel {
    if actions == [] then Panel(None, Idle, map[], false, false)
    else Next(Run(actions[..|actions| - 1]), actions[|actions| - 1])
  }

  // ---------------------------------------------------------------------------
  // The flag tells the truth.
  // ---------------------------------------------------------------------------

  /** The pending commands that belong to the package panel. */
  function Package(pending: map<nat, Kind>): set<nat> {
    set id | id in pending && pending[id] != ResourceSnapshot
  }

  ghost predicate Truthful(p: Panel) {
    && (p.busy <==> |Package(p.pending)| == 1)
    && |Package(p.pending)| <= 1
    && (forall id | id in p.pending :: p.session.Some? && 0 < id <= p.session.value.issued)
  }

  lemma SubmittedPackage(p: Panel, kind: Kind)
    requires Truthful(p)
    ensures var q := Submitted(p, kind);
            var added := if NextId(p) != 0 && kind != ResourceSnapshot then {NextId(p)} else {};
            && Package(q.pending) == Package(p.pending) + added
            && NextId(p) !in p.pending
            && q.busy == p.busy
            && (forall id | id in q.pending :: q.session.Some? && 0 < id <= q.session.value.issued)
  {
  }

  lemma StartedTruthful(p: Panel, kind: Kind)
    requires Truthful(p) && !p.busy && kind != ResourceSnapshot
    ensures Truthful(Started(p, kind))
  {
    SubmittedPackage(p, kind);
    assert Package(p.pending) == {};
  }

  lemma IngestedTruthful(p: Panel, r: ExecResult)
    requires Truthful(p)
    ensures Truthful(Ingested(p, r))
  {
    if r.id in p.pending {
      var kind := p.pending[r.id];
      var q := p.(pending := p.pending - {r.id});
      assert Package(q.pending) == Package(p.pending) - {r.id};
      if kind == ResourceSnapshot {
        assert Package(q.pending) == Package(p.pending);
      } else {
        OnlyOne(Package(p.pending), r.id);
        assert Package(q.pending) == {};
        StartedTruthful(q.(busy := false), PackageList);
      }
    }
  }

  lemma OnlyOne(s: set<nat>, x: nat)
    requires |s| <= 1 && x in s
    ensures s == {x}
  {
    if y :| y in s && y != x { assert |{x, y}| == 2 && {x, y} <= s; SubsetCard({x, y}, s); }
  }

  lemma {:induction false} SubsetCard(a: set<nat>, b: set<nat>)
    requires a <= b
    ensures |a| <= |b|
  {
    assert b == a + (b - a);
  }

  lemma {:induction false} AllIngestedTruthful(p: Panel, batch: seq<ExecResult>)
    requires Truthful(p)
    ensures Truthful(AllIngested(p, batch))
    decreases |batch|
  {
    if batch != [] {
      AllIngestedTruthful(p, batch[..|batch| - 1]);
      IngestedTruthful(AllIngested(p, batch[..|batch| - 1]), batch[|batch| - 1]);
    }
  }

  lemma RequestedTruthful(p: Panel, kind: Kind)
    requires Truthful(p) && kind != ResourceSnapshot
    ensures Truthful(Requested(p, kind))
  {
    if !p.busy { StartedTruthful(p, kind); }
  }

  lemma SnapshotTruthful(p: Panel)
    requires Truthful(p)
    ensures Truthful(SnapshotRequested(p))
  {
    SubmittedPackage(p, ResourceSnapshot);
    assert Package(Submitted(p, ResourceSnapshot).pending) == Package(p.pending);
  }

  lemma ClearedTruthful(p: Panel, session: Option<Session>)
    ensures Truthful(Cleared(p).(session := session))
  {
    assert Package(map[]) == {};
  }

  lemma NextTruthful(p: Panel, a: Action)
    requires Truthful(p)
    ensures Truthful(Next(p, a))
  {
    match a
    case ProbeEnvironment => RequestedTruthful(p, EnvironmentProbe);
    case Search(_) => RequestedTruthful(p, PackageSearch);
    case Mutate(kind, _, _) => if Mutation(kind) { RequestedTruthful(p, kind); }
    case RefreshSnapshot => SnapshotTruthful(p);
    case Results(batch) => AllIngestedTruthful(p, batch);
    case StateChange(life) => ClearedTruthful(p.(life := life), p.session);
    case Teardown => ClearedTruthful(p, None);
    case _ => hide Package;
  }

  /** After any sequence of user actions, results (known or not), file requests, state
      changes, driver stops, teardowns and new sessions, the flag is set exactly if one package command is
      pending, and never more than one is. */
  lemma {:induction false} BusyTellsTheTruth(actions: seq<Action>)
    ensures Truthful(Run(actions))
    decreases |actions|
  {
    if actions == [] {
      assert Package(map[]) == {};
    } else {
      BusyTellsTheTruth(actions[..|actions| - 1]);
      NextTruthful(Run(actions[..|actions| - 1]), actions[|actions| - 1]);
    }
  }

  /** What each user action starts, under an id never given before, when the panel is idle and
      connected; and that otherwise it starts nothing. */
  lemma ActionsStart(p: Panel, query: string, kind: Kind, name: string, command: string)
    requires kind == PackageInstall || kind == PackageUpdate || kind == PackageRemove
    ensures var ready := p.session.Some? && p.life == Connected && !p.session.value.stopped;
            var id := if ready then p.session.value.issued + 1 else 0;
            && (ready && !p.busy ==>
                  var q := Next(p, ProbeEnvironment);
                  q.busy && q.pending == p.pending[id := EnvironmentProbe] && q.session.value.issued == id)
            && (ready && !p.busy && (exists i :: 0 <= i < |query| && '!' <= query[i] <= '~') ==>
                  Next(p, Search(query)).busy && Next(p, Search(query)).pending == p.pending[id := PackageSearch])
            && (ready && !p.busy && command != "" && (exists i :: 0 <= i < |name| && '!' <= name[i] <= '~') ==>
                  var q := Next(p, Mutate(kind, name, command)); q.busy && q.pending == p.pending[id := kind])
            && (ready && !p.snapshotBusy ==>
                  var q := Next(p, RefreshSnapshot);
                  q.busy == p.busy && q.snapshotBusy && q.pending == p.pending[id := ResourceSnapshot])
            && (!ready || p.busy ==>
                  && Next(p, ProbeEnvironment).pending == p.pending && Next(p, Search(query)).pending == p.pending
                  && Next(p, Mutate(kind, name, command)).pending == p.pending)
            && (!ready ==> Next(p, RefreshSnapshot).pending == p.pending)
            && (command == "" || (forall i | 0 <= i < |name| :: name[i] in " \t\n\r") ==>
                  Next(p, Mutate(kind, name, command)) == p)
            && ((forall i | 0 <= i < |query| :: query[i] in " \t\n\r") ==> Next(p, Search(query)) == p)
            && (p.session.Some? && p.life == Connected && p.snapshotBusy ==> Next(p, RefreshSnapshot) == p)
  {
  }

  /** What the other events do: Disconnected, Failed and teardown forget everything, other
      states nothing. */
  lemma EventsClear(p: Panel, life: Life)
    ensures var q := Next(p, StateChange(life));
            && q.life == life && q.session == p.session
            && (life == Disconnected || life == Failed ==> q.pending == map[] && !q.busy && !q.snapshotBusy)
            && (life != Disconnected && life != Failed ==>
                  q.pending == p.pending && q.busy == p.busy && q.snapshotBusy == p.snapshotBusy)
    ensures var q := Next(p, SnapshotCaptured);
            !q.snapshotBusy && q.pending == p.pending && q.busy == p.busy && q.session == p.session
    ensures var q := Next(p, Teardown); q.session.None? && q.pending == map[] && !q.busy && !q.snapshotBusy
  {
  }

  /** What one result does to the panel it is for, kind by kind. */
  lemma ResultsAre(p: Panel, r: ExecResult)
    ensures r.id !in p.pending ==> Ingested(p, r) == p
    ensures r.id in p.pending ==>
              var q, kind := Ingested(p, r), p.pending[r.id];
              var ready := p.session.Some? && p.life == Connected && !p.session.value.stopped;
              var rest := p.pending - {r.id};
              && (kind == ResourceSnapshot ==> q.pending == rest && q.busy == p.busy && !q.snapshotBusy)
              && (kind == PackageList || kind == PackageSearch ==> q.pending == rest && !q.busy)
              && (r.failed && kind != ResourceSnapshot ==> q.pending == rest && !q.busy)
              && (!r.failed && kind in {EnvironmentProbe, PackageInstall, PackageUpdate, PackageRemove} ==>
                    if ready then q.busy && q.pending == rest[p.session.value.issued + 1 := PackageList]
                    else !q.busy && q.pending == rest)
  {
  }

  /** The flag always comes back: it is one particular result that clears it or, when it
      succeeds and chains, hands it to the package list; every other result leaves it. */
  lemma BusyIsReleased(actions: seq<Action>, r: ExecResult)
    requires Run(actions).busy
    ensures var p, q := Run(actions), Ingested(Run(actions), r);
            exists id :: Package(p.pending) == {id} &&
              (if r.id != id then q.busy && Package(q.pending) == {id}
               else if r.failed || !Chains(p.pending[id]) || NextId(p) == 0 then !q.busy && Package(q.pending) == {}
               else q.busy && Package(q.pending) == {NextId(p)} && q.pending[NextId(p)] == PackageList)
  {
    BusyTellsTheTruth(actions);
    var p := Run(actions);
    var id :| id in Package(p.pending);
    OnlyOne(Package(p.pending), id);
    if r.id in p.pending {
      var q := p.(pending := p.pending - {r.id}, busy := false);
      assert Package(q.pending) == Package(p.pending) - {r.id};
      if r.id == id && Chains(p.pending[id]) && !r.failed {
        SubmittedPackage(q, PackageList);
      }
    }
  }

  // ---------------------------------------------------------------------------
  // The controller.
  // ---------------------------------------------------------------------------

  class AppController {
    var session: Option<Session>
    var connectionState: Life
    var execPending: map<nat, Kind>
    var packageBusy: bool
    var resourceSnapshotBusy: bool

    ghost function View(): Panel
      reads this
    {
      Panel(session, connectionState, execPending, packageBusy, resourceSnapshotBusy)
    }

    constructor ()
      ensures View() == Run([])
    {
      session, connectionState, execPending, packageBusy, resourceSnapshotBusy := None, Idle, map[], false, false;
    }

    /** The bridge's `exec`: a fresh id, or 0 from a stopped session. */
    method BridgeExec() returns (id: nat)
      requires session.Some?
      modifies this`session
      ensures id == if old(session).value.stopped then 0 else old(session).value.issued + 1
      ensures session == if id == 0 then old(session) else Some(Session(id, false))
    {
      if session.value.stopped { return 0; }
      id := session.value.issued + 1;
      session := Some(Session(id, false));
    }

    /** The bridge's file calls, as far as ids go. */
    method BridgeFileRequest() returns (id: nat)
      requires session.Some?
      modifies this`session
      ensures View() == Next(old(View()), FileRequest)
      ensures id == if old(session).value.stopped then 0 else old(session).value.issued + 1
    {
      id := BridgeExec();
    }

    method SubmitExec(kind: Kind) returns (id: nat)
      modifies this`session, this`execPending
      ensures View() == Submitted(old(View()), kind) && id == NextId(old(View()))
    {
      if session.None? || connectionState != Connected { return 0; }
      id := BridgeExec();
      if id == 0 { return 0; }
      execPending := execPending[id := kind];
    }

    method RefreshEnvironment()
      modifies this
      ensures View() == Next(old(View()), ProbeEnvironment)
    {
      if session.None? || connectionState != Connected { return; }
      if packageBusy { return; }
      packageBusy := true;
      var id := SubmitExec(EnvironmentProbe);
      if id == 0 { packageBusy := false; }
    }

    method SearchPackages(query: string)
      modifies this
      ensures View() == Next(old(View()), Search(query))
    {
      if IsBlank(query) { return; }
      if session.None? || connectionState != Connected { return; }
      if packageBusy { return; }
      packageBusy := true;
      var id := SubmitExec(PackageSearch);
      if id == 0 { packageBusy := false; }
    }

    /** Install, update and remove; `command` is empty if the manager cannot do it. */
    method MutatePackage(kind: Kind, name: string, command: string)
      requires Mutation(kind)
      modifies this
      ensures View() == Next(old(View()), Mutate(kind, name, command))
    {
      if IsBlank(name) { return; }
      if session.None? || connectionState != Connected { return; }
      if packageBusy { return; }
      if command == "" { return; }
      packageBusy := true;
      var id := SubmitExec(kind);
      if id == 0 { packageBusy := false; }
    }

    method RefreshResourceSnapshot()
      modifies this
      ensures View() == Next(old(View()), RefreshSnapshot)
    {
      if session.None? || connectionState != Connected {
        resourceSnapshotBusy := false;
        return;
      }
      if resourceSnapshotBusy { return; }
      resourceSnapshotBusy := true;
      var id := SubmitExec(ResourceSnapshot);
      if id == 0 { resourceSnapshotBusy := false; }
    }

    /** The tail of `parseEnvironmentProbe` and of `finishPackageMutation`. */
    method ReadPackageList()
      modifies this
      ensures View() == Started(old(View()), PackageList)
    {
      packageBusy := true;
      var id := SubmitExec(PackageList);
      if id == 0 { packageBusy := false; }
    }

    method IngestExecResult(r: ExecResult)
      modifies this
      ensures View() == Ingested(old(View()), r)
    {
      if r.id !in execPending { return; }
      var kind := execPending[r.id];
      execPending := execPending - {r.id};
      match kind
      case ResourceSnapshot => resourceSnapshotBusy := false;
      case PackageList => packageBusy := false;
      case PackageSearch => packageBusy := false;
      case _ =>
        packageBusy := false;
        if !r.failed { ReadPackageList(); }
    }

    method IngestExecResults(batch: seq<ExecResult>)
      modifies this
      ensures View() == Next(old(View()), Results(batch))
    {
      for i := 0 to |batch|
        invariant View() == AllIngested(old(View()), batch[..i])
      {
        assert batch[..i + 1][..i] == batch[..i];
        IngestExecResult(batch[i]);
      }
      assert batch[..|batch|] == batch;
    }

    method SetConnectionState(state: Life)
      modifies this
      ensures View() == Next(old(View()), StateChange(state))
    {
      connectionState := state;
      if state == Disconnected || state == Failed {
        resourceSnapshotBusy := false;
        execPending := map[];
        packageBusy := false;
      }
    }

    method TeardownSession()
      modifies this
      ensures View() == Next(old(View()), Teardown)
    {
      if session.Some? { session := None; }
      resourceSnapshotBusy := false;
      execPending := map[];
      packageBusy := false;
    }
  }
}
