/** Slots and leases over every interleaving: the exact ledger, the bound that
    survives replacement, and what draining a fixture restores. */
module Ledger {
  import opened Base
  import opened Messages
  import opened Fingerprint
  import opened PluginClient
  import opened Store
  import opened Protocol
  import opened Invariants
  import opened Steps

  // ------------------------------------------- what an event does to the two maps

  datatype Effect =
    | Nothing
    | Attaches(fp: Fingerprint, id: LeaseId)
    | Installs(fp: Fingerprint, record: FixtureRecord, id: LeaseId)
    | Releases(id: LeaseId)

  function EffectOf(digest: Digest, s: Sys, e: Event): Effect {
    if !Enabled(s, e) then Nothing
    else
      match e
      case Arrive(r, req, file, id) =>
        var admitted := Admit(digest, req, file);
        if admitted.Ok? && CanAttach(s.st, admitted.value, req.clientId) then Attaches(admitted.value, id) else Nothing
      case Create(r, stream, id) =>
        var f := s.flights[r];
        (match Drain(stream)
         case Ok(result) =>
           Installs(f.fp, Store.Provisioned(f.desc, f.client, result.outputs, f.phase.plugin), id)
         case Err(_) => Nothing)
      case ReleaseLease(id) => Releases(id)
      case _ => Nothing
  }

  predicate Sound(st: State, eff: Effect) {
    match eff
    case Nothing => true
    case Attaches(fp, id) =>
      fp in st.fixtures && st.fixtures[fp].usedSlots < Slots(st.fixtures[fp].sharing) && id !in st.leases
    case Installs(fp, record, id) => record.usedSlots == 1 && id !in st.leases
    case Releases(_) => true
  }

  function ApplyEffect(st: State, eff: Effect): State
    requires Sound(st, eff)
  {
    match eff
    case Nothing => st
    case Attaches(fp, id) => Attach(st, fp, id)
    case Installs(fp, record, id) => Install(st, fp, record, id)
    case Releases(id) => Release(st, id)
  }

  lemma EffectCorrect(digest: Digest, s: Sys, e: Event)
    requires LeasesOk(s.st, s.grants)
    ensures Sound(s.st, EffectOf(digest, s, e))
    ensures Apply(digest, s, e).st == ApplyEffect(s.st, EffectOf(digest, s, e))
  {
  }

  predicate InstallsOn(eff: Effect, fp: Fingerprint) {
    eff.Installs? && eff.fp == fp
  }

  lemma NoRecordNoLease(st: State, grants: Grants, fp: Fingerprint)
    requires LeasesOk(st, grants) && fp !in st.fixtures
    ensures Live(st, fp) == 0
  {
    assert LeasesOn(st, fp) == {};
  }

  lemma EffectFrame(st: State, eff: Effect, fp: Fingerprint)
    requires Sound(st, eff) && !InstallsOn(eff, fp)
    ensures var t := ApplyEffect(st, eff);
            && (fp in t.fixtures <==> fp in st.fixtures)
            && (fp in st.fixtures ==>
                  t.fixtures[fp] == st.fixtures[fp].(usedSlots := t.fixtures[fp].usedSlots))
  {
  }

  // ---------------------------------------------------------------- the ledger

  lemma SlotBounds(digest: Digest, s: Sys, fp: Fingerprint)
    requires Reachable(digest, s)
    ensures fp in s.st.fixtures ==>
              && 0 <= s.st.fixtures[fp].usedSlots <= Slots(s.st.fixtures[fp].sharing)
              && s.st.fixtures[fp].usedSlots <= Live(s.st, fp)
    ensures fp !in s.st.fixtures ==> Live(s.st, fp) == 0
  {
    ReachableInv(digest, s);
    if fp !in s.st.fixtures {
      NoRecordNoLease(s.st, s.grants, fp);
    }
  }

  /** Every record keeps 0 <= used_slots <= max(1, maximum), the maximum being the
      one its instance's description asks for, and never counts more than the
      leases that are live. */
  lemma SlotLedger(digest: Digest, s: Sys, fp: Fingerprint)
    requires Reachable(digest, s)
    ensures fp in s.st.fixtures ==>
              var used, p := s.st.fixtures[fp].usedSlots, s.st.fixtures[fp].plugin;
              && 0 <= used <= Live(s.st, fp)
              && p in s.instances
              && var sharing := s.instances[p].desc.sharing;
              used <= 1 || (sharing.Some? && used <= sharing.value.maximumConcurrentConnections)
    ensures fp !in s.st.fixtures ==> forall id :: id in s.st.leases ==> s.st.leases[id] != fp
  {
    SlotBounds(digest, s, fp);
    if fp in s.st.fixtures {
      RecordedPolicy(digest, s, fp);
    } else {
      assert forall id :: id in s.st.leases && s.st.leases[id] == fp ==> id in LeasesOn(s.st, fp);
    }
  }

  lemma StaleEffect(st: State, eff: Effect, fp: Fingerprint)
    requires Sound(st, eff) && Used(st, fp) >= 0
    ensures Stale(ApplyEffect(st, eff), fp) ==
              if InstallsOn(eff, fp) then Live(st, fp)
              else if eff.Releases? && Saturates(st, eff.id, fp) then Stale(st, fp) - 1
              else Stale(st, fp)
  {
    match eff
    case Nothing =>
    case Attaches(on, id) => StaleAfterAttach(st, on, id, fp);
    case Installs(on, record, id) => StaleAfterInstall(st, on, record, id, fp);
    case Releases(id) => StaleAfterRelease(st, id, fp);
  }

  /** The event is a successful commit for the fingerprint. */
  predicate CommitsOn(s: Sys, e: Event, fp: Fingerprint) {
    && e.Create? && e.r in s.flights && s.flights[e.r].phase.Described? && e.id !in s.grants
    && s.flights[e.r].fp == fp && Drain(e.stream).Ok?
  }

  /** The event releases a lease on the fingerprint whose counter is at zero. */
  predicate SaturatesOn(s: Sys, e: Event, fp: Fingerprint) {
    e.ReleaseLease? && e.id in LeasesOn(s.st, fp) && Used(s.st, fp) <= 0
  }

  lemma EventEffect(digest: Digest, s: Sys, e: Event, fp: Fingerprint)
    ensures InstallsOn(EffectOf(digest, s, e), fp) <==> CommitsOn(s, e, fp)
    ensures var eff := EffectOf(digest, s, e);
            eff.Releases? && Saturates(s.st, eff.id, fp) <==> SaturatesOn(s, e, fp)
  {
  }

  /** What one event makes of `n` leases the record does not account for: only a
      commit sets their number, to the previous lease total, and only a release
      that finds the counter at zero lowers it, by one. */
  function StaleAfter(s: Sys, e: Event, fp: Fingerprint, n: int): int {
    if CommitsOn(s, e, fp) then Live(s.st, fp)
    else if SaturatesOn(s, e, fp) then n - 1
    else n
  }

  lemma StaleMoves(digest: Digest, s: Sys, e: Event, fp: Fingerprint)
    requires LeasesOk(s.st, s.grants) && Used(s.st, fp) >= 0
    ensures Stale(Apply(digest, s, e).st, fp) == StaleAfter(s, e, fp, Stale(s.st, fp))
  {
    EffectCorrect(digest, s, e);
    EventEffect(digest, s, e, fp);
    StaleEffect(s.st, EffectOf(digest, s, e), fp);
  }

  /** The ghost count of unaccounted leases, moved along a run by its events. */
  function StaleCount(digest: Digest, s: Sys, es: seq<Event>, fp: Fingerprint, n: int): int
    decreases |es|
  {
    if es == [] then n
    else StaleCount(digest, Apply(digest, s, es[0]), es[1..], fp, StaleAfter(s, es[0], fp, n))
  }

  lemma {:induction false} LedgerFrom(digest: Digest, s: Sys, es: seq<Event>, fp: Fingerprint)
    requires Inv(digest, s)
    ensures var t := RunFrom(digest, s, es);
            Stale(t.st, fp) == StaleCount(digest, s, es, fp, Stale(s.st, fp))
    decreases |es|
  {
    if es != [] {
      StaleMoves(digest, s, es[0], fp);
      StepKeeps(digest, s, es[0]);
      LedgerFrom(digest, Apply(digest, s, es[0]), es[1..], fp);
    }
  }

  /** After every run the live leases are the used slots plus the ghost count,
      which starts at zero and is never negative. */
  lemma ExactLedger(digest: Digest, es: seq<Event>, fp: Fingerprint)
    ensures var t := Run(digest, es).st;
            Live(t, fp) == Used(t, fp) + StaleCount(digest, INIT, es, fp, 0) &&
            StaleCount(digest, INIT, es, fp, 0) >= 0
  {
    InitInv(digest);
    NoRecordNoLease(INIT.st, INIT.grants, fp);
    LedgerFrom(digest, INIT, es, fp);
    assert Reachable(digest, Run(digest, es));
    SlotBounds(digest, Run(digest, es), fp);
  }

  lemma SaturatesLive(st: State, id: LeaseId, fp: Fingerprint)
    requires Saturates(st, id, fp)
    ensures Live(st, fp) > Used(st, fp)
  {
    assert id in LeasesOn(st, fp);
  }

  lemma ExactEffect(st: State, eff: Effect, fp: Fingerprint)
    requires Sound(st, eff) && Used(st, fp) == Live(st, fp)
    ensures Used(ApplyEffect(st, eff), fp) == Live(ApplyEffect(st, eff), fp) <==>
              !(InstallsOn(eff, fp) && Used(st, fp) > 0)
  {
    StaleEffect(st, eff, fp);
    if eff.Releases? && Saturates(st, eff.id, fp) {
      SaturatesLive(st, eff.id, fp);
    }
  }

  /** used_slots stops being the number of live leases exactly when a commit
      replaces a record that still has slots in use. */
  lemma ExactSlots(digest: Digest, s: Sys, e: Event, fp: Fingerprint)
    requires Reachable(digest, s) && Used(s.st, fp) == Live(s.st, fp)
    ensures var t := Apply(digest, s, e).st;
            Used(t, fp) == Live(t, fp) <==> !(CommitsOn(s, e, fp) && Used(s.st, fp) > 0)
  {
    ReachableInv(digest, s);
    EventEffect(digest, s, e, fp);
    EffectCorrect(digest, s, e);
    ExactEffect(s.st, EffectOf(digest, s, e), fp);
  }

  // ----------------------------------------------------------------- the bound

  ghost predicate CollisionFree(digest: Digest, descs: Described) {
    forall a, b :: a in descs && b in descs ==> NoCollision(digest, a.0, a.1, b.0, b.1)
  }

  lemma SharingFixed(digest: Digest, provisioned: Described, a: FixtureDescription, ac: Bytes,
                     b: FixtureDescription, bc: Bytes, fp: Fingerprint)
    requires CollisionFree(digest, provisioned)
    requires OriginOk(digest, a, ac, fp, provisioned) && OriginOk(digest, b, bc, fp, provisioned)
    ensures EffectiveSharing(a) == EffectiveSharing(b)
  {
    var x, y := (a, ac), (b, bc);
    assert x in provisioned && y in provisioned;
    FingerprintExact(digest, x.0, x.1, y.0, y.1);
  }

  lemma ReplacedSharing(digest: Digest, s: Sys, r: nat, fp: Fingerprint)
    requires RecordsOk(s.st, s.killed, s.instances)
    requires OriginsOk(digest, s.flights, s.instances, s.provisioned)
    requires CollisionFree(digest, s.provisioned)
    requires fp in s.st.fixtures && r in s.flights && s.flights[r].fp == fp
    ensures EffectiveSharing(s.flights[r].desc) == s.st.fixtures[fp].sharing
  {
    var p := s.st.fixtures[fp].plugin;
    assert RecordOk(fp, s.st.fixtures[fp], s.killed, s.instances);
    SharingFixed(digest, s.provisioned, s.flights[r].desc, s.flights[r].contents,
                 s.instances[p].desc, s.instances[p].contents, fp);
  }

  /** The slots of `commits` instances together. */
  function Capacity(sharing: Sharing, commits: nat): nat {
    if commits == 0 then 0 else Capacity(sharing, commits - 1) + Slots(sharing)
  }

  lemma {:induction false} CapacityIsProduct(sharing: Sharing, commits: nat)
    ensures Capacity(sharing, commits) == Slots(sharing) * commits
  {
    if commits > 0 {
      CapacityIsProduct(sharing, commits - 1);
    }
  }

  /** What the commits before the current one may have left behind. */
  ghost predicate StaleBounded(st: State, commits: nat, fp: Fingerprint) {
    fp in st.fixtures ==>
      commits >= 1 && Stale(st, fp) <= Capacity(st.fixtures[fp].sharing, commits - 1)
  }

  lemma BoundEffect(st: State, eff: Effect, commits: nat, fp: Fingerprint)
    requires Sound(st, eff) && SlotsOk(st) && StaleBounded(st, commits, fp)
    requires fp !in st.fixtures ==> Live(st, fp) == 0
    requires InstallsOn(eff, fp) && fp in st.fixtures ==> eff.record.sharing == st.fixtures[fp].sharing
    ensures StaleBounded(ApplyEffect(st, eff), commits + if InstallsOn(eff, fp) then 1 else 0, fp)
  {
    StaleEffect(st, eff, fp);
    if !InstallsOn(eff, fp) {
      EffectFrame(st, eff, fp);
    } else if fp in st.fixtures {
      assert Live(st, fp) <= Capacity(eff.record.sharing, commits);
    }
  }

  lemma InstallIsCommit(digest: Digest, s: Sys, e: Event)
    requires EffectOf(digest, s, e).Installs?
    ensures e.Create? && Enabled(s, e) && Drain(e.stream).Ok?
    ensures Apply(digest, s, e) == DoCommit(s, e.r, Drain(e.stream).value.outputs, e.id)
  {
  }

  lemma OnlyInstallsCommit(digest: Digest, s: Sys, e: Event)
    requires !EffectOf(digest, s, e).Installs?
    ensures Apply(digest, s, e).instances == s.instances
  {
    if Enabled(s, e) {
      match e
      case Arrive(r, req, file, id) => ArriveFrame(digest, s, r, req, file, id);
      case Create(r, stream, id) => assert DoCreate(s, r, stream, id) == DoAbort(s, r);
      case _ =>
    }
  }

  lemma CommitsFrame(digest: Digest, s: Sys, e: Event, fp: Fingerprint)
    requires PluginsOk(s.flights, s.connected, s.killed, s.instances.Keys)
    ensures Commits(Apply(digest, s, e).instances, fp) ==
              Commits(s.instances, fp) + if InstallsOn(EffectOf(digest, s, e), fp) then 1 else 0
  {
    if EffectOf(digest, s, e).Installs? {
      InstallIsCommit(digest, s, e);
      CommitCounts(s, e.r, Drain(e.stream).value.outputs, e.id, fp);
    } else {
      OnlyInstallsCommit(digest, s, e);
    }
  }

  lemma CommitCounts(s: Sys, r: nat, outputs: Outputs, id: LeaseId, fp: Fingerprint)
    requires PluginsOk(s.flights, s.connected, s.killed, s.instances.Keys)
    requires r in s.flights && s.flights[r].phase.Described?
    ensures Commits(DoCommit(s, r, outputs, id).instances, fp) ==
              Commits(s.instances, fp) + if s.flights[r].fp == fp then 1 else 0
  {
    var p := s.flights[r].phase.plugin;
    assert Holds(s.flights, r, p);
    CommitsAfter(s.instances, p, DoCommit(s, r, outputs, id).instances[p], fp);
  }

  /** A request in the window on a recorded fingerprint wants the recorded policy. */
  ghost predicate SharingAgrees(s: Sys, fp: Fingerprint) {
    forall r :: r in s.flights && s.flights[r].fp == fp && fp in s.st.fixtures ==>
      EffectiveSharing(s.flights[r].desc) == s.st.fixtures[fp].sharing
  }

  lemma SharingAlwaysAgrees(digest: Digest, s: Sys, fp: Fingerprint)
    requires Inv(digest, s) && CollisionFree(digest, s.provisioned)
    ensures SharingAgrees(s, fp)
  {
    forall r | r in s.flights && s.flights[r].fp == fp && fp in s.st.fixtures
      ensures EffectiveSharing(s.flights[r].desc) == s.st.fixtures[fp].sharing
    {
      ReplacedSharing(digest, s, r, fp);
    }
  }

  /** A commit installs the policy its request asked for. */
  lemma InstallSharing(digest: Digest, s: Sys, e: Event, fp: Fingerprint)
    requires SharingAgrees(s, fp)
    ensures var eff := EffectOf(digest, s, e);
            InstallsOn(eff, fp) && fp in s.st.fixtures ==> eff.record.sharing == s.st.fixtures[fp].sharing
  {
    if EffectOf(digest, s, e).Installs? {
      InstallIsCommit(digest, s, e);
    }
  }

  lemma BoundFromEffect(s: Sys, t: Sys, eff: Effect, fp: Fingerprint)
    requires LeasesOk(s.st, s.grants) && SlotsOk(s.st)
    requires StaleBounded(s.st, Commits(s.instances, fp), fp)
    requires Sound(s.st, eff) && t.st == ApplyEffect(s.st, eff)
    requires Commits(t.instances, fp) == Commits(s.instances, fp) + if InstallsOn(eff, fp) then 1 else 0
    requires InstallsOn(eff, fp) && fp in s.st.fixtures ==> eff.record.sharing == s.st.fixtures[fp].sharing
    ensures StaleBounded(t.st, Commits(t.instances, fp), fp)
  {
    if fp !in s.st.fixtures {
      NoRecordNoLease(s.st, s.grants, fp);
    }
    BoundEffect(s.st, eff, Commits(s.instances, fp), fp);
  }

  lemma BoundStep(digest: Digest, s: Sys, e: Event, fp: Fingerprint)
    requires LeasesOk(s.st, s.grants) && SlotsOk(s.st)
    requires PluginsOk(s.flights, s.connected, s.killed, s.instances.Keys)
    requires StaleBounded(s.st, Commits(s.instances, fp), fp) && SharingAgrees(s, fp)
    ensures var t := Apply(digest, s, e); StaleBounded(t.st, Commits(t.instances, fp), fp)
  {
    EffectCorrect(digest, s, e);
    CommitsFrame(digest, s, e, fp);
    InstallSharing(digest, s, e, fp);
    BoundFromEffect(s, Apply(digest, s, e), EffectOf(digest, s, e), fp);
  }

  lemma ProvisionedGrows(digest: Digest, s: Sys, e: Event)
    ensures s.provisioned <= Apply(digest, s, e).provisioned
  {
  }

  lemma {:induction false} ProvisionedGrowsFrom(digest: Digest, s: Sys, es: seq<Event>)
    ensures s.provisioned <= RunFrom(digest, s, es).provisioned
    decreases |es|
  {
    if es != [] {
      ProvisionedGrows(digest, s, es[0]);
      ProvisionedGrowsFrom(digest, Apply(digest, s, es[0]), es[1..]);
    }
  }

  lemma {:induction false} BoundRun(digest: Digest, s: Sys, es: seq<Event>, fp: Fingerprint)
    requires Inv(digest, s) && StaleBounded(s.st, Commits(s.instances, fp), fp)
    requires CollisionFree(digest, RunFrom(digest, s, es).provisioned)
    ensures var t := RunFrom(digest, s, es); StaleBounded(t.st, Commits(t.instances, fp), fp)
    decreases |es|
  {
    if es != [] {
      ProvisionedGrowsFrom(digest, s, es);
      StepKeeps(digest, s, es[0]);
      SharingAlwaysAgrees(digest, s, fp);
      BoundStep(digest, s, es[0], fp);
      BoundRun(digest, Apply(digest, s, es[0]), es[1..], fp);
    }
  }

  lemma ReachableBounded(digest: Digest, s: Sys, fp: Fingerprint)
    requires Reachable(digest, s) && CollisionFree(digest, s.provisioned)
    ensures StaleBounded(s.st, Commits(s.instances, fp), fp)
  {
    var es :| s == Run(digest, es);
    InitInv(digest);
    BoundRun(digest, INIT, es, fp);
  }

  lemma LiveBounded(st: State, commits: nat, fp: Fingerprint)
    requires SlotsOk(st) && StaleBounded(st, commits, fp) && fp in st.fixtures
    ensures Live(st, fp) <= Slots(st.fixtures[fp].sharing) * commits
  {
    assert Live(st, fp) <= Capacity(st.fixtures[fp].sharing, commits);
    CapacityIsProduct(st.fixtures[fp].sharing, commits);
  }

  lemma RecordBound(digest: Digest, s: Sys, fp: Fingerprint)
    requires Reachable(digest, s) && CollisionFree(digest, s.provisioned) && fp in s.st.fixtures
    ensures Live(s.st, fp) <= Slots(s.st.fixtures[fp].sharing) * Commits(s.instances, fp)
  {
    ReachableInv(digest, s);
    ReachableBounded(digest, s, fp);
    LiveBounded(s.st, Commits(s.instances, fp), fp);
  }

  lemma BoundInWords(slots: int, sharing: Option<Sharing>, commits: nat, live: nat)
    requires slots == if sharing.Some? then Max(1, sharing.value.maximumConcurrentConnections) else 1
    requires live <= slots * commits
    ensures live <= commits || (sharing.Some? && live <= sharing.value.maximumConcurrentConnections * commits)
  {
  }

  /** Live leases on a fingerprint never exceed max(1, maximum) times the commits
      made for it, the maximum being the one its instance's description asks for,
      provided the digest does not collide on what was provisioned. */
  lemma LeaseBound(digest: Digest, s: Sys, fp: Fingerprint)
    requires Reachable(digest, s) && CollisionFree(digest, s.provisioned)
    ensures fp in s.st.fixtures ==>
              var p, commits := s.st.fixtures[fp].plugin, |set q | q in s.instances && s.instances[q].fp == fp|;
              && p in s.instances
              && var sharing := s.instances[p].desc.sharing;
              || Live(s.st, fp) <= commits
              || (sharing.Some? && Live(s.st, fp) <= sharing.value.maximumConcurrentConnections * commits)
    ensures fp !in s.st.fixtures ==> Live(s.st, fp) == 0
  {
    SlotBounds(digest, s, fp);
    if fp in s.st.fixtures {
      RecordBound(digest, s, fp);
      RecordedPolicy(digest, s, fp);
      assert InstancesOf(s.instances, fp) == set q | q in s.instances && s.instances[q].fp == fp;
      BoundInWords(Slots(s.st.fixtures[fp].sharing), s.instances[s.st.fixtures[fp].plugin].desc.sharing,
                   Commits(s.instances, fp), Live(s.st, fp));
    }
  }

  // ---------------------------------------------------- runs without replacement

  lemma FirstCommit(st: State, killed: set<ProcessId>, instances: Instances, fp: Fingerprint)
    requires RecordsOk(st, killed, instances) && fp in st.fixtures
    ensures Commits(instances, fp) >= 1
  {
    assert RecordOk(fp, st.fixtures[fp], killed, instances);
  }

  lemma ExactStep(digest: Digest, s: Sys, e: Event, fp: Fingerprint)
    requires Inv(digest, s)
    requires Commits(Apply(digest, s, e).instances, fp) <= 1
    requires Used(s.st, fp) == Live(s.st, fp)
    ensures var t := Apply(digest, s, e).st; Used(t, fp) == Live(t, fp)
  {
    EffectCorrect(digest, s, e);
    CommitsFrame(digest, s, e, fp);
    if fp in s.st.fixtures {
      FirstCommit(s.st, s.killed, s.instances, fp);
    }
    ExactEffect(s.st, EffectOf(digest, s, e), fp);
  }

  lemma {:induction false} CommitsGrow(digest: Digest, s: Sys, es: seq<Event>, fp: Fingerprint)
    requires Inv(digest, s)
    ensures Commits(s.instances, fp) <= Commits(RunFrom(digest, s, es).instances, fp)
    decreases |es|
  {
    if es != [] {
      StepKeeps(digest, s, es[0]);
      CommitsFrame(digest, s, es[0], fp);
      CommitsGrow(digest, Apply(digest, s, es[0]), es[1..], fp);
    }
  }

  lemma {:induction false} ExactRun(digest: Digest, s: Sys, es: seq<Event>, fp: Fingerprint)
    requires Inv(digest, s) && Used(s.st, fp) == Live(s.st, fp)
    requires Commits(RunFrom(digest, s, es).instances, fp) <= 1
    ensures var t := RunFrom(digest, s, es).st; Used(t, fp) == Live(t, fp)
    decreases |es|
  {
    if es != [] {
      var next := Apply(digest, s, es[0]);
      StepKeeps(digest, s, es[0]);
      CommitsGrow(digest, next, es[1..], fp);
      ExactStep(digest, s, es[0], fp);
      ExactRun(digest, next, es[1..], fp);
    }
  }

  /** In a run that never replaces the record of `fp`, the counter is exact. */
  lemma ExactWithoutReplacement(digest: Digest, s: Sys, fp: Fingerprint)
    requires Reachable(digest, s) && Commits(s.instances, fp) <= 1
    ensures Used(s.st, fp) == Live(s.st, fp)
  {
    var es :| s == Run(digest, es);
    InitInv(digest);
    NoRecordNoLease(INIT.st, INIT.grants, fp);
    ExactRun(digest, INIT, es, fp);
  }

  // -------------------------------------------------------- draining and reuse

  /** Once no lease is left on a fingerprint, whatever was replaced before, every
      slot is free, and the next request for it that the policy lets in attaches at
      once: it never enters the window. */
  lemma DrainThenReuse(digest: Digest, s: Sys, fp: Fingerprint, r: nat, req: TakeLeaseRequest, file: Option<Bytes>, id: LeaseId)
    requires Reachable(digest, s) && fp in s.st.fixtures
    requires forall x :: x in s.st.leases ==> s.st.leases[x] != fp
    requires Fresh(s, r, id) && Asks(digest, req, file, fp)
    ensures s.st.fixtures[fp].usedSlots == 0
    ensures var p, t := s.st.fixtures[fp].plugin, Apply(digest, s, Arrive(r, req, file, id));
            p in s.instances && (LetsIn(s.instances[p], req.clientId) ==> Reused(s, t, r, req.clientId, fp, id))
  {
    assert LeasesOn(s.st, fp) == {};
    SlotBounds(digest, s, fp);
    RecordedPolicy(digest, s, fp);
    ReuseRule(digest, s, r, req, file, id, fp);
  }

  lemma ReleasedAllOn(st: State, fp: Fingerprint, ids: seq<LeaseId>)
    requires forall id :: id in LeasesOn(st, fp) ==> id in ids
    ensures |Released(st, (set id | id in ids), fp)| == Live(st, fp)
    ensures Live(ReleaseSet(st, (set id | id in ids)), fp) == 0
  {
    var all := set id | id in ids;
    assert Released(st, all, fp) == LeasesOn(st, fp);
    assert LeasesOn(ReleaseSet(st, all), fp) == {};
  }

  function ReleaseEvents(ids: seq<LeaseId>): seq<Event> {
    if ids == [] then [] else [ReleaseLease(ids[0])] + ReleaseEvents(ids[1..])
  }

  lemma {:induction false} ReleaseRun(digest: Digest, s: Sys, ids: seq<LeaseId>)
    ensures RunFrom(digest, s, ReleaseEvents(ids)) == s.(st := ReleaseAll(s.st, ids))
    decreases |ids|
  {
    if ids != [] {
      var next := Apply(digest, s, ReleaseLease(ids[0]));
      assert ReleaseEvents(ids)[1..] == ReleaseEvents(ids[1..]);
      ReleaseRun(digest, next, ids[1..]);
    }
  }

  /** A run that releases every live lease of a fingerprint, in any order and
      among any other ids, leaves no lease on it and its counter at zero. */
  lemma ReleasingAllDrains(digest: Digest, s: Sys, fp: Fingerprint, ids: seq<LeaseId>)
    requires Reachable(digest, s) && fp in s.st.fixtures
    requires forall id :: id in s.st.leases && s.st.leases[id] == fp ==> id in ids
    ensures var t := RunFrom(digest, s, ReleaseEvents(ids));
            && Reachable(digest, t)
            && fp in t.st.fixtures && t.st.fixtures[fp].usedSlots == 0
            && forall id :: id in t.st.leases ==> t.st.leases[id] != fp
  {
    SlotBounds(digest, s, fp);
    ReleaseRun(digest, s, ids);
    ReachableRun(digest, s, ReleaseEvents(ids));
    ReleaseAllIsReleaseSet(s.st, ids);
    ReleasedAllOn(s.st, fp, ids);
    var t := ReleaseAll(s.st, ids);
    assert forall id :: id in t.leases && t.leases[id] == fp ==> id in LeasesOn(t, fp);
  }
}
