/** The coordinator's two maps and what each locked region does to them
    (src/coordinator/src/coordinator.rs). The functions give each region's
    meaning on a value; the class updates the maps in place. */
module Store {
  import opened Base
  import opened Messages
  import opened Fingerprint
  import opened PluginClient

  type LeaseId = Str

  /** One connected plugin process. */
  type ProcessId = nat

  datatype FixtureRecord = FixtureRecord(
    outputs: Outputs,
    sharing: Sharing,
    creatingClientId: Str,
    usedSlots: int64,
    plugin: ProcessId)

  datatype State = State(
    fixtures: map<Fingerprint, FixtureRecord>,
    leases: map<LeaseId, Fingerprint>)

  const EMPTY := State(map[], map[])

  datatype TakeLeaseRequest = TakeLeaseRequest(fixture: Option<FixtureDescription>, clientId: Str)

  // ---------------------------------------------------------------- policies

  predicate SharingAdmits(sharing: Sharing, creator: Str, requester: Str) {
    match sharing.useScope
    case Some(Unrestricted) => true
    case Some(ClientRestricted) => creator == requester
    case None => creator == requester
    case Some(SingleUse) => false
  }

  /** The slots of a fixture: at least one, whatever the policy says. */
  function Slots(sharing: Sharing): int64 {
    Max(1, sharing.maximumConcurrentConnections)
  }

  /** Whether a record takes another lease of a client: a slot is free, of which
      there is at least one, and the scope lets the client in. An unset scope is
      that of the creating client. */
  ghost predicate TakesAnother(record: FixtureRecord, client: Str) {
    && (record.usedSlots < 1 || record.usedSlots < record.sharing.maximumConcurrentConnections)
    && (record.sharing.useScope == Some(Unrestricted) ||
        (record.sharing.useScope != Some(SingleUse) && client == record.creatingClientId))
  }

  lemma TakesAnotherExact(s: State, fp: Fingerprint, client: Str)
    ensures CanAttach(s, fp, client) <==> fp in s.fixtures && TakesAnother(s.fixtures[fp], client)
  {
  }

  /** The policy recorded for a description that gives none. */
  function EffectiveSharing(desc: FixtureDescription): Sharing {
    if desc.sharing.Some? then desc.sharing.value else Sharing(Some(ClientRestricted), 1)
  }

  /** The checks before any state is touched: a description with a binary
      plugin whose file can be read has a fingerprint. */
  function Admit(digest: Digest, req: TakeLeaseRequest, file: Option<Bytes>): (r: Result<Fingerprint, Code>)
    ensures r.Ok? ==> req.fixture.Some? && file.Some? && Compute(digest, req.fixture.value, file) == Some(r.value)
  {
    if req.fixture.None? || req.fixture.value.plugin.None? then Err(InvalidArgument)
    else if req.fixture.value.plugin.value.ContainerRef? then Err(Unimplemented)
    else
      match Compute(digest, req.fixture.value, file)
      case None => Err(Internal)
      case Some(fp) => Ok(fp)
  }

  /** The request can be admitted: it describes a fixture with a binary plugin
      whose file was read. */
  ghost predicate Admissible(req: TakeLeaseRequest, file: Option<Bytes>) {
    && req.fixture.Some? && req.fixture.value.plugin.Some? && req.fixture.value.plugin.value.BinaryPath?
    && file.Some?
  }

  /** The request can be admitted, and this is the fingerprint it asks for. */
  ghost predicate Asks(digest: Digest, req: TakeLeaseRequest, file: Option<Bytes>, fp: Fingerprint) {
    Admissible(req, file) && fp == Identity(digest, req.fixture.value, file.value)
  }

  /** The code a request is refused with before any state is touched. */
  ghost predicate RefusedWith(req: TakeLeaseRequest, file: Option<Bytes>, code: Code) {
    match req.fixture
    case None => code == InvalidArgument
    case Some(desc) =>
      match desc.plugin
      case None => code == InvalidArgument
      case Some(ContainerRef(_)) => code == Unimplemented
      case Some(BinaryPath(_)) => file.None? && code == Internal
  }

  /** Admission is exact: a request is admitted under one fingerprint, or refused
      with one code, and which of the two its fields say. */
  lemma AdmitExact(digest: Digest, req: TakeLeaseRequest, file: Option<Bytes>)
    ensures forall fp :: Admit(digest, req, file) == Ok(fp) <==> Asks(digest, req, file, fp)
    ensures forall code :: Admit(digest, req, file) == Err(code) <==> RefusedWith(req, file, code)
  {
    if req.fixture.Some? && HasBinary(req.fixture.value) {
      ComputeExact(digest, req.fixture.value, file);
    }
  }

  // ----------------------------------------------------------- locked regions

  predicate CanAttach(s: State, fp: Fingerprint, client: Str) {
    && fp in s.fixtures
    && SharingAdmits(s.fixtures[fp].sharing, s.fixtures[fp].creatingClientId, client)
    && s.fixtures[fp].usedSlots < Slots(s.fixtures[fp].sharing)
  }

  function Attach(s: State, fp: Fingerprint, id: LeaseId): State
    requires fp in s.fixtures && s.fixtures[fp].usedSlots < Slots(s.fixtures[fp].sharing)
  {
    var record := s.fixtures[fp];
    State(s.fixtures[fp := record.(usedSlots := record.usedSlots + 1)], s.leases[id := fp])
  }

  function Provisioned(desc: FixtureDescription, client: Str, outputs: Outputs, plugin: ProcessId): FixtureRecord {
    FixtureRecord(outputs, EffectiveSharing(desc), client, 1, plugin)
  }

  function Install(s: State, fp: Fingerprint, record: FixtureRecord, id: LeaseId): State {
    State(s.fixtures[fp := record], s.leases[id := fp])
  }

  function Free(record: FixtureRecord): FixtureRecord {
    record.(usedSlots := Max(record.usedSlots - 1, 0))
  }

  function Release(s: State, id: LeaseId): State {
    if id !in s.leases then s
    else
      var fp := s.leases[id];
      State(if fp in s.fixtures then s.fixtures[fp := Free(s.fixtures[fp])] else s.fixtures, s.leases - {id})
  }

  // -------------------------------------------------- the same, updated in place

  /** What the unlocked provisioning window came to. */
  datatype Provision = SpawnFailed | DescribeFailed | Progressed(plugin: ProcessId, stream: seq<StreamItem>)

  class Coordinator {
    var fixtures: map<Fingerprint, FixtureRecord>
    var leases: map<LeaseId, Fingerprint>

    ghost function Snapshot(): State
      reads this
    {
      State(fixtures, leases)
    }

    constructor ()
      ensures Snapshot() == EMPTY
    {
      fixtures, leases := map[], map[];
    }

    method TryReuse(fp: Fingerprint, client: Str, id: LeaseId) returns (outputs: Option<Outputs>)
      requires id !in leases
      modifies this
      ensures outputs.Some? <==> old(fp in fixtures && TakesAnother(fixtures[fp], client))
      ensures outputs.None? ==> fixtures == old(fixtures) && leases == old(leases)
      ensures outputs.Some? ==>
                && outputs.value == old(fixtures[fp].outputs)
                && fixtures == old(fixtures[fp := fixtures[fp].(usedSlots := fixtures[fp].usedSlots + 1)])
                && leases == old(leases)[id := fp]
      ensures old(CanAttach(Snapshot(), fp, client)) ==> Snapshot() == Attach(old(Snapshot()), fp, id)
    {
      if fp in fixtures {
        var record := fixtures[fp];
        var maxSlots := Max(record.sharing.maximumConcurrentConnections, 1);
        if SharingAdmits(record.sharing, record.creatingClientId, client) && record.usedSlots < maxSlots {
          fixtures := fixtures[fp := record.(usedSlots := record.usedSlots + 1)];
          leases := leases[id := fp];
          return Some(record.outputs);
        }
      }
      return None;
    }

    method Commit(fp: Fingerprint, record: FixtureRecord, id: LeaseId)
      requires id !in leases
      modifies this
      ensures fixtures == old(fixtures)[fp := record] && leases == old(leases)[id := fp]
      ensures Snapshot() == Install(old(Snapshot()), fp, record, id)
    {
      fixtures := fixtures[fp := record];
      leases := leases[id := fp];
    }

    /** A whole call that nothing else interleaves with. */
    method TakeLease(digest: Digest, req: TakeLeaseRequest, file: Option<Bytes>, id: LeaseId, provision: Provision)
      returns (r: Result<Outputs, Code>)
      requires id !in leases
      modifies this
      ensures r.Err? ==> fixtures == old(fixtures) && leases == old(leases)
      ensures !Admissible(req, file) ==> r.Err? && RefusedWith(req, file, r.error)
      ensures Admissible(req, file) ==>
                var fp := Identity(digest, req.fixture.value, file.value);
                if old(fp in fixtures && TakesAnother(fixtures[fp], req.clientId)) then
                  && r == Ok(old(fixtures[fp].outputs))
                  && fixtures == old(fixtures[fp := fixtures[fp].(usedSlots := fixtures[fp].usedSlots + 1)])
                  && leases == old(leases)[id := fp]
                else
                  && (r.Ok? <==> provision.Progressed? && Drain(provision.stream).Ok?)
                  && (r.Err? ==> r.error == Internal)
                  && (r.Ok? ==>
                        && r.value == Drain(provision.stream).value.outputs
                        && fixtures == old(fixtures)[fp :=
                             FixtureRecord(r.value,
                                           (match req.fixture.value.sharing
                                            case Some(policy) => policy
                                            case None => Sharing(Some(ClientRestricted), 1)),
                                           req.clientId, 1, provision.plugin)]
                        && leases == old(leases)[id := fp])
    {
      AdmitExact(digest, req, file);
      var admitted := Admit(digest, req, file);
      if admitted.Err? {
        return Err(admitted.error);
      }
      var fp := admitted.value;
      var reused := TryReuse(fp, req.clientId, id);
      if reused.Some? {
        return Ok(reused.value);
      }
      if !provision.Progressed? {
        return Err(Internal);
      }
      var created := CreateFixture(provision.stream);
      if created.Err? {
        return Err(Internal);
      }
      var outputs := created.value.outputs;
      Commit(fp, Provisioned(req.fixture.value, req.clientId, outputs, provision.plugin), id);
      return Ok(outputs);
    }

    method ReleaseLease(id: LeaseId)
      modifies this
      ensures leases == old(leases) - {id}
      ensures id in old(leases) && old(leases)[id] in old(fixtures) ==>
                var fp := old(leases)[id];
                var was := old(fixtures)[fp];
                fixtures == old(fixtures)[fp := was.(usedSlots := if was.usedSlots <= 1 then 0 else was.usedSlots - 1)]
      ensures !(id in old(leases) && old(leases)[id] in old(fixtures)) ==> fixtures == old(fixtures)
      ensures Snapshot() == Release(old(Snapshot()), id)
    {
      if id in leases {
        var fp := leases[id];
        leases := leases - {id};
        if fp in fixtures {
          var record := fixtures[fp];
          fixtures := fixtures[fp := record.(usedSlots := Max(record.usedSlots - 1, 0))];
        }
      }
    }

    method Keepalive(id: LeaseId) returns (r: Result<bool, Code>)
      ensures r.Ok? <==> id in leases
      ensures r.Err? ==> r.error == NotFound
    {
      if id !in leases {
        return Err(NotFound);
      }
      return Ok(true);
    }

    method Status(id: LeaseId) returns (r: Result<Outputs, Code>)
      ensures id !in leases ==> r == Err(NotFound)
      ensures id in leases ==> r == Ok(if leases[id] in fixtures then fixtures[leases[id]].outputs else map[])
    {
      if id !in leases {
        return Err(NotFound);
      }
      var fp := leases[id];
      return Ok(if fp in fixtures then fixtures[fp].outputs else map[]);
    }
  }

  /** The outputs Status reports, with its empty fallback. */
  function StatusOutputs(s: State, id: LeaseId): Outputs
    requires id in s.leases
  {
    if s.leases[id] in s.fixtures then s.fixtures[s.leases[id]].outputs else map[]
  }

  // ------------------------------------------------------------ slot accounting

  function LeasesOn(s: State, fp: Fingerprint): set<LeaseId> {
    set id | id in s.leases && s.leases[id] == fp
  }

  /** The live leases on a fingerprint. */
  function Live(s: State, fp: Fingerprint): nat {
    |LeasesOn(s, fp)|
  }

  function Used(s: State, fp: Fingerprint): int {
    if fp in s.fixtures then s.fixtures[fp].usedSlots else 0
  }

  /** The live leases the record on a fingerprint does not account for. */
  function Stale(s: State, fp: Fingerprint): int {
    Live(s, fp) - Used(s, fp)
  }

  lemma LiveAfterGrant(s: State, t: State, id: LeaseId, on: Fingerprint, fp: Fingerprint)
    requires id !in s.leases && t.leases == s.leases[id := on]
    ensures Live(t, fp) == Live(s, fp) + if fp == on then 1 else 0
  {
    if fp == on {
      assert LeasesOn(t, fp) == LeasesOn(s, fp) + {id};
    } else {
      assert LeasesOn(t, fp) == LeasesOn(s, fp);
    }
  }

  lemma LiveAfterRelease(s: State, id: LeaseId, fp: Fingerprint)
    ensures Live(Release(s, id), fp) == Live(s, fp) - if id in LeasesOn(s, fp) then 1 else 0
  {
    assert LeasesOn(Release(s, id), fp) == LeasesOn(s, fp) - {id};
  }

  lemma StaleAfterAttach(s: State, on: Fingerprint, id: LeaseId, fp: Fingerprint)
    requires on in s.fixtures && s.fixtures[on].usedSlots < Slots(s.fixtures[on].sharing)
    requires id !in s.leases
    ensures Stale(Attach(s, on, id), fp) == Stale(s, fp)
  {
    LiveAfterGrant(s, Attach(s, on, id), id, on, fp);
  }

  lemma StaleAfterInstall(s: State, on: Fingerprint, record: FixtureRecord, id: LeaseId, fp: Fingerprint)
    requires id !in s.leases && record.usedSlots == 1
    ensures Stale(Install(s, on, record, id), fp) == if fp == on then Live(s, fp) else Stale(s, fp)
  {
    LiveAfterGrant(s, Install(s, on, record, id), id, on, fp);
  }

  /** A release on which the slot counter is already exhausted. */
  predicate Saturates(s: State, id: LeaseId, fp: Fingerprint) {
    id in s.leases && s.leases[id] == fp && Used(s, fp) <= 0
  }

  lemma StaleAfterRelease(s: State, id: LeaseId, fp: Fingerprint)
    requires Used(s, fp) >= 0
    ensures Stale(Release(s, id), fp) == Stale(s, fp) - if Saturates(s, id, fp) then 1 else 0
  {
    LiveAfterRelease(s, id, fp);
  }

  // -------------------------------------------------------------------- releases

  function ReleaseAll(s: State, ids: seq<LeaseId>): State
    decreases |ids|
  {
    if ids == [] then s else ReleaseAll(Release(s, ids[0]), ids[1..])
  }

  function Released(s: State, ids: set<LeaseId>, fp: Fingerprint): set<LeaseId> {
    set id | id in ids && id in s.leases && s.leases[id] == fp
  }

  function Freed(used: int64, k: nat): int64 {
    if k == 0 then used else Max(used - k, 0)
  }

  function RecordAfter(s: State, ids: set<LeaseId>, fp: Fingerprint): FixtureRecord
    requires fp in s.fixtures
  {
    s.fixtures[fp].(usedSlots := Freed(s.fixtures[fp].usedSlots, |Released(s, ids, fp)|))
  }

  /** The effect of releasing a set of ids, with no order in sight: each distinct
      live lease gives back one slot, and the counter stops at zero. */
  function ReleaseSet(s: State, ids: set<LeaseId>): State {
    State(map fp | fp in s.fixtures :: RecordAfter(s, ids, fp), s.leases - ids)
  }

  predicate IsOn(s: State, id: LeaseId, fp: Fingerprint) {
    id in s.leases && s.leases[id] == fp
  }

  lemma ReleasedStep(s: State, x: LeaseId, ids: set<LeaseId>, fp: Fingerprint)
    ensures |Released(s, ids + {x}, fp)| == |Released(Release(s, x), ids, fp)| + if IsOn(s, x, fp) then 1 else 0
  {
    var before, after := Released(s, ids + {x}, fp), Released(Release(s, x), ids, fp);
    assert after == before - {x};
    assert x in before <==> IsOn(s, x, fp);
  }

  lemma RecordStep(s: State, x: LeaseId, ids: set<LeaseId>, fp: Fingerprint)
    requires fp in s.fixtures
    ensures RecordAfter(Release(s, x), ids, fp) == RecordAfter(s, ids + {x}, fp)
  {
    ReleasedStep(s, x, ids, fp);
    assert Release(s, x).fixtures[fp] == if IsOn(s, x, fp) then Free(s.fixtures[fp]) else s.fixtures[fp];
  }

  lemma ReleaseSetStep(s: State, x: LeaseId, ids: set<LeaseId>)
    ensures ReleaseSet(Release(s, x), ids) == ReleaseSet(s, ids + {x})
  {
    assert Release(s, x).leases - ids == s.leases - (ids + {x});
    assert Release(s, x).fixtures.Keys == s.fixtures.Keys;
    forall fp | fp in s.fixtures ensures RecordAfter(Release(s, x), ids, fp) == RecordAfter(s, ids + {x}, fp) {
      RecordStep(s, x, ids, fp);
    }
    assert ReleaseSet(Release(s, x), ids).fixtures == ReleaseSet(s, ids + {x}).fixtures;
  }

  /** Any sequence of releases, with repeats and unknown ids, amounts to
      releasing the set of its ids. */
  lemma {:induction false} ReleaseAllIsReleaseSet(s: State, ids: seq<LeaseId>)
    ensures ReleaseAll(s, ids) == ReleaseSet(s, set id | id in ids)
    decreases |ids|
  {
    var all := set id | id in ids;
    if ids == [] {
      assert all == {};
      forall fp | fp in s.fixtures ensures ReleaseSet(s, all).fixtures[fp] == s.fixtures[fp] {
        assert Released(s, all, fp) == {};
      }
      assert ReleaseSet(s, all).fixtures == s.fixtures;
      assert ReleaseSet(s, all).leases == s.leases;
    } else {
      var rest := set id | id in ids[1..];
      assert all == rest + {ids[0]};
      ReleaseAllIsReleaseSet(Release(s, ids[0]), ids[1..]);
      ReleaseSetStep(s, ids[0], rest);
    }
  }

  lemma ReleaseOrderIndependent(s: State, xs: seq<LeaseId>, ys: seq<LeaseId>)
    requires forall id :: id in xs <==> id in ys
    ensures ReleaseAll(s, xs) == ReleaseAll(s, ys)
  {
    ReleaseAllIsReleaseSet(s, xs);
    ReleaseAllIsReleaseSet(s, ys);
    assert (set id | id in xs) == (set id | id in ys);
  }

  /** Giving back a lease just obtained by reuse restores the exact prior state. */
  lemma AttachThenRelease(s: State, fp: Fingerprint, client: Str, id: LeaseId)
    requires CanAttach(s, fp, client) && s.fixtures[fp].usedSlots >= 0 && id !in s.leases
    ensures Release(Attach(s, fp, id), id) == s
  {
    var t := Attach(s, fp, id);
    assert Free(t.fixtures[fp]) == s.fixtures[fp];
    assert Release(t, id).fixtures == s.fixtures;
    assert Release(t, id).leases == s.leases;
  }
}
