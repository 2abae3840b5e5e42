/** What each step of the coordinator does, from the state it starts in and with
    nothing assumed of other requests: the whole new state, the guard in full, and
    the policy in the terms of the request that declared it. */
module Steps {
  import opened Base
  import opened Messages
  import opened Fingerprint
  import opened PluginClient
  import opened Store
  import opened Protocol
  import opened Invariants

  // ----------------------------------------------------------------- policies

  /** One of the instance's slots is free: there is always one, and as many as its
      description asks for. */
  ghost predicate SlotFree(i: Instance, used: int) {
    used < 1 || (i.desc.sharing.Some? && used < i.desc.sharing.value.maximumConcurrentConnections)
  }

  /** The description's scope lets the client in: anyone if unrestricted, nobody
      if single-use, and the creator otherwise, also without a policy. */
  ghost predicate LetsIn(i: Instance, client: Str) {
    match i.desc.sharing
    case None => client == i.creator
    case Some(policy) =>
      match policy.useScope
      case Some(Unrestricted) => true
      case Some(SingleUse) => false
      case Some(ClientRestricted) => client == i.creator
      case None => client == i.creator
  }

  /** A record is the latest instance of its fingerprint, with that instance's
      outputs and creator and the policy its description declares. */
  lemma RecordedPolicy(digest: Digest, s: Sys, fp: Fingerprint)
    requires Reachable(digest, s) && fp in s.st.fixtures
    ensures var record := s.st.fixtures[fp];
            && record.plugin in s.instances && record.plugin !in s.killed
            && var i := s.instances[record.plugin];
            && i.fp == fp
            && record.outputs == i.outputs
            && record.creatingClientId == i.creator
            && (i.desc.sharing.Some? ==> record.sharing == i.desc.sharing.value)
            && (i.desc.sharing.None? ==> record.sharing == Sharing(Some(ClientRestricted), 1))
  {
    ReachableInv(digest, s);
    assert RecordOk(fp, s.st.fixtures[fp], s.killed, s.instances);
  }

  lemma PolicyExact(record: FixtureRecord, i: Instance, client: Str)
    requires record.creatingClientId == i.creator
    requires i.desc.sharing.Some? ==> record.sharing == i.desc.sharing.value
    requires i.desc.sharing.None? ==> record.sharing == Sharing(Some(ClientRestricted), 1)
    ensures TakesAnother(record, client) <==> SlotFree(i, record.usedSlots) && LetsIn(i, client)
  {
  }

  // ----------------------------------------------------------------- arriving

  /** A request nobody has used the name of, and a fresh lease id for it. */
  ghost predicate Fresh(s: Sys, r: nat, id: LeaseId) {
    r !in s.flights && r !in s.replies && id !in s.grants
  }

  /** A request that cannot be admitted is refused with its code, and that is all. */
  lemma Refusal(digest: Digest, s: Sys, r: nat, req: TakeLeaseRequest, file: Option<Bytes>, id: LeaseId, code: Code)
    requires Fresh(s, r, id) && RefusedWith(req, file, code)
    ensures Apply(digest, s, Arrive(r, req, file, id)) == s.(replies := s.replies[r := Refused(code)])
  {
    AdmitExact(digest, req, file);
  }

  /** The request holds one more slot of the recorded instance, with its outputs. */
  ghost predicate Reused(s: Sys, t: Sys, r: nat, client: Str, fp: Fingerprint, id: LeaseId) {
    && fp in s.st.fixtures
    && var record := s.st.fixtures[fp];
    && record.usedSlots < 0x7fff_ffff_ffff_ffff
    && t == s.(st := State(s.st.fixtures[fp := record.(usedSlots := record.usedSlots + 1)], s.st.leases[id := fp]),
               grants := s.grants[id := Grant(r, client, fp, record.plugin, record.outputs)],
               replies := s.replies[r := Granted(id, record.outputs)])
  }

  /** The request is in the window, with what it asked for, and no map has moved. */
  ghost predicate Waits(s: Sys, t: Sys, r: nat, f: Flight) {
    t == s.(flights := s.flights[r := f], provisioned := s.provisioned + {(f.desc, f.contents)})
  }

  lemma AdmittedStep(s: Sys, r: nat, fp: Fingerprint, desc: FixtureDescription, contents: Bytes, client: Str, id: LeaseId)
    ensures var t := DoAdmitted(s, r, fp, desc, contents, client, id);
            if fp in s.st.fixtures && TakesAnother(s.st.fixtures[fp], client)
            then Reused(s, t, r, client, fp, id)
            else Waits(s, t, r, Flight(fp, desc, contents, client, Spawning))
  {
    TakesAnotherExact(s.st, fp, client);
  }

  lemma ArrivalStep(digest: Digest, s: Sys, r: nat, req: TakeLeaseRequest, file: Option<Bytes>, id: LeaseId, fp: Fingerprint)
    requires Fresh(s, r, id) && Asks(digest, req, file, fp)
    ensures var t := Apply(digest, s, Arrive(r, req, file, id));
            if fp in s.st.fixtures && TakesAnother(s.st.fixtures[fp], req.clientId)
            then Reused(s, t, r, req.clientId, fp, id)
            else Waits(s, t, r, Flight(fp, req.fixture.value, file.value, req.clientId, Spawning))
  {
    AdmitExact(digest, req, file);
    AdmittedStep(s, r, fp, req.fixture.value, file.value, req.clientId, id);
  }

  /** An admitted request is answered on arrival exactly when its fingerprint has
      a record whose instance, by the description that created it, has a slot free
      and lets the client in. Otherwise it enters the window. */
  lemma ReuseRule(digest: Digest, s: Sys, r: nat, req: TakeLeaseRequest, file: Option<Bytes>, id: LeaseId, fp: Fingerprint)
    requires Reachable(digest, s) && Fresh(s, r, id) && Asks(digest, req, file, fp)
    ensures var t := Apply(digest, s, Arrive(r, req, file, id));
            if && fp in s.st.fixtures && s.st.fixtures[fp].plugin in s.instances
               && var i := s.instances[s.st.fixtures[fp].plugin];
               SlotFree(i, s.st.fixtures[fp].usedSlots) && LetsIn(i, req.clientId)
            then Reused(s, t, r, req.clientId, fp, id)
            else Waits(s, t, r, Flight(fp, req.fixture.value, file.value, req.clientId, Spawning))
  {
    ArrivalStep(digest, s, r, req, file, id, fp);
    if fp in s.st.fixtures {
      RecordedPolicy(digest, s, fp);
      PolicyExact(s.st.fixtures[fp], s.instances[s.st.fixtures[fp].plugin], req.clientId);
    }
  }

  // --------------------------------------------------------------- the window

  /** A plugin that connects, and then describes itself, moves its own request on
      and nothing else, whoever else is in the window. */
  lemma WindowMoves(digest: Digest, s: Sys, r: nat, p: ProcessId)
    requires r in s.flights
    ensures s.flights[r].phase.Spawning? && p !in s.connected ==>
              Apply(digest, s, SpawnOk(r, p)) ==
                s.(flights := s.flights[r := s.flights[r].(phase := Connected(p))], connected := s.connected + {p})
    ensures s.flights[r].phase == Connected(p) ==>
              Apply(digest, s, DescribeOk(r)) == s.(flights := s.flights[r := s.flights[r].(phase := Phase.Described(p))])
  {
  }

  /** The request is gone and answered with an error, and so is the process it
      held. Both maps are as they were. */
  ghost predicate Abandoned(s: Sys, t: Sys, r: nat)
    requires r in s.flights
  {
    var own := if s.flights[r].phase.Spawning? then {} else {s.flights[r].phase.plugin};
    t == s.(flights := s.flights - {r}, killed := s.killed + own, replies := s.replies[r := Refused(Internal)])
  }

  /** The request is gone and granted, its record and lease are in place, and the
      process of a record it replaced is killed. */
  ghost predicate Committed(s: Sys, t: Sys, r: nat, id: LeaseId, outputs: Outputs)
    requires r in s.flights && s.flights[r].phase.Described?
  {
    var f, p := s.flights[r], s.flights[r].phase.plugin;
    var policy := match f.desc.sharing case Some(policy) => policy case None => Sharing(Some(ClientRestricted), 1);
    var replaced := if f.fp in s.st.fixtures then {s.st.fixtures[f.fp].plugin} else {};
    var earlier := |set q | q in s.instances && s.instances[q].fp == f.fp|;
    t == s.(st := State(s.st.fixtures[f.fp := FixtureRecord(outputs, policy, f.client, 1, p)], s.st.leases[id := f.fp]),
            flights := s.flights - {r},
            killed := s.killed + replaced,
            instances := s.instances[p := Instance(f.fp, f.desc, f.contents, f.client, outputs, earlier)],
            grants := s.grants[id := Grant(r, f.client, f.fp, p, outputs)],
            replies := s.replies[r := Granted(id, outputs)])
  }

  lemma CommitStep(s: Sys, r: nat, id: LeaseId, outputs: Outputs)
    requires r in s.flights && s.flights[r].phase.Described?
    ensures Committed(s, DoCommit(s, r, outputs, id), r, id, outputs)
  {
    var fp := s.flights[r].fp;
    assert InstancesOf(s.instances, fp) == set q | q in s.instances && s.instances[q].fp == fp;
  }

  lemma AbandonStep(s: Sys, r: nat)
    requires r in s.flights
    ensures Abandoned(s, DoAbort(s, r), r)
  {
  }

  /** A request that described its plugin commits exactly when the first terminal
      message of its progress stream is SUCCEEDED with a result, with that
      message's outputs, and is abandoned otherwise, whoever else is in the window. */
  lemma VerbatimOutputs(digest: Digest, s: Sys, r: nat, stream: seq<StreamItem>, id: LeaseId)
    requires r in s.flights && s.flights[r].phase.Described? && id !in s.grants
    ensures var t := Apply(digest, s, Create(r, stream, id));
            forall i: nat, result :: SucceedsAt(stream, i, result) ==> Committed(s, t, r, id, result.outputs)
    ensures (forall i: nat, result :: !SucceedsAt(stream, i, result)) ==>
              Abandoned(s, Apply(digest, s, Create(r, stream, id)), r)
  {
    var t := Apply(digest, s, Create(r, stream, id));
    assert t == DoCreate(s, r, stream, id);
    forall i: nat, result | SucceedsAt(stream, i, result) ensures Committed(s, t, r, id, result.outputs) {
      DrainExact(stream, result);
      CommitStep(s, r, id, result.outputs);
    }
    if Drain(stream).Ok? {
      DrainExact(stream, Drain(stream).value);
    } else {
      AbandonStep(s, r);
    }
  }

  /** Whatever it waits for, a request in the window can fail or be cancelled. It
      leaves both maps unchanged and takes its own process with it, no other. */
  lemma FailureIsClean(digest: Digest, s: Sys, r: nat)
    requires r in s.flights
    ensures var t := Apply(digest, s, Abort(r));
            && Abandoned(s, t, r)
            && t.st == s.st
            && t.connected - t.killed ==
               s.connected - s.killed - if s.flights[r].phase.Spawning? then {} else {s.flights[r].phase.plugin}
  {
    AbandonStep(s, r);
    assert Apply(digest, s, Abort(r)) == DoAbort(s, r);
  }

  // ------------------------------------------------------------------ releasing

  /** A release is always possible: it removes the lease if it is there, lowers
      its record's counter unless that is zero, and moves nothing else. Keepalive
      and Status move nothing. */
  lemma ReleaseStep(digest: Digest, s: Sys, id: LeaseId)
    ensures id !in s.st.leases ==> Apply(digest, s, ReleaseLease(id)) == s
    ensures id in s.st.leases && s.st.leases[id] in s.st.fixtures ==>
              var fp := s.st.leases[id];
              var was := s.st.fixtures[fp];
              var now := was.(usedSlots := if was.usedSlots <= 1 then 0 else was.usedSlots - 1);
              Apply(digest, s, ReleaseLease(id)) == s.(st := State(s.st.fixtures[fp := now], s.st.leases - {id}))
    ensures Apply(digest, s, Query(id)) == s
  {
  }

  // ------------------------------------------------------------------- the race

  /** Two requests on one fingerprint that are in the window together both commit,
      in either order of arrival. Both are granted, with their own outputs. The
      later record replaces the earlier: its counter is one although two leases
      were added, the earlier instance is killed, and Status now tells the first
      lease the second one's outputs. */
  lemma CommitRace(digest: Digest, s: Sys, a: nat, b: nat, ida: LeaseId, idb: LeaseId,
                   sa: seq<StreamItem>, sb: seq<StreamItem>, i: nat, j: nat, ra: FixtureResult, rb: FixtureResult)
    requires Reachable(digest, s) && a != b && ida != idb
    requires a in s.flights && b in s.flights && s.flights[a].fp == s.flights[b].fp
    requires s.flights[a].phase.Described? && s.flights[b].phase.Described?
    requires ida !in s.grants && idb !in s.grants
    requires SucceedsAt(sa, i, ra) && SucceedsAt(sb, j, rb)
    ensures var fp := s.flights[a].fp;
            var t := Apply(digest, Apply(digest, s, Create(a, sa, ida)), Create(b, sb, idb));
            && Reachable(digest, t)
            && t.replies == s.replies[a := Granted(ida, ra.outputs)][b := Granted(idb, rb.outputs)]
            && t.st.leases == s.st.leases[ida := fp][idb := fp]
            && Live(t.st, fp) == Live(s.st, fp) + 2
            && fp in t.st.fixtures && t.st.fixtures[fp].usedSlots == 1
            && t.st.fixtures[fp].plugin == s.flights[b].phase.plugin
            && s.flights[a].phase.plugin in t.killed && s.flights[b].phase.plugin !in t.killed
            && StatusOutputs(t.st, ida) == rb.outputs
  {
    var fp := s.flights[a].fp;
    var ea, eb := Create(a, sa, ida), Create(b, sb, idb);
    var m := Apply(digest, s, ea);
    var t := Apply(digest, m, eb);
    VerbatimOutputs(digest, s, a, sa, ida);
    VerbatimOutputs(digest, m, b, sb, idb);
    RaceReachable(digest, s, ea, eb);
    RecordedPolicy(digest, t, fp);
    RaceLeases(digest, s, ida, idb, fp, m.st, t.st);
  }

  lemma RaceReachable(digest: Digest, s: Sys, e: Event, f: Event)
    requires Reachable(digest, s)
    ensures Reachable(digest, Apply(digest, Apply(digest, s, e), f))
  {
    ReachableStep(digest, s, e);
    ReachableStep(digest, Apply(digest, s, e), f);
  }

  lemma RaceLeases(digest: Digest, s: Sys, ida: LeaseId, idb: LeaseId, fp: Fingerprint, m: State, t: State)
    requires Reachable(digest, s) && ida != idb && ida !in s.grants && idb !in s.grants
    requires m.leases == s.st.leases[ida := fp] && t.leases == m.leases[idb := fp]
    ensures Live(t, fp) == Live(s.st, fp) + 2
  {
    ReachableInv(digest, s);
    LiveAfterGrant(s.st, m, ida, fp, fp);
    LiveAfterGrant(m, t, idb, fp, fp);
  }
}
