/** What every step of the lease protocol keeps. Each part of the invariant
    names only the components it speaks of, so a step that leaves those alone
    keeps it for free. */
module Invariants {
  import opened Base
  import opened Messages
  import opened Fingerprint
  import opened PluginClient
  import opened Store
  import opened Protocol

  type Grants = map<LeaseId, Grant>
  type Flights = map<nat, Flight>
  type Replies = map<nat, Reply>
  type Described = set<(FixtureDescription, Bytes)>

  // ------------------------------------------------------------ the invariant

  /** Live leases were granted, and route to a record of their fingerprint. */
  ghost predicate LeasesOk(st: State, grants: Grants) {
    forall id :: id in st.leases ==>
      id in grants && grants[id].fp == st.leases[id] && st.leases[id] in st.fixtures
  }

  /** Counters stay within the policy, and never count a lease that is not there. */
  ghost predicate SlotsOk(st: State) {
    forall fp :: fp in st.fixtures ==>
      0 <= st.fixtures[fp].usedSlots <= Slots(st.fixtures[fp].sharing) && Stale(st, fp) >= 0
  }

  /** A record mirrors the latest instance committed for its fingerprint. */
  ghost predicate RecordOk(fp: Fingerprint, record: FixtureRecord, killed: set<ProcessId>, instances: Instances) {
    && record.plugin in instances
    && record.plugin !in killed
    && var i := instances[record.plugin];
    && i.fp == fp
    && record.outputs == i.outputs
    && record.creatingClientId == i.creator
    && record.sharing == EffectiveSharing(i.desc)
    && i.nth + 1 == Commits(instances, fp)
  }

  ghost predicate RecordsOk(st: State, killed: set<ProcessId>, instances: Instances) {
    forall fp :: fp in st.fixtures ==> RecordOk(fp, st.fixtures[fp], killed, instances)
  }

  /** An instance is alive exactly while it is the recorded one. */
  ghost predicate InstanceOk(p: ProcessId, i: Instance, st: State, killed: set<ProcessId>, instances: Instances) {
    && i.fp in st.fixtures
    && (p in killed <==> st.fixtures[i.fp].plugin != p)
    && (st.fixtures[i.fp].plugin != p ==> i.nth + 1 < Commits(instances, i.fp))
  }

  ghost predicate InstancesOk(st: State, killed: set<ProcessId>, instances: Instances) {
    forall p :: p in instances ==> InstanceOk(p, instances[p], st, killed, instances)
  }

  /** A fingerprint in use is that of a description that entered the window. */
  ghost predicate OriginOk(digest: Digest, desc: FixtureDescription, contents: Bytes, fp: Fingerprint, provisioned: Described) {
    (desc, contents) in provisioned && Compute(digest, desc, Some(contents)) == Some(fp)
  }

  ghost predicate OriginsOk(digest: Digest, flights: Flights, instances: Instances, provisioned: Described) {
    && (forall p :: p in instances ==>
          OriginOk(digest, instances[p].desc, instances[p].contents, instances[p].fp, provisioned))
    && (forall r :: r in flights ==>
          OriginOk(digest, flights[r].desc, flights[r].contents, flights[r].fp, provisioned))
  }

  ghost predicate Holds(flights: Flights, r: nat, p: ProcessId) {
    r in flights && HasPlugin(flights[r]) && flights[r].phase.plugin == p
  }

  /** Processes in flight are alive and uncommitted, each in one request, and
      account for every live process that no commit owns. */
  ghost predicate PluginsOk(flights: Flights, connected: set<ProcessId>, killed: set<ProcessId>, owned: set<ProcessId>) {
    && killed <= connected
    && owned <= connected
    && (forall r, p :: Holds(flights, r, p) ==> p in connected && p !in killed && p !in owned)
    && (forall q, r, p :: Holds(flights, q, p) && Holds(flights, r, p) ==> q == r)
    && (forall p :: p in connected && p !in killed && p !in owned ==> exists r :: Holds(flights, r, p))
  }

  /** A grant carries its instance's outputs, to a client its policy admits. */
  ghost predicate GrantOk(g: Grant, instances: Instances) {
    && g.plugin in instances
    && var i := instances[g.plugin];
    && g.fp == i.fp
    && g.outputs == i.outputs
    && (EffectiveSharing(i.desc).useScope != Some(Unrestricted) ==> g.client == i.creator)
  }

  ghost predicate GrantsOk(instances: Instances, grants: Grants) {
    forall id :: id in grants ==> GrantOk(grants[id], instances)
  }

  ghost predicate IsSingleUse(instances: Instances, p: ProcessId) {
    p in instances && EffectiveSharing(instances[p].desc).useScope == Some(SingleUse)
  }

  ghost predicate GrantedOn(grants: Grants, id: LeaseId, p: ProcessId) {
    id in grants && grants[id].plugin == p
  }

  /** Every instance has a lease, and a single-use one only that. */
  ghost predicate AttachmentsOk(instances: Instances, grants: Grants) {
    && (forall p :: p in instances ==> exists id :: GrantedOn(grants, id, p))
    && (forall a, b, p :: IsSingleUse(instances, p) && GrantedOn(grants, a, p) && GrantedOn(grants, b, p) ==> a == b)
  }

  /** Grants and granting replies match one to one; a request in flight has no
      reply yet. */
  ghost predicate RepliesOk(flights: Flights, grants: Grants, replies: Replies) {
    && (forall r :: r in replies && replies[r].Granted? ==>
          replies[r].id in grants && grants[replies[r].id].request == r)
    && (forall id :: id in grants ==>
          grants[id].request in replies && replies[grants[id].request] == Granted(id, grants[id].outputs))
    && (forall r :: r in flights ==> r !in replies)
  }

  ghost predicate Inv(digest: Digest, s: Sys) {
    && LeasesOk(s.st, s.grants)
    && SlotsOk(s.st)
    && RecordsOk(s.st, s.killed, s.instances)
    && InstancesOk(s.st, s.killed, s.instances)
    && OriginsOk(digest, s.flights, s.instances, s.provisioned)
    && PluginsOk(s.flights, s.connected, s.killed, s.instances.Keys)
    && GrantsOk(s.instances, s.grants)
    && AttachmentsOk(s.instances, s.grants)
    && RepliesOk(s.flights, s.grants, s.replies)
  }

  // ------------------------------------------------------- what a reuse keeps

  lemma AttachSlots(st: State, fp: Fingerprint, client: Str, id: LeaseId)
    requires SlotsOk(st) && CanAttach(st, fp, client) && id !in st.leases
    ensures SlotsOk(Attach(st, fp, id))
  {
    forall x ensures Stale(Attach(st, fp, id), x) == Stale(st, x) {
      StaleAfterAttach(st, fp, id, x);
    }
  }

  lemma AttachRecords(st: State, fp: Fingerprint, client: Str, id: LeaseId, killed: set<ProcessId>, instances: Instances)
    requires RecordsOk(st, killed, instances) && InstancesOk(st, killed, instances) && CanAttach(st, fp, client)
    ensures RecordsOk(Attach(st, fp, id), killed, instances)
    ensures InstancesOk(Attach(st, fp, id), killed, instances)
  {
    forall p | p in instances ensures InstanceOk(p, instances[p], Attach(st, fp, id), killed, instances) {
      assert InstanceOk(p, instances[p], st, killed, instances);
    }
  }

  lemma MoreAttachments(instances: Instances, grants: Grants, id: LeaseId, g: Grant)
    requires AttachmentsOk(instances, grants) && id !in grants && !IsSingleUse(instances, g.plugin)
    ensures AttachmentsOk(instances, grants[id := g])
  {
    var more := grants[id := g];
    forall p | p in instances ensures exists x :: GrantedOn(more, x, p) {
      var x :| GrantedOn(grants, x, p);
      assert GrantedOn(more, x, p);
    }
    forall a, b, p | IsSingleUse(instances, p) && GrantedOn(more, a, p) && GrantedOn(more, b, p) ensures a == b {
      assert GrantedOn(grants, a, p) && GrantedOn(grants, b, p);
    }
  }

  /** Answering a request with a fresh lease. */
  lemma MoreReplies(flights: Flights, grants: Grants, replies: Replies, r: nat, id: LeaseId, g: Grant)
    requires RepliesOk(flights, grants, replies) && id !in grants && r !in replies && g.request == r
    ensures RepliesOk(flights - {r}, grants[id := g], replies[r := Granted(id, g.outputs)])
    ensures r !in flights ==> RepliesOk(flights, grants[id := g], replies[r := Granted(id, g.outputs)])
  {
  }

  lemma MoreLeases(st: State, t: State, grants: Grants, id: LeaseId, g: Grant)
    requires LeasesOk(st, grants) && id !in grants
    requires t.leases == st.leases[id := g.fp] && t.fixtures.Keys == st.fixtures.Keys + {g.fp}
    ensures LeasesOk(t, grants[id := g])
  {
  }

  lemma MoreGrants(instances: Instances, more: Instances, grants: Grants, id: LeaseId, g: Grant)
    requires GrantsOk(instances, grants) && GrantOk(g, more)
    requires forall p :: p in instances ==> p in more && more[p] == instances[p]
    ensures GrantsOk(more, grants[id := g])
  {
    forall x | x in grants && x != id ensures GrantOk(grants[x], more) {
      assert GrantOk(grants[x], instances);
    }
  }

  /** The reuse test is what keeps the policies. */
  lemma AttachGrant(st: State, fp: Fingerprint, client: Str, killed: set<ProcessId>, instances: Instances, r: nat)
    requires RecordsOk(st, killed, instances) && CanAttach(st, fp, client)
    ensures GrantOk(Grant(r, client, fp, st.fixtures[fp].plugin, st.fixtures[fp].outputs), instances)
    ensures !IsSingleUse(instances, st.fixtures[fp].plugin)
  {
    assert RecordOk(fp, st.fixtures[fp], killed, instances);
  }

  lemma AttachLeases(st: State, fp: Fingerprint, client: Str, grants: Grants, id: LeaseId, g: Grant)
    requires LeasesOk(st, grants) && id !in grants && CanAttach(st, fp, client) && g.fp == fp
    ensures LeasesOk(Attach(st, fp, id), grants[id := g])
  {
    assert Attach(st, fp, id).fixtures.Keys == st.fixtures.Keys + {fp};
    MoreLeases(st, Attach(st, fp, id), grants, id, g);
  }

  lemma AttachKeeps(digest: Digest, s: Sys, r: nat, fp: Fingerprint, client: Str, id: LeaseId)
    requires Inv(digest, s)
    requires r !in s.flights && r !in s.replies && id !in s.grants
    requires CanAttach(s.st, fp, client)
    ensures Inv(digest, DoAttach(s, r, fp, client, id))
  {
    var g := Grant(r, client, fp, s.st.fixtures[fp].plugin, s.st.fixtures[fp].outputs);
    AttachGrant(s.st, fp, client, s.killed, s.instances, r);
    AttachSlots(s.st, fp, client, id);
    AttachRecords(s.st, fp, client, id, s.killed, s.instances);
    AttachLeases(s.st, fp, client, s.grants, id, g);
    MoreGrants(s.instances, s.instances, s.grants, id, g);
    MoreAttachments(s.instances, s.grants, id, g);
    MoreReplies(s.flights, s.grants, s.replies, r, id, g);
  }

  // ------------------------------------------------------- what a commit keeps

  lemma CommitsAfter(instances: Instances, p: ProcessId, i: Instance, fp: Fingerprint)
    requires p !in instances
    ensures Commits(instances[p := i], fp) == Commits(instances, fp) + if i.fp == fp then 1 else 0
  {
    if i.fp == fp {
      assert InstancesOf(instances[p := i], fp) == InstancesOf(instances, fp) + {p};
    } else {
      assert InstancesOf(instances[p := i], fp) == InstancesOf(instances, fp);
    }
  }

  lemma InstallSlots(st: State, fp: Fingerprint, record: FixtureRecord, id: LeaseId)
    requires SlotsOk(st) && id !in st.leases && record.usedSlots == 1
    ensures SlotsOk(Install(st, fp, record, id))
  {
    forall x ensures Stale(Install(st, fp, record, id), x) == if x == fp then Live(st, x) else Stale(st, x) {
      StaleAfterInstall(st, fp, record, id, x);
    }
  }

  lemma InstallLeases(st: State, fp: Fingerprint, record: FixtureRecord, grants: Grants, id: LeaseId, g: Grant)
    requires LeasesOk(st, grants) && id !in grants && g.fp == fp
    ensures LeasesOk(Install(st, fp, record, id), grants[id := g])
  {
    assert Install(st, fp, record, id).fixtures.Keys == st.fixtures.Keys + {fp};
    MoreLeases(st, Install(st, fp, record, id), grants, id, g);
  }

  /** The processes a commit on `fp` kills. */
  function Displaced(st: State, fp: Fingerprint): set<ProcessId> {
    if fp in st.fixtures then {st.fixtures[fp].plugin} else {}
  }

  /** The record installed for an instance. */
  function RecordOf(p: ProcessId, i: Instance): FixtureRecord {
    Store.Provisioned(i.desc, i.creator, i.outputs, p)
  }

  lemma CommitRecords(st: State, killed: set<ProcessId>, instances: Instances, p: ProcessId, i: Instance, id: LeaseId)
    requires RecordsOk(st, killed, instances)
    requires p !in instances && p !in killed && i.nth == Commits(instances, i.fp)
    ensures RecordsOk(Install(st, i.fp, RecordOf(p, i), id), killed + Displaced(st, i.fp), instances[p := i])
  {
    var t, more := Install(st, i.fp, RecordOf(p, i), id), instances[p := i];
    var dead := killed + Displaced(st, i.fp);
    forall x | x in t.fixtures ensures RecordOk(x, t.fixtures[x], dead, more) {
      CommitsAfter(instances, p, i, x);
      if i.fp in st.fixtures {
        assert RecordOk(i.fp, st.fixtures[i.fp], killed, instances);
      }
      if x != i.fp {
        assert RecordOk(x, st.fixtures[x], killed, instances);
      }
    }
  }

  lemma CommitInstances(st: State, killed: set<ProcessId>, instances: Instances, p: ProcessId, i: Instance, id: LeaseId)
    requires RecordsOk(st, killed, instances) && InstancesOk(st, killed, instances)
    requires p !in instances && p !in killed && i.nth == Commits(instances, i.fp)
    ensures InstancesOk(Install(st, i.fp, RecordOf(p, i), id), killed + Displaced(st, i.fp), instances[p := i])
  {
    var t, more := Install(st, i.fp, RecordOf(p, i), id), instances[p := i];
    var dead := killed + Displaced(st, i.fp);
    forall q | q in more ensures InstanceOk(q, more[q], t, dead, more) {
      CommitsAfter(instances, p, i, more[q].fp);
      if i.fp in st.fixtures {
        assert RecordOk(i.fp, st.fixtures[i.fp], killed, instances);
      }
      if q != p {
        assert InstanceOk(q, instances[q], st, killed, instances);
        assert RecordOk(instances[q].fp, st.fixtures[instances[q].fp], killed, instances);
      }
    }
  }

  lemma CommitAttachments(instances: Instances, grants: Grants, p: ProcessId, i: Instance, id: LeaseId, g: Grant)
    requires AttachmentsOk(instances, grants) && GrantsOk(instances, grants)
    requires p !in instances && id !in grants && g.plugin == p
    ensures AttachmentsOk(instances[p := i], grants[id := g])
  {
    var more, granted := instances[p := i], grants[id := g];
    assert forall x :: x in grants ==> GrantOk(grants[x], instances);
    assert forall x :: !GrantedOn(grants, x, p);
    forall q | q in more ensures exists x :: GrantedOn(granted, x, q) {
      if q == p {
        assert GrantedOn(granted, id, p);
      } else {
        var x :| GrantedOn(grants, x, q);
        assert GrantedOn(granted, x, q);
      }
    }
    forall a, b, q | IsSingleUse(more, q) && GrantedOn(granted, a, q) && GrantedOn(granted, b, q) ensures a == b {
      if q != p {
        assert IsSingleUse(instances, q) && GrantedOn(grants, a, q) && GrantedOn(grants, b, q);
      } else {
        assert !GrantedOn(grants, a, p) && !GrantedOn(grants, b, p);
      }
    }
  }

  /** Request `r` leaves the window; its process, if any, is killed or owned
      from now on, and `dead` others die that no request holds. */
  lemma LeavePlugins(flights: Flights, connected: set<ProcessId>, killed: set<ProcessId>, owned: set<ProcessId>,
                     r: nat, dead: set<ProcessId>, kept: set<ProcessId>)
    requires PluginsOk(flights, connected, killed, owned) && r in flights
    requires dead <= connected && kept <= connected
    requires forall p :: p in dead + kept ==> p in owned || Holds(flights, r, p)
    requires forall p :: Holds(flights, r, p) ==> p in dead + kept
    ensures PluginsOk(flights - {r}, connected, killed + dead, owned + kept)
  {
    var rest := flights - {r};
    assert forall q, p :: Holds(rest, q, p) <==> Holds(flights, q, p) && q != r;
    forall p | p in connected && p !in killed + dead && p !in owned + kept ensures exists q :: Holds(rest, q, p) {
      var q :| Holds(flights, q, p);
      assert Holds(rest, q, p);
    }
  }

  lemma CommitPlugins(s: Sys, r: nat, i: Instance)
    requires PluginsOk(s.flights, s.connected, s.killed, s.instances.Keys) && RecordsOk(s.st, s.killed, s.instances)
    requires r in s.flights && s.flights[r].phase.Described?
    ensures var p := s.flights[r].phase.plugin;
            PluginsOk(s.flights - {r}, s.connected, s.killed + Displaced(s.st, i.fp), s.instances[p := i].Keys)
  {
    var p := s.flights[r].phase.plugin;
    assert Holds(s.flights, r, p);
    if i.fp in s.st.fixtures {
      assert RecordOk(i.fp, s.st.fixtures[i.fp], s.killed, s.instances);
    }
    LeavePlugins(s.flights, s.connected, s.killed, s.instances.Keys, r, Displaced(s.st, i.fp), {p});
    assert s.instances[p := i].Keys == s.instances.Keys + {p};
  }

  lemma CommitOrigins(digest: Digest, flights: Flights, instances: Instances, provisioned: Described,
                      r: nat, p: ProcessId, i: Instance)
    requires OriginsOk(digest, flights, instances, provisioned) && r in flights
    requires i.fp == flights[r].fp && i.desc == flights[r].desc && i.contents == flights[r].contents
    ensures OriginsOk(digest, flights - {r}, instances[p := i], provisioned)
  {
  }

  lemma CommitGrants(instances: Instances, grants: Grants, p: ProcessId, i: Instance, id: LeaseId, g: Grant)
    requires GrantsOk(instances, grants) && p !in instances
    requires g.plugin == p && g.fp == i.fp && g.outputs == i.outputs && g.client == i.creator
    ensures GrantsOk(instances[p := i], grants[id := g])
  {
    MoreGrants(instances, instances[p := i], grants, id, g);
  }

  lemma CommitKeepsStore(digest: Digest, s: Sys, r: nat, outputs: Outputs, id: LeaseId)
    requires Inv(digest, s)
    requires r in s.flights && s.flights[r].phase.Described? && id !in s.grants
    ensures var t := DoCommit(s, r, outputs, id);
            && LeasesOk(t.st, t.grants) && SlotsOk(t.st)
            && RecordsOk(t.st, t.killed, t.instances) && InstancesOk(t.st, t.killed, t.instances)
  {
    var f := s.flights[r];
    var p := f.phase.plugin;
    var i := Instance(f.fp, f.desc, f.contents, f.client, outputs, Commits(s.instances, f.fp));
    assert Holds(s.flights, r, p);
    InstallSlots(s.st, f.fp, RecordOf(p, i), id);
    InstallLeases(s.st, f.fp, RecordOf(p, i), s.grants, id, Grant(r, f.client, f.fp, p, outputs));
    CommitRecords(s.st, s.killed, s.instances, p, i, id);
    CommitInstances(s.st, s.killed, s.instances, p, i, id);
  }

  lemma CommitKeepsGrants(s: Sys, r: nat, outputs: Outputs, id: LeaseId)
    requires PluginsOk(s.flights, s.connected, s.killed, s.instances.Keys)
    requires GrantsOk(s.instances, s.grants) && AttachmentsOk(s.instances, s.grants)
    requires r in s.flights && s.flights[r].phase.Described? && id !in s.grants
    ensures var t := DoCommit(s, r, outputs, id);
            GrantsOk(t.instances, t.grants) && AttachmentsOk(t.instances, t.grants)
  {
    var f := s.flights[r];
    var p := f.phase.plugin;
    var i := Instance(f.fp, f.desc, f.contents, f.client, outputs, Commits(s.instances, f.fp));
    var g := Grant(r, f.client, f.fp, p, outputs);
    assert Holds(s.flights, r, p);
    CommitAttachments(s.instances, s.grants, p, i, id, g);
    CommitGrants(s.instances, s.grants, p, i, id, g);
  }

  lemma CommitKeepsRequests(digest: Digest, s: Sys, r: nat, outputs: Outputs, id: LeaseId)
    requires Inv(digest, s)
    requires r in s.flights && s.flights[r].phase.Described? && id !in s.grants
    ensures var t := DoCommit(s, r, outputs, id);
            && OriginsOk(digest, t.flights, t.instances, t.provisioned)
            && PluginsOk(t.flights, t.connected, t.killed, t.instances.Keys)
            && RepliesOk(t.flights, t.grants, t.replies)
  {
    var f := s.flights[r];
    var p := f.phase.plugin;
    var i := Instance(f.fp, f.desc, f.contents, f.client, outputs, Commits(s.instances, f.fp));
    CommitPlugins(s, r, i);
    CommitOrigins(digest, s.flights, s.instances, s.provisioned, r, p, i);
    MoreReplies(s.flights, s.grants, s.replies, r, id, Grant(r, f.client, f.fp, p, outputs));
  }

  lemma CommitKeeps(digest: Digest, s: Sys, r: nat, outputs: Outputs, id: LeaseId)
    requires Inv(digest, s)
    requires r in s.flights && s.flights[r].phase.Described? && id !in s.grants
    ensures Inv(digest, DoCommit(s, r, outputs, id))
  {
    CommitKeepsStore(digest, s, r, outputs, id);
    CommitKeepsGrants(s, r, outputs, id);
    CommitKeepsRequests(digest, s, r, outputs, id);
  }

  // --------------------------------------------------- what the other steps keep

  lemma AbortKeeps(digest: Digest, s: Sys, r: nat)
    requires Inv(digest, s) && r in s.flights
    ensures Inv(digest, DoAbort(s, r))
  {
    AbortPlugins(s.flights, s.connected, s.killed, s.instances.Keys, r);
    AbortRecords(s.st, s.killed, s.instances, Dropped(s.flights[r]));
    AbortOrigins(digest, s.flights, s.instances, s.provisioned, r);
    AbortReplies(s.flights, s.grants, s.replies, r);
  }

  /** The process that dies with a request in the window. */
  function Dropped(f: Flight): set<ProcessId> {
    if HasPlugin(f) then {f.phase.plugin} else {}
  }

  lemma AbortPlugins(flights: Flights, connected: set<ProcessId>, killed: set<ProcessId>, owned: set<ProcessId>, r: nat)
    requires PluginsOk(flights, connected, killed, owned) && r in flights
    ensures PluginsOk(flights - {r}, connected, killed + Dropped(flights[r]), owned)
    ensures Dropped(flights[r]) !! owned
  {
    assert forall p :: p in Dropped(flights[r]) <==> Holds(flights, r, p);
    LeavePlugins(flights, connected, killed, owned, r, Dropped(flights[r]), {});
    assert owned + {} == owned;
  }

  lemma AbortOrigins(digest: Digest, flights: Flights, instances: Instances, provisioned: Described, r: nat)
    requires OriginsOk(digest, flights, instances, provisioned)
    ensures OriginsOk(digest, flights - {r}, instances, provisioned)
  {
  }

  lemma AbortRecords(st: State, killed: set<ProcessId>, instances: Instances, dead: set<ProcessId>)
    requires RecordsOk(st, killed, instances) && InstancesOk(st, killed, instances)
    requires dead !! instances.Keys
    ensures RecordsOk(st, killed + dead, instances) && InstancesOk(st, killed + dead, instances)
  {
    forall fp | fp in st.fixtures ensures RecordOk(fp, st.fixtures[fp], killed + dead, instances) {
      assert RecordOk(fp, st.fixtures[fp], killed, instances);
    }
    forall p | p in instances ensures InstanceOk(p, instances[p], st, killed + dead, instances) {
      assert InstanceOk(p, instances[p], st, killed, instances);
    }
  }

  lemma AbortReplies(flights: Flights, grants: Grants, replies: Replies, r: nat)
    requires RepliesOk(flights, grants, replies) && r !in replies
    ensures forall code :: RepliesOk(flights - {r}, grants, replies[r := Refused(code)])
    ensures r !in flights ==> forall code :: RepliesOk(flights, grants, replies[r := Refused(code)])
  {
  }

  lemma SetPhasePlugins(flights: Flights, connected: set<ProcessId>, killed: set<ProcessId>, owned: set<ProcessId>,
                        r: nat, phase: Phase)
    requires PluginsOk(flights, connected, killed, owned) && r in flights && !phase.Spawning?
    requires if HasPlugin(flights[r]) then phase.plugin == flights[r].phase.plugin else phase.plugin !in connected
    ensures PluginsOk(flights[r := flights[r].(phase := phase)], connected + {phase.plugin}, killed, owned)
  {
    var more := flights[r := flights[r].(phase := phase)];
    if HasPlugin(flights[r]) {
      assert Holds(flights, r, phase.plugin);
    }
    assert forall q, p :: Holds(more, q, p) <==> Holds(flights, q, p) || (q == r && p == phase.plugin);
    forall p | p in connected + {phase.plugin} && p !in killed && p !in owned ensures exists q :: Holds(more, q, p) {
      if p == phase.plugin {
        assert Holds(more, r, p);
      } else {
        var q :| Holds(flights, q, p);
        assert Holds(more, q, p);
      }
    }
  }

  lemma PhaseKeeps(digest: Digest, s: Sys, r: nat, phase: Phase, connected: set<ProcessId>)
    requires Inv(digest, s) && r in s.flights && !phase.Spawning?
    requires if HasPlugin(s.flights[r]) then phase.plugin == s.flights[r].phase.plugin else phase.plugin !in s.connected
    requires connected == s.connected + {phase.plugin}
    ensures Inv(digest, SetPhase(s, r, phase).(connected := connected))
  {
    SetPhasePlugins(s.flights, s.connected, s.killed, s.instances.Keys, r, phase);
  }

  lemma HeldIsConnected(flights: Flights, connected: set<ProcessId>, killed: set<ProcessId>, owned: set<ProcessId>, r: nat)
    requires PluginsOk(flights, connected, killed, owned) && r in flights && HasPlugin(flights[r])
    ensures connected == connected + {flights[r].phase.plugin}
  {
    assert Holds(flights, r, flights[r].phase.plugin);
  }

  lemma NewFlightPlugins(flights: Flights, connected: set<ProcessId>, killed: set<ProcessId>, owned: set<ProcessId>,
                         r: nat, f: Flight)
    requires PluginsOk(flights, connected, killed, owned) && r !in flights && f.phase.Spawning?
    ensures PluginsOk(flights[r := f], connected, killed, owned)
  {
    var more := flights[r := f];
    assert forall q, p :: Holds(more, q, p) <==> Holds(flights, q, p);
  }

  lemma NewFlightOrigins(digest: Digest, flights: Flights, instances: Instances, provisioned: Described, r: nat, f: Flight)
    requires OriginsOk(digest, flights, instances, provisioned)
    requires Compute(digest, f.desc, Some(f.contents)) == Some(f.fp)
    ensures OriginsOk(digest, flights[r := f], instances, provisioned + {(f.desc, f.contents)})
  {
  }

  lemma ArriveKeeps(digest: Digest, s: Sys, r: nat, req: TakeLeaseRequest, file: Option<Bytes>, id: LeaseId)
    requires Inv(digest, s) && Enabled(s, Arrive(r, req, file, id))
    ensures Inv(digest, DoArrive(digest, s, r, req, file, id))
  {
    match Admit(digest, req, file)
    case Err(code) =>
      AbortReplies(s.flights, s.grants, s.replies, r);
    case Ok(fp) =>
      if CanAttach(s.st, fp, req.clientId) {
        AttachKeeps(digest, s, r, fp, req.clientId, id);
      } else {
        var f := Flight(fp, req.fixture.value, file.value, req.clientId, Spawning);
        NewFlightPlugins(s.flights, s.connected, s.killed, s.instances.Keys, r, f);
        NewFlightOrigins(digest, s.flights, s.instances, s.provisioned, r, f);
      }
  }

  lemma ReleaseSlots(st: State, id: LeaseId)
    requires SlotsOk(st)
    ensures SlotsOk(Release(st, id))
  {
    forall fp | fp in st.fixtures ensures Stale(Release(st, id), fp) >= 0 {
      StaleAfterRelease(st, id, fp);
      if Saturates(st, id, fp) {
        assert id in LeasesOn(st, fp);
      }
    }
  }

  lemma ReleaseRecords(st: State, id: LeaseId, killed: set<ProcessId>, instances: Instances)
    requires RecordsOk(st, killed, instances) && InstancesOk(st, killed, instances)
    ensures RecordsOk(Release(st, id), killed, instances) && InstancesOk(Release(st, id), killed, instances)
  {
    forall p | p in instances ensures InstanceOk(p, instances[p], Release(st, id), killed, instances) {
      assert InstanceOk(p, instances[p], st, killed, instances);
    }
  }

  lemma ReleaseLeases(st: State, id: LeaseId, grants: Grants)
    requires LeasesOk(st, grants)
    ensures LeasesOk(Release(st, id), grants)
  {
  }

  lemma ReleaseKeeps(digest: Digest, s: Sys, id: LeaseId)
    requires Inv(digest, s)
    ensures Inv(digest, s.(st := Release(s.st, id)))
  {
    ReleaseSlots(s.st, id);
    ReleaseRecords(s.st, id, s.killed, s.instances);
    ReleaseLeases(s.st, id, s.grants);
  }

  // ---------------------------------------------------------- every reachable state

  lemma CreateKeeps(digest: Digest, s: Sys, r: nat, stream: seq<StreamItem>, id: LeaseId)
    requires Inv(digest, s) && r in s.flights && s.flights[r].phase.Described? && id !in s.grants
    ensures Inv(digest, DoCreate(s, r, stream, id))
  {
    if Drain(stream).Ok? {
      CommitKeeps(digest, s, r, Drain(stream).value.outputs, id);
    } else {
      AbortKeeps(digest, s, r);
    }
  }

  lemma WindowKeeps(digest: Digest, s: Sys, e: Event)
    requires Inv(digest, s) && Enabled(s, e) && (e.SpawnOk? || e.DescribeOk?)
    ensures Inv(digest, Next(digest, s, e))
  {
    if e.SpawnOk? {
      PhaseKeeps(digest, s, e.r, Connected(e.plugin), s.connected + {e.plugin});
    } else {
      DescribeKeeps(digest, s, e.r);
    }
  }

  lemma NextKeeps(digest: Digest, s: Sys, e: Event)
    requires Inv(digest, s) && Enabled(s, e)
    ensures Inv(digest, Next(digest, s, e))
  {
    match e
    case Arrive(r, req, file, id) => ArriveKeeps(digest, s, r, req, file, id);
    case SpawnOk(_, _) => WindowKeeps(digest, s, e);
    case DescribeOk(_) => WindowKeeps(digest, s, e);
    case Abort(r) => AbortKeeps(digest, s, r);
    case Create(r, stream, id) => CreateKeeps(digest, s, r, stream, id);
    case ReleaseLease(id) => ReleaseKeeps(digest, s, id);
    case Query(_) =>
  }

  /** Every step of every kind keeps the invariant. */
  lemma StepKeeps(digest: Digest, s: Sys, e: Event)
    requires Inv(digest, s)
    ensures Inv(digest, Apply(digest, s, e))
  {
    if Enabled(s, e) {
      NextKeeps(digest, s, e);
    }
  }

  lemma DescribeKeeps(digest: Digest, s: Sys, r: nat)
    requires Inv(digest, s) && r in s.flights && s.flights[r].phase.Connected?
    ensures Inv(digest, SetPhase(s, r, Phase.Described(s.flights[r].phase.plugin)))
  {
    HeldIsConnected(s.flights, s.connected, s.killed, s.instances.Keys, r);
    PhaseKeeps(digest, s, r, Phase.Described(s.flights[r].phase.plugin), s.connected);
  }

  lemma {:induction false} RunFromKeeps(digest: Digest, s: Sys, es: seq<Event>)
    requires Inv(digest, s)
    ensures Inv(digest, RunFrom(digest, s, es))
    decreases |es|
  {
    if es != [] {
      StepKeeps(digest, s, es[0]);
      RunFromKeeps(digest, Apply(digest, s, es[0]), es[1..]);
    }
  }

  lemma InitInv(digest: Digest)
    ensures Inv(digest, INIT)
  {
  }

  /** `s` is where some interleaving leads. */
  ghost predicate Reachable(digest: Digest, s: Sys) {
    exists es :: s == Run(digest, es)
  }

  /** The invariant holds after every interleaving. */
  lemma ReachableInv(digest: Digest, s: Sys)
    requires Reachable(digest, s)
    ensures Inv(digest, s)
  {
    var es :| s == Run(digest, es);
    InitInv(digest);
    RunFromKeeps(digest, INIT, es);
  }

  lemma ReachableStep(digest: Digest, s: Sys, e: Event)
    requires Reachable(digest, s)
    ensures Reachable(digest, Apply(digest, s, e))
  {
    var es :| s == Run(digest, es);
    RunConcat(digest, INIT, es, [e]);
    assert [e][1..] == [];
    assert Apply(digest, s, e) == Run(digest, es + [e]);
  }

  lemma ReachableRun(digest: Digest, s: Sys, es: seq<Event>)
    requires Reachable(digest, s)
    ensures Reachable(digest, RunFrom(digest, s, es))
  {
    var fs :| s == Run(digest, fs);
    RunConcat(digest, INIT, fs, es);
    assert RunFrom(digest, s, es) == Run(digest, fs + es);
  }
}
