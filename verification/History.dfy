/** What holds of whole histories: who ever attached to an instance, who owns
    each plugin process, and which outputs a lease is ever told. */
module History {
  import opened Base
  import opened Messages
  import opened Fingerprint
  import opened PluginClient
  import opened Store
  import opened Protocol
  import opened Invariants

  // ---------------------------------------------------------------- isolation

  /** Every lease ever attached to an instance. */
  function AttachedTo(grants: Grants, p: ProcessId): set<LeaseId> {
    set id | id in grants && grants[id].plugin == p
  }

  lemma OneAttachment(instances: Instances, grants: Grants, p: ProcessId)
    requires AttachmentsOk(instances, grants) && p in instances
    ensures AttachedTo(grants, p) != {}
    ensures IsSingleUse(instances, p) ==> |AttachedTo(grants, p)| == 1
  {
    var id :| GrantedOn(grants, id, p);
    assert id in AttachedTo(grants, p);
    if IsSingleUse(instances, p) {
      forall x | x in AttachedTo(grants, p) ensures x == id {
        assert GrantedOn(grants, x, p);
      }
      assert AttachedTo(grants, p) == {id};
    }
  }

  /** A single-use instance serves exactly one lease ever, and one that is not
      unrestricted serves only leases of the client that created it. */
  lemma SharingIsolation(digest: Digest, s: Sys, p: ProcessId)
    requires Reachable(digest, s) && p in s.instances
    ensures var sharing := s.instances[p].desc.sharing;
            && (sharing.Some? && sharing.value.useScope == Some(SingleUse) ==> |AttachedTo(s.grants, p)| == 1)
            && (sharing.None? || sharing.value.useScope != Some(Unrestricted) ==>
                  forall id :: id in AttachedTo(s.grants, p) ==> s.grants[id].client == s.instances[p].creator)
  {
    ReachableInv(digest, s);
    OneAttachment(s.instances, s.grants, p);
    assert forall id :: id in s.grants ==> GrantOk(s.grants[id], s.instances);
  }

  // ---------------------------------------------------------------- ownership

  /** The processes held by requests in the window, by request. */
  function InFlight(flights: Flights): map<nat, ProcessId> {
    map r | r in flights && HasPlugin(flights[r]) :: flights[r].phase.plugin
  }

  /** The processes held by fixture records, by fingerprint. */
  function Recorded(st: State): map<Fingerprint, ProcessId> {
    map fp | fp in st.fixtures :: st.fixtures[fp].plugin
  }

  lemma InFlightExact(flights: Flights, connected: set<ProcessId>, killed: set<ProcessId>, owned: set<ProcessId>)
    requires PluginsOk(flights, connected, killed, owned)
    ensures InFlight(flights).Values == connected - killed - owned
    ensures |InFlight(flights).Values| == |InFlight(flights)|
  {
    var m := InFlight(flights);
    forall p ensures p in m.Values <==> p in connected - killed - owned {
      if p in m.Values {
        var r :| r in m && m[r] == p;
        assert Holds(flights, r, p);
      }
      if p in connected - killed - owned {
        var r :| Holds(flights, r, p);
        assert r in m && m[r] == p;
      }
    }
    forall a, b | a in m && b in m && m[a] == m[b] ensures a == b {
      assert Holds(flights, a, m[a]) && Holds(flights, b, m[a]);
    }
    InjectiveCard(m);
  }

  lemma RecordedExact(st: State, killed: set<ProcessId>, instances: Instances)
    requires RecordsOk(st, killed, instances) && InstancesOk(st, killed, instances)
    ensures Recorded(st).Values == instances.Keys - killed
    ensures |Recorded(st).Values| == |st.fixtures|
  {
    var m := Recorded(st);
    forall fp | fp in m ensures RecordOk(fp, st.fixtures[fp], killed, instances) {
    }
    forall p ensures p in m.Values <==> p in instances.Keys - killed {
      if p in instances.Keys - killed {
        assert InstanceOk(p, instances[p], st, killed, instances);
        assert instances[p].fp in m && m[instances[p].fp] == p;
      }
    }
    InjectiveCard(m);
    assert m.Keys == st.fixtures.Keys;
  }

  lemma ThreeWays(connected: set<ProcessId>, killed: set<ProcessId>, owned: set<ProcessId>,
                  held: set<ProcessId>, recorded: set<ProcessId>)
    requires killed <= connected && owned <= connected
    requires held == connected - killed - owned && recorded == owned - killed
    ensures connected == held + recorded + killed
    ensures held !! recorded && killed !! held + recorded
    ensures |connected - killed| == |held| + |recorded|
  {
    assert connected - killed == held + recorded;
  }

  /** Every process that ever connected is in exactly one place: held by one
      request in the window, held by one record, or killed. */
  lemma PluginPartition(digest: Digest, s: Sys)
    requires Reachable(digest, s)
    ensures s.connected == InFlight(s.flights).Values + Recorded(s.st).Values + s.killed
    ensures InFlight(s.flights).Values !! Recorded(s.st).Values
    ensures s.killed !! InFlight(s.flights).Values + Recorded(s.st).Values
    ensures |s.connected - s.killed| == |InFlight(s.flights)| + |s.st.fixtures|
  {
    ReachableInv(digest, s);
    InFlightExact(s.flights, s.connected, s.killed, s.instances.Keys);
    RecordedExact(s.st, s.killed, s.instances);
    ThreeWays(s.connected, s.killed, s.instances.Keys, InFlight(s.flights).Values, Recorded(s.st).Values);
  }

  // ------------------------------------------------------------------- outputs

  lemma InstancesStep(digest: Digest, s: Sys, e: Event, p: ProcessId)
    requires PluginsOk(s.flights, s.connected, s.killed, s.instances.Keys) && p in s.instances
    ensures var t := Apply(digest, s, e); p in t.instances && t.instances[p] == s.instances[p]
  {
    if Enabled(s, e) {
      match e
      case Arrive(r, req, file, id) => ArriveFrame(digest, s, r, req, file, id);
      case Create(r, stream, id) => assert Holds(s.flights, r, s.flights[r].phase.plugin);
      case _ =>
    }
  }

  lemma {:induction false} InstancesStay(digest: Digest, s: Sys, es: seq<Event>, p: ProcessId)
    requires Inv(digest, s) && p in s.instances
    ensures var t := RunFrom(digest, s, es);
            Inv(digest, t) && p in t.instances && t.instances[p] == s.instances[p]
    decreases |es|
  {
    if es != [] {
      StepKeeps(digest, s, es[0]);
      InstancesStep(digest, s, es[0], p);
      InstancesStay(digest, Apply(digest, s, es[0]), es[1..], p);
    }
  }

  /** From its commit on and for good, every lease on an instance is answered
      with the outputs committed, and a record of it stores no others. */
  lemma OutputsForever(digest: Digest, s: Sys, es: seq<Event>, p: ProcessId)
    requires Reachable(digest, s) && p in s.instances
    ensures var t := RunFrom(digest, s, es);
            && (forall id :: id in t.grants && t.grants[id].plugin == p ==>
                  && t.grants[id].request in t.replies
                  && t.replies[t.grants[id].request] == Granted(id, s.instances[p].outputs))
            && (forall fp :: fp in t.st.fixtures && t.st.fixtures[fp].plugin == p ==>
                  t.st.fixtures[fp].outputs == s.instances[p].outputs)
  {
    ReachableInv(digest, s);
    InstancesStay(digest, s, es, p);
    var t := RunFrom(digest, s, es);
    OutputsOf(t, p);
  }

  lemma OutputsOf(t: Sys, p: ProcessId)
    requires RecordsOk(t.st, t.killed, t.instances) && GrantsOk(t.instances, t.grants)
    requires RepliesOk(t.flights, t.grants, t.replies) && p in t.instances
    ensures forall id :: id in t.grants && t.grants[id].plugin == p ==>
              && t.grants[id].request in t.replies
              && t.replies[t.grants[id].request] == Granted(id, t.instances[p].outputs)
    ensures forall fp :: fp in t.st.fixtures && t.st.fixtures[fp].plugin == p ==>
              t.st.fixtures[fp].outputs == t.instances[p].outputs
  {
    assert forall id :: id in t.grants ==> GrantOk(t.grants[id], t.instances);
    assert forall fp :: fp in t.st.fixtures ==> RecordOk(fp, t.st.fixtures[fp], t.killed, t.instances);
  }

  // -------------------------------------------------------------------- status

  /** No commit for its fingerprint came after the one that made `p`. */
  predicate Latest(instances: Instances, p: ProcessId)
    requires p in instances
  {
    instances[p].nth + 1 == Commits(instances, instances[p].fp)
  }

  lemma LeaseFacts(st: State, killed: set<ProcessId>, instances: Instances, grants: Grants, id: LeaseId)
    requires LeasesOk(st, grants) && RecordsOk(st, killed, instances) && InstancesOk(st, killed, instances)
    requires GrantsOk(instances, grants) && id in st.leases
    ensures st.leases[id] in st.fixtures
    ensures var p := st.fixtures[st.leases[id]].plugin;
            p in instances && Latest(instances, p) && StatusOutputs(st, id) == instances[p].outputs
    ensures id in grants && grants[id].plugin in instances
    ensures grants[id].plugin !in killed <==> Latest(instances, grants[id].plugin)
    ensures Latest(instances, grants[id].plugin) ==> StatusOutputs(st, id) == grants[id].outputs
  {
    var fp := st.leases[id];
    assert GrantOk(grants[id], instances);
    assert RecordOk(fp, st.fixtures[fp], killed, instances);
    var q := grants[id].plugin;
    assert InstanceOk(q, instances[q], st, killed, instances);
  }

  /** Status never falls back to empty outputs: it reports those of the latest
      commit for the lease's fingerprint. They are the outputs the lease was
      granted with, and the instance it was granted is running, as long as no
      later commit hit that fingerprint; and the instance runs only that long. */
  lemma StatusIntegrity(digest: Digest, s: Sys, id: LeaseId)
    requires Reachable(digest, s) && id in s.st.leases
    ensures s.st.leases[id] in s.st.fixtures
    ensures var p := s.st.fixtures[s.st.leases[id]].plugin;
            p in s.instances && Latest(s.instances, p) && StatusOutputs(s.st, id) == s.instances[p].outputs
    ensures id in s.grants && s.grants[id].plugin in s.instances
    ensures s.grants[id].plugin !in s.killed <==> Latest(s.instances, s.grants[id].plugin)
    ensures Latest(s.instances, s.grants[id].plugin) ==> StatusOutputs(s.st, id) == s.grants[id].outputs
  {
    ReachableInv(digest, s);
    LeaseFacts(s.st, s.killed, s.instances, s.grants, id);
  }
}
