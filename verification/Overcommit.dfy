/** Why the slot count needs its conditions. A request that finds no free slot
    provisions a new instance and replaces the record, so a fixture that allows
    one connection can have any number of live leases, all but the newest on a
    plugin that has been killed. Two requests that overlap both provision, whatever
    the policy allows. */
module Overcommit {
  import opened Base
  import opened Messages
  import opened Fingerprint
  import opened PluginClient
  import opened Store
  import opened Protocol
  import opened Invariants
  import opened Steps

  const NO_RESULT := FixtureResult(map[], 0, [])

  /** A request for a fixture that allows one connection. */
  datatype Solo = Solo(desc: FixtureDescription, client: Str, contents: Bytes, fp: Fingerprint)

  ghost predicate IsSolo(digest: Digest, o: Solo) {
    && Asks(digest, TakeLeaseRequest(Some(o.desc), o.client), Some(o.contents), o.fp)
    && (o.desc.sharing.None? || o.desc.sharing.value.maximumConcurrentConnections <= 1)
  }

  /** The n-th lease id. */
  function Id(n: nat): LeaseId {
    seq(n, _ => 0)
  }

  function Waiting(o: Solo, phase: Phase): Flight {
    Flight(o.fp, o.desc, o.contents, o.client, phase)
  }

  /** The store after n rounds: one record, in full use, and n leases. */
  ghost predicate StoreAfter(o: Solo, st: State, n: nat) {
    && Live(st, o.fp) == n
    && (o.fp in st.fixtures <==> n > 0)
    && (n > 0 ==> st.fixtures[o.fp] == Store.Provisioned(o.desc, o.client, map[], n - 1))
  }

  ghost predicate KilledAfter(killed: set<ProcessId>, n: nat) {
    && (forall p :: p in killed ==> p + 1 < n)
    && |killed| == Max(n - 1, 0)
  }

  /** The names used by n rounds. */
  ghost predicate NamesAfter(s: Sys, n: nat) {
    && s.flights == map[]
    && (forall r :: r in s.replies ==> r < n)
    && (forall id :: id in s.grants ==> |id| < n)
    && (forall p :: p in s.connected ==> p < n)
    && (forall id :: id in s.st.leases ==> id in s.grants)
  }

  lemma ArriveWaits(digest: Digest, o: Solo, s: Sys, n: nat)
    requires IsSolo(digest, o) && StoreAfter(o, s.st, n) && NamesAfter(s, n)
    ensures Apply(digest, s, Arrive(n, TakeLeaseRequest(Some(o.desc), o.client), Some(o.contents), Id(n)))
         == s.(flights := map[n := Waiting(o, Spawning)], provisioned := s.provisioned + {(o.desc, o.contents)})
  {
    ArrivalStep(digest, s, n, TakeLeaseRequest(Some(o.desc), o.client), Some(o.contents), Id(n), o.fp);
    assert s.flights[n := Waiting(o, Spawning)] == map[n := Waiting(o, Spawning)];
  }

  lemma SpawnConnects(digest: Digest, o: Solo, s: Sys, n: nat)
    requires s.flights == map[n := Waiting(o, Spawning)] && n !in s.connected
    ensures Apply(digest, s, SpawnOk(n, n))
         == s.(flights := map[n := Waiting(o, Connected(n))], connected := s.connected + {n})
  {
    assert s.flights[n := Waiting(o, Connected(n))] == map[n := Waiting(o, Connected(n))];
  }

  lemma DescribeDescribes(digest: Digest, o: Solo, s: Sys, n: nat)
    requires s.flights == map[n := Waiting(o, Connected(n))]
    ensures Apply(digest, s, DescribeOk(n)) == s.(flights := map[n := Waiting(o, Phase.Described(n))])
  {
    assert s.flights[n := Waiting(o, Phase.Described(n))] == map[n := Waiting(o, Phase.Described(n))];
  }

  lemma CommitStore(o: Solo, st: State, n: nat)
    requires StoreAfter(o, st, n) && Id(n) !in st.leases
    ensures StoreAfter(o, Install(st, o.fp, Store.Provisioned(o.desc, o.client, map[], n), Id(n)), n + 1)
  {
    var record := Store.Provisioned(o.desc, o.client, map[], n);
    LiveAfterGrant(st, Install(st, o.fp, record, Id(n)), Id(n), o.fp, o.fp);
  }

  lemma CommitKills(o: Solo, st: State, killed: set<ProcessId>, n: nat)
    requires StoreAfter(o, st, n) && KilledAfter(killed, n)
    ensures KilledAfter(killed + Displaced(st, o.fp), n + 1)
  {
    if n > 0 {
      assert Displaced(st, o.fp) == {n - 1};
    } else {
      assert killed + Displaced(st, o.fp) == killed;
    }
  }

  lemma CreateCommits(digest: Digest, o: Solo, s: Sys, n: nat, e: Event)
    requires e == Create(n, [Progress(PROGRESS_SUCCEEDED, Some(NO_RESULT))], Id(n))
    requires s.flights == map[n := Waiting(o, Phase.Described(n))] && Id(n) !in s.grants
    ensures Apply(digest, s, e) == DoCommit(s, n, map[], Id(n))
  {
    assert Drain(e.stream) == Ok(NO_RESULT);
  }

  lemma CommitNames(o: Solo, s: Sys, w: Sys, n: nat)
    requires NamesAfter(s, n)
    requires w == s.(flights := map[n := Waiting(o, Phase.Described(n))], connected := s.connected + {n},
                     provisioned := w.provisioned)
    ensures NamesAfter(DoCommit(w, n, map[], Id(n)), n + 1)
  {
    assert w.flights - {n} == map[];
  }

  /** The n-th request is about to create its fixture. */
  function Prepared(o: Solo, s: Sys, n: nat): Sys {
    s.(flights := map[n := Waiting(o, Phase.Described(n))],
       connected := s.connected + {n},
       provisioned := s.provisioned + {(o.desc, o.contents)})
  }

  lemma Prepare(digest: Digest, o: Solo, s: Sys, n: nat)
    requires IsSolo(digest, o) && Reachable(digest, s)
    requires StoreAfter(o, s.st, n) && NamesAfter(s, n)
    ensures Reachable(digest, Prepared(o, s, n))
  {
    var e := Arrive(n, TakeLeaseRequest(Some(o.desc), o.client), Some(o.contents), Id(n));
    var s1 := s.(flights := map[n := Waiting(o, Spawning)], provisioned := s.provisioned + {(o.desc, o.contents)});
    var s2 := s1.(flights := map[n := Waiting(o, Connected(n))], connected := s.connected + {n});
    ArriveWaits(digest, o, s, n);
    ReachableStep(digest, s, e);
    SpawnConnects(digest, o, s1, n);
    ReachableStep(digest, s1, SpawnOk(n, n));
    DescribeDescribes(digest, o, s2, n);
    ReachableStep(digest, s2, DescribeOk(n));
    assert s2.(flights := map[n := Waiting(o, Phase.Described(n))]) == Prepared(o, s, n);
  }

  lemma Finish(digest: Digest, o: Solo, s: Sys, n: nat)
    requires Reachable(digest, Prepared(o, s, n)) && NamesAfter(s, n)
    ensures Reachable(digest, DoCommit(Prepared(o, s, n), n, map[], Id(n)))
  {
    var e := Create(n, [Progress(PROGRESS_SUCCEEDED, Some(NO_RESULT))], Id(n));
    CreateCommits(digest, o, Prepared(o, s, n), n, e);
    ReachableStep(digest, Prepared(o, s, n), e);
  }

  lemma OneRound(digest: Digest, o: Solo, s: Sys, n: nat) returns (t: Sys)
    requires IsSolo(digest, o) && Reachable(digest, s)
    requires StoreAfter(o, s.st, n) && KilledAfter(s.killed, n) && NamesAfter(s, n)
    ensures Reachable(digest, t)
    ensures StoreAfter(o, t.st, n + 1) && KilledAfter(t.killed, n + 1) && NamesAfter(t, n + 1)
  {
    Prepare(digest, o, s, n);
    Finish(digest, o, s, n);
    t := DoCommit(Prepared(o, s, n), n, map[], Id(n));
    CommitStore(o, s.st, n);
    CommitKills(o, s.st, s.killed, n);
    CommitNames(o, s, Prepared(o, s, n), n);
  }

  lemma {:induction false} Rounds(digest: Digest, o: Solo, n: nat) returns (s: Sys)
    requires IsSolo(digest, o)
    ensures Reachable(digest, s)
    ensures StoreAfter(o, s.st, n) && KilledAfter(s.killed, n) && NamesAfter(s, n)
  {
    if n == 0 {
      s := INIT;
      assert s == Run(digest, []);
      assert LeasesOn(s.st, o.fp) == {};
    } else {
      s := Rounds(digest, o, n - 1);
      s := OneRound(digest, o, s, n - 1);
    }
  }

  /** For every fixture that allows one connection and every n, some run
      leaves n live leases on it, with used_slots at 1 and n - 1 plugins dead. */
  lemma AnyNumberOfLeases(digest: Digest, o: Solo, n: nat)
    requires IsSolo(digest, o) && n > 0
    ensures exists s: Sys ::
              && Reachable(digest, s)
              && o.fp in s.st.fixtures
              && s.st.fixtures[o.fp].usedSlots == 1
              && Live(s.st, o.fp) == n
              && |s.killed| == n - 1
  {
    var s := Rounds(digest, o, n);
  }

  // ------------------------------------------------------- overlapping windows

  /** Both requests are in the window, plugins connected and described. */
  function Both(o: Solo, a: Phase, b: Phase): map<nat, Flight> {
    map[0 := Waiting(o, a), 1 := Waiting(o, b)]
  }

  function Racing(o: Solo, a: Phase, b: Phase, connected: set<ProcessId>): Sys {
    INIT.(flights := Both(o, a, b), connected := connected, provisioned := {(o.desc, o.contents)})
  }

  lemma BothArrive(digest: Digest, o: Solo)
    requires Asks(digest, TakeLeaseRequest(Some(o.desc), o.client), Some(o.contents), o.fp)
    ensures Reachable(digest, Racing(o, Spawning, Spawning, {}))
  {
    var req := TakeLeaseRequest(Some(o.desc), o.client);
    var one := INIT.(flights := map[0 := Waiting(o, Spawning)], provisioned := {(o.desc, o.contents)});
    assert INIT == Run(digest, []);
    ArrivalStep(digest, INIT, 0, req, Some(o.contents), Id(0), o.fp);
    assert Apply(digest, INIT, Arrive(0, req, Some(o.contents), Id(0))) == one;
    ReachableStep(digest, INIT, Arrive(0, req, Some(o.contents), Id(0)));
    ArrivalStep(digest, one, 1, req, Some(o.contents), Id(0), o.fp);
    assert Apply(digest, one, Arrive(1, req, Some(o.contents), Id(0))) == Racing(o, Spawning, Spawning, {});
    ReachableStep(digest, one, Arrive(1, req, Some(o.contents), Id(0)));
  }

  lemma BothConnect(digest: Digest, o: Solo)
    requires Reachable(digest, Racing(o, Spawning, Spawning, {}))
    ensures Reachable(digest, Racing(o, Connected(0), Connected(1), {0, 1}))
  {
    var s0, s1 := Racing(o, Spawning, Spawning, {}), Racing(o, Connected(0), Spawning, {0});
    WindowMoves(digest, s0, 0, 0);
    assert Both(o, Spawning, Spawning)[0 := Waiting(o, Connected(0))] == Both(o, Connected(0), Spawning);
    assert Apply(digest, s0, SpawnOk(0, 0)) == s1;
    ReachableStep(digest, s0, SpawnOk(0, 0));
    WindowMoves(digest, s1, 1, 1);
    assert Both(o, Connected(0), Spawning)[1 := Waiting(o, Connected(1))] == Both(o, Connected(0), Connected(1));
    assert {0} + {1} == {0, 1};
    ReachableStep(digest, s1, SpawnOk(1, 1));
  }

  lemma BothDescribe(digest: Digest, o: Solo)
    requires Reachable(digest, Racing(o, Connected(0), Connected(1), {0, 1}))
    ensures Reachable(digest, Racing(o, Phase.Described(0), Phase.Described(1), {0, 1}))
  {
    var s0, s1 := Racing(o, Connected(0), Connected(1), {0, 1}), Racing(o, Phase.Described(0), Connected(1), {0, 1});
    WindowMoves(digest, s0, 0, 0);
    assert Both(o, Connected(0), Connected(1))[0 := Waiting(o, Phase.Described(0))] == Both(o, Phase.Described(0), Connected(1));
    ReachableStep(digest, s0, DescribeOk(0));
    WindowMoves(digest, s1, 1, 1);
    assert Both(o, Phase.Described(0), Connected(1))[1 := Waiting(o, Phase.Described(1))]
        == Both(o, Phase.Described(0), Phase.Described(1));
    ReachableStep(digest, s1, DescribeOk(1));
  }

  /** For every request that can be admitted, whatever its policy, some run has two
      of it in the window together, and both commit: two live leases, each granted
      its own outputs, on a record that counts one and whose other instance is
      dead. */
  lemma OverlappingCommits(digest: Digest, o: Solo, first: FixtureResult, second: FixtureResult)
    requires Asks(digest, TakeLeaseRequest(Some(o.desc), o.client), Some(o.contents), o.fp)
    ensures exists s: Sys, a: LeaseId, b: LeaseId ::
              && Reachable(digest, s) && a != b
              && s.replies == map[0 := Granted(a, first.outputs), 1 := Granted(b, second.outputs)]
              && s.st.leases == map[a := o.fp, b := o.fp]
              && o.fp in s.st.fixtures && s.st.fixtures[o.fp].usedSlots == 1
              && s.st.fixtures[o.fp].plugin == 1 && 0 in s.killed
              && StatusOutputs(s.st, a) == second.outputs
  {
    BothArrive(digest, o);
    BothConnect(digest, o);
    BothDescribe(digest, o);
    var s := Racing(o, Phase.Described(0), Phase.Described(1), {0, 1});
    var x, y := [Progress(4, Some(first))], [Progress(4, Some(second))];
    var a, b := Id(0), Id(1);
    assert SucceedsAt(x, 0, first) && SucceedsAt(y, 0, second) && |a| == 0 && |b| == 1;
    CommitRace(digest, s, 0, 1, a, b, x, y, 0, 0, first, second);
    var t := Apply(digest, Apply(digest, s, Create(0, x, a)), Create(1, y, b));
    assert t.replies == map[0 := Granted(a, first.outputs), 1 := Granted(b, second.outputs)];
    assert t.st.leases == map[a := o.fp, b := o.fp];
  }
}
