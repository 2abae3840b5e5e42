/** A whole runner invocation (src/runner/pkg/runner/run.go): take one lease per
    fixture, run the test, and release on every way out. */
module Lifecycle {
  import opened Base
  import opened Messages
  import opened Fingerprint
  import opened Store
  import opened Protocol
  import opened Invariants
  import opened Naming
  import opened Env
  import opened Runner

  /** A resolved fixture; `file` is what reading its plugin binary yields. */
  datatype Fixture = Fixture(name: Str, desc: FixtureDescription, file: Option<Bytes>)

  datatype RunError = AcquireFailed(k: nat) | PortsFailed(k: nat) | TestFailed

  /** What everyone else does: during the k-th TakeLease call, while the test
      runs, and before the k-th release. */
  datatype Surroundings = Surroundings(
    taking: nat -> seq<Event>,
    testing: seq<Event>,
    releasing: nat -> seq<Event>)

  ghost predicate AllQuiet(others: Surroundings) {
    && (forall k: nat :: Quiet(others.taking(k)))
    && Quiet(others.testing)
    && (forall k: nat :: Quiet(others.releasing(k)))
  }

  function Ids(held: seq<ActiveLease>): set<LeaseId> {
    set l | l in held :: l.id
  }

  // ---------------------------------------------------------------- bookkeeping

  /** The lease is what the coordinator answered the request with. */
  ghost predicate Answers(s: Sys, q: nat, l: ActiveLease) {
    q in s.replies && s.replies[q] == Granted(l.id, l.outputs) && l.id in s.grants
  }

  /** The requests in order and the leases they were granted; one request more
      when that one was refused. */
  ghost predicate Tally(s: Sys, requests: seq<nat>, held: seq<ActiveLease>) {
    && |held| <= |requests| <= |held| + 1
    && (forall i :: 0 <= i < |held| ==> Answers(s, requests[i], held[i]))
    && (|requests| > |held| ==> requests[|held|] in s.replies && s.replies[requests[|held|]].Refused?)
  }

  lemma TallyLater(s: Sys, t: Sys, requests: seq<nat>, held: seq<ActiveLease>)
    requires Tally(s, requests, held) && Later(s, t)
    ensures Tally(t, requests, held)
  {
    forall i | 0 <= i < |held| ensures Answers(t, requests[i], held[i]) {
      assert Answers(s, requests[i], held[i]);
    }
  }

  lemma TallyGrant(s: Sys, t: Sys, requests: seq<nat>, held: seq<ActiveLease>, r: nat, l: ActiveLease)
    requires Tally(s, requests, held) && Later(s, t)
    requires |requests| == |held| && Answers(t, r, l)
    ensures Tally(t, requests + [r], held + [l])
  {
    TallyLater(s, t, requests, held);
  }

  lemma TallyRefusal(s: Sys, t: Sys, requests: seq<nat>, held: seq<ActiveLease>, r: nat)
    requires Tally(s, requests, held) && Later(s, t)
    requires |requests| == |held| && r in t.replies && t.replies[r].Refused?
    ensures Tally(t, requests + [r], held)
  {
    TallyLater(s, t, requests, held);
  }

  lemma TallyIds(s: Sys, requests: seq<nat>, held: seq<ActiveLease>)
    requires Tally(s, requests, held)
    ensures Ids(held) <= s.grants.Keys
  {
    forall l | l in held ensures l.id in s.grants {
      var i :| 0 <= i < |held| && held[i] == l;
      assert Answers(s, requests[i], held[i]);
    }
  }

  /** The lease was granted to this client, on the fixture it describes, which has
      a binary plugin that could be read. */
  ghost predicate Wanted(digest: Digest, s: Sys, id: LeaseId, clientId: Str, fx: Fixture) {
    HasBinary(fx.desc) && fx.file.Some? && GrantedTo(s, id, clientId, Identity(digest, fx.desc, fx.file.value))
  }

  ghost predicate AllWanted(digest: Digest, s: Sys, held: seq<ActiveLease>, clientId: Str, fixtures: seq<Fixture>) {
    |held| <= |fixtures| && forall i :: 0 <= i < |held| ==> Wanted(digest, s, held[i].id, clientId, fixtures[i])
  }

  lemma WantedLater(digest: Digest, s: Sys, t: Sys, id: LeaseId, clientId: Str, fx: Fixture)
    requires Wanted(digest, s, id, clientId, fx) && Later(s, t)
    ensures Wanted(digest, t, id, clientId, fx)
  {
  }

  lemma AllWantedLater(digest: Digest, s: Sys, t: Sys, held: seq<ActiveLease>, clientId: Str, fixtures: seq<Fixture>)
    requires AllWanted(digest, s, held, clientId, fixtures) && Later(s, t)
    ensures AllWanted(digest, t, held, clientId, fixtures)
  {
    forall i | 0 <= i < |held| ensures Wanted(digest, t, held[i].id, clientId, fixtures[i]) {
      WantedLater(digest, s, t, held[i].id, clientId, fixtures[i]);
    }
  }

  lemma AllWantedGrant(digest: Digest, s: Sys, t: Sys, held: seq<ActiveLease>, l: ActiveLease, clientId: Str, fixtures: seq<Fixture>)
    requires AllWanted(digest, s, held, clientId, fixtures) && Later(s, t)
    requires |held| < |fixtures| && Wanted(digest, t, l.id, clientId, fixtures[|held|])
    ensures AllWanted(digest, t, held + [l], clientId, fixtures)
  {
    AllWantedLater(digest, s, t, held, clientId, fixtures);
  }

  lemma IdsSnoc(held: seq<ActiveLease>, l: ActiveLease)
    ensures Ids(held + [l]) == Ids(held) + {l.id}
  {
    assert l in held + [l];
    forall x | x in held ensures x in held + [l] {
    }
  }

  /** None of the leases granted to these requests is left. */
  ghost predicate NoneLeft(s: Sys, requests: seq<nat>) {
    forall id :: id in s.grants && s.grants[id].request in requests ==> id !in s.st.leases
  }

  lemma AllReleased(s: Sys, requests: seq<nat>, held: seq<ActiveLease>)
    requires Tally(s, requests, held) && RepliesOk(s.flights, s.grants, s.replies)
    requires Ids(held) !! s.st.leases.Keys
    ensures NoneLeft(s, requests)
  {
    forall id | id in s.grants && s.grants[id].request in requests ensures id !in s.st.leases {
      var q := s.grants[id].request;
      assert s.replies[q] == Granted(id, s.grants[id].outputs);
      var i :| 0 <= i < |requests| && requests[i] == q;
      assert Answers(s, requests[i], held[i]);
      assert held[i] in held && held[i].id == id;
    }
  }

  /** With nobody else around, the list is all that was added. */
  ghost predicate Added(before: map<LeaseId, Fingerprint>, s: Sys, ids: set<LeaseId>) {
    s.flights == map[] && ids !! before.Keys && s.st.leases - ids == before
  }

  lemma AddedTake(before: map<LeaseId, Fingerprint>, s: Sys, t: Sys, ids: set<LeaseId>, r: nat)
    requires Added(before, s, ids) && t.flights == map[] && Alone(s.st.leases, t, r) && r in t.replies
    ensures Added(before, t, if t.replies[r].Granted? then ids + {t.replies[r].id} else ids)
  {
    if t.replies[r].Granted? {
      var id := t.replies[r].id;
      assert t.st.leases - (ids + {id}) == (t.st.leases - {id}) - ids;
      assert before.Keys <= s.st.leases.Keys;
    }
  }

  // -------------------------------------------------------------------- acquiring

  /** One lease: held exactly when the coordinator granted it. */
  method AcquireOne(w: World, fx: Fixture, clientId: Str, script: seq<Event>)
    returns (lease: Option<ActiveLease>, r: nat)
    requires Reachable(w.digest, w.sys)
    modifies w
    ensures Reachable(w.digest, w.sys) && Later(old(w.sys), w.sys)
    ensures r !in old(w.sys).replies && r in w.sys.replies
    ensures lease.Some? <==> w.sys.replies[r].Granted?
    ensures lease.Some? ==> Answers(w.sys, r, lease.value) && Wanted(w.digest, w.sys, lease.value.id, clientId, fx)
    ensures old(w.sys).flights == map[] && Quiet(script) ==>
              w.sys.flights == map[] && Alone(old(w.sys).st.leases, w.sys, r)
  {
    var answer;
    answer, r := w.TakeLease(TakeLeaseRequest(Some(fx.desc), clientId), fx.file, script);
    lease := AcquireLease(answer, []);
  }

  /** One list a lease taken so far: its port entries, in the order the fixture's
      outputs were visited. */
  ghost predicate Offered(parts: seq<seq<Offer>>, fixtures: seq<Fixture>, held: seq<ActiveLease>, parse: Parser) {
    && |parts| == |held| <= |fixtures|
    && forall k :: 0 <= k < |held| ==> Visits(parts[k], fixtures[k].name, held[k].outputs, parse)
  }

  /** The lists one after the other. */
  ghost function InTurn(parts: seq<seq<Offer>>): seq<Offer> {
    if parts == [] then [] else InTurn(parts[..|parts| - 1]) + parts[|parts| - 1]
  }

  lemma InTurnSnoc(parts: seq<seq<Offer>>, own: seq<Offer>)
    ensures InTurn(parts + [own]) == InTurn(parts) + own
  {
    assert (parts + [own])[..|parts|] == parts;
  }

  /** Where acquiring stopped: at a refused request, at a lease whose ports cannot
      be read, or after the last fixture. All leases before were fine. */
  ghost predicate Stopped(failed: Option<RunError>, fixtures: nat, requests: nat, held: seq<ActiveLease>, parse: Parser) {
    match failed
    case None =>
      requests == |held| == fixtures && EachReadable(held, parse)
    case Some(AcquireFailed(k)) =>
      k + 1 == requests == |held| + 1 <= fixtures && EachReadable(held, parse)
    case Some(PortsFailed(k)) =>
      k + 1 == requests == |held| <= fixtures && !AllReadable(held[k].outputs, parse) && EachReadable(held[..k], parse)
    case Some(TestFailed) => false
  }

  ghost predicate EachReadable(held: seq<ActiveLease>, parse: Parser) {
    forall i :: 0 <= i < |held| ==> AllReadable(held[i].outputs, parse)
  }

  /** How far the runner is, since `s0`: its requests, all new, and what came of
      them. */
  ghost predicate Progress(digest: Digest, s0: Sys, s: Sys, fixtures: seq<Fixture>, clientId: Str,
                           requests: seq<nat>, held: seq<ActiveLease>) {
    && Reachable(digest, s) && Later(s0, s)
    && Tally(s, requests, held)
    && AllWanted(digest, s, held, clientId, fixtures)
    && forall q :: q in requests ==> q !in s0.replies
  }

  lemma ProgressStart(digest: Digest, s: Sys, fixtures: seq<Fixture>, clientId: Str)
    requires Reachable(digest, s)
    ensures Progress(digest, s, s, fixtures, clientId, [], [])
    ensures s.flights == map[] ==> Added(s.st.leases, s, Ids([]))
  {
    assert s.st.leases - Ids([]) == s.st.leases;
  }

  lemma ProgressLater(digest: Digest, s0: Sys, s: Sys, t: Sys, fixtures: seq<Fixture>, clientId: Str,
                      requests: seq<nat>, held: seq<ActiveLease>)
    requires Progress(digest, s0, s, fixtures, clientId, requests, held)
    requires Reachable(digest, t) && Later(s, t)
    ensures Progress(digest, s0, t, fixtures, clientId, requests, held)
  {
    LaterTransitive(s0, s, t);
    TallyLater(s, t, requests, held);
    AllWantedLater(digest, s, t, held, clientId, fixtures);
  }

  lemma ProgressTake(digest: Digest, s0: Sys, s: Sys, t: Sys, fixtures: seq<Fixture>, clientId: Str,
                     requests: seq<nat>, held: seq<ActiveLease>, r: nat, lease: Option<ActiveLease>)
    requires Progress(digest, s0, s, fixtures, clientId, requests, held) && |requests| == |held| < |fixtures|
    requires Reachable(digest, t) && Later(s, t) && r !in s.replies && r in t.replies
    requires lease.None? ==> t.replies[r].Refused?
    requires lease.Some? ==> Answers(t, r, lease.value) && Wanted(digest, t, lease.value.id, clientId, fixtures[|held|])
    ensures Progress(digest, s0, t, fixtures, clientId, requests + [r], held + Taken(lease))
  {
    LaterTransitive(s0, s, t);
    if lease.Some? {
      TallyGrant(s, t, requests, held, r, lease.value);
      AllWantedGrant(digest, s, t, held, lease.value, clientId, fixtures);
    } else {
      TallyRefusal(s, t, requests, held, r);
      AllWantedLater(digest, s, t, held, clientId, fixtures);
      assert held + [] == held;
    }
  }

  function Taken(lease: Option<ActiveLease>): seq<ActiveLease> {
    if lease.Some? then [lease.value] else []
  }

  /** The next fixture's lease. */
  method AcquireNext(w: World, ghost s0: Sys, fixtures: seq<Fixture>, clientId: Str, script: seq<Event>,
                     ghost requests: seq<nat>, ghost held: seq<ActiveLease>, k: nat)
    returns (lease: Option<ActiveLease>, r: nat)
    requires Progress(w.digest, s0, w.sys, fixtures, clientId, requests, held)
    requires |requests| == |held| == k < |fixtures|
    modifies w
    ensures Progress(w.digest, s0, w.sys, fixtures, clientId, requests + [r], held + Taken(lease))
    ensures Added(s0.st.leases, old(w.sys), Ids(held)) && Quiet(script) ==>
              Added(s0.st.leases, w.sys, Ids(held + Taken(lease)))
  {
    ghost var s := w.sys;
    lease, r := AcquireOne(w, fixtures[k], clientId, script);
    ProgressTake(w.digest, s0, s, w.sys, fixtures, clientId, requests, held, r, lease);
    if Added(s0.st.leases, s, Ids(held)) && Quiet(script) {
      AddedTake(s0.st.leases, s, w.sys, Ids(held), r);
      if lease.Some? {
        IdsSnoc(held, lease.value);
      } else {
        assert held + [] == held;
      }
    }
  }

  /** The variables injected so far, from leases whose ports could be read. */
  ghost predicate Injected(fixtures: seq<Fixture>, held: seq<ActiveLease>, parse: Parser, env: Vars, parts: seq<seq<Offer>>) {
    && |held| <= |fixtures|
    && EachReadable(held, parse)
    && Offered(parts, fixtures, held, parse) && Injects(env, InTurn(parts))
  }

  lemma ReadableMore(held: seq<ActiveLease>, l: ActiveLease, parse: Parser)
    requires EachReadable(held, parse) && AllReadable(l.outputs, parse)
    ensures EachReadable(held + [l], parse)
  {
  }

  lemma OfferedMore(fixtures: seq<Fixture>, held: seq<ActiveLease>, l: ActiveLease, parse: Parser,
                    parts: seq<seq<Offer>>, own: seq<Offer>)
    requires Offered(parts, fixtures, held, parse) && |held| < |fixtures|
    requires Visits(own, fixtures[|held|].name, l.outputs, parse)
    ensures Offered(parts + [own], fixtures, held + [l], parse)
  {
    forall k | 0 <= k < |held| + 1
      ensures Visits((parts + [own])[k], fixtures[k].name, (held + [l])[k].outputs, parse)
    {
      if k < |held| {
        assert Visits(parts[k], fixtures[k].name, held[k].outputs, parse);
      }
    }
  }

  lemma InjectsTurn(env: Vars, parts: seq<seq<Offer>>, portEnv: Vars, own: seq<Offer>)
    requires Injects(env, InTurn(parts)) && Injects(portEnv, own)
    ensures Injects(env + portEnv, InTurn(parts + [own]))
  {
    InTurnSnoc(parts, own);
    InjectsMerge(env, InTurn(parts), portEnv, own);
  }

  /** The variables of the lease just taken, copied over those before. */
  method InjectNext(fixtures: seq<Fixture>, ghost held: seq<ActiveLease>, l: ActiveLease, k: nat, parse: Parser,
                    env: Vars, ghost parts: seq<seq<Offer>>)
    returns (more: Option<Vars>, ghost all: seq<seq<Offer>>)
    requires Injected(fixtures, held, parse, env, parts) && |held| == k < |fixtures|
    ensures more.Some? <==> AllReadable(l.outputs, parse)
    ensures more.Some? ==> Injected(fixtures, held + [l], parse, more.value, all)
  {
    var portEnv, own := PortEnvFromOutputs(fixtures[k].name, l.outputs, parse);
    all := parts + [own];
    if portEnv.Err? {
      return None, all;
    }
    ReadableMore(held, l, parse);
    OfferedMore(fixtures, held, l, parse, parts, own);
    InjectsTurn(env, parts, portEnv.value, own);
    var merged := Inject(env, portEnv.value);
    more := Some(merged);
  }

  /** Taking one lease a fixture, in order, up to the first that fails. */
  method AcquireAll(w: World, fixtures: seq<Fixture>, clientId: Str, parse: Parser, taking: nat -> seq<Event>)
    returns (failed: Option<RunError>, held: seq<ActiveLease>, requests: seq<nat>, env: Vars, ghost parts: seq<seq<Offer>>)
    requires Reachable(w.digest, w.sys)
    modifies w
    ensures Progress(w.digest, old(w.sys), w.sys, fixtures, clientId, requests, held)
    ensures Stopped(failed, |fixtures|, |requests|, held, parse)
    ensures Injects(env, InTurn(parts))
    ensures failed.None? ==> |held| == |fixtures| && Offered(parts, fixtures, held, parse)
    ensures old(w.sys).flights == map[] && (forall k: nat :: Quiet(taking(k))) ==>
              Added(old(w.sys).st.leases, w.sys, Ids(held))
  {
    held, requests, env, parts := [], [], map[], [];
    ProgressStart(w.digest, w.sys, fixtures, clientId);
    ghost var alone := w.sys.flights == map[] && forall k: nat :: Quiet(taking(k));
    var k := 0;
    while k < |fixtures|
      invariant 0 <= k <= |fixtures|
      invariant Progress(w.digest, old(w.sys), w.sys, fixtures, clientId, requests, held)
      invariant |requests| == |held| == k
      invariant Injected(fixtures, held, parse, env, parts)
      invariant alone ==> Added(old(w.sys).st.leases, w.sys, Ids(held))
    {
      var lease, r := AcquireNext(w, old(w.sys), fixtures, clientId, taking(k), requests, held, k);
      requests := requests + [r];
      if lease.None? {
        assert held + [] == held;
        failed := Some(AcquireFailed(k));
        return;
      }
      var more, all := InjectNext(fixtures, held, lease.value, k, parse, env, parts);
      held := held + [lease.value];
      if more.None? {
        failed := Some(PortsFailed(k));
        return;
      }
      env, parts := more.value, all;
      k := k + 1;
    }
    failed := None;
  }

  // -------------------------------------------------------------------- releasing

  lemma ReleasedGone(digest: Digest, s: Sys, id: LeaseId)
    ensures var t := Apply(digest, s, ReleaseLease(id));
            id !in t.st.leases && t.flights == s.flights && t.st.leases == s.st.leases - {id}
  {
  }

  method ReleaseOne(w: World, script: seq<Event>, id: LeaseId)
    requires Reachable(w.digest, w.sys)
    modifies w
    ensures Reachable(w.digest, w.sys) && Later(old(w.sys), w.sys)
    ensures id !in w.sys.st.leases
    ensures old(w.sys).flights == map[] && Quiet(script) ==>
              w.sys.flights == map[] && w.sys.st.leases == old(w.sys).st.leases - {id}
  {
    w.Meanwhile(script);
    ghost var t := w.sys;
    ReachableLater(w.digest, old(w.sys), script);
    if old(w.sys).flights == map[] && Quiet(script) {
      IdleRun(w.digest, old(w.sys), script);
    }
    w.Do(ReleaseLease(id));
    ReachableLaterStep(w.digest, t, ReleaseLease(id));
    LaterTransitive(old(w.sys), t, w.sys);
    ReleasedGone(w.digest, t, id);
  }

  /** The deferred loop: every lease on the list is gone afterwards. */
  method ReleaseHeld(w: World, held: seq<ActiveLease>, releasing: nat -> seq<Event>)
    requires Reachable(w.digest, w.sys) && Ids(held) <= w.sys.grants.Keys
    modifies w
    ensures Reachable(w.digest, w.sys) && Later(old(w.sys), w.sys)
    ensures Ids(held) !! w.sys.st.leases.Keys
    ensures old(w.sys).flights == map[] && (forall k: nat :: Quiet(releasing(k))) ==>
              w.sys.flights == map[] && w.sys.st.leases == old(w.sys).st.leases - Ids(held)
  {
    ghost var quiet := w.sys.flights == map[] && forall k: nat :: Quiet(releasing(k));
    var k := 0;
    assert Ids(held[..0]) == {};
    while k < |held|
      invariant 0 <= k <= |held|
      invariant Reachable(w.digest, w.sys) && Later(old(w.sys), w.sys)
      invariant Ids(held[..k]) !! w.sys.st.leases.Keys
      invariant quiet ==> w.sys.flights == map[] && w.sys.st.leases == old(w.sys).st.leases - Ids(held[..k])
    {
      ghost var s := w.sys;
      ReleaseOne(w, releasing(k), held[k].id);
      LaterTransitive(old(w.sys), s, w.sys);
      StillGone(old(w.sys), s, w.sys, held, k);
      if quiet {
        MinusOneMore(old(w.sys).st.leases, s.st.leases, w.sys.st.leases, held, k);
      }
      k := k + 1;
    }
    assert held[..k] == held;
  }

  lemma IdsPrefix(held: seq<ActiveLease>, k: nat)
    requires k < |held|
    ensures Ids(held[..k + 1]) == Ids(held[..k]) + {held[k].id}
    ensures Ids(held[..k]) <= Ids(held)
  {
    assert held[..k + 1] == held[..k] + [held[k]];
    IdsSnoc(held[..k], held[k]);
    forall id | id in Ids(held[..k]) ensures id in Ids(held) {
      var l :| l in held[..k] && l.id == id;
      assert l in held;
    }
  }

  lemma MinusOneMore(before: map<LeaseId, Fingerprint>, mid: map<LeaseId, Fingerprint>,
                     after: map<LeaseId, Fingerprint>, held: seq<ActiveLease>, k: nat)
    requires k < |held|
    requires mid == before - Ids(held[..k]) && after == mid - {held[k].id}
    ensures after == before - Ids(held[..k + 1])
  {
    IdsPrefix(held, k);
  }

  lemma StillGone(s0: Sys, s: Sys, t: Sys, held: seq<ActiveLease>, k: nat)
    requires k < |held| && Ids(held) <= s0.grants.Keys
    requires Later(s0, s) && Later(s, t) && Ids(held[..k]) !! s.st.leases.Keys
    requires held[k].id !in t.st.leases
    ensures Ids(held[..k + 1]) !! t.st.leases.Keys
  {
    IdsPrefix(held, k);
    forall id | id in Ids(held[..k]) ensures id !in t.st.leases {
      assert id in s0.grants && id in s.grants;
    }
  }

  // ------------------------------------------------------------------- everything

  /** The environment the inner test runs in: what the runner inherited, under the
      injected variables, under those of the test's own configuration. */
  datatype Surface = Surface(inherited: seq<Str>, configured: Vars)

  /** Unless the configuration sets it, the test sees an injected variable with the
      injected value, whatever it inherited. */
  lemma InjectedVisible(base: seq<Str>, env: Vars, configured: Vars, k: Str)
    requires k in env && k !in configured
    ensures var merged := Merged(base, [env, configured]); k in merged && merged[k] == env[k]
  {
    assert LastSets([env, configured], k, 0);
    MergedValue(base, [env, configured], k, 0);
  }

  /** Whatever fails, at whatever point, and whatever others do meanwhile, none of
      the leases granted to this runner's requests is left when it returns. With
      nobody else around the lease map is the one it found. The test, if it is
      reached, sees both variables of every port entry that no later one of the
      same names overrides, across all fixtures. */
  method Execute(w: World, fixtures: seq<Fixture>, clientId: Str, parse: Parser, surface: Surface,
                 test: seq<Str> -> Option<int>, others: Surroundings)
    returns (r: Result<int, RunError>, requests: seq<nat>, held: seq<ActiveLease>, env: Vars, ghost parts: seq<seq<Offer>>)
    requires Reachable(w.digest, w.sys)
    modifies w
    ensures Progress(w.digest, old(w.sys), w.sys, fixtures, clientId, requests, held)
    ensures NoneLeft(w.sys, requests)
    ensures old(w.sys).flights == map[] && AllQuiet(others) ==> w.sys.st.leases == old(w.sys).st.leases
    ensures Stopped(if r.Ok? || r.error.TestFailed? then None else Some(r.error), |fixtures|, |requests|, held, parse)
    ensures Injects(env, InTurn(parts))
    ensures r.Ok? || r.error.TestFailed? ==>
              && |held| == |fixtures| && Offered(parts, fixtures, held, parse)
              && exists vars :: Renders(vars, Merged(surface.inherited, [env, surface.configured])) &&
                   r == (if test(vars).Some? then Ok(test(vars).value) else Err(TestFailed))
  {
    var failed;
    failed, held, requests, env, parts := AcquireAll(w, fixtures, clientId, parse, others.taking);
    ghost var s := w.sys;
    ghost var alone := old(w.sys).flights == map[] && AllQuiet(others);
    if failed.Some? {
      r := Err(failed.value);
    } else {
      var vars := MergeEnv(surface.inherited, [env, surface.configured]);
      w.Meanwhile(others.testing);
      ReachableLater(w.digest, s, others.testing);
      ProgressLater(w.digest, old(w.sys), s, w.sys, fixtures, clientId, requests, held);
      if alone {
        IdleRun(w.digest, s, others.testing);
      }
      r := if test(vars).Some? then Ok(test(vars).value) else Err(TestFailed);
    }
    ghost var t := w.sys;
    TallyIds(t, requests, held);
    ReleaseHeld(w, held, others.releasing);
    ProgressLater(w.digest, old(w.sys), t, w.sys, fixtures, clientId, requests, held);
    ReachableInv(w.digest, w.sys);
    AllReleased(w.sys, requests, held);
  }
}
