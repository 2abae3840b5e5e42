/** The runner's side of leasing (src/runner/pkg/runner/lease.go and run.go),
    composed with the coordinator: other clients, and the coordinator's own work
    on this runner's requests, run between any two of its steps. */
module Runner {
  import opened Base
  import opened Messages
  import opened Fingerprint
  import opened PluginClient
  import opened Store
  import opened Protocol
  import opened Invariants
  import opened Steps

  // ---------------------------------------------------------- what never changes

  /** Answers and grants are final, and a lease that is gone stays gone. */
  ghost predicate Later(s: Sys, t: Sys) {
    && (forall r :: r in s.replies ==> r in t.replies && t.replies[r] == s.replies[r])
    && (forall id :: id in s.grants ==> id in t.grants && t.grants[id] == s.grants[id])
    && (forall id :: id in s.grants && id !in s.st.leases ==> id !in t.st.leases)
  }

  lemma LaterAdmitted(s: Sys, r: nat, fp: Fingerprint, desc: FixtureDescription, contents: Bytes, client: Str, id: LeaseId)
    requires Fresh(s, r, id)
    ensures Later(s, DoAdmitted(s, r, fp, desc, contents, client, id))
  {
  }

  lemma LaterArrive(digest: Digest, s: Sys, r: nat, req: TakeLeaseRequest, file: Option<Bytes>, id: LeaseId)
    requires Fresh(s, r, id)
    ensures Later(s, DoArrive(digest, s, r, req, file, id))
  {
    var admitted := Admit(digest, req, file);
    if admitted.Ok? {
      LaterAdmitted(s, r, admitted.value, req.fixture.value, file.value, req.clientId, id);
    }
  }

  lemma LaterAbort(s: Sys, r: nat)
    requires RepliesOk(s.flights, s.grants, s.replies) && r in s.flights
    ensures Later(s, DoAbort(s, r))
  {
  }

  lemma LaterCommit(s: Sys, r: nat, outputs: Outputs, id: LeaseId)
    requires RepliesOk(s.flights, s.grants, s.replies)
    requires r in s.flights && s.flights[r].phase.Described? && id !in s.grants
    ensures Later(s, DoCommit(s, r, outputs, id))
  {
  }

  lemma LaterStep(digest: Digest, s: Sys, e: Event)
    requires RepliesOk(s.flights, s.grants, s.replies)
    ensures Later(s, Apply(digest, s, e))
  {
    if Enabled(s, e) {
      match e
      case Arrive(r, req, file, id) => LaterArrive(digest, s, r, req, file, id);
      case Abort(r) => LaterAbort(s, r);
      case Create(r, stream, id) =>
        if Drain(stream).Ok? {
          LaterCommit(s, r, Drain(stream).value.outputs, id);
        } else {
          LaterAbort(s, r);
        }
      case _ =>
    }
  }

  lemma LaterTransitive(s: Sys, t: Sys, u: Sys)
    requires Later(s, t) && Later(t, u)
    ensures Later(s, u)
  {
  }

  lemma {:induction false} LaterRun(digest: Digest, s: Sys, es: seq<Event>)
    requires Inv(digest, s)
    ensures Inv(digest, RunFrom(digest, s, es)) && Later(s, RunFrom(digest, s, es))
    decreases |es|
  {
    if es != [] {
      var next := Apply(digest, s, es[0]);
      StepKeeps(digest, s, es[0]);
      LaterStep(digest, s, es[0]);
      LaterRun(digest, next, es[1..]);
      LaterTransitive(s, next, RunFrom(digest, next, es[1..]));
    }
  }

  lemma ReachableLater(digest: Digest, s: Sys, es: seq<Event>)
    requires Reachable(digest, s)
    ensures Reachable(digest, RunFrom(digest, s, es)) && Later(s, RunFrom(digest, s, es))
  {
    ReachableRun(digest, s, es);
    ReachableInv(digest, s);
    LaterRun(digest, s, es);
  }

  lemma ReachableLaterStep(digest: Digest, s: Sys, e: Event)
    requires Reachable(digest, s)
    ensures Reachable(digest, Apply(digest, s, e)) && Later(s, Apply(digest, s, e))
  {
    ReachableStep(digest, s, e);
    ReachableInv(digest, s);
    LaterStep(digest, s, e);
  }

  // ------------------------------------------------------------ nobody else around

  /** Nobody else asks for or releases a lease. */
  predicate Quiet(es: seq<Event>) {
    forall i :: 0 <= i < |es| ==> !es[i].Arrive? && !es[i].ReleaseLease?
  }

  /** The lease map, given that request `r` is the only one around. */
  ghost predicate Alone(before: map<LeaseId, Fingerprint>, s: Sys, r: nat) {
    && s.flights.Keys <= {r}
    && (r !in s.replies ==> s.st.leases == before)
    && (r in s.replies && s.replies[r].Refused? ==> s.st.leases == before)
    && (r in s.replies && s.replies[r].Granted? ==>
          s.replies[r].id !in before && s.st.leases - {s.replies[r].id} == before)
  }

  lemma AddAndRemove(m: map<LeaseId, Fingerprint>, id: LeaseId, fp: Fingerprint)
    requires id !in m
    ensures m[id := fp] - {id} == m
  {
  }

  lemma AloneCommit(before: map<LeaseId, Fingerprint>, s: Sys, r: nat, outputs: Outputs, id: LeaseId)
    requires Alone(before, s, r) && LeasesOk(s.st, s.grants) && r !in s.replies
    requires r in s.flights && s.flights[r].phase.Described? && id !in s.grants
    ensures Alone(before, DoCommit(s, r, outputs, id), r)
  {
    AddAndRemove(s.st.leases, id, s.flights[r].fp);
  }

  lemma AloneArrive(digest: Digest, s: Sys, r: nat, req: TakeLeaseRequest, file: Option<Bytes>, id: LeaseId)
    requires LeasesOk(s.st, s.grants) && s.flights == map[] && Enabled(s, Arrive(r, req, file, id))
    ensures Alone(s.st.leases, DoArrive(digest, s, r, req, file, id), r)
  {
    var admitted := Admit(digest, req, file);
    if admitted.Ok? {
      AddAndRemove(s.st.leases, id, admitted.value);
    }
  }

  lemma AloneStep(digest: Digest, before: map<LeaseId, Fingerprint>, s: Sys, r: nat, e: Event)
    requires LeasesOk(s.st, s.grants) && RepliesOk(s.flights, s.grants, s.replies)
    requires Alone(before, s, r) && !e.Arrive? && !e.ReleaseLease?
    ensures Alone(before, Apply(digest, s, e), r)
  {
    if Enabled(s, e) && e.Create? && Drain(e.stream).Ok? {
      assert e.r == r;
      AloneCommit(before, s, r, Drain(e.stream).value.outputs, e.id);
    }
  }

  lemma {:induction false} AloneRun(digest: Digest, before: map<LeaseId, Fingerprint>, s: Sys, r: nat, es: seq<Event>)
    requires Inv(digest, s) && Alone(before, s, r) && Quiet(es)
    ensures Alone(before, RunFrom(digest, s, es), r)
    decreases |es|
  {
    if es != [] {
      StepKeeps(digest, s, es[0]);
      AloneStep(digest, before, s, r, es[0]);
      AloneRun(digest, before, Apply(digest, s, es[0]), r, es[1..]);
    }
  }

  lemma {:induction false} IdleRun(digest: Digest, s: Sys, es: seq<Event>)
    requires s.flights == map[] && Quiet(es)
    ensures var t := RunFrom(digest, s, es); t.flights == map[] && t.st == s.st
    decreases |es|
  {
    if es != [] {
      assert Apply(digest, s, es[0]) == s;
      IdleRun(digest, s, es[1..]);
    }
  }

  // ------------------------------------------------------------------ one lease

  datatype LeaseStatus = Unknown | Pending | Succeeded | Failed

  /** A TakeLease answer as the runner reads it. */
  datatype Response = Response(status: LeaseStatus, id: LeaseId, outputs: Outputs)

  /** What a tick of the polling loop brings: the deadline, or an answer. */
  datatype Tick = Deadline | StatusError | StatusReply(status: LeaseStatus, outputs: Outputs)

  /** Tick i answers SUCCEEDED or FAILED, and every tick before it answered
      something else. */
  ghost predicate AnswersAt(ticks: seq<Tick>, i: int, status: LeaseStatus, outputs: Outputs) {
    && 0 <= i < |ticks| && ticks[i] == StatusReply(status, outputs) && (status == Succeeded || status == Failed)
    && forall j :: 0 <= j < i ==> ticks[j].StatusReply? && ticks[j].status != Succeeded && ticks[j].status != Failed
  }

  datatype ActiveLease = ActiveLease(id: LeaseId, outputs: Outputs)

  /** Polls until a terminal status, an error, or the deadline, which is what
      comes once the ticks run out. */
  method PollUntilDone(ticks: seq<Tick>) returns (r: Option<(LeaseStatus, Outputs)>)
    ensures r.Some? ==> exists i :: AnswersAt(ticks, i, r.value.0, r.value.1)
    ensures r.None? ==> forall i, status, outputs :: !AnswersAt(ticks, i, status, outputs)
  {
    var i := 0;
    while i < |ticks|
      invariant 0 <= i <= |ticks|
      invariant forall j :: 0 <= j < i ==> ticks[j].StatusReply? && ticks[j].status != Succeeded && ticks[j].status != Failed
    {
      match ticks[i] {
        case Deadline => return None;
        case StatusError => return None;
        case StatusReply(status, outputs) =>
          if status.Succeeded? || status.Failed? {
            assert AnswersAt(ticks, i, status, outputs);
            return Some((status, outputs));
          }
      }
      i := i + 1;
    }
    return None;
  }

  lemma OneAnswer(ticks: seq<Tick>)
    ensures forall i, s, o, j, t, p :: AnswersAt(ticks, i, s, o) && AnswersAt(ticks, j, t, p) ==> i == j && s == t && o == p
  {
  }

  /** What the runner makes of an answer: it holds the lease exactly when that is
      SUCCEEDED, at once or, after PENDING, as the first terminal status polled.
      Otherwise the id it carried is forgotten. */
  method AcquireLease(answer: Result<Response, Code>, ticks: seq<Tick>) returns (r: Option<ActiveLease>)
    ensures r.Some? ==> answer.Ok? && r.value.id == answer.value.id
    ensures answer.Ok? && answer.value.status == Succeeded ==> r.Some? && r.value.outputs == answer.value.outputs
    ensures answer.Ok? && answer.value.status == Pending && r.Some? ==>
              exists i :: AnswersAt(ticks, i, Succeeded, r.value.outputs)
    ensures answer.Ok? && answer.value.status == Pending && r.None? ==>
              forall i, outputs :: !AnswersAt(ticks, i, Succeeded, outputs)
    ensures answer.Err? || answer.value.status == Unknown || answer.value.status == Failed ==> r.None?
  {
    if answer.Err? {
      return None;
    }
    var status, outputs := answer.value.status, answer.value.outputs;
    if status.Pending? {
      var polled := PollUntilDone(ticks);
      if polled.None? {
        return None;
      }
      status, outputs := polled.value.0, polled.value.1;
      OneAnswer(ticks);
    }
    if !status.Succeeded? {
      return None;
    }
    return Some(ActiveLease(answer.value.id, outputs));
  }

  // --------------------------------------------------------- the coordinator, shared

  lemma FreshNames(s: Sys)
    ensures exists r: nat :: r !in s.flights && r !in s.replies
    ensures exists id :: id !in s.grants
  {
    var n := UnusedNumber(s.flights.Keys + s.replies.Keys);
    assert n !in s.flights && n !in s.replies;
    var id := UnusedString(s.grants.Keys);
    assert id !in s.grants;
  }

  class World {
    const digest: Digest
    var sys: Sys

    constructor (digest: Digest)
      ensures this.digest == digest && sys == INIT
    {
      this.digest := digest;
      sys := INIT;
    }

    method Do(e: Event)
      modifies this
      ensures sys == Apply(digest, old(sys), e)
    {
      sys := Apply(digest, sys, e);
    }

    method Meanwhile(es: seq<Event>)
      modifies this
      ensures sys == RunFrom(digest, old(sys), es)
    {
      var i := 0;
      while i < |es|
        invariant 0 <= i <= |es|
        invariant RunFrom(digest, sys, es[i..]) == RunFrom(digest, old(sys), es)
      {
        assert es[i..][1..] == es[i + 1..];
        Do(es[i]);
        i := i + 1;
      }
    }

    /** The coordinator's side of a call: the request arrives under a new name,
        anything happens in `script`, and a request the script left in the window
        ends in an error. */
    method Serve(req: TakeLeaseRequest, file: Option<Bytes>, script: seq<Event>)
      returns (r: nat, ghost id: LeaseId)
      modifies this
      ensures Fresh(old(sys), r, id)
      ensures sys == Served(digest, old(sys), Arrive(r, req, file, id), script)
    {
      FreshNames(sys);
      r :| r !in sys.flights && r !in sys.replies;
      var lease :| lease !in sys.grants;
      Do(Arrive(r, req, file, lease));
      Meanwhile(script);
      if r in sys.flights {
        Do(Abort(r));
      }
      id := lease;
    }

    /** The call as the runner sees it. This coordinator answers SUCCEEDED or an
        error, never PENDING or FAILED. */
    method TakeLease(req: TakeLeaseRequest, file: Option<Bytes>, script: seq<Event>)
      returns (answer: Result<Response, Code>, r: nat)
      requires Reachable(digest, sys)
      modifies this
      ensures Reachable(digest, sys) && Later(old(sys), sys)
      ensures r !in old(sys).replies && r in sys.replies
      ensures answer.Ok? ==>
                answer.value.status == Succeeded && sys.replies[r] == Granted(answer.value.id, answer.value.outputs)
      ensures answer.Err? ==> sys.replies[r] == Refused(answer.error)
      ensures !Admissible(req, file) ==> answer.Err? && RefusedWith(req, file, answer.error)
      ensures Admissible(req, file) ==>
                var fp := Identity(digest, req.fixture.value, file.value);
                && (answer.Ok? ==> GrantedTo(sys, answer.value.id, req.clientId, fp))
                && (answer.Err? ==> answer.error == Internal)
                && (old(fp in sys.st.fixtures && TakesAnother(sys.st.fixtures[fp], req.clientId)) ==>
                      answer.Ok? && answer.value.outputs == old(sys.st.fixtures[fp].outputs))
      ensures old(sys).flights == map[] && Quiet(script) ==>
                sys.flights == map[] && Alone(old(sys).st.leases, sys, r)
    {
      ghost var before := sys;
      ghost var id;
      r, id := Serve(req, file, script);
      ghost var e := Arrive(r, req, file, id);
      ServedOk(digest, before, e, script);
      ServedFor(digest, before, e, script);
      match sys.replies[r] {
        case Granted(lease, outputs) => answer := Ok(Response(Succeeded, lease, outputs));
        case Refused(code) => answer := Err(code);
      }
    }
  }

  /** Where a TakeLease call leaves the coordinator. */
  function Served(digest: Digest, s: Sys, arrival: Event, script: seq<Event>): Sys
    requires arrival.Arrive?
  {
    var t := RunFrom(digest, Apply(digest, s, arrival), script);
    if arrival.r in t.flights then Apply(digest, t, Abort(arrival.r)) else t
  }

  /** A request that arrived is in the window until it is answered. */
  lemma {:induction false} Answered(digest: Digest, s: Sys, es: seq<Event>, r: nat)
    requires r in s.flights || r in s.replies
    ensures var t := RunFrom(digest, s, es); r in t.flights || r in t.replies
    decreases |es|
  {
    if es != [] {
      AnsweredStep(digest, s, es[0], r);
      Answered(digest, Apply(digest, s, es[0]), es[1..], r);
    }
  }

  lemma AnsweredStep(digest: Digest, s: Sys, e: Event, r: nat)
    requires r in s.flights || r in s.replies
    ensures var t := Apply(digest, s, e); r in t.flights || r in t.replies
  {
    if Enabled(s, e) && e.Create? && Drain(e.stream).Err? {
      assert Apply(digest, s, e) == DoAbort(s, e.r);
    }
  }

  lemma AbortAnswers(digest: Digest, s: Sys, r: nat)
    requires r in s.flights
    ensures r in Apply(digest, s, Abort(r)).replies
  {
    assert Apply(digest, s, Abort(r)) == DoAbort(s, r);
  }

  lemma ServedLater(digest: Digest, s: Sys, e: Event, script: seq<Event>)
    requires Reachable(digest, s) && e.Arrive? && Enabled(s, e)
    ensures var t := Served(digest, s, e, script);
            Reachable(digest, t) && Later(s, t) && e.r in t.replies
  {
    var s1 := Apply(digest, s, e);
    var s2 := RunFrom(digest, s1, script);
    ReachableLaterStep(digest, s, e);
    ReachableLater(digest, s1, script);
    LaterTransitive(s, s1, s2);
    ArrivalAdmitted(digest, s, e);
    Answered(digest, s1, script, e.r);
    if e.r in s2.flights {
      ReachableLaterStep(digest, s2, Abort(e.r));
      LaterTransitive(s, s2, Apply(digest, s2, Abort(e.r)));
      AbortAnswers(digest, s2, e.r);
    }
  }

  // ----------------------------------------------------- the lease that was asked for

  /** The lease was granted to the client, on the fingerprint. */
  ghost predicate GrantedTo(s: Sys, id: LeaseId, client: Str, fp: Fingerprint) {
    id in s.grants && s.grants[id].client == client && s.grants[id].fp == fp
  }

  /** Request `r`, in the window or answered, is for the client and fingerprint,
      and an error it was answered with is INTERNAL. */
  ghost predicate Tracked(s: Sys, r: nat, client: Str, fp: Fingerprint) {
    && (r in s.flights || r in s.replies)
    && (r in s.flights ==> s.flights[r].client == client && s.flights[r].fp == fp)
    && (r in s.replies && s.replies[r].Granted? ==> GrantedTo(s, s.replies[r].id, client, fp))
    && (r in s.replies && s.replies[r].Refused? ==> s.replies[r].code == Internal)
  }

  lemma TrackedCommit(s: Sys, q: nat, outputs: Outputs, id: LeaseId, r: nat, client: Str, fp: Fingerprint)
    requires Tracked(s, r, client, fp) && q in s.flights && s.flights[q].phase.Described? && id !in s.grants
    ensures Tracked(DoCommit(s, q, outputs, id), r, client, fp)
  {
  }

  lemma TrackedAdmitted(s: Sys, q: nat, on: Fingerprint, desc: FixtureDescription, contents: Bytes, who: Str, id: LeaseId,
                        r: nat, client: Str, fp: Fingerprint)
    requires Tracked(s, r, client, fp) && q != r && id !in s.grants
    ensures Tracked(DoAdmitted(s, q, on, desc, contents, who, id), r, client, fp)
  {
  }

  lemma TrackedArrive(digest: Digest, s: Sys, e: Event, r: nat, client: Str, fp: Fingerprint)
    requires Tracked(s, r, client, fp) && e.Arrive? && Enabled(s, e)
    ensures Tracked(DoArrive(digest, s, e.r, e.req, e.file, e.id), r, client, fp)
  {
    var admitted := Admit(digest, e.req, e.file);
    if admitted.Ok? {
      TrackedAdmitted(s, e.r, admitted.value, e.req.fixture.value, e.file.value, e.req.clientId, e.id, r, client, fp);
    }
  }

  lemma TrackedStep(digest: Digest, s: Sys, e: Event, r: nat, client: Str, fp: Fingerprint)
    requires Tracked(s, r, client, fp)
    ensures Tracked(Apply(digest, s, e), r, client, fp)
  {
    if Enabled(s, e) {
      match e
      case Arrive(_, _, _, _) => TrackedArrive(digest, s, e, r, client, fp);
      case Create(q, stream, id) =>
        if Drain(stream).Ok? {
          TrackedCommit(s, q, Drain(stream).value.outputs, id, r, client, fp);
        } else {
          assert Apply(digest, s, e) == DoAbort(s, q);
        }
      case _ =>
    }
  }

  lemma {:induction false} TrackedRun(digest: Digest, s: Sys, es: seq<Event>, r: nat, client: Str, fp: Fingerprint)
    requires Tracked(s, r, client, fp)
    ensures Tracked(RunFrom(digest, s, es), r, client, fp)
    decreases |es|
  {
    if es != [] {
      TrackedStep(digest, s, es[0], r, client, fp);
      TrackedRun(digest, Apply(digest, s, es[0]), es[1..], r, client, fp);
    }
  }

  lemma AdmittedTracked(s: Sys, r: nat, fp: Fingerprint, desc: FixtureDescription, contents: Bytes, client: Str, id: LeaseId)
    requires r !in s.flights && r !in s.replies
    ensures Tracked(DoAdmitted(s, r, fp, desc, contents, client, id), r, client, fp)
  {
  }

  lemma ArrivalAdmitted(digest: Digest, s: Sys, e: Event)
    requires e.Arrive? && Enabled(s, e)
    ensures var admitted := Admit(digest, e.req, e.file);
            if admitted.Ok? then Tracked(Apply(digest, s, e), e.r, e.req.clientId, admitted.value)
            else e.r in Apply(digest, s, e).replies && Apply(digest, s, e).replies[e.r] == Refused(admitted.error)
  {
    var admitted := Admit(digest, e.req, e.file);
    if admitted.Ok? {
      AdmittedTracked(s, e.r, admitted.value, e.req.fixture.value, e.file.value, e.req.clientId, e.id);
    }
  }

  /** Whatever happened meanwhile, a request is answered for what it asked, and one
      answered on arrival keeps that answer. */
  lemma ServedFor(digest: Digest, s: Sys, e: Event, script: seq<Event>)
    requires Reachable(digest, s) && e.Arrive? && Fresh(s, e.r, e.id)
    ensures var t := Served(digest, s, e, script);
            if Admissible(e.req, e.file) then
              var fp := Identity(digest, e.req.fixture.value, e.file.value);
              && Tracked(t, e.r, e.req.clientId, fp)
              && (fp in s.st.fixtures && TakesAnother(s.st.fixtures[fp], e.req.clientId) ==>
                    e.r in t.replies && t.replies[e.r] == Granted(e.id, s.st.fixtures[fp].outputs))
            else
              e.r in t.replies && t.replies[e.r].Refused? && RefusedWith(e.req, e.file, t.replies[e.r].code)
  {
    AnswerKept(digest, s, e, script);
    AdmitExact(digest, e.req, e.file);
    var admitted := Admit(digest, e.req, e.file);
    if admitted.Ok? {
      ServedTracked(digest, s, e, script, admitted.value);
      ArrivalStep(digest, s, e.r, e.req, e.file, e.id, admitted.value);
    } else {
      Refusal(digest, s, e.r, e.req, e.file, e.id, admitted.error);
    }
  }

  lemma ServedTracked(digest: Digest, s: Sys, e: Event, script: seq<Event>, fp: Fingerprint)
    requires e.Arrive? && Fresh(s, e.r, e.id) && Admit(digest, e.req, e.file) == Ok(fp)
    ensures Tracked(Served(digest, s, e, script), e.r, e.req.clientId, fp)
  {
    var s1 := Apply(digest, s, e);
    var s2 := RunFrom(digest, s1, script);
    ArrivalAdmitted(digest, s, e);
    TrackedRun(digest, s1, script, e.r, e.req.clientId, fp);
    TrackedStep(digest, s2, Abort(e.r), e.r, e.req.clientId, fp);
  }

  /** An answer given on arrival is final. */
  lemma AnswerKept(digest: Digest, s: Sys, e: Event, script: seq<Event>)
    requires Reachable(digest, s) && e.Arrive?
    ensures var s1, t := Apply(digest, s, e), Served(digest, s, e, script);
            e.r in s1.replies ==> e.r in t.replies && t.replies[e.r] == s1.replies[e.r]
  {
    var s1 := Apply(digest, s, e);
    var s2 := RunFrom(digest, s1, script);
    ReachableStep(digest, s, e);
    ReachableLater(digest, s1, script);
    ReachableLaterStep(digest, s2, Abort(e.r));
  }

  lemma AloneStart(digest: Digest, s: Sys, e: Event)
    requires LeasesOk(s.st, s.grants) && s.flights == map[] && e.Arrive? && Enabled(s, e)
    ensures Alone(s.st.leases, Apply(digest, s, e), e.r)
  {
    AloneArrive(digest, s, e.r, e.req, e.file, e.id);
  }

  lemma AloneEnd(digest: Digest, before: map<LeaseId, Fingerprint>, s: Sys, r: nat)
    requires Alone(before, s, r) && RepliesOk(s.flights, s.grants, s.replies)
    ensures var t := if r in s.flights then Apply(digest, s, Abort(r)) else s;
            t.flights == map[] && Alone(before, t, r)
  {
    assert (s.flights - {r}).Keys == {};
    if r in s.flights {
      assert Apply(digest, s, Abort(r)) == DoAbort(s, r);
    } else {
      assert s.flights - {r} == s.flights;
    }
  }

  lemma ServedAlone(digest: Digest, s: Sys, e: Event, script: seq<Event>)
    requires Inv(digest, s) && e.Arrive? && Enabled(s, e) && s.flights == map[] && Quiet(script)
    ensures var t := Served(digest, s, e, script);
            t.flights == map[] && Alone(s.st.leases, t, e.r)
  {
    var s1 := Apply(digest, s, e);
    AloneStart(digest, s, e);
    StepKeeps(digest, s, e);
    AloneRun(digest, s.st.leases, s1, e.r, script);
    RunFromKeeps(digest, s1, script);
    AloneEnd(digest, s.st.leases, RunFrom(digest, s1, script), e.r);
  }

  lemma ServedOk(digest: Digest, s: Sys, e: Event, script: seq<Event>)
    requires Reachable(digest, s) && e.Arrive? && Enabled(s, e)
    ensures var t := Served(digest, s, e, script);
            && Reachable(digest, t) && Later(s, t) && e.r in t.replies
            && (s.flights == map[] && Quiet(script) ==> t.flights == map[] && Alone(s.st.leases, t, e.r))
  {
    ServedLater(digest, s, e, script);
    if s.flights == map[] && Quiet(script) {
      ReachableInv(digest, s);
      ServedAlone(digest, s, e, script);
    }
  }
}
