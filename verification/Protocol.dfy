/** The coordinator under concurrency, as a state machine. Each locked region of
    `take_lease` and `release_lease` is one step; between the reuse attempt and
    the commit a request is in flight and any other step may happen. Every await
    of the window may also fail or be cancelled.

    Assumed throughout: a minted lease id is unused (UUIDv4, section 5.4 of RFC
    9562), the mutex makes a locked region atomic, and a reply is delivered
    unless a step says otherwise. */
module Protocol {
  import opened Base
  import opened Messages
  import opened Fingerprint
  import opened PluginClient
  import opened Store

  /** How far the provisioning window of a request has come. */
  datatype Phase =
    | Spawning
    | Connected(plugin: ProcessId)
    | Described(plugin: ProcessId)

  datatype Flight = Flight(
    fp: Fingerprint,
    desc: FixtureDescription,
    contents: Bytes, // of the plugin binary, as read when the request came in
    client: Str,
    phase: Phase)

  datatype Reply = Granted(id: LeaseId, outputs: Outputs) | Refused(code: Code)

  /** A committed fixture instance, kept for good: `nth` counts the commits made
      for its fingerprint before it. */
  datatype Instance = Instance(
    fp: Fingerprint,
    desc: FixtureDescription,
    contents: Bytes,
    creator: Str,
    outputs: Outputs,
    nth: nat)

  /** A lease ever handed out, kept for good: to which request and client, on
      which instance, and with what outputs. */
  datatype Grant = Grant(
    request: nat,
    client: Str,
    fp: Fingerprint,
    plugin: ProcessId,
    outputs: Outputs)

  datatype Sys = Sys(
    st: State,
    flights: map<nat, Flight>,
    connected: set<ProcessId>, // every plugin process that ever connected
    killed: set<ProcessId>,
    // history, which no step consults
    instances: map<ProcessId, Instance>,
    grants: map<LeaseId, Grant>,
    replies: map<nat, Reply>,
    provisioned: set<(FixtureDescription, Bytes)>) // what entered the window

  const INIT := Sys(EMPTY, map[], {}, {}, map[], map[], map[], {})

  datatype Event =
    | Arrive(r: nat, req: TakeLeaseRequest, file: Option<Bytes>, id: LeaseId) // admission and reuse attempt
    | SpawnOk(r: nat, plugin: ProcessId)
    | DescribeOk(r: nat)
    | Abort(r: nat)                                                    // an await failed or was cancelled
    | Create(r: nat, stream: seq<StreamItem>, id: LeaseId)             // CreateFixture, then the commit
    | ReleaseLease(id: LeaseId)
    | Query(id: LeaseId)                                               // Keepalive or Status

  predicate HasPlugin(f: Flight) {
    !f.phase.Spawning?
  }

  predicate Enabled(s: Sys, e: Event) {
    match e
    case Arrive(r, _, _, id) => r !in s.flights && r !in s.replies && id !in s.grants
    case SpawnOk(r, p) => r in s.flights && s.flights[r].phase.Spawning? && p !in s.connected
    case DescribeOk(r) => r in s.flights && s.flights[r].phase.Connected?
    case Abort(r) => r in s.flights
    case Create(r, _, id) => r in s.flights && s.flights[r].phase.Described? && id !in s.grants
    case ReleaseLease(_) => true
    case Query(_) => true
  }

  type Instances = map<ProcessId, Instance>

  function InstancesOf(instances: Instances, fp: Fingerprint): set<ProcessId> {
    set p | p in instances && instances[p].fp == fp
  }

  /** The commits made for a fingerprint so far. */
  function Commits(instances: Instances, fp: Fingerprint): nat {
    |InstancesOf(instances, fp)|
  }

  // ------------------------------------------------------------------- steps

  function DoAttach(s: Sys, r: nat, fp: Fingerprint, client: Str, id: LeaseId): Sys
    requires CanAttach(s.st, fp, client)
  {
    var record := s.st.fixtures[fp];
    s.(st := Attach(s.st, fp, id),
       grants := s.grants[id := Grant(r, client, fp, record.plugin, record.outputs)],
       replies := s.replies[r := Granted(id, record.outputs)])
  }

  /** An admitted request attaches at once or enters the window. */
  function DoAdmitted(s: Sys, r: nat, fp: Fingerprint, desc: FixtureDescription, contents: Bytes, client: Str, id: LeaseId): Sys {
    if CanAttach(s.st, fp, client) then DoAttach(s, r, fp, client, id)
    else
      s.(flights := s.flights[r := Flight(fp, desc, contents, client, Spawning)],
         provisioned := s.provisioned + {(desc, contents)})
  }

  function DoArrive(digest: Digest, s: Sys, r: nat, req: TakeLeaseRequest, file: Option<Bytes>, id: LeaseId): Sys {
    match Admit(digest, req, file)
    case Err(code) => s.(replies := s.replies[r := Refused(code)])
    case Ok(fp) => DoAdmitted(s, r, fp, req.fixture.value, file.value, req.clientId, id)
  }

  predicate SameProcesses(s: Sys, t: Sys) {
    t.instances == s.instances && t.connected == s.connected && t.killed == s.killed
  }

  lemma AdmittedFrame(s: Sys, r: nat, fp: Fingerprint, desc: FixtureDescription, contents: Bytes, client: Str, id: LeaseId)
    ensures SameProcesses(s, DoAdmitted(s, r, fp, desc, contents, client, id))
  {
  }

  lemma ArriveFrame(digest: Digest, s: Sys, r: nat, req: TakeLeaseRequest, file: Option<Bytes>, id: LeaseId)
    ensures SameProcesses(s, DoArrive(digest, s, r, req, file, id))
  {
    var admitted := Admit(digest, req, file);
    if admitted.Ok? {
      AdmittedFrame(s, r, admitted.value, req.fixture.value, file.value, req.clientId, id);
    }
  }

  function SetPhase(s: Sys, r: nat, phase: Phase): Sys
    requires r in s.flights
  {
    s.(flights := s.flights[r := s.flights[r].(phase := phase)])
  }

  /** Dropping the request kills its plugin, if one had connected. */
  function DoAbort(s: Sys, r: nat): Sys
    requires r in s.flights
  {
    s.(flights := s.flights - {r},
       killed := s.killed + if HasPlugin(s.flights[r]) then {s.flights[r].phase.plugin} else {},
       replies := s.replies[r := Refused(Internal)])
  }

  /** Installing the record drops the one it replaces, which kills that plugin. */
  function DoCommit(s: Sys, r: nat, outputs: Outputs, id: LeaseId): Sys
    requires r in s.flights && s.flights[r].phase.Described?
  {
    var f := s.flights[r];
    var p := f.phase.plugin;
    s.(st := Install(s.st, f.fp, Store.Provisioned(f.desc, f.client, outputs, p), id),
       flights := s.flights - {r},
       killed := s.killed + if f.fp in s.st.fixtures then {s.st.fixtures[f.fp].plugin} else {},
       instances := s.instances[p := Instance(f.fp, f.desc, f.contents, f.client, outputs, Commits(s.instances, f.fp))],
       grants := s.grants[id := Grant(r, f.client, f.fp, p, outputs)],
       replies := s.replies[r := Granted(id, outputs)])
  }

  function DoCreate(s: Sys, r: nat, stream: seq<StreamItem>, id: LeaseId): Sys
    requires r in s.flights && s.flights[r].phase.Described?
  {
    match Drain(stream)
    case Err(_) => DoAbort(s, r)
    case Ok(result) => DoCommit(s, r, result.outputs, id)
  }

  function Next(digest: Digest, s: Sys, e: Event): Sys
    requires Enabled(s, e)
  {
    match e
    case Arrive(r, req, file, id) => DoArrive(digest, s, r, req, file, id)
    case SpawnOk(r, p) => SetPhase(s, r, Connected(p)).(connected := s.connected + {p})
    case DescribeOk(r) => SetPhase(s, r, Described(s.flights[r].phase.plugin))
    case Abort(r) => DoAbort(s, r)
    case Create(r, stream, id) => DoCreate(s, r, stream, id)
    case ReleaseLease(id) => s.(st := Release(s.st, id))
    case Query(_) => s
  }

  /** An event that is not enabled does nothing, so a run is any event sequence. */
  function Apply(digest: Digest, s: Sys, e: Event): Sys {
    if Enabled(s, e) then Next(digest, s, e) else s
  }

  function RunFrom(digest: Digest, s: Sys, es: seq<Event>): Sys
    decreases |es|
  {
    if es == [] then s else RunFrom(digest, Apply(digest, s, es[0]), es[1..])
  }

  /** The state every interleaving `es` of requests leads to. */
  function Run(digest: Digest, es: seq<Event>): Sys {
    RunFrom(digest, INIT, es)
  }

  lemma {:induction false} RunConcat(digest: Digest, s: Sys, es: seq<Event>, fs: seq<Event>)
    ensures RunFrom(digest, s, es + fs) == RunFrom(digest, RunFrom(digest, s, es), fs)
    decreases |es|
  {
    if es == [] {
      assert es + fs == fs;
    } else {
      RunConcat(digest, Apply(digest, s, es[0]), es[1..], fs);
      assert (es + fs)[1..] == es[1..] + fs;
    }
  }
}
