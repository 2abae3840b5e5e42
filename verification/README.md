# A verified model of the fixture coordinator and its runner

The system under study provisions test fixtures. A long-lived coordinator hands
out leases on fixtures, shares one provisioned instance among requests with the
same fingerprint, and owns the plugin process behind each instance. A short-lived
runner finds or starts the coordinator, takes one lease per fixture, injects the
fixtures' ports into the environment of the inner test, and releases everything on
the way out.

The project models five linked components and proves what their code guarantees,
over every input, every run and every reachable state.

| module | what it models |
|---|---|
| `Base`, `Ordering` | shared types, counting lemmas, bytewise key order |
| `Wire`, `Messages`, `Codec` | the Protocol Buffers encoding of a fixture description, a decoder, the canonical wire form |
| `Fingerprint` | the cache key: canonical encoding, hex, exactness |
| `PluginClient` | draining a creation stream, connecting with retry |
| `Store` | the coordinator's two maps, each locked region as a function, and a class that updates the maps in place |
| `Protocol` | the coordinator under concurrency: one event per locked region, requests in flight between them, failure or cancellation at every await |
| `Invariants` | what every step of that machine keeps |
| `Steps` | what each step does, guard and new state in full, and the race of two commits |
| `Ledger`, `Overcommit` | slots against leases: the exact ledger, the bound across replacement, a witness family for the conditions |
| `History` | who ever attached to an instance, who owns each process, which outputs a lease is told |
| `Startup` | runners and daemons racing for one directory, with crashes and stale sockets |
| `Naming`, `Env` | variable names, HOST/PORT pairs, merging environments |
| `Runner`, `Lifecycle` | the runner's acquire and release, composed with the concurrent coordinator |

## How runs are modelled

`Protocol.Apply` gives the state after one event and does nothing when the event
is not enabled, so every finite sequence of events is a run and `Reachable` means
"the result of some sequence". A request arrives (admission and the reuse attempt
in one locked region), its plugin connects, describes itself, and creates the
fixture, which ends in the commit; releases and queries come at any time, and any
request in flight may be aborted at any point. Histories (`instances`, `grants`,
`replies`) are recorded beside the state and consulted by no step.

Assumptions, made once:

- A freshly minted lease id is unused (UUIDv4, section 5.4 of RFC 9562).
- The mutex makes each locked region atomic.
- A reply is delivered, except where a step models failure. In particular a
  release reaches the coordinator; the runner ignores its error.
- SHA-256 (FIPS 180-4) is a parameter. Where exactness needs it, the digest is
  assumed not to collide on the byte strings at hand, never on all of them.
- Strings are their bytes; Rust and Go compare and order them bytewise.
- A sleep of n milliseconds advances the clock by at least n.

## Where the code differs from its documentation

- `DESIGN.md:553` frees a slot when `used_slots < maximum_concurrent_connections`;
  the code takes the larger of that and one (`coordinator.rs:91`), so a policy of
  zero or a negative number still has one slot. The model follows the code.
- `DESIGN.md:605` returns PENDING while a fixture is provisioned; the code
  provisions inside the call and answers SUCCEEDED or an error. That is what makes
  `Lifecycle.Execute` leave no lease behind.
- `env.bzl:11` says that the rule layer and the runner must agree on names. They
  agree exactly on names that start with no digit and have no two neighbouring
  separators (`Naming.NamingAgreement`); `a--b` and `1st` are outside.
- "`used_slots` equals the number of live leases" is false in general: one fixture
  per fingerprint is supported (`coordinator.rs:24`), so a request that finds no
  free slot replaces the record, resets the counter to one, and kills the plugin
  that earlier leases still use. `Ledger.ExactSlots` says exactly which step breaks
  the equality, and `Overcommit.AnyNumberOfLeases` builds, for every one-slot
  fixture and every n, a run with n live leases and `used_slots` of one. Two
  requests that overlap do the same under every policy
  (`Overcommit.OverlappingCommits`).
- The environment merge is reversible exactly when no overlay key contains `=`
  (`Env.MergeRoundTrip`).

## Model

| member | source | states |
|---|---|---|
| `Wire.VarintRoundTrip` | src/coordinator/src/fixture.rs:47-61 | reading a varint off the front of any buffer gives back the number written and exactly the bytes after it |
| `Wire.VarintExact` | src/coordinator/src/fixture.rs:47-61 | a byte string is the varint of n if and only if all bytes but the last have the top bit set, there is no high zero group, and its seven-bit groups, least first, sum to n |
| `Wire.FieldExact` | src/coordinator/src/fixture.rs:60-60 | a field is the varint of 8 * tag (number) or 8 * tag + 2 (record), then the varint of the number, or the varint of the length and the bytes |
| `Wire.MessageExact` | src/coordinator/src/fixture.rs:60-60 | a message is its fields' bytes one after the other, and nothing when there is none |
| `Wire.ParseRoundTrip` | src/coordinator/src/fixture.rs:47-61 | parsing recovers every list of fields from its bytes |
| `Codec.SignedRoundTrip` | src/proto/systemtestrs/src/lib.rs:45-46 | every int64, negative ones included, survives its 64-bit two's-complement varint |
| `Codec.UnsignedExact` | src/proto/systemtestrs/src/lib.rs:81-82 | a signed integer is written as its value modulo 2^64 |
| `Codec.SignedRoundTrip32` | src/proto/systemtestrs/src/lib.rs:34-36 | every int32 is recovered from the low half of its sign-extended varint |
| `Codec.ValueRoundTrip` | src/proto/systemtestrs/src/lib.rs:7-38 | every value is recovered, an unset oneof and a set but empty one told apart |
| `Codec.SharingRoundTrip` | src/proto/systemtestrs/src/lib.rs:41-64 | every sharing policy is recovered, each empty scope message at its own tag |
| `Codec.RoundTrip` | src/coordinator/src/fixture.rs:47-61 | decoding recovers every fixture description from its bytes: omitted defaults, oneofs, absent against empty sharing, nested messages, maps |
| `Codec.EncodeInjective` | src/coordinator/src/fixture.rs:47-61 | two descriptions have the same bytes if and only if they are equal |
| `Codec.CanonicalForm` | src/coordinator/src/fixture.rs:49-50 | a field list is the one written for a description if and only if it is in tag order and each tag carries exactly what the message definition prescribes: no default, a set oneof even when empty, one record per element, one entry per key in ascending order |
| `Codec.FormUnique` | src/coordinator/src/fixture.rs:49-50 | tag order and what each tag carries determine the field list |
| `Codec.EntryOrder` | src/coordinator/src/fixture.rs:49-50 | map entries are written in the one ascending order of their keys, however the keys were collected |
| `Codec.EntryForm` | src/proto/systemtestrs/src/lib.rs:70-72 | an entry carries its key at 1 and its encoded value at 2, each left out when default, and nothing else |
| `Codec.ValueForm` | src/proto/systemtestrs/src/lib.rs:24-37 | a value carries its set member alone, at tag 1, 3, 4 or 5, an integer modulo 2^64 |
| `Codec.SharingForm` | src/proto/systemtestrs/src/lib.rs:41-64 | a policy carries an empty record at the tag of its scope, then its connection limit at 4 modulo 2^64, left out when zero |
| `Codec.BlobForm` | src/proto/systemtestrs/src/lib.rs:17-23 | a blob carries its schema id at 1 and its contents at 2, each left out when empty |
| `Ordering.BelowBytewise` | src/proto/systemtestrs/src/lib.rs:70-72 | the key order spelt out: the strings agree up to some position, where the first ends or has the smaller byte |
| `Ordering.SortedKeysUnique` | src/proto/systemtestrs/src/lib.rs:70-72 | any ascending listing of a key set is the order of the map, so insertion order cannot show |
| `Fingerprint.HexRoundTrip` | src/coordinator/src/fixture.rs:70-72 | the hex string determines the bytes |
| `Fingerprint.HexAt` | src/coordinator/src/fixture.rs:70-72 | each byte becomes two lower-case digits, high half first |
| `Fingerprint.ComputeExact` | src/coordinator/src/fixture.rs:39-68 | the fingerprint of a binary-plugin description is the hex digest of its encoding with the name cleared and the path replaced by the hex digest of the contents; an unreadable binary has none |
| `Fingerprint.CanonicalExact` | src/coordinator/src/fixture.rs:51-61 | two canonical descriptions are equal if and only if the fixtures agree on everything but name and path, binaries by contents |
| `Fingerprint.FingerprintExact` | src/coordinator/src/fixture.rs:39-72 | without a digest collision on the inputs at hand, two requests get one fingerprint if and only if they agree on implementation, inputs, image and file inputs, sharing, startup timeout and plugin contents |
| `PluginClient.CreateFixture` | src/coordinator/src/plugin_client.rs:109-134 | the loop ends with the outcome of the first terminal item, or reports a stream that closed without one |
| `PluginClient.DrainExact` | src/coordinator/src/plugin_client.rs:109-134 | creation succeeds with a result if and only if some message has status 4 and that result and no earlier one is broken or has status 4 or 5 |
| `PluginClient.DrainIgnoresLater` | src/coordinator/src/plugin_client.rs:114-129 | nothing sent after the first terminal message changes the outcome |
| `PluginClient.ConnectWithRetry` | src/coordinator/src/plugin_client.rs:61-84 | between one and ceil(timeout / 50 ms) + 1 attempts; a channel if and only if the last attempt succeeded; each earlier attempt failed against a running child with time left; each error has its own cause |
| `Store.AdmitExact` | src/coordinator/src/coordinator.rs:68-84 | a request is admitted, under the fingerprint its description and file determine, if and only if it has a binary plugin whose file was read; no description or plugin is INVALID_ARGUMENT, a container UNIMPLEMENTED, an unreadable file INTERNAL |
| `Store.Coordinator.TryReuse` | src/coordinator/src/coordinator.rs:88-109 | the reuse region attaches exactly when a slot is free, at least one existing, and the scope lets the client in; it returns the stored outputs and otherwise changes nothing |
| `Store.Coordinator.Commit` | src/coordinator/src/coordinator.rs:147-160 | the commit region puts the record and the lease in place and nothing else |
| `Store.Coordinator.TakeLease` | src/coordinator/src/coordinator.rs:64-168 | a whole uninterrupted call, both maps spelt out: every refusal has its code and moves nothing; a reuse adds a slot and a lease; otherwise success needs a successful creation and records its outputs, the request's own policy (or one connection of its client), the client and one used slot |
| `Store.Coordinator.ReleaseLease` | src/coordinator/src/coordinator.rs:182-194 | removes the lease if it is there and lowers its record's counter by one, never below zero; both maps spelt out |
| `Store.Coordinator.Keepalive` | src/coordinator/src/coordinator.rs:170-180 | succeeds exactly for a known lease, with no effect |
| `Store.Coordinator.Status` | src/coordinator/src/coordinator.rs:196-216 | NOT_FOUND for an unknown lease, else the outputs of the record on its fingerprint |
| `Store.ReleaseAllIsReleaseSet` | src/coordinator/src/coordinator.rs:182-194 | any sequence of releases, with repeats and unknown ids, has the effect of the set: each counter ends at max(0, old - distinct live leases released) |
| `Store.ReleaseOrderIndependent` | src/coordinator/src/coordinator.rs:182-194 | two sequences over the same ids end in the same state |
| `Store.AttachThenRelease` | src/coordinator/src/coordinator.rs:88-194 | releasing a lease just obtained by reuse restores the exact prior state |
| `Steps.RecordedPolicy` | src/coordinator/src/coordinator.rs:140-157 | in every reachable state a record has the outputs, creator and policy of the live instance behind it: the policy its description declares, or one connection restricted to its client |
| `Steps.Refusal` | src/coordinator/src/coordinator.rs:69-84 | under concurrency a request that cannot be admitted is refused with its code and nothing else moves |
| `Steps.ReuseRule` | src/coordinator/src/coordinator.rs:53-109 | an admitted request with a fresh name, whoever else is in the window, is answered on arrival if and only if the recorded instance has a slot free by its own description and lets the client in; the whole new state either way |
| `Steps.WindowMoves` | src/coordinator/src/coordinator.rs:118-124 | a plugin that connects or describes itself moves its own request on, whoever else is in the window |
| `Steps.VerbatimOutputs` | src/coordinator/src/coordinator.rs:136-167 | a request that described its plugin, whoever else is in the window, commits with the outputs of the first terminal message if that is SUCCEEDED with a result, and is abandoned otherwise; the whole new state either way |
| `Steps.FailureIsClean` | src/coordinator/src/coordinator.rs:118-138 | any request in the window can fail or be cancelled; it leaves both maps unchanged, is answered with an error, and takes its own process with it and no other |
| `Steps.ReleaseStep` | src/coordinator/src/coordinator.rs:170-216 | a release is possible in every state, with the whole new state; a query moves nothing |
| `Steps.CommitRace` | src/coordinator/src/coordinator.rs:109-160 | two requests on one fingerprint in the window together both commit: both are granted their own outputs, two leases are added while used_slots is one, the earlier instance is killed, and status tells the first lease the second one's outputs |
| `Invariants.StepKeeps` | src/coordinator/src/coordinator.rs:64-194 | every event of every kind keeps the invariant that ties both maps, requests in flight, processes, grants and replies together |
| `Invariants.ReachableInv` | src/coordinator/src/coordinator.rs:22-217 | that invariant holds in every reachable state |
| `Ledger.SlotLedger` | src/coordinator/src/coordinator.rs:88-194 | in every reachable state 0 <= used_slots <= max(1, maximum), the maximum being that of the instance's description, and used_slots never exceeds the live leases; a fingerprint without a record has no lease |
| `Ledger.StaleMoves` | src/coordinator/src/coordinator.rs:147-194 | one event moves the leases the record does not count as stated: only a commit sets their number, to the previous lease total, and only a release at zero lowers it, by one |
| `Ledger.ExactLedger` | src/coordinator/src/coordinator.rs:88-194 | after every run the live leases of every fingerprint equal used_slots plus the ghost count folded over the run's events, which is never negative |
| `Ledger.ExactSlots` | src/coordinator/src/coordinator.rs:147-160 | from an exact state, an event keeps used_slots equal to the live leases if and only if it does not commit over a record with slots in use |
| `Ledger.ExactWithoutReplacement` | src/coordinator/src/coordinator.rs:88-194 | used_slots equals the live leases in every run that commits at most once for the fingerprint |
| `Ledger.LeaseBound` | src/coordinator/src/coordinator.rs:91-160 | live leases never exceed max(1, maximum) times the commits for the fingerprint, the maximum being that of the instance's description, without a digest collision on what was provisioned |
| `Ledger.DrainThenReuse` | src/coordinator/src/coordinator.rs:88-107 | once no lease is left on a fingerprint, whatever was replaced before, its counter is zero, and the next request for it that the instance's description lets in attaches without entering the window |
| `Ledger.ReleasingAllDrains` | src/coordinator/src/coordinator.rs:182-194 | a run that releases every live lease of a fingerprint, in any order among other ids, leaves no lease on it and its counter at zero |
| `Overcommit.AnyNumberOfLeases` | src/coordinator/src/coordinator.rs:24-160 | for every fixture that allows one connection and every n there is a run that ends with n live leases, used_slots of one and n - 1 killed plugins |
| `Overcommit.OverlappingCommits` | src/coordinator/src/coordinator.rs:109-160 | for every admissible request, whatever its policy, there is a run in which two of it overlap in the window and both commit |
| `History.SharingIsolation` | src/coordinator/src/coordinator.rs:53-160 | over whole histories a single-use instance serves exactly one lease ever, and one that is not unrestricted serves only leases of its creating client |
| `History.PluginPartition` | src/coordinator/src/coordinator.rs:118-157 | every process that connected is held by one request in flight, held by one record, or killed, and by exactly one of them; live ones number in-flight plus recorded |
| `History.OutputsForever` | src/coordinator/src/coordinator.rs:88-167 | after any further run, every lease on an instance was answered with its committed outputs, and a record of it stores no others |
| `History.StatusIntegrity` | src/coordinator/src/coordinator.rs:196-216 | every live lease has a record, so status never uses its empty fallback: it reports the latest commit's outputs, which are those granted when no later commit hit the fingerprint; the granted instance runs exactly that long |
| `Startup.Effects` | src/coordinator/src/bin/coordinator_local.rs:32-72 | what each effect does to the directory, whatever other processes are doing, with its guard in full |
| `Startup.NoSplitBrain` | src/coordinator/src/bin/coordinator_local.rs:32-72 | with any number of runners, daemons and crashes, at most one daemon is past the lock and whoever answers at the socket path is that one |
| `Startup.UnlinkIsSafe` | src/coordinator/src/bin/coordinator_local.rs:67-71 | no daemon removes or binds over a socket anyone listens on |
| `Startup.SameInstance` | src/coordinator/src/bin/coordinator_local.rs:48-83 | as long as a coordinator once reached is alive, every later connection reaches that same one |
| `Startup.DeadSocketRefuses` | src/runner/pkg/runner/coordinator.go:57-68 | a dead coordinator leaves a file that refuses connections and a free lock |
| `Startup.HolderServes` | src/coordinator/src/bin/coordinator_local.rs:62-80 | the lock holder left alone ends up reachable; a stale file stops it only if it could not be removed |
| `Startup.Host.CoordinatorMain` | src/coordinator/src/bin/coordinator_local.rs:48-83 | the daemon serves, reachable and holding the lock, exactly when it is still alive at the end; it loses the race exactly when the lock is held as it tries; with the lock free and the file removed it serves unless it is killed; a failed bind means a file that could not be removed |
| `Startup.Host.SocketAccepts` | src/runner/pkg/runner/coordinator.go:61-68 | the probe succeeds exactly when someone listens at the path |
| `Startup.Host.WaitForSocket` | src/runner/pkg/runner/coordinator.go:87-104 | polling ends within 100 dials, with whoever answered, or with a cancellation or time-out that has its cause |
| `Startup.Host.EnsureCoordinatorRunning` | src/runner/pkg/runner/coordinator.go:37-55 | succeeds exactly when someone listens at the end, and that is the lock holder; spawns nothing when the first probe succeeds; each error has its cause |
| `Naming.FragmentPass` | src/runner/pkg/runner/env.go:31-41 | the fragment equals one pass over the bytes of the name: digits and upper-case letters kept, lower-case ones lowered by 32, the first of a run of others an underscore and the rest dropped |
| `Naming.CollapseClean` | src/runner/pkg/runner/env.go:31-41 | a collapsed name has no neighbouring separators, and collapsing is idempotent |
| `Naming.PrefixExact` | systemtest/private/env.bzl:18-39 | the prefix is the name byte by byte, lower-case letters lowered by 32 and unsafe ones an underscore, with an underscore before a leading digit; only the empty name is refused |
| `Naming.EnvPrefix` | systemtest/private/env.bzl:20-39 | refuses exactly the empty name and otherwise yields a valid variable name |
| `Naming.NamingAgreement` | systemtest/private/env.bzl:11-39 | on every non-empty ASCII name the runner's fragment and the rule layer's prefix agree if and only if the name does not start with a digit and has no two neighbouring separators |
| `Env.ItoaExact` | src/runner/pkg/runner/env.go:65-65 | a port number is written as its decimal digits without a leading zero, after a minus sign if negative |
| `Env.PortEnvFromOutputs` | src/runner/pkg/runner/env.go:47-69 | fails, naming a culprit, exactly when some ports blob cannot be read; otherwise, for some visiting order, sets host under the name ending in _HOST and decimal number under the one ending in _PORT for every non-tunneled entry that no later one of the same names overrides, and sets no other variable |
| `Env.PortPairing` | src/runner/pkg/runner/env.go:47-69 | every injected variable is half of a HOST/PORT pair set from one and the same non-tunneled entry, however names collide |
| `Env.UnsharedInjected` | src/runner/pkg/runner/env.go:59-66 | a non-tunneled entry whose names no other shares has its host and number under its two names |
| `Env.InjectsMerge` | src/runner/pkg/runner/run.go:120-135 | copying another fixture's variables over replaces whole pairs, and the later entries win |
| `Env.MergeEnv` | src/runner/pkg/runner/exec.go:28-51 | every merged variable is listed exactly once, in some order |
| `Env.MergedValue` | src/runner/pkg/runner/exec.go:28-51 | a merged variable has the value of the last overlay that sets it, else of the last base string that gives it, and is set only then |
| `Env.MergeRoundTrip` | src/runner/pkg/runner/exec.go:28-51 | for every iteration order there is one string per variable, and splitting each at its first '=' gives the merge back if and only if no overlay key contains '=' |
| `Runner.PollUntilDone` | src/runner/pkg/runner/lease.go:77-100 | returns a status and outputs if and only if they are the first SUCCEEDED or FAILED answer and no error or deadline comes before it |
| `Runner.AcquireLease` | src/runner/pkg/runner/lease.go:32-73 | a lease is held if and only if the answer is SUCCEEDED, or PENDING and the first terminal status polled is SUCCEEDED, with the id answered and those outputs |
| `Runner.ReachableLater` | src/coordinator/src/coordinator.rs:64-194 | over any further run answers and grants are final and a lease that is gone stays gone |
| `Runner.World.TakeLease` | src/runner/pkg/runner/lease.go:40-49 | under any interleaving the call is answered SUCCEEDED with a lease granted to this client on the fingerprint its request determines, or with an error: that of its refusal, or INTERNAL once admitted; a request the record lets in is answered with the recorded outputs whatever follows |
| `Lifecycle.AcquireAll` | src/runner/pkg/runner/run.go:120-135 | leases are taken in fixture order up to the first failure, each for the right client and fixture; the failure is a refused request or an unreadable ports output, at that position; without failure the variables are those of all leases' port entries in turn, later ones winning |
| `Lifecycle.InjectedVisible` | src/runner/pkg/runner/exec.go:17-17 | the test sees an injected variable with its injected value unless its configuration sets it, whatever was inherited |
| `Lifecycle.ReleaseHeld` | src/runner/pkg/runner/run.go:113-118 | the deferred loop leaves none of the held leases in the coordinator, whatever others do meanwhile |
| `Lifecycle.Execute` | src/runner/pkg/runner/run.go:113-148 | whatever fails at whatever point, none of the leases granted to this runner's requests is left; with nobody else around and nothing in flight the lease map is the one it found; the test, if reached, runs in the merge of inherited, injected and configured variables, and its outcome is returned |

## Left out

- gRPC transport and the generated clients and servers: no decisions of their own.
- SHA-256, UUID generation, file reads and symlink resolution: parameters or assumptions.
- JSON, protojson and JUnit handling: the runner's parsed values are inputs, and reading a ports blob is a parameter.
- The dummy plugin, the Bazel rules other than the naming function, and the shell scripts: only easy members.
- TTL expiry, idle garbage collection, quota pools, error caching, the PENDING queue and remote mode: described in DESIGN.md and not implemented.
- Client ids and socket directory names: straight-line hashing of environment facts.
- The timing of the keepalive loop: its errors are ignored and a keepalive changes nothing.
- The default start-up timeout of 300 seconds: the retry loop takes the timeout as given.
- A plugin child that never connected: the source drops it without a kill, and the process partition counts connected processes only.
- UTF-8 validity of strings: the encoder never meets an invalid one, and the decoder here accepts any bytes.
- A plugin fixture in flight when the coordinator itself dies: a directory's next coordinator starts from empty maps, and the two machines are not composed.
- Codec.RoundTrip: the decoder is this model's own and reads only the two wire types the messages use; it does not bound the length of a varint.
- Naming.NamingAgreement: covers ASCII names; the two languages split other names into different units.
- Runner.AcquireLease: an id that came with a FAILED answer, or with a PENDING one that never succeeds, is forgotten by the code; this coordinator never sends one.
- Lifecycle.Execute: starts once the coordinator is reached, and takes the inner test as a function of its environment; a lost release reply is not modelled.
- Startup.Host.WaitForSocket: the text of the last dial error is not kept.
