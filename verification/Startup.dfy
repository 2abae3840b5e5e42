/** How one coordinator per directory comes up: any number of runners probe and
    spawn (src/runner/pkg/runner/coordinator.go), any number of daemons race for
    the file lock (src/coordinator/src/bin/coordinator_local.rs), and any process
    may die at any point, leaving its socket file behind. */
module Startup {
  import opened Base

  type Pid = nat

  /** How far a daemon has come in its `main`. */
  datatype Pc = Started | Locked | Unlinked | Serving

  /** `procs` are the live daemons, `spawned` all pids ever used, `lock` the
      process holding the lock file, and `socket` the process whose bind made the
      file at the socket path, dead or alive. */
  datatype Dir = Dir(procs: map<Pid, Pc>, spawned: set<Pid>, lock: Option<Pid>, socket: Option<Pid>)

  const FRESH := Dir(map[], {}, None, None)

  datatype Event =
    | Spawn(p: Pid)
    | TryLock(p: Pid)
    | Unlink(p: Pid, removed: bool) // the error of a failed removal is ignored
    | Bind(p: Pid)
    | Exit(p: Pid)                  // a crash, an error return, or the server ending

  predicate Alive(d: Dir, p: Pid, pc: Pc) {
    p in d.procs && d.procs[p] == pc
  }

  predicate Enabled(d: Dir, e: Event) {
    match e
    case Spawn(p) => p !in d.spawned
    case TryLock(p) => Alive(d, p, Started)
    case Unlink(p, _) => Alive(d, p, Locked)
    case Bind(p) => Alive(d, p, Unlinked)
    case Exit(p) => p in d.procs
  }

  /** The kernel drops a dead process's lock; its socket file stays. */
  function Gone(d: Dir, p: Pid): Dir {
    d.(procs := d.procs - {p}, lock := if d.lock == Some(p) then None else d.lock)
  }

  function Next(d: Dir, e: Event): Dir
    requires Enabled(d, e)
  {
    match e
    case Spawn(p) => d.(procs := d.procs[p := Started], spawned := d.spawned + {p})
    case TryLock(p) => if d.lock.None? then d.(procs := d.procs[p := Locked], lock := Some(p)) else Gone(d, p)
    case Unlink(p, removed) =>
      d.(procs := d.procs[p := Unlinked], socket := if removed then None else d.socket)
    case Bind(p) => if d.socket.None? then d.(procs := d.procs[p := Serving], socket := Some(p)) else Gone(d, p)
    case Exit(p) => Gone(d, p)
  }

  function Apply(d: Dir, e: Event): Dir {
    if Enabled(d, e) then Next(d, e) else d
  }

  function RunFrom(d: Dir, es: seq<Event>): Dir
    decreases |es|
  {
    if es == [] then d else RunFrom(Apply(d, es[0]), es[1..])
  }

  /** Whom a connection to the socket path reaches: the process that bound the
      file, if it is still listening. */
  function Dial(d: Dir): Option<Pid> {
    if d.socket.Some? && Alive(d, d.socket.value, Serving) then d.socket else None
  }

  /** What each effect does, whatever other processes are doing: a spawn always
      adds a daemon, the lock goes to whoever tries while it is free, a removal
      empties the path, a bind takes an empty path and fails on a file, and a death
      frees the lock and leaves the file. */
  lemma Effects(d: Dir, p: Pid, removed: bool)
    ensures p !in d.spawned ==>
              Apply(d, Spawn(p)) == d.(procs := d.procs[p := Started], spawned := d.spawned + {p})
    ensures p in d.procs && d.procs[p] == Started ==>
              Apply(d, TryLock(p)) ==
                if d.lock == None then d.(procs := d.procs[p := Locked], lock := Some(p))
                else d.(procs := d.procs - {p}, lock := if d.lock == Some(p) then None else d.lock)
    ensures p in d.procs && d.procs[p] == Locked ==>
              Apply(d, Unlink(p, removed)) ==
                d.(procs := d.procs[p := Unlinked], socket := if removed then None else d.socket)
    ensures p in d.procs && d.procs[p] == Unlinked ==>
              Apply(d, Bind(p)) ==
                if d.socket == None then d.(procs := d.procs[p := Serving], socket := Some(p))
                else d.(procs := d.procs - {p}, lock := if d.lock == Some(p) then None else d.lock)
    ensures p in d.procs ==>
              Apply(d, Exit(p)) == d.(procs := d.procs - {p}, lock := if d.lock == Some(p) then None else d.lock)
  {
  }

  // ---------------------------------------------------------------- invariant

  predicate PastLock(d: Dir, p: Pid) {
    p in d.procs && d.procs[p] != Started
  }

  ghost predicate Inv(d: Dir) {
    && d.procs.Keys <= d.spawned
    && (forall p: Pid :: PastLock(d, p) <==> d.lock == Some(p))
    && (forall p: Pid :: Alive(d, p, Serving) ==> d.socket == Some(p))
  }

  lemma StepKeeps(d: Dir, e: Event)
    requires Inv(d)
    ensures Inv(Apply(d, e))
  {
    var t := Apply(d, e);
    if Enabled(d, e) {
      forall p: Pid ensures PastLock(t, p) <==> t.lock == Some(p) {
        assert PastLock(d, p) <==> d.lock == Some(p);
        assert PastLock(d, e.p) <==> d.lock == Some(e.p);
      }
      forall p: Pid | Alive(t, p, Serving) ensures t.socket == Some(p) {
        assert PastLock(d, p) <==> d.lock == Some(p);
        assert PastLock(d, e.p) <==> d.lock == Some(e.p);
      }
    }
  }

  lemma {:induction false} RunKeeps(d: Dir, es: seq<Event>)
    requires Inv(d)
    ensures Inv(RunFrom(d, es))
    decreases |es|
  {
    if es != [] {
      StepKeeps(d, es[0]);
      RunKeeps(Apply(d, es[0]), es[1..]);
    }
  }

  ghost predicate Reachable(d: Dir) {
    exists es :: d == RunFrom(FRESH, es)
  }

  lemma ReachableInv(d: Dir)
    requires Reachable(d)
    ensures Inv(d)
  {
    var es :| d == RunFrom(FRESH, es);
    RunKeeps(FRESH, es);
  }

  // ------------------------------------------------------------------ theorems

  /** At most one daemon is past the lock, whoever listens at the path is that
      one, and it listens as long as it serves. */
  lemma NoSplitBrain(d: Dir, p: Pid, q: Pid)
    requires Reachable(d)
    ensures PastLock(d, p) && PastLock(d, q) ==> p == q
    ensures Dial(d).Some? ==> Dial(d) == d.lock
    ensures Alive(d, p, Serving) <==> Dial(d) == Some(p)
  {
    ReachableInv(d);
    assert PastLock(d, p) <==> d.lock == Some(p);
    if Dial(d).Some? {
      assert PastLock(d, Dial(d).value);
    }
  }

  /** No daemon removes, or binds over, a socket that someone is listening on. */
  lemma UnlinkIsSafe(d: Dir, e: Event)
    requires Reachable(d) && Enabled(d, e) && (e.Unlink? || e.Bind?)
    ensures forall p: Pid :: !Alive(d, p, Serving)
    ensures Dial(d) == None
  {
    ReachableInv(d);
    forall p: Pid ensures !Alive(d, p, Serving) {
      assert PastLock(d, e.p) && (PastLock(d, p) <==> d.lock == Some(p));
    }
  }

  lemma ServingStep(d: Dir, e: Event, p: Pid)
    requires Inv(d) && Alive(d, p, Serving)
    ensures var t := Apply(d, e); p in t.spawned && (p in t.procs ==> Alive(t, p, Serving))
  {
  }

  lemma {:induction false} SpawnedGrows(d: Dir, es: seq<Event>)
    ensures d.spawned <= RunFrom(d, es).spawned
    decreases |es|
  {
    if es != [] {
      SpawnedGrows(Apply(d, es[0]), es[1..]);
    }
  }

  lemma {:induction false} DeadStaysDead(d: Dir, es: seq<Event>, p: Pid)
    requires p in d.spawned && p !in d.procs
    ensures p !in RunFrom(d, es).procs
    decreases |es|
  {
    if es != [] {
      DeadStaysDead(Apply(d, es[0]), es[1..], p);
    }
  }

  lemma {:induction false} ServingStays(d: Dir, es: seq<Event>, p: Pid)
    requires Inv(d) && Alive(d, p, Serving) && p in RunFrom(d, es).procs
    ensures Alive(RunFrom(d, es), p, Serving)
    decreases |es|
  {
    if es != [] {
      var next := Apply(d, es[0]);
      StepKeeps(d, es[0]);
      ServingStep(d, es[0], p);
      if p !in next.procs {
        DeadStaysDead(next, es[1..], p);
      } else {
        ServingStays(next, es[1..], p);
      }
    }
  }

  /** As long as a coordinator someone reached is alive, whatever else is spawned
      or dies, every later connection reaches that same coordinator. */
  lemma SameInstance(d: Dir, es: seq<Event>, p: Pid)
    requires Reachable(d) && Dial(d) == Some(p) && p in RunFrom(d, es).procs
    ensures Dial(RunFrom(d, es)) == Some(p)
  {
    ReachableInv(d);
    ServingStays(d, es, p);
    RunKeeps(d, es);
  }

  /** A coordinator that dies leaves its file, which refuses connections, and the
      lock free for the next one. */
  lemma DeadSocketRefuses(d: Dir, p: Pid)
    requires Reachable(d) && Dial(d) == Some(p)
    ensures var t := Apply(d, Exit(p)); t.socket == Some(p) && Dial(t) == None && t.lock == None
  {
    ReachableInv(d);
    assert PastLock(d, p);
  }

  /** The lock holder, left alone, ends up reachable: a stale file does not stop
      it, unless it could not be removed. */
  lemma HolderServes(d: Dir, p: Pid)
    requires Reachable(d) && d.lock == Some(p)
    ensures PastLock(d, p)
    ensures d.procs[p] == Locked ==> Dial(RunFrom(d, [Unlink(p, true), Bind(p)])) == Some(p)
    ensures d.procs[p] == Unlinked ==> (Dial(RunFrom(d, [Bind(p)])) == Some(p) <==> d.socket == None)
    ensures d.procs[p] == Serving ==> Dial(d) == Some(p)
  {
    ReachableInv(d);
    assert PastLock(d, p);
    if d.procs[p] == Locked {
      var t := Apply(d, Unlink(p, true));
      assert [Unlink(p, true), Bind(p)][1..] == [Bind(p)];
      assert [Bind(p)][1..] == [];
      assert RunFrom(t, [Bind(p)]) == Apply(t, Bind(p));
    } else if d.procs[p] == Unlinked {
      assert [Bind(p)][1..] == [];
      assert RunFrom(d, [Bind(p)]) == Apply(d, Bind(p));
      assert !Alive(d, p, Serving);
    }
  }

  // --------------------------------------------- the programs, one effect at a time

  /** Steps of other processes, which may at most kill `me`. */
  predicate Others(es: seq<Event>, me: Pid) {
    forall i :: 0 <= i < |es| ==> es[i].p == me ==> es[i].Exit?
  }

  lemma {:induction false} OthersKeepMine(d: Dir, es: seq<Event>, me: Pid)
    requires Inv(d) && me in d.procs && Others(es, me)
    ensures var t := RunFrom(d, es);
            me in t.procs ==>
              t.procs[me] == d.procs[me] && (PastLock(d, me) ==> t.socket == d.socket && t.lock == d.lock)
    ensures Exit(me) !in es ==> me in RunFrom(d, es).procs
    decreases |es|
  {
    if es != [] {
      var next := Apply(d, es[0]);
      StepKeeps(d, es[0]);
      if me in next.procs {
        assert PastLock(d, me) <==> d.lock == Some(me);
        assert PastLock(d, es[0].p) <==> d.lock == Some(es[0].p);
        OthersKeepMine(next, es[1..], me);
      } else {
        DeadStaysDead(next, es[1..], me);
      }
    }
  }

  datatype Ended = LostRace | Died | BindFailed | Serves

  datatype WaitError = StartFailed | Cancelled | TimedOut

  const SOCKET_WAIT_MS := 10_000
  const POLL_MS := 100

  /** The directory as the operating system keeps it. */
  class Host {
    var procs: map<Pid, Pc>
    var spawned: set<Pid>
    var lock: Option<Pid>
    var socket: Option<Pid>

    ghost function View(): Dir
      reads this
    {
      Dir(procs, spawned, lock, socket)
    }

    constructor ()
      ensures View() == FRESH
    {
      procs, spawned, lock, socket := map[], {}, None, None;
    }

    method Do(e: Event)
      modifies this
      ensures View() == Apply(old(View()), e)
    {
      var d := Apply(Dir(procs, spawned, lock, socket), e);
      procs, spawned, lock, socket := d.procs, d.spawned, d.lock, d.socket;
    }

    /** Other processes run for a while. */
    method Meanwhile(es: seq<Event>)
      modifies this
      ensures View() == RunFrom(old(View()), es)
    {
      var i := 0;
      while i < |es|
        invariant 0 <= i <= |es|
        invariant RunFrom(View(), es[i..]) == RunFrom(old(View()), es)
      {
        assert es[i..][1..] == es[i + 1..];
        Do(es[i]);
        i := i + 1;
      }
    }

    method SocketAccepts() returns (ok: bool)
      ensures ok <==> Dial(View()).Some?
    {
      ok := socket.Some? && socket.value in procs && procs[socket.value] == Serving;
    }

    /** The daemon's `main`: lock, unlink, bind, serve, with other processes
        running before each effect. */
    method CoordinatorMain(me: Pid, m1: seq<Event>, m2: seq<Event>, removed: bool, m3: seq<Event>)
      returns (ended: Ended)
      requires Inv(View()) && me in procs && procs[me] == Started
      requires Others(m1, me) && Others(m2, me) && Others(m3, me)
      modifies this
      ensures Inv(View())
      ensures ended.Serves? <==> me in procs
      ensures ended.Serves? ==> Dial(View()) == Some(me) && lock == Some(me)
      ensures ended.LostRace? ==> lock.Some? && lock != Some(me) && View().socket == RunFrom(old(View()), m1).socket
      ensures Exit(me) !in m1 ==> (ended.LostRace? <==> RunFrom(old(View()), m1).lock.Some?)
      ensures Exit(me) !in m1 + m2 + m3 && RunFrom(old(View()), m1).lock.None? && removed ==> ended.Serves?
      ensures ended.Died? ==> Exit(me) in m1 + m2 + m3
      ensures ended.BindFailed? ==> !removed
    {
      ghost var d0 := View();
      Meanwhile(m1);
      RunKeeps(d0, m1);
      OthersKeepMine(d0, m1, me);
      if me !in procs {
        return Died;
      }
      ghost var d1 := View();
      Do(TryLock(me));
      StepKeeps(d1, TryLock(me));
      if me !in procs {
        return LostRace;
      }
      ghost var d2 := View();
      Meanwhile(m2);
      RunKeeps(d2, m2);
      OthersKeepMine(d2, m2, me);
      if me !in procs {
        return Died;
      }
      ghost var d3 := View();
      Do(Unlink(me, removed));
      StepKeeps(d3, Unlink(me, removed));
      ghost var d4 := View();
      Meanwhile(m3);
      RunKeeps(d4, m3);
      OthersKeepMine(d4, m3, me);
      if me !in procs {
        return Died;
      }
      ghost var d5 := View();
      Do(Bind(me));
      StepKeeps(d5, Bind(me));
      if me !in procs {
        return BindFailed;
      }
      assert PastLock(View(), me);
      return Serves;
    }

    /** Polls until the socket accepts or time is up. The world moves on before
        every dial; `clock(0)` is the time polling starts and `clock(i)` the time
        read before the i-th dial. */
    method WaitForSocket(world: nat -> seq<Event>, done: nat -> bool, clock: nat -> nat)
      returns (r: Result<Pid, WaitError>, dials: nat)
      requires Inv(View())
      requires clock(0) <= clock(1)
      requires forall i: nat :: i > 0 ==> clock(i) + 100 <= clock(i + 1)
      modifies this
      ensures Inv(View()) && old(spawned) <= spawned
      ensures r.Ok? ==> Dial(View()) == Some(r.value)
      ensures r.Err? ==> if dials == 0 then View() == old(View()) else Dial(View()) == None
      ensures r == Err(Cancelled) ==> dials > 0 && done(dials)
      ensures r == Err(TimedOut) ==> clock(dials + 1) >= clock(0) + 10_000
      ensures r != Err(StartFailed)
      ensures dials <= 100
      ensures dials > 0 ==> clock(dials) < clock(0) + 10_000
    {
      dials := 0;
      var deadline := clock(0) + SOCKET_WAIT_MS;
      while clock(dials + 1) < deadline
        invariant Inv(View()) && old(spawned) <= spawned
        invariant if dials == 0 then View() == old(View()) else Dial(View()) == None
        invariant clock(dials + 1) >= clock(0) + POLL_MS * dials
        invariant dials > 0 ==> clock(dials) < deadline && POLL_MS * (dials - 1) < SOCKET_WAIT_MS
        decreases SOCKET_WAIT_MS - POLL_MS * dials
      {
        ghost var d := View();
        dials := dials + 1;
        Meanwhile(world(dials));
        RunKeeps(d, world(dials));
        SpawnedGrows(d, world(dials));
        var up := SocketAccepts();
        if up {
          return Ok(socket.value), dials;
        }
        if done(dials) {
          return Err(Cancelled), dials;
        }
      }
      return Err(TimedOut), dials;
    }

    /** Probe, else spawn and wait. Whoever answers holds the lock. */
    method EnsureCoordinatorRunning(child: Pid, starts: bool, world: nat -> seq<Event>,
                                    done: nat -> bool, clock: nat -> nat)
      returns (r: Result<Pid, WaitError>, dials: nat)
      requires Inv(View())
      requires clock(0) <= clock(1)
      requires forall i: nat :: i > 0 ==> clock(i) + 100 <= clock(i + 1)
      modifies this
      ensures Inv(View())
      ensures r.Ok? <==> Dial(View()).Some?
      ensures r.Ok? ==> Dial(View()) == Some(r.value) && lock == Some(r.value)
      ensures old(Dial(View())).Some? || !starts ==> View() == old(View())
      ensures old(Dial(View())).None? && starts ==> child in spawned
      ensures r == Err(StartFailed) <==> old(Dial(View())).None? && !starts
      ensures r == Err(Cancelled) ==> dials > 0 && done(dials)
      ensures r == Err(TimedOut) ==> clock(dials + 1) >= clock(0) + 10_000
      ensures dials <= 100
      ensures dials > 0 ==> clock(dials) < clock(0) + 10_000
    {
      dials := 0;
      var up := SocketAccepts();
      if up {
        assert PastLock(View(), socket.value);
        return Ok(socket.value), 0;
      }
      if !starts {
        return Err(StartFailed), 0;
      }
      ghost var before := View();
      Do(Spawn(child));
      StepKeeps(before, Spawn(child));
      r, dials := WaitForSocket(world, done, clock);
      if r.Ok? {
        assert PastLock(View(), r.value);
      }
    }
  }
}
