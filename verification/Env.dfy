/** The variables injected for fixture outputs (src/runner/pkg/runner/env.go) and
    the environment of the inner test (src/runner/pkg/runner/exec.go). Go maps
    are iterated in no particular order, so the loops here pick any remaining
    key, and what is proved holds for every order. */
module Env {
  import opened Base
  import opened Messages
  import opened Naming

  type Vars = map<Str, Str>

  /** `order` lists the keys, each once. */
  ghost predicate ListsKeys(order: seq<Str>, keys: set<Str>) {
    && (forall i, j :: 0 <= i < j < |order| ==> order[i] != order[j])
    && (forall k :: k in order <==> k in keys)
  }

  /** `order` is one way to iterate over the map. */
  ghost predicate Lists<V>(order: seq<Str>, m: map<Str, V>) {
    ListsKeys(order, m.Keys)
  }

  /** One more of the keys still to do. */
  lemma ListsNext(order: seq<Str>, all: set<Str>, todo: set<Str>, k: Str)
    requires ListsKeys(order, all - todo) && todo <= all && k in todo
    ensures ListsKeys(order + [k], all - (todo - {k}))
  {
    var longer := order + [k];
    forall i, j | 0 <= i < j < |longer| ensures longer[i] != longer[j] {
      assert longer[i] == order[i] && order[i] in order;
    }
  }

  // ------------------------------------------------------------ port variables

  /** "systemtest.ports" */
  const PORTS_SCHEMA_ID: Str :=
    [115, 121, 115, 116, 101, 109, 116, 101, 115, 116, 46, 112, 111, 114, 116, 115]

  /** "_HOST" and "_PORT" */
  const HOST_SUFFIX: Str := [95, 72, 79, 83, 84]
  const PORT_SUFFIX: Str := [95, 80, 79, 82, 84]

  datatype PortEntry = PortEntry(name: Str, tunnel: bool, host: Str, port: int)

  /** Reading the JSON of a ports blob. */
  type Parser = Bytes -> Option<seq<PortEntry>>

  function Digits(n: nat): Str {
    if n < 10 then [48 + n] else Digits(n / 10) + [48 + n % 10]
  }

  function Itoa(n: int): Str {
    if n < 0 then [45] + Digits(-n) else Digits(n)
  }

  function DigitsValue(s: Str): int {
    if s == [] then 0 else 10 * DigitsValue(s[..|s| - 1]) + s[|s| - 1] - 48
  }

  /** The decimal digits of a number, without a leading zero. */
  ghost predicate IsNatural(s: Str, n: nat) {
    && s != []
    && (forall i :: 0 <= i < |s| ==> 48 <= s[i] <= 57)
    && (|s| > 1 ==> s[0] != 48)
    && DigitsValue(s) == n
  }

  /** The number as text: its digits, after a minus sign if it is negative. */
  ghost predicate IsDecimal(s: Str, n: int) {
    if n < 0 then s != [] && s[0] == 45 && IsNatural(s[1..], -n) else IsNatural(s, n)
  }

  lemma {:induction false} DigitsExact(n: nat)
    ensures IsNatural(Digits(n), n)
    ensures n > 0 ==> Digits(n)[0] != 48
  {
    var s := Digits(n);
    if n < 10 {
      assert s[..0] == [];
    } else {
      DigitsExact(n / 10);
      assert s[..|s| - 1] == Digits(n / 10);
    }
  }

  lemma ItoaExact(n: int)
    ensures IsDecimal(Itoa(n), n)
  {
    DigitsExact(if n < 0 then -n else n);
    if n < 0 {
      assert Itoa(n)[1..] == Digits(-n);
    }
  }

  /** One port entry of one of a fixture's outputs. */
  datatype Offer = Offer(fixture: Str, entry: PortEntry)

  /** What the names of an entry's two variables have in common. */
  function Stem(o: Offer): Str {
    EnvFragment(o.fixture) + [95] + EnvFragment(o.entry.name)
  }

  /** Both variables are set from the entry: its host under the name that ends in
      "_HOST", its number in decimal under the one that ends in "_PORT". */
  ghost predicate Sets(env: Vars, o: Offer) {
    var host := EnvFragment(o.fixture) + [95] + EnvFragment(o.entry.name) + [95, 72, 79, 83, 84];
    var port := EnvFragment(o.fixture) + [95] + EnvFragment(o.entry.name) + [95, 80, 79, 82, 84];
    && host in env && env[host] == o.entry.host
    && port in env && IsDecimal(env[port], o.entry.port)
  }

  ghost predicate Names(o: Offer, key: Str) {
    || key == EnvFragment(o.fixture) + [95] + EnvFragment(o.entry.name) + [95, 72, 79, 83, 84]
    || key == EnvFragment(o.fixture) + [95] + EnvFragment(o.entry.name) + [95, 80, 79, 82, 84]
  }

  /** Entry i is not tunneled, and no later one of the same names is either. */
  ghost predicate Final(offers: seq<Offer>, i: int) {
    && 0 <= i < |offers| && !offers[i].entry.tunnel
    && forall j :: i < j < |offers| && !offers[j].entry.tunnel ==>
         EnvFragment(offers[j].fixture) + [95] + EnvFragment(offers[j].entry.name) !=
         EnvFragment(offers[i].fixture) + [95] + EnvFragment(offers[i].entry.name)
  }

  ghost predicate NamedBy(offers: seq<Offer>, key: Str) {
    exists i :: 0 <= i < |offers| && !offers[i].entry.tunnel && Names(offers[i], key)
  }

  /** The variables are those of the non-tunneled entries and no others, and of
      entries that share their names the last one sets both. */
  ghost predicate Injects(env: Vars, offers: seq<Offer>) {
    && (forall i :: Final(offers, i) ==> Sets(env, offers[i]))
    && (forall key :: key in env ==> NamedBy(offers, key))
  }

  lemma StemsApart(a: Str, b: Str)
    ensures a + [95, 72, 79, 83, 84] != b + [95, 80, 79, 82, 84]
    ensures a + [95, 72, 79, 83, 84] == b + [95, 72, 79, 83, 84] ==> a == b
    ensures a + [95, 80, 79, 82, 84] == b + [95, 80, 79, 82, 84] ==> a == b
  {
    var ah, bh := a + [95, 72, 79, 83, 84], b + [95, 72, 79, 83, 84];
    var ap, bp := a + [95, 80, 79, 82, 84], b + [95, 80, 79, 82, 84];
    assert ah[|a| + 1] == 72 && bp[|b| + 1] == 80 && |ah| == |a| + 5 && |bp| == |b| + 5;
    assert ah[..|a|] == a && bh[..|b|] == b && |bh| == |b| + 5;
    assert ap[..|a|] == a && bp[..|b|] == b && |ap| == |a| + 5;
  }

  /** Two entries that name one variable have the same stem. */
  lemma NamesStem(o: Offer, p: Offer, key: Str)
    requires Names(o, key) && Names(p, key)
    ensures Stem(o) == Stem(p)
  {
    StemsApart(Stem(o), Stem(p));
    StemsApart(Stem(p), Stem(o));
  }

  lemma NoneNamed(env: Vars, offers: seq<Offer>, o: Offer, key: Str)
    requires forall x :: x in env ==> NamedBy(offers, x)
    requires forall j :: 0 <= j < |offers| && !offers[j].entry.tunnel ==> Stem(offers[j]) != Stem(o)
    requires Names(o, key)
    ensures key !in env
  {
    if key in env {
      assert NamedBy(offers, key);
      var j :| 0 <= j < |offers| && !offers[j].entry.tunnel && Names(offers[j], key);
      NamesStem(o, offers[j], key);
    }
  }

  lemma SetsKept(a: Vars, b: Vars, ps: seq<Offer>, o: Offer)
    requires Sets(a, o)
    requires forall x :: x in b ==> NamedBy(ps, x)
    requires forall j :: 0 <= j < |ps| && !ps[j].entry.tunnel ==> Stem(ps[j]) != Stem(o)
    ensures Sets(a + b, o)
  {
    NoneNamed(b, ps, o, EnvFragment(o.fixture) + [95] + EnvFragment(o.entry.name) + [95, 72, 79, 83, 84]);
    NoneNamed(b, ps, o, EnvFragment(o.fixture) + [95] + EnvFragment(o.entry.name) + [95, 80, 79, 82, 84]);
  }

  lemma FinalParts(os: seq<Offer>, ps: seq<Offer>, i: int)
    requires Final(os + ps, i)
    ensures i < |os| ==>
              Final(os, i) && forall j :: 0 <= j < |ps| && !ps[j].entry.tunnel ==> Stem(ps[j]) != Stem(os[i])
    ensures i >= |os| ==> Final(ps, i - |os|)
  {
    var all := os + ps;
    assert forall j :: 0 <= j < |os| ==> all[j] == os[j];
    assert forall j :: 0 <= j < |ps| ==> all[|os| + j] == ps[j];
  }

  lemma NamedByMore(os: seq<Offer>, ps: seq<Offer>, key: Str)
    requires NamedBy(os, key) || NamedBy(ps, key)
    ensures NamedBy(os + ps, key)
  {
    var all := os + ps;
    if NamedBy(os, key) {
      var i :| 0 <= i < |os| && !os[i].entry.tunnel && Names(os[i], key);
      assert all[i] == os[i];
    } else {
      var i :| 0 <= i < |ps| && !ps[i].entry.tunnel && Names(ps[i], key);
      assert all[|os| + i] == ps[i];
    }
  }

  /** Copying over variables replaces whole pairs, and the later entries win. */
  lemma InjectsMerge(a: Vars, os: seq<Offer>, b: Vars, ps: seq<Offer>)
    requires Injects(a, os) && Injects(b, ps)
    ensures Injects(a + b, os + ps)
  {
    forall i | Final(os + ps, i) ensures Sets(a + b, (os + ps)[i]) {
      FinalParts(os, ps, i);
      if i < |os| {
        SetsKept(a, b, ps, os[i]);
      } else {
        assert Sets(b, ps[i - |os|]);
      }
    }
    forall key | key in a + b ensures NamedBy(os + ps, key) {
      NamedByMore(os, ps, key);
    }
  }

  /** Some entry of the same names is final. */
  lemma {:induction false} FinalExists(offers: seq<Offer>, i: int) returns (k: int)
    requires 0 <= i < |offers| && !offers[i].entry.tunnel
    ensures Final(offers, k) && i <= k && Stem(offers[k]) == Stem(offers[i])
    decreases |offers| - i
  {
    if Final(offers, i) {
      k := i;
    } else {
      var j :| i < j < |offers| && !offers[j].entry.tunnel && Stem(offers[j]) == Stem(offers[i]);
      k := FinalExists(offers, j);
    }
  }

  /** The variables come in HOST/PORT pairs: each is half of a pair that one and
      the same non-tunneled entry sets, however names collide. */
  lemma PortPairing(env: Vars, offers: seq<Offer>, key: Str)
    requires Injects(env, offers) && key in env
    ensures exists i :: 0 <= i < |offers| && !offers[i].entry.tunnel && Sets(env, offers[i]) && Names(offers[i], key)
  {
    assert NamedBy(offers, key);
    var i :| 0 <= i < |offers| && !offers[i].entry.tunnel && Names(offers[i], key);
    var k := FinalExists(offers, i);
    assert Sets(env, offers[k]) && Names(offers[k], key);
  }

  /** An entry whose names no other non-tunneled entry shares is injected. */
  lemma UnsharedInjected(env: Vars, offers: seq<Offer>, i: int)
    requires Injects(env, offers) && 0 <= i < |offers| && !offers[i].entry.tunnel
    requires forall j :: 0 <= j < |offers| && j != i && !offers[j].entry.tunnel ==>
               EnvFragment(offers[j].fixture) + [95] + EnvFragment(offers[j].entry.name) !=
               EnvFragment(offers[i].fixture) + [95] + EnvFragment(offers[i].entry.name)
    ensures Sets(env, offers[i])
  {
    assert Final(offers, i);
  }

  /** A blob whose schema id is "systemtest.ports". */
  ghost predicate IsPorts(v: Value) {
    v.kind.Some? && v.kind.value.BlobValue? &&
    v.kind.value.blob.schemaId == [115, 121, 115, 116, 101, 109, 116, 101, 115, 116, 46, 112, 111, 114, 116, 115]
  }

  ghost predicate Unreadable(v: Value, parse: Parser) {
    IsPorts(v) && parse(v.kind.value.blob.contents).None?
  }

  ghost function Offers(fixture: Str, ports: seq<PortEntry>): seq<Offer> {
    seq(|ports|, i requires 0 <= i < |ports| => Offer(fixture, ports[i]))
  }

  /** The entries of one output, in order: only a readable ports blob has any. */
  ghost function OffersOf(fixture: Str, v: Value, parse: Parser): seq<Offer> {
    if IsPorts(v) && parse(v.kind.value.blob.contents).Some?
    then Offers(fixture, parse(v.kind.value.blob.contents).value)
    else []
  }

  /** The entries of the outputs named in `order`, in that order. */
  ghost function OffersIn(fixture: Str, outputs: Outputs, order: seq<Str>, parse: Parser): seq<Offer>
    requires forall k :: k in order ==> k in outputs
  {
    if order == [] then []
    else
      var n := |order| - 1;
      OffersIn(fixture, outputs, order[..n], parse) + OffersOf(fixture, outputs[order[n]], parse)
  }

  /** All entries of all outputs, visited in some order. */
  ghost predicate Visits(offers: seq<Offer>, fixture: Str, outputs: Outputs, parse: Parser) {
    exists order :: Lists(order, outputs) && offers == OffersIn(fixture, outputs, order, parse)
  }

  lemma OffersInSnoc(fixture: Str, outputs: Outputs, order: seq<Str>, k: Str, parse: Parser)
    requires k in outputs && forall x :: x in order ==> x in outputs
    ensures OffersIn(fixture, outputs, order + [k], parse)
         == OffersIn(fixture, outputs, order, parse) + OffersOf(fixture, outputs[k], parse)
  {
    assert (order + [k])[..|order|] == order;
  }

  lemma InjectsOne(o: Offer, number: Str)
    requires !o.entry.tunnel && IsDecimal(number, o.entry.port)
    ensures Injects(map[Stem(o) + [95, 72, 79, 83, 84] := o.entry.host, Stem(o) + [95, 80, 79, 82, 84] := number], [o])
  {
    StemsApart(Stem(o), Stem(o));
    var env := map[Stem(o) + [95, 72, 79, 83, 84] := o.entry.host, Stem(o) + [95, 80, 79, 82, 84] := number];
    assert Sets(env, o);
    forall key | key in env ensures NamedBy([o], key) {
      assert Names([o][0], key);
    }
  }

  lemma TwoPuts(env: Vars, h: Str, hv: Str, p: Str, pv: Str)
    requires h != p
    ensures env[h := hv][p := pv] == env + map[h := hv, p := pv]
  {
  }

  lemma InjectsPut(env: Vars, offers: seq<Offer>, o: Offer, number: Str)
    requires Injects(env, offers) && !o.entry.tunnel && IsDecimal(number, o.entry.port)
    ensures Injects(env[Stem(o) + [95, 72, 79, 83, 84] := o.entry.host][Stem(o) + [95, 80, 79, 82, 84] := number],
                    offers + [o])
  {
    var host, port := Stem(o) + [95, 72, 79, 83, 84], Stem(o) + [95, 80, 79, 82, 84];
    InjectsOne(o, number);
    InjectsMerge(env, offers, map[host := o.entry.host, port := number], [o]);
    StemsApart(Stem(o), Stem(o));
    TwoPuts(env, host, o.entry.host, port, number);
  }

  /** A tunneled entry sets nothing. */
  lemma InjectsSkip(env: Vars, offers: seq<Offer>, o: Offer)
    requires Injects(env, offers) && o.entry.tunnel
    ensures Injects(env, offers + [o])
  {
    var none: Vars := map[];
    assert Injects(none, [o]);
    InjectsMerge(env, offers, none, [o]);
    assert env + none == env;
  }

  method AddPorts(env0: Vars, ghost before: seq<Offer>, fixture: Str, prefix: Str, ports: seq<PortEntry>)
    returns (env: Vars)
    requires Injects(env0, before) && prefix == EnvFragment(fixture)
    ensures Injects(env, before + Offers(fixture, ports))
  {
    env := env0;
    var i := 0;
    assert before + Offers(fixture, ports[..0]) == before;
    while i < |ports|
      invariant 0 <= i <= |ports|
      invariant Injects(env, before + Offers(fixture, ports[..i]))
    {
      var p := ports[i];
      ghost var o := Offer(fixture, p);
      ghost var seen := before + Offers(fixture, ports[..i]);
      assert before + Offers(fixture, ports[..i + 1]) == seen + [o];
      if p.tunnel {
        InjectsSkip(env, seen, o);
      } else {
        var portName := EnvFragment(p.name);
        ItoaExact(p.port);
        InjectsPut(env, seen, o, Itoa(p.port));
        env := env[prefix + [UNDERSCORE] + portName + HOST_SUFFIX := p.host];
        env := env[prefix + [UNDERSCORE] + portName + PORT_SUFFIX := Itoa(p.port)];
      }
      i := i + 1;
    }
    assert ports[..i] == ports;
  }

  method VisitOutput(env: Vars, ghost before: seq<Offer>, fixture: Str, prefix: Str, v: Value, parse: Parser)
    returns (r: Option<Vars>)
    requires Injects(env, before) && prefix == EnvFragment(fixture)
    ensures r.None? <==> Unreadable(v, parse)
    ensures r.Some? ==> Injects(r.value, before + OffersOf(fixture, v, parse))
  {
    if v.kind.None? || !v.kind.value.BlobValue? || v.kind.value.blob.schemaId != PORTS_SCHEMA_ID {
      assert before + [] == before;
      return Some(env);
    }
    var parsed := parse(v.kind.value.blob.contents);
    if parsed.None? {
      return None;
    }
    var more := AddPorts(env, before, fixture, prefix, parsed.value);
    return Some(more);
  }

  /** The outputs visited so far could be read, and their entries are injected. */
  ghost predicate Visited(env: Vars, fixture: Str, outputs: Outputs, order: seq<Str>, parse: Parser) {
    && (forall k :: k in order ==> k in outputs && !Unreadable(outputs[k], parse))
    && Injects(env, OffersIn(fixture, outputs, order, parse))
  }

  method VisitNext(env: Vars, ghost order: seq<Str>, fixture: Str, prefix: Str, outputs: Outputs, k: Str, parse: Parser)
    returns (r: Option<Vars>)
    requires Visited(env, fixture, outputs, order, parse) && k in outputs && prefix == EnvFragment(fixture)
    ensures r.None? <==> Unreadable(outputs[k], parse)
    ensures r.Some? ==> Visited(r.value, fixture, outputs, order + [k], parse)
  {
    OffersInSnoc(fixture, outputs, order, k, parse);
    r := VisitOutput(env, OffersIn(fixture, outputs, order, parse), fixture, prefix, outputs[k], parse);
  }

  ghost predicate AllReadable(outputs: Outputs, parse: Parser) {
    forall k :: k in outputs ==> !Unreadable(outputs[k], parse)
  }

  lemma VisitedAll(env: Vars, fixture: Str, outputs: Outputs, order: seq<Str>, parse: Parser)
    requires Visited(env, fixture, outputs, order, parse) && Lists(order, outputs)
    ensures AllReadable(outputs, parse)
    ensures Visits(OffersIn(fixture, outputs, order, parse), fixture, outputs, parse)
  {
  }

  /** Fails, naming an output, exactly when some ports blob cannot be read;
      otherwise injects every entry of every output, visited in some order. */
  method PortEnvFromOutputs(fixtureName: Str, outputs: Outputs, parse: Parser)
    returns (r: Result<Vars, Str>, ghost offers: seq<Offer>)
    ensures r.Err? ==> r.error in outputs && Unreadable(outputs[r.error], parse)
    ensures r.Ok? ==> AllReadable(outputs, parse)
    ensures r.Ok? ==> Visits(offers, fixtureName, outputs, parse) && Injects(r.value, offers)
  {
    var env: Vars := map[];
    var prefix := EnvFragment(fixtureName);
    var todo := outputs.Keys;
    ghost var order := [];
    offers := [];
    while todo != {}
      invariant todo <= outputs.Keys
      invariant ListsKeys(order, outputs.Keys - todo)
      invariant Visited(env, fixtureName, outputs, order, parse)
      decreases |todo|
    {
      var k :| k in todo;
      ListsNext(order, outputs.Keys, todo, k);
      var visited := VisitNext(env, order, fixtureName, prefix, outputs, k, parse);
      if visited.None? {
        return Err(k), offers;
      }
      order := order + [k];
      todo := todo - {k};
      env := visited.value;
    }
    assert outputs.Keys - todo == outputs.Keys;
    VisitedAll(env, fixtureName, outputs, order, parse);
    offers := OffersIn(fixtureName, outputs, order, parse);
    return Ok(env), offers;
  }

  lemma OneMore(a: Vars, b: Vars, todo: set<Str>, k: Str)
    requires k in todo && k in b
    ensures (a + (b - todo))[k := b[k]] == a + (b - (todo - {k}))
  {
    assert b - (todo - {k}) == (b - todo)[k := b[k]];
  }

  lemma NoneYet(a: Vars, b: Vars)
    ensures a + (b - b.Keys) == a && b - {} == b
  {
    assert b - b.Keys == map[];
  }

  /** Copying one fixture's variables over those injected so far. */
  method Inject(injected: Vars, portEnv: Vars) returns (env: Vars)
    ensures env == injected + portEnv
  {
    env := injected;
    NoneYet(injected, portEnv);
    var todo := portEnv.Keys;
    while todo != {}
      invariant todo <= portEnv.Keys
      invariant env == injected + (portEnv - todo)
      decreases |todo|
    {
      var k :| k in todo;
      OneMore(injected, portEnv, todo, k);
      env := env[k := portEnv[k]];
      todo := todo - {k};
    }
  }

  // ----------------------------------------------------------------- merging

  /** '=' */
  const EQUALS: byte := 61

  /** The position of the first '=', or the length if there is none. */
  function FirstEquals(kv: Str): (n: nat)
    ensures n <= |kv|
    ensures EQUALS !in kv[..n]
    ensures n < |kv| ==> kv[n] == EQUALS
  {
    if kv == [] || kv[0] == EQUALS then 0
    else
      var n := FirstEquals(kv[1..]);
      assert kv[..n + 1] == [kv[0]] + kv[1..][..n];
      n + 1
  }

  /** Sets the variable a "K=V" string gives; a string without '=' gives none. */
  function Put(vars: Vars, kv: Str): Vars {
    var n := FirstEquals(kv);
    if n < |kv| then vars[kv[..n] := kv[n + 1..]] else vars
  }

  /** The variables a list of strings gives, later ones winning. */
  function Split(kvs: seq<Str>): Vars {
    if kvs == [] then map[] else Put(Split(kvs[..|kvs| - 1]), kvs[|kvs| - 1])
  }

  function Overlaid(vars: Vars, overlays: seq<Vars>): Vars {
    if overlays == [] then vars else Overlaid(vars, overlays[..|overlays| - 1]) + overlays[|overlays| - 1]
  }

  /** The right-biased merge of base and overlays. */
  function Merged(base: seq<Str>, overlays: seq<Vars>): Vars {
    Overlaid(Split(base), overlays)
  }

  ghost function Rendered(order: seq<Str>, vars: Vars): seq<Str>
    requires forall k :: k in order ==> k in vars
  {
    seq(|order|, i requires 0 <= i < |order| => order[i] + [61] + vars[order[i]])
  }

  method SplitOne(vars: Vars, kv: Str) returns (r: Vars)
    ensures r == Put(vars, kv)
  {
    r := vars;
    var i := 0;
    while i < |kv|
      invariant 0 <= i <= |kv|
      invariant EQUALS !in kv[..i]
    {
      if kv[i] == EQUALS {
        FirstEqualsUnique(kv, i);
        return vars[kv[..i] := kv[i + 1..]];
      }
      assert kv[..i + 1] == kv[..i] + [kv[i]];
      i := i + 1;
    }
    assert kv[..i] == kv;
  }

  lemma FirstEqualsUnique(kv: Str, i: nat)
    requires i < |kv| && kv[i] == EQUALS && EQUALS !in kv[..i]
    ensures FirstEquals(kv) == i
  {
    var n := FirstEquals(kv);
    forall j | 0 <= j < i ensures kv[j] != EQUALS {
      assert kv[j] == kv[..i][j];
    }
    forall j | 0 <= j < n ensures kv[j] != EQUALS {
      assert kv[j] == kv[..n][j];
    }
  }

  method SplitAll(base: seq<Str>) returns (vars: Vars)
    ensures vars == Split(base)
  {
    vars := map[];
    var i := 0;
    while i < |base|
      invariant 0 <= i <= |base|
      invariant vars == Split(base[..i])
    {
      assert base[..i + 1][..i] == base[..i];
      vars := SplitOne(vars, base[i]);
      i := i + 1;
    }
    assert base[..i] == base;
  }

  /** The strings list every variable exactly once, in some order. */
  ghost predicate Renders(out: seq<Str>, vars: Vars) {
    exists order :: Lists(order, vars) && out == Rendered(order, vars)
  }

  method Render(merged: Vars) returns (out: seq<Str>)
    ensures Renders(out, merged)
  {
    out := [];
    ghost var order := [];
    var todo := merged.Keys;
    while todo != {}
      invariant todo <= merged.Keys
      invariant ListsKeys(order, merged.Keys - todo)
      invariant out == Rendered(order, merged)
      decreases |todo|
    {
      var k :| k in todo;
      ListsNext(order, merged.Keys, todo, k);
      assert Rendered(order + [k], merged) == Rendered(order, merged) + [k + [EQUALS] + merged[k]];
      out := out + [k + [EQUALS] + merged[k]];
      order := order + [k];
      todo := todo - {k};
    }
    assert merged.Keys - todo == merged.Keys;
    assert Lists(order, merged);
  }

  /** Every merged variable is listed exactly once, as "K=V", in some order. */
  method MergeEnv(base: seq<Str>, overlays: seq<Vars>) returns (out: seq<Str>)
    ensures Renders(out, Merged(base, overlays))
  {
    var merged := SplitAll(base);
    var i := 0;
    while i < |overlays|
      invariant 0 <= i <= |overlays|
      invariant merged == Overlaid(Split(base), overlays[..i])
    {
      assert overlays[..i + 1][..i] == overlays[..i];
      merged := Inject(merged, overlays[i]);
      i := i + 1;
    }
    assert overlays[..i] == overlays;
    out := Render(merged);
  }

  // ------------------------------------------------------------- who wins a key

  /** The string gives a variable of this name: the name, which holds no '=',
      stands before its first '='. */
  ghost predicate Gives(kv: Str, k: Str) {
    |k| < |kv| && kv[..|k|] == k && kv[|k|] == 61 && 61 !in k
  }

  lemma GivesPut(vars: Vars, kv: Str, k: Str)
    ensures Gives(kv, k) ==> Put(vars, kv) == vars[k := kv[|k| + 1..]]
    ensures !Gives(kv, k) ==> (k in Put(vars, kv) <==> k in vars)
    ensures !Gives(kv, k) && k in vars ==> Put(vars, kv)[k] == vars[k]
  {
    if Gives(kv, k) {
      FirstEqualsUnique(kv, |k|);
    }
  }

  /** Position i holds the last string that gives k. */
  ghost predicate LastGives(kvs: seq<Str>, k: Str, i: nat) {
    i < |kvs| && Gives(kvs[i], k) && forall j :: i < j < |kvs| ==> !Gives(kvs[j], k)
  }

  ghost predicate NoneGives(kvs: seq<Str>, k: Str) {
    forall j :: 0 <= j < |kvs| ==> !Gives(kvs[j], k)
  }

  ghost predicate LastSets(overlays: seq<Vars>, k: Str, i: nat) {
    i < |overlays| && k in overlays[i] && forall j :: i < j < |overlays| ==> k !in overlays[j]
  }

  ghost predicate NoneSets(overlays: seq<Vars>, k: Str) {
    forall j :: 0 <= j < |overlays| ==> k !in overlays[j]
  }

  lemma {:induction false} SplitValue(kvs: seq<Str>, k: Str, i: nat)
    requires LastGives(kvs, k, i)
    ensures k in Split(kvs) && Split(kvs)[k] == kvs[i][|k| + 1..]
    decreases |kvs|
  {
    GivesPut(Split(kvs[..|kvs| - 1]), kvs[|kvs| - 1], k);
    if i < |kvs| - 1 {
      SplitValue(kvs[..|kvs| - 1], k, i);
    }
  }

  lemma {:induction false} SplitNothing(kvs: seq<Str>, k: Str)
    requires NoneGives(kvs, k)
    ensures k !in Split(kvs)
    decreases |kvs|
  {
    if kvs != [] {
      GivesPut(Split(kvs[..|kvs| - 1]), kvs[|kvs| - 1], k);
      SplitNothing(kvs[..|kvs| - 1], k);
    }
  }

  lemma {:induction false} OverlaidValue(vars: Vars, overlays: seq<Vars>, k: Str, i: nat)
    requires LastSets(overlays, k, i)
    ensures k in Overlaid(vars, overlays) && Overlaid(vars, overlays)[k] == overlays[i][k]
    decreases |overlays|
  {
    if i < |overlays| - 1 {
      OverlaidValue(vars, overlays[..|overlays| - 1], k, i);
    }
  }

  lemma {:induction false} OverlaidNothing(vars: Vars, overlays: seq<Vars>, k: Str)
    requires NoneSets(overlays, k)
    ensures k in Overlaid(vars, overlays) <==> k in vars
    ensures k in vars ==> Overlaid(vars, overlays)[k] == vars[k]
    decreases |overlays|
  {
    if overlays != [] {
      OverlaidNothing(vars, overlays[..|overlays| - 1], k);
    }
  }

  /** A merged variable has the value of the last overlay that sets it, or, if
      none does, of the last base string that gives it; and it is set only then. */
  lemma MergedValue(base: seq<Str>, overlays: seq<Vars>, k: Str, i: nat)
    ensures LastSets(overlays, k, i) ==>
              k in Merged(base, overlays) && Merged(base, overlays)[k] == overlays[i][k]
    ensures NoneSets(overlays, k) && LastGives(base, k, i) ==>
              k in Merged(base, overlays) && Merged(base, overlays)[k] == base[i][|k| + 1..]
    ensures NoneSets(overlays, k) && NoneGives(base, k) ==> k !in Merged(base, overlays)
  {
    if LastSets(overlays, k, i) {
      OverlaidValue(Split(base), overlays, k, i);
    }
    if NoneSets(overlays, k) {
      OverlaidNothing(Split(base), overlays, k);
      if LastGives(base, k, i) {
        SplitValue(base, k, i);
      }
      if NoneGives(base, k) {
        SplitNothing(base, k);
      }
    }
  }

  // ---------------------------------------------------------------- round trip

  lemma PutJoin(vars: Vars, k: Str, v: Str)
    requires EQUALS !in k
    ensures Put(vars, k + [EQUALS] + v) == vars[k := v]
  {
    var kv := k + [EQUALS] + v;
    assert kv[..|k|] == k && kv[|k|] == EQUALS && kv[|k| + 1..] == v;
    FirstEqualsUnique(kv, |k|);
  }

  function Only(order: seq<Str>, vars: Vars): Vars
    requires forall k :: k in order ==> k in vars
  {
    map k | k in order :: vars[k]
  }

  lemma OnlySnoc(order: seq<Str>, vars: Vars, k: Str)
    requires k in vars && forall x :: x in order ==> x in vars
    ensures Only(order + [k], vars) == Only(order, vars)[k := vars[k]]
  {
    assert forall x :: x in order + [k] <==> x in order || x == k;
  }

  lemma {:induction false} SplitRendered(order: seq<Str>, vars: Vars)
    requires forall k :: k in order ==> k in vars && EQUALS !in k
    ensures Split(Rendered(order, vars)) == Only(order, vars)
    decreases |order|
  {
    if order == [] {
      assert Only(order, vars) == map[];
    } else {
      var init, k := order[..|order| - 1], order[|order| - 1];
      assert order == init + [k];
      assert Rendered(order, vars) == Rendered(init, vars) + [k + [EQUALS] + vars[k]];
      SplitRendered(init, vars);
      PutJoin(Split(Rendered(init, vars)), k, vars[k]);
      OnlySnoc(init, vars, k);
    }
  }

  lemma {:induction false} SplitKeys(kvs: seq<Str>)
    ensures forall k :: k in Split(kvs) ==> EQUALS !in k
    decreases |kvs|
  {
    if kvs != [] {
      SplitKeys(kvs[..|kvs| - 1]);
    }
  }

  lemma {:induction false} OverlaidKeys(vars: Vars, overlays: seq<Vars>, k: Str)
    ensures k in Overlaid(vars, overlays) <==> k in vars || exists i :: 0 <= i < |overlays| && k in overlays[i]
    decreases |overlays|
  {
    if overlays != [] {
      var init := overlays[..|overlays| - 1];
      OverlaidKeys(vars, init, k);
      if i :| 0 <= i < |overlays| && k in overlays[i] {
        assert i < |init| ==> init[i] == overlays[i];
      }
      if i :| 0 <= i < |init| && k in init[i] {
        assert overlays[i] == init[i];
      }
    }
  }

  ghost predicate PlainKeys(overlays: seq<Vars>) {
    forall i, k :: 0 <= i < |overlays| && k in overlays[i] ==> 61 !in k
  }

  lemma ListsCard(order: seq<Str>, vars: Vars)
    requires Lists(order, vars)
    ensures |order| == |vars|
    decreases |order|
  {
    if order == [] {
      assert vars == map[];
    } else {
      var k := order[|order| - 1];
      assert k in vars && vars.Keys == (vars - {k}).Keys + {k};
      ListsCard(order[..|order| - 1], vars - {k});
    }
  }

  /** The merge has a key with '=' exactly when an overlay has one. */
  lemma MergedKeys(base: seq<Str>, overlays: seq<Vars>)
    ensures (forall k :: k in Merged(base, overlays) ==> EQUALS !in k) <==> PlainKeys(overlays)
  {
    var merged := Merged(base, overlays);
    SplitKeys(base);
    if PlainKeys(overlays) {
      forall k | k in merged ensures EQUALS !in k {
        OverlaidKeys(Split(base), overlays, k);
      }
    } else {
      var i, k :| 0 <= i < |overlays| && k in overlays[i] && EQUALS in k;
      OverlaidKeys(Split(base), overlays, k);
    }
  }

  lemma RenderedExact(order: seq<Str>, vars: Vars)
    requires Lists(order, vars)
    ensures Split(Rendered(order, vars)) == vars <==> forall k :: k in vars ==> EQUALS !in k
  {
    if forall k :: k in vars ==> EQUALS !in k {
      SplitRendered(order, vars);
      assert Only(order, vars) == vars;
    } else {
      SplitKeys(Rendered(order, vars));
    }
  }

  /** Whatever order the merge came out in, it has one string per merged
      variable, and splitting each at its first '=' gives the merge back, without
      a duplicate key, exactly when no overlay key contains '='. */
  lemma MergeRoundTrip(base: seq<Str>, overlays: seq<Vars>, out: seq<Str>)
    requires Renders(out, Merged(base, overlays))
    ensures |out| == |Merged(base, overlays)|
    ensures Split(out) == Merged(base, overlays) <==> PlainKeys(overlays)
  {
    var order :| Lists(order, Merged(base, overlays)) && out == Rendered(order, Merged(base, overlays));
    ListsCard(order, Merged(base, overlays));
    MergedKeys(base, overlays);
    RenderedExact(order, Merged(base, overlays));
  }
}
