/** The bytes `prost` writes for a fixture description, and a decoder that
    recovers the description from them. Fields are written in tag order, a oneof
    at its set member's tag, map entries in key order, and a field holding its
    default value is left out unless it belongs to a oneof or a repeated field
    (Protocol Buffers Encoding guide, "Signed Integers", "Submessages",
    "Oneofs" and "Map Fields"). */
module Codec {
  import opened Base
  import opened Wire
  import opened Messages
  import opened Ordering

  const TWO_32 := 0x1_0000_0000
  const TWO_64 := 0x1_0000_0000_0000_0000

  // ---------------------------------------------------------------- scalars

  /** A signed integer as written: two's complement on 64 bits, whether the
      field is an int32 or an int64. */
  function Unsigned(v: int64): nat {
    if v < 0 then v + TWO_64 else v
  }

  function Signed64(n: nat): int64 {
    var low := n % TWO_64;
    if low < TWO_64 / 2 then low else low - TWO_64
  }

  function Signed32(n: nat): int32 {
    var low := n % TWO_32;
    if low < TWO_32 / 2 then low else low - TWO_32
  }

  /** A string or bytes field outside a oneof: empty is left out. */
  function StrField(tag: nat, s: Bytes): seq<Field> {
    if s == [] then [] else [Field(tag, Record(s))]
  }

  /** An int64 field outside a oneof: zero is left out. */
  function IntField(tag: nat, v: int64): seq<Field> {
    if v == 0 then [] else [Field(tag, Number(Unsigned(v)))]
  }

  /** A repeated string field: every element is written, even an empty one. */
  function RepeatedField(tag: nat, ss: seq<Str>): seq<Field> {
    seq(|ss|, i requires 0 <= i < |ss| => Field(tag, Record(ss[i])))
  }

  // --------------------------------------------------------------- encoding

  function BlobFields(b: SchemaBlob): seq<Field> {
    StrField(1, b.schemaId) + StrField(2, b.contents)
  }

  function ValueFields(v: Value): seq<Field> {
    match v.kind
    case None => []
    case Some(StrValue(s)) => [Field(1, Record(s))]
    case Some(DataValue(b)) => [Field(3, Record(b))]
    case Some(BlobValue(b)) => [Field(4, Record(Serialize(BlobFields(b))))]
    case Some(IntValue(i)) => [Field(5, Number(Unsigned(i)))]
  }

  /** One map entry: key and value are each left out when default. */
  function EntryFields(key: Str, v: Value): seq<Field> {
    StrField(1, key) +
    if v == DEFAULT_VALUE then [] else [Field(2, Record(Serialize(ValueFields(v))))]
  }

  function EntryField(key: Str, v: Value): Field {
    Field(4, Record(Serialize(EntryFields(key, v))))
  }

  function InputFields(keys: seq<Str>, inputs: map<Str, Value>): seq<Field>
    requires forall k :: k in keys ==> k in inputs
  {
    seq(|keys|, i requires 0 <= i < |keys| =>
      EntryField(keys[i], inputs[keys[i]]))
  }

  function ScopeFields(scope: Option<UseScope>): seq<Field> {
    match scope
    case None => []
    case Some(Unrestricted) => [Field(1, Record([]))]
    case Some(ClientRestricted) => [Field(2, Record([]))]
    case Some(SingleUse) => [Field(3, Record([]))]
  }

  function SharingFields(s: Sharing): seq<Field> {
    ScopeFields(s.useScope) + IntField(4, s.maximumConcurrentConnections)
  }

  function OptionalSharing(s: Option<Sharing>): seq<Field> {
    if s.None? then [] else [Field(7, Record(Serialize(SharingFields(s.value))))]
  }

  function PluginFields(p: Option<Plugin>): seq<Field> {
    match p
    case None => []
    case Some(BinaryPath(path)) => [Field(2, Record(path))]
    case Some(ContainerRef(reference)) => [Field(3, Record(reference))]
  }

  function DescriptionFields(d: FixtureDescription): seq<Field> {
    StrField(1, d.implId) +
    (PluginFields(d.plugin) +
     (InputFields(SortedKeys(d.inputs.Keys), d.inputs) +
      (RepeatedField(5, d.imageInputs) +
       (RepeatedField(6, d.fileInputs) +
        (OptionalSharing(d.sharing) +
         (IntField(8, d.startupTimeoutSeconds) +
          StrField(9, d.name)))))))
  }

  function Encode(d: FixtureDescription): Bytes {
    Serialize(DescriptionFields(d))
  }

  // --------------------------------------------------------------- decoding

  function DecodeWith<A>(step: (A, Field) -> Option<A>, b: Bytes, start: A): Option<A> {
    match Parse(b)
    case None => None
    case Some(fs) => Merge(step, fs, start)
  }

  function BlobStep(acc: SchemaBlob, f: Field): Option<SchemaBlob> {
    match f
    case Field(1, Record(s)) => Some(acc.(schemaId := s))
    case Field(2, Record(b)) => Some(acc.(contents := b))
    case Field(tag, _) => if tag == 1 || tag == 2 then None else Some(acc)
  }

  function ValueStep(acc: Value, f: Field): Option<Value> {
    match f
    case Field(1, Record(s)) => Some(Value(Some(StrValue(s))))
    case Field(3, Record(b)) => Some(Value(Some(DataValue(b))))
    case Field(4, Record(b)) =>
      var start := if acc.kind.Some? && acc.kind.value.BlobValue? then acc.kind.value.blob else DEFAULT_BLOB;
      (match DecodeWith(BlobStep, b, start)
       case None => None
       case Some(blob) => Some(Value(Some(BlobValue(blob)))))
    case Field(5, Number(n)) => Some(Value(Some(IntValue(Signed32(n)))))
    case Field(tag, _) => if tag in {1, 3, 4, 5} then None else Some(acc)
  }

  datatype Entry = Entry(key: Str, value: Value)

  function EntryStep(acc: Entry, f: Field): Option<Entry> {
    match f
    case Field(1, Record(s)) => Some(acc.(key := s))
    case Field(2, Record(b)) =>
      (match DecodeWith(ValueStep, b, acc.value)
       case None => None
       case Some(v) => Some(acc.(value := v)))
    case Field(tag, _) => if tag == 1 || tag == 2 then None else Some(acc)
  }

  function SharingStep(acc: Sharing, f: Field): Option<Sharing> {
    match f
    case Field(4, Number(n)) => Some(acc.(maximumConcurrentConnections := Signed64(n)))
    case Field(tag, Record(b)) =>
      if tag == 4 then None
      else if tag !in {1, 2, 3} then Some(acc)
      else if Parse(b).None? then None
      else Some(acc.(useScope := Some(if tag == 1 then Unrestricted else if tag == 2 then ClientRestricted else SingleUse)))
    case Field(tag, _) => if tag in {1, 2, 3} then None else Some(acc)
  }

  function DescriptionStep(acc: FixtureDescription, f: Field): Option<FixtureDescription> {
    match f
    case Field(1, Record(s)) => Some(acc.(implId := s))
    case Field(2, Record(s)) => Some(acc.(plugin := Some(BinaryPath(s))))
    case Field(3, Record(s)) => Some(acc.(plugin := Some(ContainerRef(s))))
    case Field(4, Record(b)) =>
      (match DecodeWith(EntryStep, b, Entry([], DEFAULT_VALUE))
       case None => None
       case Some(e) => Some(acc.(inputs := acc.inputs[e.key := e.value])))
    case Field(5, Record(s)) => Some(acc.(imageInputs := acc.imageInputs + [s]))
    case Field(6, Record(s)) => Some(acc.(fileInputs := acc.fileInputs + [s]))
    case Field(7, Record(b)) =>
      var start := if acc.sharing.Some? then acc.sharing.value else DEFAULT_SHARING;
      (match DecodeWith(SharingStep, b, start)
       case None => None
       case Some(sh) => Some(acc.(sharing := Some(sh))))
    case Field(8, Number(n)) => Some(acc.(startupTimeoutSeconds := Signed64(n)))
    case Field(9, Record(s)) => Some(acc.(name := s))
    case Field(tag, _) => if 1 <= tag <= 9 then None else Some(acc)
  }

  function Decode(b: Bytes): Option<FixtureDescription> {
    DecodeWith(DescriptionStep, b, DEFAULT_DESCRIPTION)
  }

  // ------------------------------------------------------------ round trips

  lemma SignedRoundTrip(v: int64)
    ensures Signed64(Unsigned(v)) == v
  {
    assert Unsigned(v) % TWO_64 == Unsigned(v);
  }

  /** An int32 is written sign-extended to 64 bits; its low 32 bits recover it. */
  lemma SignedRoundTrip32(v: int32)
    ensures Signed32(Unsigned(v)) == v
  {
    if v < 0 {
      var low, high := v + TWO_32, TWO_32 - 1;
      assert Unsigned(v) == low + TWO_32 * high;
      assert (low + TWO_32 * high) / TWO_32 == high;
    } else {
      assert Unsigned(v) / TWO_32 == 0;
    }
  }

  /** The mapping is the two's complement one on 64 bits. */
  lemma UnsignedExact(v: int64)
    ensures Unsigned(v) == v % 0x1_0000_0000_0000_0000
  {
  }

  lemma MergeOne<A>(step: (A, Field) -> Option<A>, f: Field, acc: A)
    ensures Merge(step, [f], acc) == step(acc, f)
  {
    if step(acc, f).Some? {
      assert Merge(step, [f][1..], step(acc, f).value) == step(acc, f);
    }
  }

  lemma MergeCons<A>(step: (A, Field) -> Option<A>, f: Field, fs: seq<Field>, acc: A, next: A)
    requires step(acc, f) == Some(next)
    ensures Merge(step, [f] + fs, acc) == Merge(step, fs, next)
  {
    assert ([f] + fs)[1..] == fs;
  }

  lemma BlobRoundTrip(b: SchemaBlob)
    ensures DecodeWith(BlobStep, Serialize(BlobFields(b)), DEFAULT_BLOB) == Some(b)
  {
    ParseRoundTrip(BlobFields(b));
    var mid := DEFAULT_BLOB.(schemaId := b.schemaId);
    MergeOne(BlobStep, Field(1, Record(b.schemaId)), DEFAULT_BLOB);
    MergeConcat(BlobStep, StrField(1, b.schemaId), StrField(2, b.contents), DEFAULT_BLOB, mid);
    MergeOne(BlobStep, Field(2, Record(b.contents)), mid);
  }

  lemma ValueRoundTrip(v: Value)
    ensures DecodeWith(ValueStep, Serialize(ValueFields(v)), DEFAULT_VALUE) == Some(v)
  {
    ParseRoundTrip(ValueFields(v));
    if v.kind.Some? {
      MergeOne(ValueStep, ValueFields(v)[0], DEFAULT_VALUE);
      match v.kind.value
      case BlobValue(b) => BlobRoundTrip(b);
      case IntValue(i) => SignedRoundTrip32(i);
      case _ =>
    }
  }

  lemma EntryRoundTrip(key: Str, v: Value)
    ensures DecodeWith(EntryStep, Serialize(EntryFields(key, v)), Entry([], DEFAULT_VALUE)) == Some(Entry(key, v))
  {
    ParseRoundTrip(EntryFields(key, v));
    var start, mid := Entry([], DEFAULT_VALUE), Entry(key, DEFAULT_VALUE);
    var valueFields := EntryFields([], v);
    assert EntryFields(key, v) == StrField(1, key) + valueFields;
    MergeOne(EntryStep, Field(1, Record(key)), start);
    MergeConcat(EntryStep, StrField(1, key), valueFields, start, mid);
    if v != DEFAULT_VALUE {
      ValueRoundTrip(v);
      assert valueFields == [Field(2, Record(Serialize(ValueFields(v))))];
      MergeOne(EntryStep, valueFields[0], mid);
    }
  }

  lemma ScopeMerge(scope: Option<UseScope>)
    ensures Merge(SharingStep, ScopeFields(scope), DEFAULT_SHARING) == Some(DEFAULT_SHARING.(useScope := scope))
  {
    if scope.Some? {
      MergeOne(SharingStep, ScopeFields(scope)[0], DEFAULT_SHARING);
    }
  }

  lemma SlotsMerge(slots: int64, acc: Sharing)
    requires acc.maximumConcurrentConnections == 0
    ensures Merge(SharingStep, IntField(4, slots), acc) == Some(acc.(maximumConcurrentConnections := slots))
  {
    MergeOne(SharingStep, Field(4, Number(Unsigned(slots))), acc);
    SignedRoundTrip(slots);
  }

  lemma SharingRoundTrip(s: Sharing)
    ensures DecodeWith(SharingStep, Serialize(SharingFields(s)), DEFAULT_SHARING) == Some(s)
  {
    ParseRoundTrip(SharingFields(s));
    var mid := DEFAULT_SHARING.(useScope := s.useScope);
    ScopeMerge(s.useScope);
    MergeConcat(SharingStep, ScopeFields(s.useScope), IntField(4, s.maximumConcurrentConnections), DEFAULT_SHARING, mid);
    SlotsMerge(s.maximumConcurrentConnections, mid);
  }

  lemma InputStep(key: Str, v: Value, acc: FixtureDescription)
    ensures DescriptionStep(acc, EntryField(key, v)) == Some(acc.(inputs := acc.inputs[key := v]))
  {
    EntryRoundTrip(key, v);
  }

  function Chosen(keys: seq<Str>, inputs: map<Str, Value>): map<Str, Value>
    requires forall k :: k in keys ==> k in inputs
  {
    map k | k in keys :: inputs[k]
  }

  lemma ChosenStep(keys: seq<Str>, inputs: map<Str, Value>, base: map<Str, Value>)
    requires keys != []
    requires forall k :: k in keys ==> k in inputs
    ensures base[keys[0] := inputs[keys[0]]] + Chosen(keys[1..], inputs) == base + Chosen(keys, inputs)
  {
    assert forall k :: k in keys <==> k == keys[0] || k in keys[1..];
  }

  lemma InputFieldsCons(keys: seq<Str>, inputs: map<Str, Value>)
    requires keys != [] && forall k :: k in keys ==> k in inputs
    ensures InputFields(keys, inputs) == [EntryField(keys[0], inputs[keys[0]])] + InputFields(keys[1..], inputs)
  {
  }

  lemma FirstInputMerge(keys: seq<Str>, inputs: map<Str, Value>, acc: FixtureDescription)
    requires keys != [] && forall k :: k in keys ==> k in inputs
    ensures Merge(DescriptionStep, InputFields(keys, inputs), acc)
         == Merge(DescriptionStep, InputFields(keys[1..], inputs),
                  acc.(inputs := acc.inputs[keys[0] := inputs[keys[0]]]))
  {
    var f := EntryField(keys[0], inputs[keys[0]]);
    InputFieldsCons(keys, inputs);
    InputStep(keys[0], inputs[keys[0]], acc);
    MergeCons(DescriptionStep, f, InputFields(keys[1..], inputs), acc, acc.(inputs := acc.inputs[keys[0] := inputs[keys[0]]]));
  }

  lemma {:induction false} InputsMerge(keys: seq<Str>, inputs: map<Str, Value>, acc: FixtureDescription)
    requires forall k :: k in keys ==> k in inputs
    ensures Merge(DescriptionStep, InputFields(keys, inputs), acc)
         == Some(acc.(inputs := acc.inputs + Chosen(keys, inputs)))
    decreases |keys|
  {
    if keys == [] {
      assert acc.inputs + Chosen(keys, inputs) == acc.inputs;
    } else {
      FirstInputMerge(keys, inputs, acc);
      InputsMerge(keys[1..], inputs, acc.(inputs := acc.inputs[keys[0] := inputs[keys[0]]]));
      ChosenStep(keys, inputs, acc.inputs);
    }
  }

  lemma {:induction false} ImagesMerge(ss: seq<Str>, acc: FixtureDescription)
    ensures Merge(DescriptionStep, RepeatedField(5, ss), acc)
         == Some(acc.(imageInputs := acc.imageInputs + ss))
    decreases |ss|
  {
    if ss == [] {
      assert acc.imageInputs + ss == acc.imageInputs;
    } else {
      var next := acc.(imageInputs := acc.imageInputs + [ss[0]]);
      assert RepeatedField(5, ss)[1..] == RepeatedField(5, ss[1..]);
      ImagesMerge(ss[1..], next);
      assert next.imageInputs + ss[1..] == acc.imageInputs + ss;
    }
  }

  lemma {:induction false} FilesMerge(ss: seq<Str>, acc: FixtureDescription)
    ensures Merge(DescriptionStep, RepeatedField(6, ss), acc)
         == Some(acc.(fileInputs := acc.fileInputs + ss))
    decreases |ss|
  {
    if ss == [] {
      assert acc.fileInputs + ss == acc.fileInputs;
    } else {
      var next := acc.(fileInputs := acc.fileInputs + [ss[0]]);
      assert RepeatedField(6, ss)[1..] == RepeatedField(6, ss[1..]);
      FilesMerge(ss[1..], next);
      assert next.fileInputs + ss[1..] == acc.fileInputs + ss;
    }
  }

  lemma SharingFieldMerge(sharing: Option<Sharing>, acc: FixtureDescription)
    requires acc.sharing == None
    ensures Merge(DescriptionStep, OptionalSharing(sharing), acc) == Some(acc.(sharing := sharing))
  {
    if sharing.Some? {
      SharingRoundTrip(sharing.value);
      MergeOne(DescriptionStep, OptionalSharing(sharing)[0], acc);
    }
  }

  lemma TimeoutMerge(seconds: int64, acc: FixtureDescription)
    requires acc.startupTimeoutSeconds == 0
    ensures Merge(DescriptionStep, IntField(8, seconds), acc) == Some(acc.(startupTimeoutSeconds := seconds))
  {
    MergeOne(DescriptionStep, Field(8, Number(Unsigned(seconds))), acc);
    SignedRoundTrip(seconds);
  }

  lemma TailMerge(d: FixtureDescription, acc: FixtureDescription)
    requires acc == d.(sharing := None, startupTimeoutSeconds := 0, name := [])
    ensures Merge(DescriptionStep,
                  OptionalSharing(d.sharing) + (IntField(8, d.startupTimeoutSeconds) + StrField(9, d.name)), acc)
         == Some(d)
  {
    var a1 := acc.(sharing := d.sharing);
    var a2 := a1.(startupTimeoutSeconds := d.startupTimeoutSeconds);
    var f8, f9 := IntField(8, d.startupTimeoutSeconds), StrField(9, d.name);
    SharingFieldMerge(d.sharing, acc);
    MergeConcat(DescriptionStep, OptionalSharing(d.sharing), f8 + f9, acc, a1);
    TimeoutMerge(d.startupTimeoutSeconds, a1);
    MergeConcat(DescriptionStep, f8, f9, a1, a2);
    MergeOne(DescriptionStep, Field(9, Record(d.name)), a2);
  }

  lemma HeadMerge(d: FixtureDescription, rest: seq<Field>)
    ensures Merge(DescriptionStep, StrField(1, d.implId) + (PluginFields(d.plugin) + rest), DEFAULT_DESCRIPTION)
         == Merge(DescriptionStep, rest, DEFAULT_DESCRIPTION.(implId := d.implId, plugin := d.plugin))
  {
    var a0, a1 := DEFAULT_DESCRIPTION, DEFAULT_DESCRIPTION.(implId := d.implId);
    MergeOne(DescriptionStep, Field(1, Record(d.implId)), a0);
    MergeConcat(DescriptionStep, StrField(1, d.implId), PluginFields(d.plugin) + rest, a0, a1);
    if d.plugin.Some? {
      MergeOne(DescriptionStep, PluginFields(d.plugin)[0], a1);
    }
    MergeConcat(DescriptionStep, PluginFields(d.plugin), rest, a1, a1.(plugin := d.plugin));
  }

  lemma ChosenAll(inputs: map<Str, Value>)
    ensures map[] + Chosen(SortedKeys(inputs.Keys), inputs) == inputs
  {
  }

  lemma AllInputsMerge(inputs: map<Str, Value>, acc: FixtureDescription)
    requires acc.inputs == map[]
    ensures Merge(DescriptionStep, InputFields(SortedKeys(inputs.Keys), inputs), acc) == Some(acc.(inputs := inputs))
  {
    ChosenAll(inputs);
    InputsMerge(SortedKeys(inputs.Keys), inputs, acc);
  }

  lemma ListsMerge(d: FixtureDescription, acc: FixtureDescription, rest: seq<Field>)
    requires acc.imageInputs == [] && acc.fileInputs == []
    ensures Merge(DescriptionStep, RepeatedField(5, d.imageInputs) + (RepeatedField(6, d.fileInputs) + rest), acc)
         == Merge(DescriptionStep, rest, acc.(imageInputs := d.imageInputs, fileInputs := d.fileInputs))
  {
    var f5, f6 := RepeatedField(5, d.imageInputs), RepeatedField(6, d.fileInputs);
    var mid := acc.(imageInputs := d.imageInputs);
    ImagesMerge(d.imageInputs, acc);
    assert [] + d.imageInputs == d.imageInputs;
    MergeConcat(DescriptionStep, f5, f6 + rest, acc, mid);
    FilesMerge(d.fileInputs, mid);
    assert [] + d.fileInputs == d.fileInputs;
    MergeConcat(DescriptionStep, f6, rest, mid, mid.(fileInputs := d.fileInputs));
  }

  lemma MiddleMerge(d: FixtureDescription, acc: FixtureDescription, rest: seq<Field>)
    requires acc.inputs == map[] && acc.imageInputs == [] && acc.fileInputs == []
    ensures Merge(DescriptionStep,
                  InputFields(SortedKeys(d.inputs.Keys), d.inputs) +
                  (RepeatedField(5, d.imageInputs) + (RepeatedField(6, d.fileInputs) + rest)), acc)
         == Merge(DescriptionStep, rest,
                  acc.(inputs := d.inputs, imageInputs := d.imageInputs, fileInputs := d.fileInputs))
  {
    var lists := RepeatedField(5, d.imageInputs) + (RepeatedField(6, d.fileInputs) + rest);
    var mid := acc.(inputs := d.inputs);
    AllInputsMerge(d.inputs, acc);
    MergeConcat(DescriptionStep, InputFields(SortedKeys(d.inputs.Keys), d.inputs), lists, acc, mid);
    ListsMerge(d, mid, rest);
  }

  /** Decoding recovers every description from its bytes. */
  lemma RoundTrip(d: FixtureDescription)
    ensures Decode(Encode(d)) == Some(d)
  {
    ParseRoundTrip(DescriptionFields(d));
    var tail := OptionalSharing(d.sharing) + (IntField(8, d.startupTimeoutSeconds) + StrField(9, d.name));
    var middle := InputFields(SortedKeys(d.inputs.Keys), d.inputs) +
                  (RepeatedField(5, d.imageInputs) + (RepeatedField(6, d.fileInputs) + tail));
    var acc := DEFAULT_DESCRIPTION.(implId := d.implId, plugin := d.plugin);
    HeadMerge(d, middle);
    MiddleMerge(d, acc, tail);
    TailMerge(d, acc.(inputs := d.inputs, imageInputs := d.imageInputs, fileInputs := d.fileInputs));
  }

  /** Distinct descriptions have distinct bytes. */
  lemma EncodeInjective(d: FixtureDescription, e: FixtureDescription)
    ensures Encode(d) == Encode(e) <==> d == e
  {
    RoundTrip(d);
    RoundTrip(e);
  }

  // ------------------------------------------------------------ canonical form

  /** In tag order, with every tag between `lo` and `hi`. */
  predicate InTagOrder(fs: seq<Field>, lo: nat, hi: nat) {
    fs == [] || (lo <= fs[0].tag <= hi && InTagOrder(fs[1..], fs[0].tag, hi))
  }

  /** Every field carries the one tag. */
  predicate Uniform(fs: seq<Field>, tag: nat) {
    fs == [] || (fs[0].tag == tag && Uniform(fs[1..], tag))
  }

  lemma {:induction false} RepeatedUniform(tag: nat, ss: seq<Str>)
    ensures Uniform(RepeatedField(tag, ss), tag)
    decreases |ss|
  {
    if ss != [] {
      assert RepeatedField(tag, ss)[1..] == RepeatedField(tag, ss[1..]);
      RepeatedUniform(tag, ss[1..]);
    }
  }

  lemma {:induction false} InputsUniform(keys: seq<Str>, inputs: map<Str, Value>)
    requires forall k :: k in keys ==> k in inputs
    ensures Uniform(InputFields(keys, inputs), 4)
    decreases |keys|
  {
    if keys != [] {
      assert InputFields(keys, inputs)[1..] == InputFields(keys[1..], inputs);
      InputsUniform(keys[1..], inputs);
    }
  }

  /** What the fields of a tag carry, in order. */
  function Payloads(fs: seq<Field>, tag: nat): seq<Payload> {
    if fs == [] then []
    else (if fs[0].tag == tag then [fs[0].payload] else []) + Payloads(fs[1..], tag)
  }

  function AllPayloads(fs: seq<Field>): seq<Payload> {
    seq(|fs|, i requires 0 <= i < |fs| => fs[i].payload)
  }

  lemma {:induction false} PayloadsUniform(fs: seq<Field>, own: nat, tag: nat)
    requires Uniform(fs, own)
    ensures Payloads(fs, tag) == if tag == own then AllPayloads(fs) else []
  {
    if fs != [] {
      PayloadsUniform(fs[1..], own, tag);
      assert AllPayloads(fs) == [fs[0].payload] + AllPayloads(fs[1..]);
    }
  }

  lemma {:induction false} PayloadsOutside(fs: seq<Field>, lo: nat, hi: nat, tag: nat)
    requires InTagOrder(fs, lo, hi) && !(lo <= tag <= hi)
    ensures Payloads(fs, tag) == []
  {
    if fs != [] {
      PayloadsOutside(fs[1..], fs[0].tag, hi, tag);
    }
  }

  lemma {:induction false} PayloadsConcat(fs: seq<Field>, gs: seq<Field>, tag: nat)
    ensures Payloads(fs + gs, tag) == Payloads(fs, tag) + Payloads(gs, tag)
  {
    if fs == [] {
      assert fs + gs == gs;
    } else {
      var head := if fs[0].tag == tag then [fs[0].payload] else [];
      assert (fs + gs)[1..] == fs[1..] + gs;
      PayloadsConcat(fs[1..], gs, tag);
      assert Payloads(fs, tag) == head + Payloads(fs[1..], tag);
      assert Payloads(fs + gs, tag) == head + (Payloads(fs[1..], tag) + Payloads(gs, tag));
    }
  }

  lemma {:induction false} OrderPrepend(fs: seq<Field>, gs: seq<Field>, own: nat, lo: nat, hi: nat)
    requires Uniform(fs, own) && lo <= own <= hi
    requires InTagOrder(gs, own, hi)
    ensures InTagOrder(fs + gs, lo, hi)
  {
    if fs == [] {
      assert fs + gs == gs;
    } else {
      assert (fs + gs)[1..] == fs[1..] + gs;
      OrderPrepend(fs[1..], gs, own, own, hi);
    }
  }

  /** One segment of fields of tag `own`, followed by fields of higher tags. */
  lemma Prepend(fs: seq<Field>, gs: seq<Field>, own: nat, hi: nat, tag: nat)
    requires Uniform(fs, own) && InTagOrder(gs, own + 1, hi) && own <= hi
    ensures InTagOrder(fs + gs, own, hi)
    ensures Payloads(fs + gs, tag) == if tag == own then AllPayloads(fs) else Payloads(gs, tag)
  {
    OrderPrepend(fs, gs, own, own, hi);
    PayloadsConcat(fs, gs, tag);
    PayloadsUniform(fs, own, tag);
    if tag == own {
      PayloadsOutside(gs, own + 1, hi, tag);
    }
  }

  function Unless(absent: bool, p: Payload): seq<Payload> {
    if absent then [] else [p]
  }

  function Records(ss: seq<Str>): seq<Payload> {
    seq(|ss|, i requires 0 <= i < |ss| => Record(ss[i]))
  }

  function EntryRecords(keys: seq<Str>, inputs: map<Str, Value>): seq<Payload>
    requires forall k :: k in keys ==> k in inputs
  {
    seq(|keys|, i requires 0 <= i < |keys| => Record(Serialize(EntryFields(keys[i], inputs[keys[i]]))))
  }

  /** The message definition as a table: what each tag is to carry. A singular
      field is written once unless it holds its default, a oneof at its set
      member's tag even when that is empty, a repeated field once an element, a
      map once a key in ascending order, a present message even when empty. */
  function Prescribed(d: FixtureDescription, tag: nat): seq<Payload> {
    match tag
    case 1 => Unless(d.implId == [], Record(d.implId))
    case 2 => (match d.plugin case Some(BinaryPath(path)) => [Record(path)] case _ => [])
    case 3 => (match d.plugin case Some(ContainerRef(reference)) => [Record(reference)] case _ => [])
    case 4 => EntryRecords(SortedKeys(d.inputs.Keys), d.inputs)
    case 5 => Records(d.imageInputs)
    case 6 => Records(d.fileInputs)
    case 7 => (match d.sharing case Some(sh) => [Record(Serialize(SharingFields(sh)))] case None => [])
    case 8 => Unless(d.startupTimeoutSeconds == 0, Number(d.startupTimeoutSeconds % 0x1_0000_0000_0000_0000))
    case 9 => Unless(d.name == [], Record(d.name))
    case _ => []
  }

  lemma TailForm(d: FixtureDescription, tail: seq<Field>, tag: nat)
    requires tail == OptionalSharing(d.sharing) + (IntField(8, d.startupTimeoutSeconds) + StrField(9, d.name))
    ensures InTagOrder(tail, 7, 9)
    ensures tag >= 7 ==> Payloads(tail, tag) == Prescribed(d, tag)
  {
    var s7, s8, s9 := OptionalSharing(d.sharing), IntField(8, d.startupTimeoutSeconds), StrField(9, d.name);
    PayloadsUniform(s9, 9, tag);
    Prepend(s8, s9, 8, 9, tag);
    Prepend(s7, s8 + s9, 7, 9, tag);
    UnsignedExact(d.startupTimeoutSeconds);
    assert tag == 7 ==> AllPayloads(s7) == Prescribed(d, 7);
    assert tag == 8 ==> AllPayloads(s8) == Prescribed(d, 8);
    assert tag == 9 ==> AllPayloads(s9) == Prescribed(d, 9);
  }

  lemma ListsForm(s4: seq<Field>, s5: seq<Field>, s6: seq<Field>, tail: seq<Field>, tag: nat)
    requires Uniform(s4, 4) && Uniform(s5, 5) && Uniform(s6, 6) && InTagOrder(tail, 7, 9)
    ensures InTagOrder(s4 + (s5 + (s6 + tail)), 4, 9)
    ensures Payloads(s4 + (s5 + (s6 + tail)), tag) ==
              match tag case 4 => AllPayloads(s4) case 5 => AllPayloads(s5) case 6 => AllPayloads(s6)
                        case _ => Payloads(tail, tag)
  {
    Prepend(s6, tail, 6, 9, tag);
    Prepend(s5, s6 + tail, 5, 9, tag);
    Prepend(s4, s5 + (s6 + tail), 4, 9, tag);
  }

  lemma ListsPrescribed(d: FixtureDescription)
    ensures AllPayloads(InputFields(SortedKeys(d.inputs.Keys), d.inputs)) == Prescribed(d, 4)
    ensures AllPayloads(RepeatedField(5, d.imageInputs)) == Prescribed(d, 5)
    ensures AllPayloads(RepeatedField(6, d.fileInputs)) == Prescribed(d, 6)
  {
  }

  lemma MiddleForm(d: FixtureDescription, tail: seq<Field>, middle: seq<Field>, tag: nat)
    requires InTagOrder(tail, 7, 9)
    requires middle == InputFields(SortedKeys(d.inputs.Keys), d.inputs) +
                       (RepeatedField(5, d.imageInputs) + (RepeatedField(6, d.fileInputs) + tail))
    ensures InTagOrder(middle, 4, 9)
    ensures Payloads(middle, tag) == if 4 <= tag <= 6 then Prescribed(d, tag) else Payloads(tail, tag)
  {
    var s4 := InputFields(SortedKeys(d.inputs.Keys), d.inputs);
    var s5, s6 := RepeatedField(5, d.imageInputs), RepeatedField(6, d.fileInputs);
    assert Uniform(s4, 4) by {
      InputsUniform(SortedKeys(d.inputs.Keys), d.inputs);
    }
    assert Uniform(s5, 5) && Uniform(s6, 6) by {
      RepeatedUniform(5, d.imageInputs);
      RepeatedUniform(6, d.fileInputs);
    }
    ListsForm(s4, s5, s6, tail, tag);
    ListsPrescribed(d);
  }

  lemma {:induction false} OrderWiden(gs: seq<Field>, lo: nat, less: nat, hi: nat)
    requires InTagOrder(gs, lo, hi) && less <= lo
    ensures InTagOrder(gs, less, hi)
  {
  }

  lemma HeadForm(d: FixtureDescription, rest: seq<Field>, fs: seq<Field>, tag: nat)
    requires InTagOrder(rest, 4, 9)
    requires fs == StrField(1, d.implId) + (PluginFields(d.plugin) + rest)
    ensures InTagOrder(fs, 1, 9)
    ensures Payloads(fs, tag) == if 1 <= tag <= 3 then Prescribed(d, tag) else Payloads(rest, tag)
  {
    var s1, s2 := StrField(1, d.implId), PluginFields(d.plugin);
    var own := if d.plugin.Some? && d.plugin.value.ContainerRef? then 3 else 2;
    OrderWiden(rest, 4, own + 1, 9);
    Prepend(s2, rest, own, 9, tag);
    OrderWiden(s2 + rest, own, 2, 9);
    Prepend(s1, s2 + rest, 1, 9, tag);
    if 2 <= tag <= 3 {
      PayloadsOutside(rest, 4, 9, tag);
    }
    assert tag == 1 ==> AllPayloads(s1) == Prescribed(d, 1);
    assert tag == own ==> AllPayloads(s2) == Prescribed(d, own);
  }

  lemma FormAt(d: FixtureDescription, tag: nat)
    ensures InTagOrder(DescriptionFields(d), 1, 9)
    ensures Payloads(DescriptionFields(d), tag) == Prescribed(d, tag)
  {
    var tail := OptionalSharing(d.sharing) + (IntField(8, d.startupTimeoutSeconds) + StrField(9, d.name));
    var middle := InputFields(SortedKeys(d.inputs.Keys), d.inputs) +
                  (RepeatedField(5, d.imageInputs) + (RepeatedField(6, d.fileInputs) + tail));
    var fs := DescriptionFields(d);
    TailForm(d, tail, tag);
    MiddleForm(d, tail, middle, tag);
    HeadForm(d, middle, fs, tag);
    if tag == 0 {
      PayloadsOutside(fs, 1, 9, tag);
    }
  }

  /** Two lists in tag order that carry the same at every tag are the same. */
  lemma {:induction false} FormUnique(fs: seq<Field>, gs: seq<Field>, lo: nat, hi: nat)
    requires InTagOrder(fs, lo, hi) && InTagOrder(gs, lo, hi)
    requires forall tag: nat :: Payloads(fs, tag) == Payloads(gs, tag)
    ensures fs == gs
    decreases |fs|
  {
    if fs == [] {
      assert gs != [] ==> Payloads(fs, gs[0].tag) == Payloads(gs, gs[0].tag);
    } else {
      var f := fs[0];
      assert Payloads(fs, f.tag) == Payloads(gs, f.tag);
      assert gs != [];
      var g := gs[0];
      if f.tag < g.tag {
        PayloadsOutside(gs, g.tag, hi, f.tag);
      } else if g.tag < f.tag {
        assert Payloads(fs, g.tag) == Payloads(gs, g.tag);
        PayloadsOutside(fs, f.tag, hi, g.tag);
      }
      assert Payloads(fs, f.tag)[0] == f.payload && Payloads(gs, f.tag)[0] == g.payload;
      forall tag: nat ensures Payloads(fs[1..], tag) == Payloads(gs[1..], tag) {
        var head := if f.tag == tag then [f.payload] else [];
        assert Payloads(fs, tag) == Payloads(gs, tag);
        assert Payloads(fs[1..], tag) == Payloads(fs, tag)[|head|..];
        assert Payloads(gs[1..], tag) == Payloads(gs, tag)[|head|..];
      }
      FormUnique(fs[1..], gs[1..], f.tag, hi);
    }
  }

  /** The wire form is the canonical one and no other: the list in tag order
      whose every tag carries exactly what the message definition prescribes. */
  lemma CanonicalForm(d: FixtureDescription, fs: seq<Field>)
    ensures fs == DescriptionFields(d) <==>
              InTagOrder(fs, 1, 9) && forall tag: nat :: Payloads(fs, tag) == Prescribed(d, tag)
  {
    var own := DescriptionFields(d);
    FormAt(d, 0);
    forall tag: nat ensures Payloads(own, tag) == Prescribed(d, tag) {
      FormAt(d, tag);
    }
    if InTagOrder(fs, 1, 9) && forall tag: nat :: Payloads(fs, tag) == Prescribed(d, tag) {
      FormUnique(fs, own, 1, 9);
    }
  }

  /** A map's entries are written in the one ascending order of its keys, however
      the map was filled. */
  lemma EntryOrder(keys: seq<Str>, inputs: map<Str, Value>)
    requires Ascending(keys) && forall k :: k in keys <==> k in inputs
    ensures InputFields(keys, inputs) == InputFields(SortedKeys(inputs.Keys), inputs)
  {
    SortedKeysUnique(keys, inputs.Keys);
  }

  /** An entry is its key at 1 and its value at 2, each left out when default. */
  lemma EntryForm(key: Str, v: Value, tag: nat)
    ensures InTagOrder(EntryFields(key, v), 1, 2)
    ensures Payloads(EntryFields(key, v), tag) ==
              match tag
              case 1 => Unless(key == [], Record(key))
              case 2 => Unless(v == DEFAULT_VALUE, Record(Serialize(ValueFields(v))))
              case _ => []
  {
    var s1, s2 := StrField(1, key), EntryFields([], v);
    assert EntryFields(key, v) == s1 + s2;
    Prepend(s1, s2, 1, 2, tag);
    PayloadsUniform(s2, 2, tag);
    assert tag == 1 ==> AllPayloads(s1) == Unless(key == [], Record(key));
    assert tag == 2 ==> AllPayloads(s2) == Unless(v == DEFAULT_VALUE, Record(Serialize(ValueFields(v))));
  }

  /** A value is its set member alone, at that member's tag. */
  lemma ValueForm(v: Value, tag: nat)
    ensures InTagOrder(ValueFields(v), 1, 5)
    ensures Payloads(ValueFields(v), tag) ==
              match v.kind
              case Some(StrValue(s)) => Unless(tag != 1, Record(s))
              case Some(DataValue(b)) => Unless(tag != 3, Record(b))
              case Some(BlobValue(b)) => Unless(tag != 4, Record(Serialize(BlobFields(b))))
              case Some(IntValue(i)) => Unless(tag != 5, Number(i % 0x1_0000_0000_0000_0000))
              case None => []
  {
    if v.kind.Some? {
      PayloadsUniform(ValueFields(v), ValueFields(v)[0].tag, tag);
      if v.kind.value.IntValue? {
        UnsignedExact(v.kind.value.number);
      }
    }
  }

  /** A blob is its schema id at 1 and its contents at 2. */
  lemma BlobForm(b: SchemaBlob, tag: nat)
    ensures InTagOrder(BlobFields(b), 1, 2)
    ensures Payloads(BlobFields(b), tag) ==
              match tag
              case 1 => Unless(b.schemaId == [], Record(b.schemaId))
              case 2 => Unless(b.contents == [], Record(b.contents))
              case _ => []
  {
    var s1, s2 := StrField(1, b.schemaId), StrField(2, b.contents);
    Prepend(s1, s2, 1, 2, tag);
    PayloadsUniform(s2, 2, tag);
    assert tag == 1 ==> AllPayloads(s1) == Unless(b.schemaId == [], Record(b.schemaId));
    assert tag == 2 ==> AllPayloads(s2) == Unless(b.contents == [], Record(b.contents));
  }

  /** The set scope is an empty message at its own tag, before the connection
      limit at 4, which is left out when zero. */
  lemma SharingForm(s: Sharing, tag: nat)
    ensures InTagOrder(SharingFields(s), 1, 4)
    ensures Payloads(SharingFields(s), tag) ==
              match tag
              case 1 => Unless(s.useScope != Some(Unrestricted), Record([]))
              case 2 => Unless(s.useScope != Some(ClientRestricted), Record([]))
              case 3 => Unless(s.useScope != Some(SingleUse), Record([]))
              case 4 => Unless(s.maximumConcurrentConnections == 0,
                               Number(s.maximumConcurrentConnections % 0x1_0000_0000_0000_0000))
              case _ => []
  {
    var scope, slots := ScopeFields(s.useScope), IntField(4, s.maximumConcurrentConnections);
    var own := if scope == [] then 1 else scope[0].tag;
    UnsignedExact(s.maximumConcurrentConnections);
    OrderWiden(slots, 4, own + 1, 4);
    Prepend(scope, slots, own, 4, tag);
    OrderWiden(scope + slots, own, 1, 4);
    PayloadsUniform(slots, 4, tag);
    assert tag == own ==> AllPayloads(scope) == Unless(scope == [], Record([]));
    assert tag == 4 ==> AllPayloads(slots) == Unless(slots == [], Number(Unsigned(s.maximumConcurrentConnections)));
  }
}
