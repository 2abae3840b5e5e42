/** The Protocol Buffers wire format, as far as the fixture messages use it:
    base 128 varints and length-delimited records (Protocol Buffers Encoding
    guide, "Base 128 Varints" and "Length-Delimited Records"). */
module Wire {
  import opened Base

  /** What is left after reading one item off the front of a buffer. */
  datatype Read<+T> = Fail | Got(value: T, rest: Bytes)

  datatype Payload = Number(n: nat) | Record(bytes: Bytes)

  datatype Field = Field(tag: nat, payload: Payload)

  const WIRE_VARINT := 0
  const WIRE_LENGTH_DELIMITED := 2

  // ---------------------------------------------------------------- varints

  /** Little-endian groups of seven bits, each but the last with its top bit set. */
  function Varint(n: nat): (b: Bytes)
    ensures |b| >= 1
  {
    if n < 128 then [n] else [128 + n % 128] + Varint(n / 128)
  }

  function ReadVarint(b: Bytes): (r: Read<nat>)
    ensures r.Got? ==> |r.rest| < |b|
  {
    if b == [] then Fail
    else if b[0] < 128 then Got(b[0], b[1..])
    else
      match ReadVarint(b[1..])
      case Fail => Fail
      case Got(high, rest) => Got(b[0] - 128 + 128 * high, rest)
  }

  lemma {:induction false} VarintRoundTrip(n: nat, rest: Bytes)
    ensures ReadVarint(Varint(n) + rest) == Got(n, rest)
  {
    var b := Varint(n) + rest;
    if n < 128 {
      assert b[1..] == rest;
    } else {
      VarintRoundTrip(n / 128, rest);
      assert b[1..] == Varint(n / 128) + rest;
    }
  }

  /** The sum of a little-endian list of seven-bit groups. */
  function GroupSum(v: Bytes): nat {
    if v == [] then 0 else v[0] % 128 + 128 * GroupSum(v[1..])
  }

  /** The one varint of a number, as the format defines it: the top bit set on
      all bytes but the last, no high zero group, and groups that sum to it. */
  predicate IsVarint(v: Bytes, n: nat) {
    && v != []
    && (forall i :: 0 <= i < |v| - 1 ==> v[i] >= 128)
    && v[|v| - 1] < 128
    && (|v| > 1 ==> v[|v| - 1] != 0)
    && GroupSum(v) == n
  }

  lemma {:induction false} GroupSumPositive(v: Bytes)
    requires v != [] && 0 < v[|v| - 1] < 128
    ensures GroupSum(v) > 0
  {
    if |v| > 1 {
      GroupSumPositive(v[1..]);
    }
  }

  lemma {:induction false} VarintExact(v: Bytes, n: nat)
    ensures IsVarint(v, n) <==> v == Varint(n)
    decreases n
  {
    var b := Varint(n);
    if n < 128 {
      assert b[1..] == [];
      if IsVarint(v, n) && |v| > 1 {
        GroupSumPositive(v[1..]);
      }
      if IsVarint(v, n) && |v| == 1 {
        assert v[1..] == [] && v == [v[0]];
      }
    } else {
      assert b[1..] == Varint(n / 128);
      VarintExact(b[1..], n / 128);
      if IsVarint(v, n) {
        if |v| == 1 {
          assert v[1..] == [];
          assert GroupSum(v) < 128;
        }
        assert n == v[0] % 128 + 128 * GroupSum(v[1..]);
        VarintExact(v[1..], n / 128);
        assert v == [v[0]] + v[1..];
      }
    }
  }

  // ----------------------------------------------------------------- fields

  function WireType(p: Payload): nat {
    if p.Number? then WIRE_VARINT else WIRE_LENGTH_DELIMITED
  }

  function SerializeField(f: Field): (b: Bytes)
    ensures b != []
  {
    Varint(8 * f.tag + WireType(f.payload)) +
    match f.payload
    case Number(n) => Varint(n)
    case Record(bytes) => Varint(|bytes|) + bytes
  }

  function Serialize(fs: seq<Field>): (b: Bytes)
    ensures fs != [] ==> b != []
  {
    if fs == [] then [] else SerializeField(fs[0]) + Serialize(fs[1..])
  }

  /** A field is its key, which holds the tag above three bits of wire type, and
      then its number, or the length of its record and the record. */
  lemma FieldExact(f: Field)
    ensures f.payload.Number? ==>
              exists key, number :: IsVarint(key, 8 * f.tag) && IsVarint(number, f.payload.n) &&
                SerializeField(f) == key + number
    ensures f.payload.Record? ==>
              exists key, length :: IsVarint(key, 8 * f.tag + 2) && IsVarint(length, |f.payload.bytes|) &&
                SerializeField(f) == key + length + f.payload.bytes
  {
    match f.payload
    case Number(n) =>
      VarintExact(Varint(8 * f.tag), 8 * f.tag);
      VarintExact(Varint(n), n);
    case Record(bytes) =>
      VarintExact(Varint(8 * f.tag + 2), 8 * f.tag + 2);
      VarintExact(Varint(|bytes|), |bytes|);
      assert SerializeField(f) == Varint(8 * f.tag + 2) + Varint(|bytes|) + bytes;
  }

  /** A message is its fields' bytes one after the other. */
  lemma MessageExact(f: Field, fs: seq<Field>)
    ensures Serialize([]) == []
    ensures Serialize([f] + fs) == SerializeField(f) + Serialize(fs)
  {
    assert ([f] + fs)[1..] == fs;
  }

  function ParsePayload(wireType: nat, b: Bytes): (r: Read<Payload>)
    ensures r.Got? ==> |r.rest| < |b|
  {
    match ReadVarint(b)
    case Fail => Fail
    case Got(n, rest) =>
      if wireType == WIRE_VARINT then Got(Number(n), rest)
      else if wireType == WIRE_LENGTH_DELIMITED && n <= |rest| then Got(Record(rest[..n]), rest[n..])
      else Fail
  }

  function ParseField(b: Bytes): (r: Read<Field>)
    ensures r.Got? ==> |r.rest| < |b|
  {
    match ReadVarint(b)
    case Fail => Fail
    case Got(key, rest) =>
      match ParsePayload(key % 8, rest)
      case Fail => Fail
      case Got(payload, rest') => Got(Field(key / 8, payload), rest')
  }

  /** Splits a whole buffer into its fields, or rejects it. */
  function Parse(b: Bytes): (r: Option<seq<Field>>)
    decreases |b|
  {
    if b == [] then Some([])
    else
      match ParseField(b)
      case Fail => None
      case Got(f, rest) =>
        match Parse(rest)
        case None => None
        case Some(fs) => Some([f] + fs)
  }

  lemma ParsePayloadRoundTrip(p: Payload, rest: Bytes)
    ensures ParsePayload(WireType(p),
                         (match p case Number(n) => Varint(n) case Record(b) => Varint(|b|) + b) + rest)
         == Got(p, rest)
  {
    match p
    case Number(n) =>
      VarintRoundTrip(n, rest);
    case Record(b) =>
      VarintRoundTrip(|b|, b + rest);
      assert Varint(|b|) + b + rest == Varint(|b|) + (b + rest);
      assert (b + rest)[..|b|] == b && (b + rest)[|b|..] == rest;
  }

  lemma ParseFieldRoundTrip(f: Field, rest: Bytes)
    ensures ParseField(SerializeField(f) + rest) == Got(f, rest)
  {
    var key := 8 * f.tag + WireType(f.payload);
    var body := match f.payload case Number(n) => Varint(n) case Record(b) => Varint(|b|) + b;
    assert SerializeField(f) + rest == Varint(key) + (body + rest);
    VarintRoundTrip(key, body + rest);
    ParsePayloadRoundTrip(f.payload, rest);
    assert key % 8 == WireType(f.payload) && key / 8 == f.tag;
  }

  /** Every field list survives the wire: numbers, tags, order and contents. */
  lemma {:induction false} ParseRoundTrip(fs: seq<Field>)
    ensures Parse(Serialize(fs)) == Some(fs)
  {
    if fs != [] {
      ParseFieldRoundTrip(fs[0], Serialize(fs[1..]));
      ParseRoundTrip(fs[1..]);
      assert [fs[0]] + fs[1..] == fs;
    }
  }

  // ---------------------------------------------------------------- merging

  /** Folds parsed fields into a message, left to right; a field the message
      cannot take makes the whole decoding fail. */
  function Merge<A>(step: (A, Field) -> Option<A>, fs: seq<Field>, acc: A): Option<A> {
    if fs == [] then Some(acc)
    else
      match step(acc, fs[0])
      case None => None
      case Some(next) => Merge(step, fs[1..], next)
  }

  lemma {:induction false} MergeConcat<A>(step: (A, Field) -> Option<A>, fs: seq<Field>, gs: seq<Field>, acc: A, mid: A)
    requires Merge(step, fs, acc) == Some(mid)
    ensures Merge(step, fs + gs, acc) == Merge(step, gs, mid)
  {
    if fs == [] {
      assert fs + gs == gs;
    } else {
      MergeConcat(step, fs[1..], gs, step(acc, fs[0]).value, mid);
      assert (fs + gs)[1..] == fs[1..] + gs;
    }
  }
}
