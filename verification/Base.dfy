/** Types shared by the whole model. */
module Base {

  datatype Option<+T> = None | Some(value: T)

  datatype Result<+T, +E> = Ok(value: T) | Err(error: E)

  /** The gRPC status codes the coordinator answers with. */
  datatype Code = InvalidArgument | Unimplemented | Internal | NotFound

  type byte = x: int | 0 <= x < 256

  type Bytes = seq<byte>

  /** A Rust `String` or a Go `string`: its bytes. Both languages compare and
      order strings bytewise. */
  type Str = Bytes

  type int32 = x: int | -0x8000_0000 <= x < 0x8000_0000

  type int64 = x: int | -0x8000_0000_0000_0000 <= x < 0x8000_0000_0000_0000

  function Max(a: int, b: int): int {
    if a < b then b else a
  }

  /** An injective map has as many values as keys. */
  lemma {:induction false} InjectiveCard<K, V>(m: map<K, V>)
    requires forall a, b :: a in m && b in m && m[a] == m[b] ==> a == b
    ensures |m.Values| == |m|
    decreases |m|
  {
    if m == map[] {
      assert m.Values == {};
    } else {
      var k :| k in m;
      var rest := m - {k};
      assert m.Keys == rest.Keys + {k};
      assert m[k] !in rest.Values;
      assert m.Values == rest.Values + {m[k]};
      InjectiveCard(rest);
    }
  }

  /** Some length exceeds that of every string of a finite set. */
  lemma {:induction false} LongerThanAll(used: set<Str>) returns (n: nat)
    ensures forall x :: x in used ==> |x| < n
  {
    if used == {} {
      n := 0;
    } else {
      var y :| y in used;
      n := LongerThanAll(used - {y});
      assert forall x :: x in used ==> x == y || x in used - {y};
      n := Max(n, |y| + 1);
    }
  }

  /** No finite set holds every string, so an unused lease id always exists. */
  lemma UnusedString(used: set<Str>) returns (x: Str)
    ensures x !in used
  {
    var n := LongerThanAll(used);
    x := seq(n, _ => 0);
  }

  /** No finite set holds every number. */
  lemma {:induction false} UnusedNumber(used: set<nat>) returns (n: nat)
    ensures forall x :: x in used ==> x < n
  {
    if used == {} {
      n := 0;
    } else {
      var y :| y in used;
      n := UnusedNumber(used - {y});
      assert forall x :: x in used ==> x == y || x in used - {y};
      n := Max(n, y + 1);
    }
  }
}
