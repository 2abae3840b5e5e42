/** The fingerprint: the cache key that decides which requests may share one
    provisioned fixture (src/coordinator/src/fixture.rs). SHA-256 is a parameter
    `digest`; the theorems assume only that it does not collide on the byte
    strings they mention. */
module Fingerprint {
  import opened Base
  import opened Messages
  import opened Codec

  type Digest = Bytes -> Bytes

  type Fingerprint = Str

  // -------------------------------------------------------------------- hex

  /** One lower-case hexadecimal digit, as its ASCII code. */
  function HexDigit(n: nat): (c: byte)
    requires n < 16
    ensures 48 <= c <= 57 || 97 <= c <= 102
  {
    if n < 10 then 48 + n else 87 + n
  }

  function HexEncode(b: Bytes): (s: Str)
    ensures |s| == 2 * |b|
  {
    if b == [] then [] else [HexDigit(b[0] / 16), HexDigit(b[0] % 16)] + HexEncode(b[1..])
  }

  function HexValue(c: byte): nat {
    if c < 87 then Max(0, c - 48) else c - 87
  }

  function HexDecode(s: Str): Bytes {
    if |s| < 2 then [] else [(16 * HexValue(s[0]) + HexValue(s[1])) % 256] + HexDecode(s[2..])
  }

  lemma {:induction false} HexRoundTrip(b: Bytes)
    ensures HexDecode(HexEncode(b)) == b
  {
    if b != [] {
      HexRoundTrip(b[1..]);
      var s := HexEncode(b);
      assert s[2..] == HexEncode(b[1..]);
      assert HexValue(s[0]) == b[0] / 16 && HexValue(s[1]) == b[0] % 16;
      assert b == [b[0]] + b[1..];
    }
  }

  /** Byte i becomes two lower-case digits, the high half first. */
  lemma {:induction false} HexAt(b: Bytes, i: nat)
    requires i < |b|
    ensures var high, low := b[i] / 16, b[i] % 16;
            && HexEncode(b)[2 * i] == (if high < 10 then 48 + high else 97 + (high - 10))
            && HexEncode(b)[2 * i + 1] == (if low < 10 then 48 + low else 97 + (low - 10))
  {
    if i > 0 {
      HexAt(b[1..], i - 1);
      assert HexEncode(b)[2..] == HexEncode(b[1..]);
    }
  }

  // ---------------------------------------------------- canonical encoding

  /** The description actually encoded: the name cleared, and a binary path
      replaced by the hash of the binary's contents. */
  function Canonical(digest: Digest, desc: FixtureDescription, contents: Bytes): FixtureDescription {
    var anonymous := desc.(name := []);
    if desc.plugin.Some? && desc.plugin.value.BinaryPath?
    then anonymous.(plugin := Some(BinaryPath(HexEncode(digest(contents)))))
    else anonymous
  }

  function CanonicalBytes(digest: Digest, desc: FixtureDescription, contents: Bytes): Bytes {
    Encode(Canonical(digest, desc, contents))
  }

  /** `file` is what reading the plugin binary yields; an unreadable binary
      makes the computation fail. */
  function Compute(digest: Digest, desc: FixtureDescription, file: Option<Bytes>): Option<Fingerprint> {
    if desc.plugin.Some? && desc.plugin.value.BinaryPath? && file.None? then None
    else
      var contents := if file.Some? then file.value else [];
      Some(HexEncode(digest(CanonicalBytes(digest, desc, contents))))
  }

  /** What the fingerprint of a binary-plugin description is: the hex digest of
      the encoding without the name, the path replaced by the hex digest of the
      binary. */
  ghost function Identity(digest: Digest, desc: FixtureDescription, contents: Bytes): Fingerprint {
    HexEncode(digest(Encode(desc.(name := [], plugin := Some(BinaryPath(HexEncode(digest(contents))))))))
  }

  predicate HasBinary(desc: FixtureDescription) {
    desc.plugin.Some? && desc.plugin.value.BinaryPath?
  }

  lemma ComputeExact(digest: Digest, desc: FixtureDescription, file: Option<Bytes>)
    requires HasBinary(desc)
    ensures Compute(digest, desc, file) ==
              if file.None? then None else Some(Identity(digest, desc, file.value))
  {
  }

  // -------------------------------------------------------------- exactness

  /** What a caller can observe of identity: everything but the name, with a
      plugin binary known by its contents and not by its path. */
  predicate SameFixture(d: FixtureDescription, dc: Bytes, e: FixtureDescription, ec: Bytes) {
    && d.implId == e.implId
    && d.inputs == e.inputs
    && d.imageInputs == e.imageInputs
    && d.fileInputs == e.fileInputs
    && d.sharing == e.sharing
    && d.startupTimeoutSeconds == e.startupTimeoutSeconds
    && match (d.plugin, e.plugin)
       case (Some(BinaryPath(_)), Some(BinaryPath(_))) => dc == ec
       case (p, q) => p == q
  }

  /** The digest tells apart the two plugin binaries and the two encodings. */
  predicate NoCollision(digest: Digest, d: FixtureDescription, dc: Bytes, e: FixtureDescription, ec: Bytes) {
    && (digest(dc) == digest(ec) ==> dc == ec)
    && (digest(CanonicalBytes(digest, d, dc)) == digest(CanonicalBytes(digest, e, ec)) ==>
          CanonicalBytes(digest, d, dc) == CanonicalBytes(digest, e, ec))
  }

  lemma CanonicalExact(digest: Digest, d: FixtureDescription, dc: Bytes, e: FixtureDescription, ec: Bytes)
    requires digest(dc) == digest(ec) ==> dc == ec
    ensures Canonical(digest, d, dc) == Canonical(digest, e, ec) <==> SameFixture(d, dc, e, ec)
  {
    HexRoundTrip(digest(dc));
    HexRoundTrip(digest(ec));
  }

  /** Two requests get one fingerprint exactly when they describe the same
      fixture; names and binary paths never matter, contents always do. */
  lemma FingerprintExact(digest: Digest, d: FixtureDescription, dc: Bytes, e: FixtureDescription, ec: Bytes)
    requires NoCollision(digest, d, dc, e, ec)
    ensures Compute(digest, d, Some(dc)) == Compute(digest, e, Some(ec)) <==> SameFixture(d, dc, e, ec)
  {
    var db, eb := CanonicalBytes(digest, d, dc), CanonicalBytes(digest, e, ec);
    HexRoundTrip(digest(db));
    HexRoundTrip(digest(eb));
    EncodeInjective(Canonical(digest, d, dc), Canonical(digest, e, ec));
    CanonicalExact(digest, d, dc, e, ec);
  }
}
