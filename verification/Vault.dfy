/**
 The identity vault: the 105-byte sealed blob, its legacy 104-byte form, and files that
 concatenate several blobs. Key derivation, the AEAD and passphrase normalisation are
 parameters; randomness is passed in.
 */
module Vault {
  import opened Common
  import opened Digits

  const VERSION: Byte := 2
  const V1_BYTES := 104
  const BLOB_BYTES := 105
  const DUAL_BYTES := 210
  const HEADER_BYTES := 33
  const MIN_OPS := 2
  const MIN_MEM := 64 * 1024 * 1024
  const MAX_MEM := 1024 * 1024 * 1024
  const DEFAULT_OPS: U64 := 3
  const DEFAULT_MEM: U64 := 256 * 1024 * 1024

  type U64 = x: int | 0 <= x < 0x1_0000_0000_0000_0000
  type Seed = s: Bytes | |s| == 32 witness seq(32, _ => 0)
  type Salt = s: Bytes | |s| == 16 witness seq(16, _ => 0)
  type Nonce = s: Bytes | |s| == 24 witness seq(24, _ => 0)

  datatype Error = EmptyPassphrase | KdfFailed | LengthMismatch
  datatype Result<+T> = Ok(value: T) | Err(error: Error)

  /** The primitives the vault is built on; `kdf` fails when memory runs out. */
  datatype Crypto = Crypto(
    normalize: string -> Bytes,
    kdf: (Bytes, Salt, U64, U64) -> Option<Bytes>,
    seal: (Bytes, Nonce, Bytes, Seed) -> Bytes,
    open: (Bytes, Nonce, Bytes, Bytes) -> Option<Seed>)
  {
    /** The AEAD adds a 16-byte tag and opens what it sealed. */
    ghost predicate Correct() {
      forall k: Bytes, n: Nonce, a: Bytes, s: Seed ::
        |seal(k, n, a, s)| == 48 && open(k, n, a, seal(k, n, a, s)) == Some(s)
    }

    /** Among the normalised passphrases `pps`, no two derive the same key, and no key opens what another sealed. */
    ghost predicate IdealOn(pps: set<Bytes>) {
      && Correct()
      && forall p, p', salt: Salt, ops: U64, mem: U64 | p in pps && p' in pps && p != p' ::
           var k, k' := kdf(p, salt, ops, mem), kdf(p', salt, ops, mem);
           k.Some? && k'.Some? ==>
             k.value != k'.value && forall n: Nonce, a: Bytes, s: Seed ::
               open(k'.value, n, a, seal(k.value, n, a, s)) == None
    }
  }

  // ----- Big-endian limits -------------------------------------------------

  method PutU64Be(a: array<Byte>, p: nat, v: U64)
    requires p + 8 <= a.Length
    modifies a
    ensures a[p..p + 8] == BeBytes(v, 8)
    ensures a[..p] == old(a[..p]) && a[p + 8..] == old(a[p + 8..])
  {
    var rest: nat := v;
    for i := 8 downto 0
      invariant BeBytes(v, 8) == BeBytes(rest, i) + a[p + i..p + 8]
      invariant a[..p] == old(a[..p]) && a[p + 8..] == old(a[p + 8..])
    {
      ghost var done := a[p + i + 1..p + 8];
      a[p + i] := rest % 256;
      assert a[p + i..p + 8] == [rest % 256] + done;
      rest := rest / 256;
    }
  }

  method GetU64Be(bs: Bytes) returns (v: U64)
    requires |bs| == 8
    ensures v == Value(bs, 256)
  {
    hide Or, Shl, Value;
    v := 0;
    assert bs[..0] == [];
    EmptyValue();
    for i := 0 to 8
      invariant v == Value(bs[..i], 256)
    {
      ShiftByte(bs[..i], bs[i]);
      assert bs[..i + 1] == bs[..i] + [bs[i]];
      v := Or(Shl(v, 8), bs[i]) % 0x1_0000_0000_0000_0000;
    }
    assert bs[..8] == bs;
  }

  lemma EmptyValue()
    ensures Value([], 256) == 0
  {
  }

  lemma ShiftByte(bs: Bytes, b: Byte)
    requires |bs| < 8
    ensures Or(Shl(Value(bs, 256), 8), b) == Value(bs + [b], 256) < 0x1_0000_0000_0000_0000
  {
    hide Or, Shl, Value, Pow;
    Pow2Values();
    ShiftIn(Value(bs, 256), b, 8);
    ValueAppend(bs, b, 256);
    ValueBound(bs + [b], 256);
    Pow256Monotone(|bs| + 1, 8);
    U64Range();
  }

  lemma {:induction false} Pow256Monotone(m: nat, n: nat)
    requires m <= n
    ensures Pow(256, m) <= Pow(256, n)
  {
    if m < n {
      Pow256Monotone(m, n - 1);
    }
  }

  // ----- One blob ----------------------------------------------------------

  /** Version, salt and limits: the bytes bound into the AEAD as associated data. */
  function Header(salt: Salt, ops: U64, mem: U64): (h: Bytes)
    ensures |h| == HEADER_BYTES
  {
    [VERSION] + salt + BeBytes(ops, 8) + BeBytes(mem, 8)
  }

  function Limit(given: U64, default: U64): U64 {
    if given == 0 then default else given
  }

  function Sealed(
    c: Crypto, passphrase: string, seed: Seed, ops: U64, mem: U64, salt: Salt, nonce: Nonce): Result<Bytes> {
    if passphrase == "" then Err(EmptyPassphrase)
    else
      var o, m := Limit(ops, DEFAULT_OPS), Limit(mem, DEFAULT_MEM);
      match c.kdf(c.normalize(passphrase), salt, o, m)
      case None => Err(KdfFailed)
      case Some(key) => Ok(Header(salt, o, m) + nonce + c.seal(key, nonce, Header(salt, o, m), seed))
  }

  /** Fills the blob in place, field by field. */
  method SealSeed(c: Crypto, passphrase: string, seed: Seed, ops: U64, mem: U64, salt: Salt, nonce: Nonce)
    returns (r: Result<Bytes>)
    requires c.Correct()
    ensures r == Sealed(c, passphrase, seed, ops, mem, salt, nonce)
    ensures r.Ok? <==>
            passphrase != "" && c.kdf(c.normalize(passphrase), salt, if ops == 0 then 3 else ops,
              if mem == 0 then 256 * 1024 * 1024 else mem).Some?
    ensures r.Ok? ==> |r.value| == BLOB_BYTES
    ensures r.Err? ==> r.error == if passphrase == "" then EmptyPassphrase else KdfFailed
  {
    if passphrase == "" {
      return Err(EmptyPassphrase);
    }
    var o := if ops == 0 then DEFAULT_OPS else ops;
    var m := if mem == 0 then DEFAULT_MEM else mem;
    var blob := new Byte[BLOB_BYTES](_ => 0);
    WriteHeader(blob, salt, o, m, nonce);
    var key := c.kdf(c.normalize(passphrase), salt, o, m);
    if key == None {
      return Err(KdfFailed);
    }
    var ct := c.seal(key.value, nonce, blob[..HEADER_BYTES], seed);
    assert blob[..57] == blob[..33] + blob[33..57];
    Store(blob, 57, ct);
    assert blob[..] == blob[..57] + blob[57..105];
    return Ok(blob[..]);
  }

  method WriteHeader(blob: array<Byte>, salt: Salt, ops: U64, mem: U64, nonce: Nonce)
    requires blob.Length == BLOB_BYTES
    modifies blob
    ensures blob[..HEADER_BYTES] == Header(salt, ops, mem) && blob[33..57] == nonce
  {
    hide BeBytes;
    blob[0] := VERSION;
    Store(blob, 1, salt);
    assert blob[..17] == blob[..1] + blob[1..17] == [VERSION] + salt;
    Store(blob, 33, nonce);
    assert blob[..17] == blob[..33][..17];
    ghost var tail := blob[33..];
    assert tail[..24] == nonce;
    PutU64Be(blob, 17, ops);
    assert blob[33..] == blob[25..][8..] == tail;
    assert blob[..25] == blob[..17] + blob[17..25];
    PutU64Be(blob, 25, mem);
    assert blob[..HEADER_BYTES] == blob[..25] + blob[25..33];
    assert blob[33..57] == blob[33..][..24] == nonce;
  }

  /** Writes `bs` at offset `p`. */
  method Store(a: array<Byte>, p: nat, bs: Bytes)
    requires p + |bs| <= a.Length
    modifies a
    ensures a[p..p + |bs|] == bs
    ensures a[..p] == old(a[..p]) && a[p + |bs|..] == old(a[p + |bs|..])
  {
    forall i | 0 <= i < |bs| {
      a[p + i] := bs[i];
    }
  }

  predicate Admissible(ops: nat, mem: nat) {
    MIN_OPS <= ops && MIN_MEM <= mem <= MAX_MEM
  }

  function Open(c: Crypto, passphrase: string, blob: Bytes): Option<Seed> {
    var v2 := |blob| == BLOB_BYTES && blob[0] == VERSION;
    var v1 := |blob| == V1_BYTES;
    if !v1 && !v2 then None
    else
      var p := if v2 then 1 else 0;
      var salt: Salt, opsBytes, memBytes := blob[p..p + 16], blob[p + 16..p + 24], blob[p + 24..p + 32];
      var nonce: Nonce, ct := blob[p + 32..p + 56], blob[p + 56..];
      var ops, mem := Value(opsBytes, 256), Value(memBytes, 256);
      if !Admissible(ops, mem) then None
      else
        LimitIsU64(opsBytes);
        match c.kdf(c.normalize(passphrase), salt, ops, mem)
        case None => None
        case Some(key) => c.open(key, nonce, if v2 then blob[..HEADER_BYTES] else [], ct)
  }

  lemma LimitIsU64(bs: Bytes)
    requires |bs| == 8
    ensures Value(bs, 256) < 0x1_0000_0000_0000_0000
  {
    ValueBound(bs, 256);
    U64Range();
  }

  /** What `Open` reads back out of a sealed blob. */
  lemma SealedFields(salt: Salt, ops: U64, mem: U64, nonce: Nonce, ct: Bytes)
    ensures var blob := Header(salt, ops, mem) + nonce + ct;
            && blob[0] == VERSION
            && blob[1..17] == salt
            && Value(blob[17..25], 256) == ops
            && Value(blob[25..33], 256) == mem
            && blob[33..57] == nonce
            && blob[57..] == ct
            && blob[..HEADER_BYTES] == Header(salt, ops, mem)
  {
    U64Range();
    BeRoundTrip(ops, 8);
    BeRoundTrip(mem, 8);
    var blob := Header(salt, ops, mem) + nonce + ct;
    assert blob[17..25] == BeBytes(ops, 8);
    assert blob[25..33] == BeBytes(mem, 8);
  }

  /** Opening a sealed blob with `passphrase'` is opening its ciphertext under the key that passphrase gives. */
  lemma OpenSealed(
    c: Crypto, passphrase: string, passphrase': string, seed: Seed, ops: U64, mem: U64, salt: Salt, nonce: Nonce)
    requires c.Correct() && Sealed(c, passphrase, seed, ops, mem, salt, nonce).Ok?
    ensures var o, m := Limit(ops, DEFAULT_OPS), Limit(mem, DEFAULT_MEM);
            var key := c.kdf(c.normalize(passphrase), salt, o, m);
            var key' := c.kdf(c.normalize(passphrase'), salt, o, m);
            && key.Some?
            && Open(c, passphrase', Sealed(c, passphrase, seed, ops, mem, salt, nonce).value) ==
               if !Admissible(o, m) || key' == None then None
               else c.open(key'.value, nonce, Header(salt, o, m), c.seal(key.value, nonce, Header(salt, o, m), seed))
  {
    var o, m := Limit(ops, DEFAULT_OPS), Limit(mem, DEFAULT_MEM);
    var key := c.kdf(c.normalize(passphrase), salt, o, m);
    SealedFields(salt, o, m, nonce, c.seal(key.value, nonce, Header(salt, o, m), seed));
  }

  /** The exact bounds of the round trip: sealing accepts limits that opening refuses. */
  lemma RoundTripIff(c: Crypto, passphrase: string, seed: Seed, ops: U64, mem: U64, salt: Salt, nonce: Nonce)
    requires c.Correct() && Sealed(c, passphrase, seed, ops, mem, salt, nonce).Ok?
    ensures var blob := Sealed(c, passphrase, seed, ops, mem, salt, nonce).value;
            var o, m := Limit(ops, DEFAULT_OPS), Limit(mem, DEFAULT_MEM);
            && (Open(c, passphrase, blob) == Some(seed) <==> Admissible(o, m))
            && (Open(c, passphrase, blob) == None <==> !Admissible(o, m))
  {
    OpenSealed(c, passphrase, passphrase, seed, ops, mem, salt, nonce);
  }

  /** Nothing opens but the two formats, with limits in bounds. */
  lemma OpensOnlyKnownFormats(c: Crypto, passphrase: string, blob: Bytes)
    requires Open(c, passphrase, blob).Some?
    ensures |blob| == 104 || (|blob| == 105 && blob[0] == 2)
    ensures var p := |blob| - 104;
            Value(blob[p + 16..p + 24], 256) >= 2
              && 64 * 1024 * 1024 <= Value(blob[p + 24..p + 32], 256) <= 1024 * 1024 * 1024
  {
  }

  /** A blob of the first format: no version byte, and nothing authenticated beside the ciphertext. */
  function Legacy(salt: Salt, ops: U64, mem: U64, nonce: Nonce, ct: Bytes): Bytes {
    salt + BeBytes(ops, 8) + BeBytes(mem, 8) + nonce + ct
  }

  lemma LegacyFields(salt: Salt, ops: U64, mem: U64, nonce: Nonce, ct: Bytes)
    ensures var blob := Legacy(salt, ops, mem, nonce, ct);
            && |blob| == 56 + |ct|
            && blob[0..16] == salt && Value(blob[16..24], 256) == ops && Value(blob[24..32], 256) == mem
            && blob[32..56] == nonce && blob[56..] == ct
  {
    U64Range();
    BeRoundTrip(ops, 8);
    BeRoundTrip(mem, 8);
    var blob := Legacy(salt, ops, mem, nonce, ct);
    assert blob[16..24] == BeBytes(ops, 8);
    assert blob[24..32] == BeBytes(mem, 8);
  }

  /** A blob of the first format opens to the seed sealed in it if and only if its limits are in bounds. */
  lemma LegacyOpensIff(c: Crypto, passphrase: string, seed: Seed, ops: U64, mem: U64, salt: Salt, nonce: Nonce)
    requires c.Correct() && c.kdf(c.normalize(passphrase), salt, ops, mem).Some?
    ensures var key := c.kdf(c.normalize(passphrase), salt, ops, mem).value;
            var blob := Legacy(salt, ops, mem, nonce, c.seal(key, nonce, [], seed));
            && (Open(c, passphrase, blob) == Some(seed) <==> ops >= 2 && MIN_MEM <= mem <= MAX_MEM)
            && (Open(c, passphrase, blob) == None <==> !(ops >= 2 && MIN_MEM <= mem <= MAX_MEM))
  {
    var key := c.kdf(c.normalize(passphrase), salt, ops, mem).value;
    LegacyFields(salt, ops, mem, nonce, c.seal(key, nonce, [], seed));
  }

  /** One pass over the memory is enough to seal, and too little to open again: the seed cannot be recovered. */
  lemma OnePassSealsForGood(c: Crypto, passphrase: string, seed: Seed, salt: Salt, nonce: Nonce)
    requires c.Correct() && passphrase != "" && c.kdf(c.normalize(passphrase), salt, 1, DEFAULT_MEM).Some?
    ensures var blob := Sealed(c, passphrase, seed, 1, 0, salt, nonce);
            blob.Ok? && forall p: string :: Open(c, p, blob.value) == None
  {
    forall p: string
      ensures Open(c, p, Sealed(c, passphrase, seed, 1, 0, salt, nonce).value) == None
    {
      OpenSealed(c, passphrase, p, seed, 1, 0, salt, nonce);
    }
  }

  /** Under an ideal AEAD a sealed blob opens for exactly the passphrases that normalise alike. */
  lemma OpensIffSamePassphrase(
    c: Crypto, passphrase: string, passphrase': string, seed: Seed, ops: U64, mem: U64, salt: Salt, nonce: Nonce)
    requires c.IdealOn({c.normalize(passphrase), c.normalize(passphrase')})
    requires Sealed(c, passphrase, seed, ops, mem, salt, nonce).Ok?
    requires Admissible(Limit(ops, DEFAULT_OPS), Limit(mem, DEFAULT_MEM))
    ensures Open(c, passphrase', Sealed(c, passphrase, seed, ops, mem, salt, nonce).value) ==
            if c.normalize(passphrase') == c.normalize(passphrase) then Some(seed) else None
  {
    OpenSealed(c, passphrase, passphrase', seed, ops, mem, salt, nonce);
  }

  // ----- Files of several blobs --------------------------------------------

  /** The 105-byte slots of a file. */
  function Slots(blob: Bytes): seq<Bytes> {
    seq(|blob| / BLOB_BYTES,
      i requires 0 <= i < |blob| / BLOB_BYTES => blob[BLOB_BYTES * i..BLOB_BYTES * i + BLOB_BYTES])
  }

  /** The lowest slot that opens, if any does. */
  function FirstOpen(c: Crypto, passphrase: string, slots: seq<Bytes>): (r: Option<Seed>)
    ensures r == None <==> forall i | 0 <= i < |slots| :: Open(c, passphrase, slots[i]) == None
    ensures r.Some? ==> exists i | 0 <= i < |slots| ::
                && Open(c, passphrase, slots[i]) == r
                && forall j | 0 <= j < i :: Open(c, passphrase, slots[j]) == None
  {
    if slots == [] then None
    else
      var first := Open(c, passphrase, slots[0]);
      if first.Some? then first else
        assert forall i | 0 < i < |slots| :: slots[i] == slots[1..][i - 1];
        FirstOpen(c, passphrase, slots[1..])
  }

  function OpenMulti(c: Crypto, passphrase: string, blob: Bytes): Option<Seed> {
    if |blob| == BLOB_BYTES || |blob| == V1_BYTES then Open(c, passphrase, blob)
    else if |blob| < BLOB_BYTES || |blob| % BLOB_BYTES != 0 then None
    else FirstOpen(c, passphrase, Slots(blob))
  }

  function OpenDual(c: Crypto, passphrase: string, blob: Bytes): Option<Seed> {
    if |blob| == BLOB_BYTES || |blob| == V1_BYTES then Open(c, passphrase, blob)
    else if |blob| != DUAL_BYTES then None
    else
      var a, b := Open(c, passphrase, blob[..BLOB_BYTES]), Open(c, passphrase, blob[BLOB_BYTES..]);
      if a.Some? then a else b
  }

  lemma {:induction false} FirstOpenAppend(c: Crypto, passphrase: string, slots: seq<Bytes>, last: Bytes)
    ensures FirstOpen(c, passphrase, slots + [last]) ==
            if FirstOpen(c, passphrase, slots).Some? then FirstOpen(c, passphrase, slots) else Open(c, passphrase, last)
  {
    if slots == [] {
      assert slots + [last] == [last];
      assert FirstOpen(c, passphrase, [last][1..]) == None;
    } else {
      assert (slots + [last])[1..] == slots[1..] + [last];
      FirstOpenAppend(c, passphrase, slots[1..], last);
    }
  }

  /** The scan that tries every slot and keeps the first match. */
  method OpenSeedMulti(c: Crypto, passphrase: string, blob: Bytes) returns (r: Option<Seed>)
    ensures r == OpenMulti(c, passphrase, blob)
  {
    hide Open, FirstOpen;
    if |blob| == BLOB_BYTES || |blob| == V1_BYTES {
      return Open(c, passphrase, blob);
    }
    if |blob| < BLOB_BYTES || |blob| % BLOB_BYTES != 0 {
      return None;
    }
    var slotCount := |blob| / BLOB_BYTES;
    ghost var slots := Slots(blob);
    var matched: Option<Seed> := None;
    assert slots[..0] == [];
    for i := 0 to slotCount
      invariant matched == FirstOpen(c, passphrase, slots[..i])
    {
      var slot := blob[BLOB_BYTES * i..BLOB_BYTES * i + BLOB_BYTES];
      var s := Open(c, passphrase, slot);
      FirstOpenAppend(c, passphrase, slots[..i], slot);
      assert slots[..i + 1] == slots[..i] + [slot];
      if s.Some? && matched == None {
        matched := s;
      }
    }
    assert slots[..slotCount] == slots;
    return matched;
  }

  /** The duress reader is the N-slot reader restricted to one and two slots. */
  lemma DualIsMulti(c: Crypto, passphrase: string, blob: Bytes)
    ensures |blob| in {V1_BYTES, BLOB_BYTES, DUAL_BYTES}
            ==> OpenDual(c, passphrase, blob) == OpenMulti(c, passphrase, blob)
    ensures OpenDual(c, passphrase, blob) != OpenMulti(c, passphrase, blob) ==>
              |blob| % BLOB_BYTES == 0 && |blob| >= 3 * BLOB_BYTES && OpenDual(c, passphrase, blob) == None
  {
    hide Open;
    if |blob| == DUAL_BYTES {
      var a, b := blob[..BLOB_BYTES], blob[BLOB_BYTES..];
      assert |Slots(blob)| == 2 && Slots(blob)[0] == a && Slots(blob)[1] == b;
      assert Slots(blob) == [a] + [b];
      FirstOpenAppend(c, passphrase, [a], b);
      FirstOpenAppend(c, passphrase, [], a);
      assert [] + [a] == [a];
    }
  }

  datatype Slot = Slot(passphrase: string, seed: Seed, salt: Salt, nonce: Nonce)

  function SealSlot(c: Crypto, s: Slot, ops: U64, mem: U64): Result<Bytes> {
    Sealed(c, s.passphrase, s.seed, ops, mem, s.salt, s.nonce)
  }

  predicate AllSeal(c: Crypto, slots: seq<Slot>, ops: U64, mem: U64) {
    forall i | 0 <= i < |slots| :: SealSlot(c, slots[i], ops, mem).Ok?
  }

  function Concatenated(c: Crypto, slots: seq<Slot>, ops: U64, mem: U64): Bytes
    requires AllSeal(c, slots, ops, mem)
  {
    if slots == [] then []
    else Concatenated(c, slots[..|slots| - 1], ops, mem) + SealSlot(c, slots[|slots| - 1], ops, mem).value
  }

  function Personas(
    passphrases: seq<string>, seeds: seq<Seed>, salts: seq<Salt>, nonces: seq<Nonce>): (slots: seq<Slot>)
    requires |passphrases| == |seeds| == |salts| == |nonces|
    ensures |slots| == |passphrases|
  {
    seq(|passphrases|, i requires 0 <= i < |passphrases| => Slot(passphrases[i], seeds[i], salts[i], nonces[i]))
  }

  /** The first slot that cannot be sealed stops the whole operation. */
  method SealSeedsMulti(
    c: Crypto, passphrases: seq<string>, seeds: seq<Seed>, salts: seq<Salt>, nonces: seq<Nonce>, ops: U64, mem: U64)
    returns (r: Result<Bytes>)
    requires c.Correct() && |salts| == |nonces| == |passphrases|
    ensures r == Err(LengthMismatch) <==> passphrases == [] || |passphrases| != |seeds|
    ensures r != Err(LengthMismatch) ==>
              var slots := Personas(passphrases, seeds, salts, nonces);
              && (r.Ok? <==> AllSeal(c, slots, ops, mem))
              && (r.Ok? ==> r.value == Concatenated(c, slots, ops, mem))
  {
    hide Sealed;
    if passphrases == [] || |passphrases| != |seeds| {
      return Err(LengthMismatch);
    }
    ghost var slots := Personas(passphrases, seeds, salts, nonces);
    var out: Bytes := [];
    for i := 0 to |passphrases|
      invariant AllSeal(c, slots[..i], ops, mem)
      invariant out == Concatenated(c, slots[..i], ops, mem)
    {
      var slot := SealSeed(c, passphrases[i], seeds[i], ops, mem, salts[i], nonces[i]);
      assert slot == SealSlot(c, slots[i], ops, mem);
      if slot.Err? {
        return Err(slot.error);
      }
      assert slots[..i + 1][..i] == slots[..i];
      out := out + slot.value;
    }
    assert slots[..|slots|] == slots;
    return Ok(out);
  }

  lemma SlotLength(c: Crypto, s: Slot, ops: U64, mem: U64)
    requires c.Correct() && SealSlot(c, s, ops, mem).Ok?
    ensures |SealSlot(c, s, ops, mem).value| == BLOB_BYTES
  {
  }

  lemma {:induction false} SlotsOfConcatenated(c: Crypto, slots: seq<Slot>, ops: U64, mem: U64)
    requires c.Correct() && AllSeal(c, slots, ops, mem)
    ensures var blob := Concatenated(c, slots, ops, mem);
            && |blob| == BLOB_BYTES * |slots|
            && |Slots(blob)| == |slots|
            && forall i | 0 <= i < |slots| :: Slots(blob)[i] == SealSlot(c, slots[i], ops, mem).value
  {
    hide SealSlot, Sealed;
    if slots != [] {
      var n := |slots| - 1;
      SlotLength(c, slots[n], ops, mem);
      SlotsOfConcatenated(c, slots[..n], ops, mem);
      var low, last := Concatenated(c, slots[..n], ops, mem), SealSlot(c, slots[n], ops, mem).value;
      var blob := low + last;
      forall i | 0 <= i < |slots|
        ensures Slots(blob)[i] == SealSlot(c, slots[i], ops, mem).value
      {
        if i < n {
          assert blob[BLOB_BYTES * i..BLOB_BYTES * i + BLOB_BYTES] == low[BLOB_BYTES * i..BLOB_BYTES * i + BLOB_BYTES];
          assert Slots(low)[i] == SealSlot(c, slots[..n][i], ops, mem).value;
        } else {
          assert blob[BLOB_BYTES * n..BLOB_BYTES * n + BLOB_BYTES] == last;
        }
      }
    }
  }

  /** The seed of the lowest slot whose passphrase normalises like `passphrase`. */
  function LowestSeed(c: Crypto, passphrase: string, slots: seq<Slot>): Option<Seed> {
    if slots == [] then None
    else if c.normalize(slots[0].passphrase) == c.normalize(passphrase) then Some(slots[0].seed)
    else LowestSeed(c, passphrase, slots[1..])
  }

  ghost function Normalised(c: Crypto, passphrase: string, slots: seq<Slot>): set<Bytes> {
    {c.normalize(passphrase)} + set s | s in slots :: c.normalize(s.passphrase)
  }

  /** Any passphrase opens an N-slot vault to the seed of the lowest slot it belongs to, and nothing else. */
  lemma MultiRoundTrip(c: Crypto, passphrase: string, slots: seq<Slot>, ops: U64, mem: U64)
    requires c.IdealOn(Normalised(c, passphrase, slots)) && slots != [] && AllSeal(c, slots, ops, mem)
    requires Admissible(Limit(ops, DEFAULT_OPS), Limit(mem, DEFAULT_MEM))
    ensures OpenMulti(c, passphrase, Concatenated(c, slots, ops, mem)) == LowestSeed(c, passphrase, slots)
  {
    var blob := Concatenated(c, slots, ops, mem);
    SlotsOfConcatenated(c, slots, ops, mem);
    FirstOpenIsLowest(c, passphrase, slots, ops, mem, Slots(blob));
    if |slots| == 1 {
      assert Slots(blob)[0] == blob;
    }
  }

  lemma {:induction false} FirstOpenIsLowest(
    c: Crypto, passphrase: string, slots: seq<Slot>, ops: U64, mem: U64, blobs: seq<Bytes>)
    requires c.IdealOn(Normalised(c, passphrase, slots)) && AllSeal(c, slots, ops, mem) && |blobs| == |slots|
    requires Admissible(Limit(ops, DEFAULT_OPS), Limit(mem, DEFAULT_MEM))
    requires forall i | 0 <= i < |slots| :: blobs[i] == SealSlot(c, slots[i], ops, mem).value
    ensures FirstOpen(c, passphrase, blobs) == LowestSeed(c, passphrase, slots)
  {
    if slots != [] {
      assert slots[0] in slots && forall s | s in slots[1..] :: s in slots;
      assert Normalised(c, passphrase, slots[1..]) <= Normalised(c, passphrase, slots);
      OpensIffSamePassphrase(c, slots[0].passphrase, passphrase, slots[0].seed, ops, mem, slots[0].salt,
        slots[0].nonce);
      FirstOpenIsLowest(c, passphrase, slots[1..], ops, mem, blobs[1..]);
    }
  }
}
