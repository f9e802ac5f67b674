/**
 The recovery phrase codec: a 32-byte seed and its checksum byte, read as one 264-bit
 big-endian number, written as 24 base-2048 digits, each spelled as a word.
 */
module Bip39 {
  import opened Common
  import opened Digits

  const WORD_COUNT := 24
  const LIST_SIZE := 2048

  /** A wordlist the codec can be used with: 2048 distinct words, none empty, none holding a space. */
  ghost predicate IsWordlist(list: seq<string>) {
    && |list| == LIST_SIZE
    && (forall i, j | 0 <= i < j < LIST_SIZE :: list[i] != list[j])
    && forall i | 0 <= i < LIST_SIZE :: list[i] != "" && NoSpace(list[i])
  }

  ghost predicate IsDigest(sha: Bytes -> Bytes) {
    forall m: Bytes :: |sha(m)| == 32
  }

  // ----- Encoding ----------------------------------------------------------

  /** The digit spelled by bits `11 i` to `11 i + 10` of the 33-byte buffer. */
  ghost function WordAt(ent: Bytes, i: nat): nat
    requires |ent| == 33 && i < WORD_COUNT
  {
    Value(Bits(ent, 8)[11 * i..11 * i + 11], 2)
  }

  ghost function Words(ent: Bytes): (ws: seq<nat>)
    requires |ent| == 33
    ensures |ws| == WORD_COUNT
  {
    seq(WORD_COUNT, i requires 0 <= i < WORD_COUNT => WordAt(ent, i))
  }

  ghost function Buffer(sha: Bytes -> Bytes, seed: Bytes): (ent: Bytes)
    requires IsDigest(sha) && |seed| == 32
    ensures |ent| == 33
  {
    seed + [sha(seed)[0]]
  }

  lemma GroupIsWord(bits: seq<nat>)
    requires |bits| == 11 && IsDigits(bits, 2)
    ensures Value(bits, 2) < LIST_SIZE
  {
    ValueBound(bits, 2);
    Pow2Values();
  }

  /** The 11-bit walk is base conversion: the words write the same number as the bytes. */
  lemma WordsAreDigits(ent: Bytes)
    requires |ent| == 33
    ensures IsDigits(Words(ent), LIST_SIZE)
    ensures Value(Words(ent), LIST_SIZE) == Value(ent, 256)
  {
    var bits, ws := Bits(ent, 8), Words(ent);
    forall i | 0 <= i < WORD_COUNT
      ensures ws[i] < LIST_SIZE && ToBits(ws[i], 11) == bits[11 * i..11 * i + 11]
    {
      GroupIsWord(bits[11 * i..11 * i + 11]);
      BitsOfValue(bits[11 * i..11 * i + 11]);
    }
    SameBits(ws, 11, bits);
    Pow2Values();
    BitsValue(ent, 8);
    BitsValue(ws, 11);
  }

  /** Digits whose groups of bits are those of `bits` spell out `bits`. */
  lemma {:induction false} SameBits(ds: seq<nat>, k: nat, bits: seq<nat>)
    requires |bits| == k * |ds|
    requires forall i | 0 <= i < |ds| :: 0 <= k * i <= k * i + k <= |bits| && ToBits(ds[i], k) == bits[k * i..k * i + k]
    ensures Bits(ds, k) == bits
  {
    if ds == [] {
    } else {
      var n := |ds| - 1;
      assert k * |ds| == k * n + k;
      assert bits == bits[..k * n] + bits[k * n..k * n + k];
      forall i | 0 <= i < n
        ensures 0 <= k * i <= k * i + k <= k * n
        ensures ToBits(ds[..n][i], k) == bits[..k * n][k * i..k * i + k]
      {
        MulMonotone(i + 1, n, k);
        assert bits[..k * n][k * i..k * i + k] == bits[k * i..k * i + k];
      }
      SameBits(ds[..n], k, bits[..k * n]);
    }
  }

  /** The bit at position `bit` of the buffer, as the encoder extracts it. */
  lemma BufferBit(ent: Bytes, bit: nat)
    requires |ent| == 33 && bit < 264
    ensures Bits(ent, 8)[bit] == Shr(ent[bit / 8], 7 - bit % 8) % 2
  {
    var i := bit / 8;
    BitsGroup(ent, 8, i);
    BitAt(ent[i], 8, bit % 8);
    assert Bits(ent, 8)[8 * i..8 * i + 8][bit % 8] == Bits(ent, 8)[bit];
  }

  /** One turn of the encoder's inner loop. */
  lemma ReadBit(ent: Bytes, i: nat, b: nat)
    requires |ent| == 33 && i < WORD_COUNT && b < 11
    ensures var bits, bit := Bits(ent, 8), 11 * i + b;
            Or(Shl(Value(bits[11 * i..bit], 2), 1), Shr(ent[bit / 8], 7 - bit % 8) % 2) % 0x10000
            == Value(bits[11 * i..bit + 1], 2)
  {
    var bits, bit := Bits(ent, 8), 11 * i + b;
    BufferBit(ent, bit);
    assert bits[11 * i..bit + 1] == bits[11 * i..bit] + [bits[bit]];
    ShiftInBit(bits[11 * i..bit], bits[bit]);
  }

  /** The encoder's inner loop: the eleven bits of word `i`. */
  method ReadWord(ent: Bytes, i: nat) returns (v: nat)
    requires |ent| == 33 && i < WORD_COUNT
    ensures v == WordAt(ent, i)
  {
    v := 0;
    for b := 0 to 11
      invariant v == Value(Bits(ent, 8)[11 * i..11 * i + b], 2)
    {
      var bit := i * 11 + b;
      var byte := bit / 8;
      var off := 7 - bit % 8;
      ReadBit(ent, i, b);
      v := Or(Shl(v, 1), Shr(ent[byte], off) % 2) % 0x10000;
    }
  }

  method SeedToIndices(sha: Bytes -> Bytes, seed: Bytes) returns (words: seq<nat>)
    requires IsDigest(sha) && |seed| == 32
    ensures words == Words(Buffer(sha, seed))
    ensures IsDigits(words, LIST_SIZE)
    ensures Value(words, LIST_SIZE) == Value(Buffer(sha, seed), 256)
  {
    var digest := sha(seed);
    var ent := seed + [digest[0]];
    words := [];
    for i := 0 to WORD_COUNT
      invariant |words| == i
      invariant forall j | 0 <= j < i :: words[j] == WordAt(ent, j)
    {
      var v := ReadWord(ent, i);
      words := words + [v];
    }
    WordsAreDigits(ent);
  }

  lemma ShiftInBit(bits: seq<nat>, bit: nat)
    requires |bits| < 11 && IsDigits(bits, 2) && bit < 2
    ensures Or(Shl(Value(bits, 2), 1), bit) % 0x10000 == Value(bits + [bit], 2)
  {
    hide Value, Or, Shl, Pow;
    Pow2Values();
    ShiftIn(Value(bits, 2), bit, 1);
    ValueAppend(bits, bit, 2);
    ValueBound(bits + [bit], 2);
    PowMonotone(|bits| + 1, 11);
  }

  lemma {:induction false} PowMonotone(m: nat, n: nat)
    requires m <= n
    ensures Pow(2, m) <= Pow(2, n)
  {
    if m < n {
      PowMonotone(m, n - 1);
    }
  }

  // ----- Decoding ----------------------------------------------------------

  ghost function ByteAt(words: seq<nat>, q: nat): (v: Byte)
    requires |words| == WORD_COUNT && q < 33
  {
    OctetBound(Bits(words, 11)[8 * q..8 * q + 8]);
    Value(Bits(words, 11)[8 * q..8 * q + 8], 2)
  }

  /** The 33 bytes that 24 words pack into. */
  ghost function Packed(words: seq<nat>): (ent: Bytes)
    requires |words| == WORD_COUNT
    ensures |ent| == 33
  {
    seq(33, q requires 0 <= q < 33 => ByteAt(words, q))
  }

  lemma OctetBound(bits: seq<nat>)
    requires |bits| == 8 && IsDigits(bits, 2)
    ensures Value(bits, 2) < 256
  {
    ValueBound(bits, 2);
    Pow2Values();
  }

  lemma PackedValue(words: seq<nat>)
    requires |words| == WORD_COUNT && IsDigits(words, LIST_SIZE)
    ensures Value(Packed(words), 256) == Value(words, LIST_SIZE)
  {
    var bits: seq<nat>, ent := Bits(words, 11), Packed(words);
    forall q | 0 <= q < 33
      ensures ToBits(ent[q], 8) == bits[8 * q..8 * q + 8]
    {
      BitsOfValue(bits[8 * q..8 * q + 8]);
      assert ent[q] == ByteAt(words, q);
    }
    SameBits(ent, 8, bits);
    Pow2Values();
    BitsValue(ent, 8);
    BitsValue(words, 11);
  }

  /** Byte `q` of the buffer once `bitpos` bits are in: the bits it has, then zeros. */
  ghost function Partial(bits: seq<nat>, q: nat, bitpos: nat): nat
    requires |bits| == 264 && q < 33 && bitpos <= 264
  {
    var n := if bitpos <= 8 * q then 0 else if 8 * q + 8 <= bitpos then 8 else bitpos - 8 * q;
    Shl(Value(bits[8 * q..8 * q + n], 2), 8 - n)
  }

  ghost predicate Filled(bits: seq<nat>, ent: Bytes, bitpos: nat)
    requires |bits| == 264 && |ent| == 33 && bitpos <= 264
  {
    forall q | 0 <= q < 33 :: ent[q] == Partial(bits, q, bitpos)
  }

  /** The byte `e` with the bit `d` or-ed in at offset `off`. */
  function PutBit(e: Byte, d: nat, off: nat): Byte {
    Or(e, Shl(d, off)) % 256
  }

  /** Or-ing the next bit in at its offset extends the partial byte by exactly that bit. */
  lemma PlaceBit(before: seq<nat>, d: nat, e: Byte)
    requires |before| < 8 && IsDigits(before, 2) && d < 2
    requires e == Shl(Value(before, 2), 8 - |before|)
    ensures PutBit(e, d, 7 - |before|) == Shl(Value(before + [d], 2), 7 - |before|)
  {
    hide Value, Or, Shl, Pow, PutBit;
    var n := 7 - |before|;
    ValueAppend(before, d, 2);
    ValueBound(before + [d], 2);
    ShlBound(Value(before + [d], 2), |before| + 1, n);
    Pow2Values();
    PlaceBelow(Value(before, 2), d, n, e);
  }

  lemma PlaceBelow(hi: nat, d: nat, n: nat, e: Byte)
    requires d < 2 && e == Shl(hi, n + 1) && Shl(2 * hi + d, n) < 256
    ensures PutBit(e, d, n) == Shl(2 * hi + d, n)
  {
    hide Or, Shl;
    var lo := Shl(d, n);
    assert lo < Pow(2, n + 1) by {
      ShlBound(d, 1, n);
    }
    OrDisjoint(hi, lo, n + 1);
    ShlAdd(hi, d, n);
    assert Or(e, lo) == Shl(2 * hi + d, n);
  }

  lemma {:induction false} ShlAdd(hi: nat, d: nat, n: nat)
    ensures Shl(hi, n + 1) + Shl(d, n) == Shl(2 * hi + d, n)
  {
    if n > 0 {
      ShlAdd(hi, d, n - 1);
    }
  }

  lemma {:induction false} ShlBound(v: nat, m: nat, n: nat)
    requires v < Pow(2, m)
    ensures Shl(v, n) < Pow(2, m + n)
  {
    if n > 0 {
      ShlBound(v, m, n - 1);
    }
  }

  lemma WordBit(words: seq<nat>, t: nat, b: nat)
    requires |words| == WORD_COUNT && t < WORD_COUNT && b < 11
    ensures Bits(words, 11)[11 * t + 10 - b] == Shr(words[t], b) % 2
  {
    BitsGroup(words, 11, t);
    BitAt(words[t], 11, 10 - b);
    assert Bits(words, 11)[11 * t..11 * t + 11][10 - b] == Bits(words, 11)[11 * t + 10 - b];
  }

  /** One turn of the decoder's inner loop. */
  lemma WriteBit(words: seq<nat>, t: nat, b: nat, bitpos: nat, q: nat, e: Byte)
    requires |words| == WORD_COUNT && t < WORD_COUNT && b < 11
    requires bitpos == 11 * t + 10 - b && 8 * q <= bitpos < 8 * q + 8
    requires e == Partial(Bits(words, 11), q, bitpos)
    ensures PutBit(e, Shr(words[t], b) % 2, 8 * q + 7 - bitpos) == Partial(Bits(words, 11), q, bitpos + 1)
  {
    hide Value, Shl, Shr, PutBit, Bits;
    var bits := Bits(words, 11);
    var before := bits[8 * q..bitpos];
    WordBit(words, t, b);
    PlaceBit(before, bits[bitpos], e);
    assert before + [bits[bitpos]] == bits[8 * q..bitpos + 1];
  }

  lemma PartialElsewhere(bits: seq<nat>, q: nat, bitpos: nat)
    requires |bits| == 264 && q < 33 && bitpos < 264 && !(8 * q <= bitpos < 8 * q + 8)
    ensures Partial(bits, q, bitpos + 1) == Partial(bits, q, bitpos)
  {
  }

  /** The decoder's inner loop: the eleven bits of word `t`. */
  method PackWord(words: seq<nat>, t: nat, ent: array<Byte>)
    requires |words| == WORD_COUNT && t < WORD_COUNT && ent.Length == 33
    requires Filled(Bits(words, 11), ent[..], 11 * t)
    modifies ent
    ensures Filled(Bits(words, 11), ent[..], 11 * t + 11)
  {
    hide Partial, PutBit, Shr, Bits;
    var v, bitpos := words[t], 11 * t;
    for b := 11 downto 0
      invariant bitpos == 11 * t + 11 - b
      invariant Filled(Bits(words, 11), ent[..], bitpos)
    {
      var byte := bitpos / 8;
      var off := 7 - bitpos % 8;
      WriteBit(words, t, b, bitpos, byte, ent[byte]);
      forall q | 0 <= q < 33 && q != byte
        ensures Partial(Bits(words, 11), q, bitpos + 1) == Partial(Bits(words, 11), q, bitpos)
      {
        PartialElsewhere(Bits(words, 11), q, bitpos);
      }
      ent[byte] := PutBit(ent[byte], Shr(v, b) % 2, off);
      bitpos := bitpos + 1;
    }
  }

  method PackIndices(words: seq<nat>) returns (ent: array<Byte>)
    requires |words| == WORD_COUNT && IsDigits(words, LIST_SIZE)
    ensures fresh(ent) && ent[..] == Packed(words)
    ensures Value(ent[..], 256) == Value(words, LIST_SIZE)
  {
    ent := new Byte[33](_ => 0);
    for t := 0 to WORD_COUNT
      invariant Filled(Bits(words, 11), ent[..], 11 * t)
    {
      PackWord(words, t, ent);
    }
    PackedValue(words);
  }

  lemma UnpackPacked(ent: Bytes)
    requires |ent| == 33
    ensures Packed(Words(ent)) == ent
  {
    WordsAreDigits(ent);
    PackedValue(Words(ent));
    ValueInjective(Packed(Words(ent)), ent, 256);
  }

  lemma PackUnpacked(words: seq<nat>)
    requires |words| == WORD_COUNT && IsDigits(words, LIST_SIZE)
    ensures Words(Packed(words)) == words
  {
    PackedValue(words);
    WordsAreDigits(Packed(words));
    ValueInjective(Words(Packed(words)), words, LIST_SIZE);
  }

  // ----- The codec on tokens -----------------------------------------------

  ghost function Encode(list: seq<string>, sha: Bytes -> Bytes, seed: Bytes): (tokens: seq<string>)
    requires IsWordlist(list) && IsDigest(sha) && |seed| == 32
    ensures |tokens| == WORD_COUNT
  {
    WordsAreDigits(Buffer(sha, seed));
    Spell(list, Words(Buffer(sha, seed)))
  }

  ghost function Spell(list: seq<string>, words: seq<nat>): (tokens: seq<string>)
    requires IsDigits(words, |list|)
    ensures |tokens| == |words|
  {
    seq(|words|, i requires 0 <= i < |words| => list[words[i]])
  }

  ghost function IndexOf(list: seq<string>, w: string): (i: nat)
    requires w in list
    ensures i < |list| && list[i] == w
  {
    var i: nat :| i < |list| && list[i] == w; i
  }

  ghost function Look(list: seq<string>, tokens: seq<string>): (words: seq<nat>)
    requires forall t | t in tokens :: t in list
    ensures |words| == |tokens| && IsDigits(words, |list|)
  {
    seq(|tokens|, i requires 0 <= i < |tokens| => IndexOf(list, tokens[i]))
  }

  ghost function Decode(list: seq<string>, sha: Bytes -> Bytes, tokens: seq<string>): (r: Option<Bytes>)
    requires IsWordlist(list) && IsDigest(sha)
  {
    if |tokens| != WORD_COUNT || exists t :: t in tokens && t !in list then None
    else
      var ent := Packed(Look(list, tokens));
      if sha(ent[..32])[0] != ent[32] then None else Some(ent[..32])
  }

  /** Looking up the words of a distinct list is the inverse of spelling them. */
  lemma LookSpelled(list: seq<string>, words: seq<nat>)
    requires IsWordlist(list) && IsDigits(words, LIST_SIZE)
    ensures forall t | t in Spell(list, words) :: t in list
    ensures Look(list, Spell(list, words)) == words
  {
    var tokens := Spell(list, words);
    assert forall i | 0 <= i < |words| :: tokens[i] == list[words[i]];
  }

  lemma SpellLooked(list: seq<string>, tokens: seq<string>)
    requires forall t | t in tokens :: t in list
    ensures Spell(list, Look(list, tokens)) == tokens
  {
  }

  /** Every seed survives the trip through its phrase. */
  lemma RoundTrip(list: seq<string>, sha: Bytes -> Bytes, seed: Bytes)
    requires IsWordlist(list) && IsDigest(sha) && |seed| == 32
    ensures Decode(list, sha, Encode(list, sha, seed)) == Some(seed)
  {
    var ent := Buffer(sha, seed);
    var words := Words(ent);
    WordsAreDigits(ent);
    LookSpelled(list, words);
    UnpackPacked(ent);
    assert ent[..32] == seed;
  }

  /** The accepted token lists are exactly the encodings, and re-encoding restores the tokens. */
  lemma AcceptedIffEncoding(list: seq<string>, sha: Bytes -> Bytes, tokens: seq<string>)
    requires IsWordlist(list) && IsDigest(sha)
    ensures Decode(list, sha, tokens).Some? <==>
            exists seed: Bytes :: |seed| == 32 && tokens == Encode(list, sha, seed)
    ensures Decode(list, sha, tokens).Some? ==>
              var seed := Decode(list, sha, tokens).value;
              |seed| == 32 && Encode(list, sha, seed) == tokens
  {
    if Decode(list, sha, tokens).Some? {
      var words := Look(list, tokens);
      var ent := Packed(words);
      var seed := ent[..32];
      assert Buffer(sha, seed) == ent;
      PackUnpacked(words);
      assert Encode(list, sha, seed) == tokens;
    }
    if seed: Bytes :| |seed| == 32 && tokens == Encode(list, sha, seed) {
      RoundTrip(list, sha, seed);
    }
  }

  // ----- The last word -----------------------------------------------------

  ghost predicate AcceptsWords(sha: Bytes -> Bytes, words: seq<nat>)
    requires IsDigest(sha) && |words| == WORD_COUNT
  {
    var ent := Packed(words);
    sha(ent[..32])[0] == ent[32]
  }

  /** The last word is three entropy bits and the whole checksum byte. */
  lemma LastWordSplit(first: seq<nat>, w: nat)
    requires |first| == 23 && IsDigits(first, LIST_SIZE) && w < LIST_SIZE
    ensures Packed(first + [w])[32] == w % 256
    ensures Packed(first + [w])[..32] == Packed(first + [w - w % 256])[..32]
  {
    var a, b := first + [w], first + [w - w % 256];
    var ea, eb := Packed(a), Packed(b);
    PackedValue(a);
    PackedValue(b);
    ValueAppend(first, w, LIST_SIZE);
    ValueAppend(first, w - w % 256, LIST_SIZE);
    assert ea == ea[..32] + [ea[32]] && eb == eb[..32] + [eb[32]];
    ValueAppend(ea[..32], ea[32], 256);
    ValueAppend(eb[..32], eb[32], 256);
    SplitLast(Value(first, LIST_SIZE), w, Value(ea[..32], 256), ea[32], Value(eb[..32], 256), eb[32]);
    ValueInjective(ea[..32], eb[..32], 256);
  }

  lemma SplitLast(x: nat, w: nat, a: nat, c: Byte, a': nat, c': Byte)
    requires x * 2048 + w == a * 256 + c && x * 2048 + (w - w % 256) == a' * 256 + c'
    ensures c == w % 256 && a == a'
  {
    assert (x * 2048 + w) % 256 == w % 256 && (x * 2048 + w) / 256 == 8 * x + w / 256;
  }

  /** The low byte of the last word is the first byte of the seed's digest. */
  lemma ChecksumInLastWord(sha: Bytes -> Bytes, seed: Bytes)
    requires IsDigest(sha) && |seed| == 32
    ensures Words(seed + [sha(seed)[0]])[23] % 256 == sha(seed)[0]
  {
    var ent := seed + [sha(seed)[0]];
    var words := Words(ent);
    WordsAreDigits(ent);
    UnpackPacked(ent);
    assert words == words[..23] + [words[23]];
    LastWordSplit(words[..23], words[23]);
  }

  ghost function Checked(sha: Bytes -> Bytes, first: seq<nat>, t: nat): nat
    requires IsDigest(sha) && |first| == 23 && t < 8
  {
    256 * t + sha(Packed(first + [256 * t])[..32])[0]
  }

  /** For any 23 words of the list exactly eight of its 2048 words complete a phrase that decodes. */
  lemma EightLastWords(list: seq<string>, sha: Bytes -> Bytes, tokens: seq<string>)
    requires IsWordlist(list) && IsDigest(sha) && |tokens| == 23 && forall t | t in tokens :: t in list
    ensures |set t | t in list && Decode(list, sha, tokens + [t]).Some?| == 8
  {
    var first := Look(list, tokens);
    var good := set w | 0 <= w < LIST_SIZE && AcceptsWords(sha, first + [w]);
    var last := set t | t in list && Decode(list, sha, tokens + [t]).Some?;
    EightIndices(sha, first);
    forall w | 0 <= w < LIST_SIZE
      ensures list[w] in last <==> w in good
    {
      DecodesIff(list, sha, tokens, w);
    }
    SpelledSize(list, good, last);
  }

  lemma DecodesIff(list: seq<string>, sha: Bytes -> Bytes, tokens: seq<string>, w: nat)
    requires IsWordlist(list) && IsDigest(sha) && |tokens| == 23 && w < LIST_SIZE
    requires forall t | t in tokens :: t in list
    ensures Decode(list, sha, tokens + [list[w]]).Some? <==> AcceptsWords(sha, Look(list, tokens) + [w])
  {
    var words := Look(list, tokens) + [w];
    SpellLooked(list, tokens);
    LookSpelled(list, words);
    assert Spell(list, words) == tokens + [list[w]];
  }

  /** Distinct words are as many as their indices. */
  lemma {:induction false} SpelledSize(list: seq<string>, indices: set<int>, words: set<string>)
    requires IsWordlist(list) && forall w | w in indices :: 0 <= w < LIST_SIZE
    requires forall w | 0 <= w < LIST_SIZE :: list[w] in words <==> w in indices
    requires forall t | t in words :: t in list
    ensures |words| == |indices|
    decreases |indices|
  {
    if w :| w in indices {
      SpelledSize(list, indices - {w}, words - {list[w]});
    } else {
      assert words == {};
    }
  }

  lemma EightIndices(sha: Bytes -> Bytes, first: seq<nat>)
    requires IsDigest(sha) && |first| == 23 && IsDigits(first, LIST_SIZE)
    ensures |set w | 0 <= w < LIST_SIZE && AcceptsWords(sha, first + [w])| == 8
  {
    var good := set w | 0 <= w < LIST_SIZE && AcceptsWords(sha, first + [w]);
    forall w | 0 <= w < LIST_SIZE
      ensures w in good <==> w == Checked(sha, first, w / 256)
    {
      LastWordSplit(first, w);
      assert w - w % 256 == 256 * (w / 256);
    }
    EightOf(good, i requires 0 <= i < 8 => Checked(sha, first, i));
  }

  lemma EightOf(good: set<int>, f: nat --> nat)
    requires forall i | 0 <= i < 8 :: f.requires(i) && 256 * i <= f(i) < 256 * i + 256
    requires forall w | 0 <= w < LIST_SIZE :: w in good <==> w == f(w / 256)
    requires forall w | w in good :: 0 <= w < LIST_SIZE
    ensures |good| == 8
  {
    var i := 0;
    var rest: set<int> := good;
    while i < 8
      invariant 0 <= i <= 8
      invariant rest == set w | w in good && w / 256 >= i
      invariant |good| == |rest| + i
    {
      var w := f(i);
      assert w / 256 == i && w in rest;
      forall x | x in rest && x != w
        ensures x / 256 >= i + 1
      {
      }
      assert rest - {w} == set x | x in good && x / 256 >= i + 1;
      rest := rest - {w};
      i := i + 1;
    }
    assert rest == {};
  }

  // ----- Words, phrases and the reverse index ------------------------------

  /** The lazily built reverse lookup. */
  method WordIndex(list: seq<string>) returns (index: map<string, nat>)
    requires IsWordlist(list)
    ensures index.Keys == set w | w in list
    ensures forall w | w in list :: index[w] == IndexOf(list, w)
  {
    index := map[];
    for i := 0 to LIST_SIZE
      invariant index.Keys == set w | w in list[..i]
      invariant forall j | 0 <= j < i :: index[list[j]] == j
    {
      assert list[..i + 1] == list[..i] + [list[i]];
      index := index[list[i] := i];
    }
    assert list[..LIST_SIZE] == list;
  }

  predicate IsSpace(c: char) {
    c in " \t\n\r\U{000b}\U{000c}"
  }

  predicate NoSpace(s: string) {
    forall i | 0 <= i < |s| :: !IsSpace(s[i])
  }

  /** Length of the leading run of non-space characters. */
  function WordEnd(s: string): (k: nat)
    ensures k <= |s| && NoSpace(s[..k])
    ensures k < |s| ==> IsSpace(s[k])
  {
    if s == "" || IsSpace(s[0]) then 0 else
      assert s[..1 + WordEnd(s[1..])] == [s[0]] + s[1..][..WordEnd(s[1..])];
      1 + WordEnd(s[1..])
  }

  /** Trim, split on runs of white space and skip the empty parts. */
  function Tokens(s: string): seq<string> {
    if s == "" then []
    else if IsSpace(s[0]) then Tokens(s[1..])
    else [s[..WordEnd(s)]] + Tokens(s[WordEnd(s)..])
  }

  function Join(words: seq<string>): string {
    if words == [] then "" else if |words| == 1 then words[0] else words[0] + " " + Join(words[1..])
  }

  lemma {:induction false} TokensJoin(words: seq<string>)
    requires forall w | w in words :: w != "" && NoSpace(w)
    ensures Tokens(Join(words)) == words
  {
    if words != [] {
      var w, rest := words[0], if |words| == 1 then "" else " " + Join(words[1..]);
      var s := Join(words);
      assert s == w + rest;
      assert w in words;
      FirstToken(w, rest);
      if |words| == 1 {
        assert Tokens("") == [];
      } else {
        assert forall x | x in words[1..] :: x in words;
        TokensJoin(words[1..]);
        assert rest[1..] == Join(words[1..]);
      }
    }
  }

  lemma FirstToken(w: string, rest: string)
    requires w != "" && NoSpace(w) && (rest == "" || IsSpace(rest[0]))
    ensures Tokens(w + rest) == [w] + Tokens(rest)
  {
    WordEndOf(w, rest);
    var s := w + rest;
    assert s[0] == w[0] && s[..|w|] == w && s[|w|..] == rest;
  }

  lemma {:induction false} WordEndOf(w: string, rest: string)
    requires NoSpace(w) && (rest == "" || IsSpace(rest[0]))
    ensures WordEnd(w + rest) == |w|
  {
    if w == "" {
      assert w + rest == rest;
    } else {
      assert (w + rest)[1..] == w[1..] + rest;
      WordEndOf(w[1..], rest);
    }
  }

  method SeedToPhrase(list: seq<string>, sha: Bytes -> Bytes, seed: Bytes) returns (phrase: string)
    requires IsWordlist(list) && IsDigest(sha) && |seed| == 32
    ensures phrase == Join(Encode(list, sha, seed))
  {
    var indices := SeedToIndices(sha, seed);
    var words := seq(|indices|, i requires 0 <= i < |indices| => list[indices[i]]);
    phrase := Join(words);
  }

  /**
   Decomposition, lower-casing and trimming, as one function. The words of the list are lower case
   and plain, so it leaves the phrases that are made of them as they are.
   */
  ghost predicate IsNormalizer(normalize: string -> string, list: seq<string>) {
    forall words: seq<string> | words != [] && (forall w | w in words :: w in list) ::
      normalize(Join(words)) == Join(words)
  }

  method PhraseToSeed(list: seq<string>, sha: Bytes -> Bytes, normalize: string -> string, phrase: string)
    returns (r: Option<Bytes>)
    requires IsWordlist(list) && IsDigest(sha)
    ensures r == Decode(list, sha, Tokens(normalize(phrase)))
  {
    var tokens := Tokens(normalize(phrase));
    if |tokens| != WORD_COUNT {
      return None;
    }
    var index := WordIndex(list);
    var words: seq<nat> := [];
    for i := 0 to WORD_COUNT
      invariant |words| == i
      invariant forall j | 0 <= j < i :: tokens[j] in list && words[j] == IndexOf(list, tokens[j])
    {
      if tokens[i] !in index {
        assert tokens[i] in tokens;
        return None;
      }
      words := words + [index[tokens[i]]];
    }
    assert words == Look(list, tokens);
    var ent := PackIndices(words);
    var seed := ent[..32];
    assert seed == ent[..][..32];
    if sha(seed)[0] != ent[32] {
      return None;
    }
    return Some(seed);
  }

  /** A phrase produced by either client decodes to the seed it was made from, normalisation included. */
  lemma PhraseRoundTrip(list: seq<string>, sha: Bytes -> Bytes, normalize: string -> string, seed: Bytes)
    requires IsWordlist(list) && IsDigest(sha) && IsNormalizer(normalize, list) && |seed| == 32
    ensures Decode(list, sha, Tokens(normalize(Join(Encode(list, sha, seed))))) == Some(seed)
  {
    WordsAreDigits(Buffer(sha, seed));
    var tokens := Encode(list, sha, seed);
    assert tokens != [] && forall w | w in tokens :: w in list;
    TokensJoin(tokens);
    RoundTrip(list, sha, seed);
  }
}
