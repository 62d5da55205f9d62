/**
 * Key extension: growing a localised key to the length a privacy cipher
 * needs.  Two strategies (section 3.1.2.1 of draft-blumenthal-aes-usm-04,
 * and the Reeder 3DES draft) and the dispatcher `netsnmp_extend_kul`, which
 * also grows the buffer.
 */
module KeyExtension {
  import opened Octets
  import opened Scapi
  import opened PassphraseKey
  import opened Localize
  import Arith

  /**
   * A key buffer: `bytes` is the whole allocation (`origKulSize`,
   * `kulBufSize`) and the key is its first `len` bytes (`*origKulLen`,
   * `*kulBufLen`).
   */
  datatype KeyBuf = KeyBuf(bytes: Bytes, len: nat)

  type KeyBuffer = b: KeyBuf | b.len <= |b.bytes| witness KeyBuf([], 0)

  function Key(b: KeyBuffer): Bytes
  {
    b.bytes[..b.len]
  }

  /**
   * `out` is `kb` with `key` as its contents: same allocation, and every
   * byte past the new length as it was before.
   */
  predicate GrownTo(kb: KeyBuffer, out: KeyBuffer, key: Bytes)
  {
    && |out.bytes| == |kb.bytes|
    && Key(out) == key
    && out.bytes[out.len..] == kb.bytes[out.len..]
  }

  // ---------------------------------------------------------------------
  // Blumenthal: Kul = Kul ++ H(Kul), a bounded number of rounds
  // ---------------------------------------------------------------------

  /**
   * The round count as written, `ceil(256 / hashBits)`.  Both operands are
   * ints, so the division truncates before `ceil` ever sees it: the count
   * is the largest number of whole digests that fit in 256 bits.
   */
  function BlumenthalRounds(hashBytes: DigestLen): (r: nat)
    ensures r * (8 * hashBytes) <= 256 < r * (8 * hashBytes) + 8 * hashBytes
  {
    Arith.DivBounds(256, 8 * hashBytes);
    256 / (8 * hashBytes)
  }

  /** The round count the draft asks for: the fewest whole digests covering 256 bits. */
  function BlumenthalRoundsCeil(hashBytes: DigestLen): (r: nat)
    ensures r * (8 * hashBytes) - 8 * hashBytes < 256 <= r * (8 * hashBytes)
  {
    Arith.DivBounds(256 + 8 * hashBytes - 1, 8 * hashBytes);
    (256 + 8 * hashBytes - 1) / (8 * hashBytes)
  }

  /**
   * Reference definition of the Blumenthal extension: at most `rounds`
   * times, hash the whole current key and append as many digest bytes as
   * are still missing; stop once `need` bytes are present.
   */
  function BlumenthalChain(h: HashFn, t: AuthType, key: Bytes, need: int, rounds: nat): (r: Bytes)
    ensures key <= r
    ensures |r| <= Max(|key|, need)
    ensures |key| >= need ==> r == key
    decreases rounds
  {
    if rounds == 0 || |key| >= need then key
    else BlumenthalChain(h, t, key + h(t, key)[..Min(need - |key|, t.digestLen)], need, rounds - 1)
  }

  /** Each round adds a whole digest until the target is reached. */
  lemma {:induction false} BlumenthalChainLength(h: HashFn, t: AuthType, key: Bytes, need: int, rounds: nat)
    requires |key| <= need
    ensures |BlumenthalChain(h, t, key, need, rounds)| == Min(need, |key| + rounds * t.digestLen)
    decreases rounds
  {
    if rounds > 0 && |key| < need {
      var step := Min(need - |key|, t.digestLen);
      var next := key + h(t, key)[..step];
      assert BlumenthalChain(h, t, key, need, rounds) == BlumenthalChain(h, t, next, need, rounds - 1);
      BlumenthalChainLength(h, t, next, need, rounds - 1);
      var earlier := (rounds - 1) * t.digestLen;
      assert rounds * t.digestLen == earlier + t.digestLen;
      assert earlier >= 0;
      if step < t.digestLen {
        assert |next| + earlier >= need;
      }
    }
  }

  /**
   * One round of `_kul_extend_blumenthal` on the buffer: hash the current
   * key into a 64-byte scratch buffer (always large enough, so the hash
   * cannot fail there) and copy `min(remaining, digest)` bytes after the key.
   */
  method BlumenthalRound(h: HashFn, t: AuthType, base: Bytes, bytes: Bytes, len: nat, needKeyLen: int, rounds: nat)
    returns (bytes': Bytes, len': nat)
    requires len < needKeyLen <= |bytes| == |base|
    requires bytes[len..] == base[len..]
    requires rounds > 0
    ensures len < len' <= needKeyLen
    ensures |bytes'| == |bytes|
    ensures bytes'[len'..] == base[len'..]
    ensures BlumenthalChain(h, t, bytes'[..len'], needKeyLen, rounds - 1)
         == BlumenthalChain(h, t, bytes[..len], needKeyLen, rounds)
  {
    var newKul := h(t, bytes[..len]);
    var copyLen := Min(needKeyLen - len, |newKul|);
    WriteAppends(bytes, base, len, newKul[..copyLen]);
    bytes' := Write(bytes, len, newKul[..copyLen]);
    len' := len + copyLen;
  }

  /**
   * The loop of `_kul_extend_blumenthal` for a given round count, which
   * breaks once nothing is missing.
   */
  method BlumenthalLoop(h: HashFn, t: AuthType, kb: KeyBuffer, needKeyLen: int, count: nat) returns (out: KeyBuffer)
    requires kb.len <= needKeyLen <= |kb.bytes|
    ensures GrownTo(kb, out, BlumenthalChain(h, t, Key(kb), needKeyLen, count))
  {
    var bytes, len := kb.bytes, kb.len;
    var need := needKeyLen - kb.len;
    var i := 0;
    while i < count && need > 0
      invariant 0 <= i <= count
      invariant kb.len <= len <= needKeyLen
      invariant need == needKeyLen - len
      invariant |bytes| == |kb.bytes|
      invariant bytes[len..] == kb.bytes[len..]
      invariant BlumenthalChain(h, t, bytes[..len], needKeyLen, count - i)
             == BlumenthalChain(h, t, Key(kb), needKeyLen, count)
    {
      bytes, len := BlumenthalRound(h, t, kb.bytes, bytes, len, needKeyLen, count - i);
      need := needKeyLen - len;
      i := i + 1;
    }
    out := KeyBuf(bytes, len);
  }

  /**
   * `_kul_extend_blumenthal` as written.  It rejects a target larger than
   * the buffer and an unknown hash OID; otherwise it runs at most
   * `256 / (8 * hashBytes)` rounds (truncating division), so it may stop
   * short of the target and still report success.
   * Its only caller returns early when the key already reaches the target
   * (snmplib/keytools.c:662-665), so the key is never longer than the target.
   */
  method ExtendBlumenthal(c: Crypto, needKeyLen: int, hashoid: Oid, kb: KeyBuffer) returns (status: Status, out: KeyBuffer)
    requires kb.len <= needKeyLen
    ensures status == GenErr <==> (needKeyLen > |kb.bytes| || hashoid !in c.authTypes)
    ensures status == GenErr ==> out == kb
    ensures status == Success ==>
      var t := c.authTypes[hashoid];
      GrownTo(kb, out, BlumenthalChain(c.hash, t, Key(kb), needKeyLen, BlumenthalRounds(t.digestLen)))
  {
    if needKeyLen > |kb.bytes| {
      return GenErr, kb;
    }
    if hashoid !in c.authTypes {
      return GenErr, kb;
    }
    var t := c.authTypes[hashoid];
    out := BlumenthalLoop(c.hash, t, kb, needKeyLen, BlumenthalRounds(t.digestLen));
    status := Success;
  }

  /** The same routine with the ceiling round count the draft specifies. */
  method ExtendBlumenthalCeil(c: Crypto, needKeyLen: int, hashoid: Oid, kb: KeyBuffer) returns (status: Status, out: KeyBuffer)
    requires kb.len <= needKeyLen
    ensures status == GenErr <==> (needKeyLen > |kb.bytes| || hashoid !in c.authTypes)
    ensures status == GenErr ==> out == kb
    ensures status == Success ==> needKeyLen <= 32 ==> out.len == needKeyLen
    ensures status == Success ==>
      var t := c.authTypes[hashoid];
      GrownTo(kb, out, BlumenthalChain(c.hash, t, Key(kb), needKeyLen, BlumenthalRoundsCeil(t.digestLen)))
  {
    if needKeyLen > |kb.bytes| {
      return GenErr, kb;
    }
    if hashoid !in c.authTypes {
      return GenErr, kb;
    }
    var t := c.authTypes[hashoid];
    out := BlumenthalLoop(c.hash, t, kb, needKeyLen, BlumenthalRoundsCeil(t.digestLen));
    if needKeyLen <= 32 {
      BlumenthalCeilReachesNeed(c.hash, t, Key(kb), needKeyLen);
    }
    status := Success;
  }

  /** The truncated count still covers 256 bits once one more digest is added. */
  lemma RoundsCover(hashBytes: DigestLen)
    ensures BlumenthalRounds(hashBytes) * hashBytes + hashBytes > 32
  {
    var d: int := hashBytes;
    var r := 256 / (8 * d);
    Arith.DivBounds(256, 8 * d);
    Arith.MulAssoc8(d, r);
    assert 8 * (d * r) + 8 * d > 256;
  }

  /** The ceiling count covers 256 bits on its own. */
  lemma RoundsCeilCover(hashBytes: DigestLen)
    ensures BlumenthalRoundsCeil(hashBytes) * hashBytes >= 32
  {
    var d: int := hashBytes;
    var r := (256 + 8 * d - 1) / (8 * d);
    Arith.DivBounds(256 + 8 * d - 1, 8 * d);
    Arith.MulAssoc8(d, r);
    assert 8 * (d * r) + 8 * d > 256 + 8 * d - 1;
  }

  /**
   * As written, the target is reached whenever it is at most 256 bits and
   * the starting key is at least one digest long.
   */
  lemma BlumenthalReachesNeed(h: HashFn, t: AuthType, key: Bytes, need: int)
    requires t.digestLen <= |key| <= need <= 32
    ensures |BlumenthalChain(h, t, key, need, BlumenthalRounds(t.digestLen))| == need
  {
    var r := BlumenthalRounds(t.digestLen);
    BlumenthalChainLength(h, t, key, need, r);
    RoundsCover(t.digestLen);
  }

  /**
   * As written, a 20-byte digest gets one round only: an 8-byte key grown
   * towards 32 bytes ends at 28 bytes.
   */
  lemma BlumenthalFallsShort(h: HashFn, id: nat, key: Bytes)
    requires |key| == 8
    ensures BlumenthalRounds(20) == 1
    ensures |BlumenthalChain(h, AuthType(id, 20), key, 32, BlumenthalRounds(20))| == 28
  {
    BlumenthalChainLength(h, AuthType(id, 20), key, 32, 1);
  }

  /** With the ceiling count any starting key reaches a target of at most 256 bits. */
  lemma BlumenthalCeilReachesNeed(h: HashFn, t: AuthType, key: Bytes, need: int)
    requires |key| <= need <= 32
    ensures |BlumenthalChain(h, t, key, need, BlumenthalRoundsCeil(t.digestLen))| == need
  {
    var r := BlumenthalRoundsCeil(t.digestLen);
    BlumenthalChainLength(h, t, key, need, r);
    RoundsCeilCover(t.digestLen);
  }

  /** Once the chain has reached the target, further rounds change nothing. */
  lemma {:induction false} BlumenthalChainSettles(h: HashFn, t: AuthType, key: Bytes, need: int, rounds: nat, extra: nat)
    requires |BlumenthalChain(h, t, key, need, rounds)| >= need
    ensures BlumenthalChain(h, t, key, need, rounds + extra) == BlumenthalChain(h, t, key, need, rounds)
    decreases rounds
  {
    if |key| < need {
      if rounds == 0 {
        assert false;
      } else {
        var next := key + h(t, key)[..Min(need - |key|, t.digestLen)];
        BlumenthalChainSettles(h, t, next, need, rounds - 1, extra);
      }
    }
  }

  /**
   * For a starting key at least one digest long and a target of at most
   * 256 bits the truncated and the ceiling round counts give the same key:
   * the early exit hides the difference.
   */
  lemma BlumenthalCountsAgree(h: HashFn, t: AuthType, key: Bytes, need: int)
    requires t.digestLen <= |key| <= need <= 32
    ensures BlumenthalChain(h, t, key, need, BlumenthalRounds(t.digestLen))
         == BlumenthalChain(h, t, key, need, BlumenthalRoundsCeil(t.digestLen))
  {
    BlumenthalReachesNeed(h, t, key, need);
    BlumenthalCeilReachesNeed(h, t, key, need);
    BlumenthalChainsMeet(h, t, key, need, BlumenthalRounds(t.digestLen), BlumenthalRoundsCeil(t.digestLen));
  }

  /** Two round counts that both reach the target give the same key. */
  lemma BlumenthalChainsMeet(h: HashFn, t: AuthType, key: Bytes, need: int, a: nat, b: nat)
    requires |BlumenthalChain(h, t, key, need, a)| >= need
    requires |BlumenthalChain(h, t, key, need, b)| >= need
    ensures BlumenthalChain(h, t, key, need, a) == BlumenthalChain(h, t, key, need, b)
  {
    if a <= b {
      BlumenthalChainSettles(h, t, key, need, a, b - a);
    } else {
      BlumenthalChainSettles(h, t, key, need, b, a - b);
    }
  }

  // ---------------------------------------------------------------------
  // Reeder: Kul = Kul ++ localise(passphraseToKey(Kul))
  // ---------------------------------------------------------------------

  /**
   * Reference definition of the Reeder extension: treat the current key as
   * a passphrase (into a USM_LENGTH_KU_HASHBLOCK-byte Ku buffer), localise
   * the result to the engine, append the missing bytes, repeat.
   * It succeeds exactly when there is nothing to do, or when the key is an
   * acceptable passphrase, the OID is known and the engine ID is non-empty;
   * on success it holds exactly `max(|key|, need)` bytes and keeps `key`
   * as a prefix.
   */
  function ReederChain(c: Crypto, hashoid: Oid, engineID: Bytes, key: Bytes, need: int): (r: Result<Bytes>)
    ensures r.Ok? <==>
      (|key| >= need || (|key| >= PassphraseMinLen && hashoid in c.authTypes && |engineID| > 0))
    ensures r.Ok? ==> key <= r.value && |r.value| == Max(|key|, need)
    decreases need - |key|
  {
    if |key| >= need then Ok(key)
    else match MasterKey(c, hashoid, key, HashBlockLen)
      case Fail => Fail
      case Ok(ku) =>
        match LocalizeKey(c, hashoid, engineID, ku, HashBlockLen)
        case Fail => Fail
        case Ok(kul) => ReederChain(c, hashoid, engineID, key + kul[..Min(need - |key|, |kul|)], need)
  }

  /** One successful Reeder round, unfolded. */
  lemma ReederStep(c: Crypto, hashoid: Oid, engineID: Bytes, key: Bytes, need: int, ku: Bytes, kul: Bytes)
    requires |key| < need
    requires MasterKey(c, hashoid, key, HashBlockLen) == Ok(ku)
    requires LocalizeKey(c, hashoid, engineID, ku, HashBlockLen) == Ok(kul)
    ensures ReederChain(c, hashoid, engineID, key, need)
         == ReederChain(c, hashoid, engineID, key + kul[..Min(need - |key|, |kul|)], need)
  {
  }

  /**
   * One pass of the `_kul_extend_reeder` loop on the buffer: `generate_Ku`
   * on the current key into a USM_LENGTH_KU_HASHBLOCK-byte buffer, then
   * `generate_kul` of that Ku, then `min(remaining, digest)` bytes of the
   * result copied after the key.  Either sub-call failing fails the round
   * before anything is written.
   */
  method ReederRound(c: Crypto, hashoid: Oid, engineID: Bytes, base: Bytes, bytes: Bytes, len: nat, needKeyLen: int)
    returns (ok: bool, bytes': Bytes, len': nat)
    requires len < needKeyLen <= |bytes| == |base|
    requires bytes[len..] == base[len..]
    ensures ok <==> ReederChain(c, hashoid, engineID, bytes[..len], needKeyLen).Ok?
    ensures ok ==> len < len' <= needKeyLen
    ensures ok ==> |bytes'| == |bytes| && bytes'[len'..] == base[len'..]
    ensures ok ==>
      ReederChain(c, hashoid, engineID, bytes'[..len'], needKeyLen)
        == ReederChain(c, hashoid, engineID, bytes[..len], needKeyLen)
  {
    var key := bytes[..len];
    var newKu := GenerateKu(c, hashoid, key, HashBlockLen);
    if newKu.Fail? {
      return false, bytes, len;
    }
    var newKul := LocalizeKey(c, hashoid, engineID, newKu.value, HashBlockLen);
    if newKul.Fail? {
      return false, bytes, len;
    }
    ReederStep(c, hashoid, engineID, key, needKeyLen, newKu.value, newKul.value);
    var data := newKul.value[..Min(needKeyLen - |key|, |newKul.value|)];
    WriteAppends(bytes, base, len, data);
    bytes' := Write(bytes, len, data);
    len' := len + |data|;
    assert bytes'[..len'] == key + data;
    assert ReederChain(c, hashoid, engineID, bytes'[..len'], needKeyLen)
        == ReederChain(c, hashoid, engineID, key + data, needKeyLen);
    ok := true;
  }

  /**
   * The loop of `_kul_extend_reeder`: while bytes are missing, run a round.
   * A failing round ends the loop with GENERR; the key grows only after a
   * round succeeds, and once one round has succeeded no later round can
   * fail, so a failure leaves the buffer as it was.
   */
  method ReederLoop(c: Crypto, needKeyLen: int, hashoid: Oid, engineID: Bytes, kb: KeyBuffer)
    returns (status: Status, out: KeyBuffer)
    requires needKeyLen <= |kb.bytes|
    ensures status == GenErr <==> ReederChain(c, hashoid, engineID, Key(kb), needKeyLen).Fail?
    ensures status == GenErr ==> out == kb
    ensures status == Success ==> GrownTo(kb, out, ReederChain(c, hashoid, engineID, Key(kb), needKeyLen).value)
  {
    var bytes, len := kb.bytes, kb.len;
    var need := needKeyLen - kb.len;
    while need > 0
      invariant kb.len <= len <= Max(kb.len, needKeyLen)
      invariant need == needKeyLen - len
      invariant |bytes| == |kb.bytes|
      invariant bytes[len..] == kb.bytes[len..]
      invariant ReederChain(c, hashoid, engineID, bytes[..len], needKeyLen)
             == ReederChain(c, hashoid, engineID, Key(kb), needKeyLen)
      invariant len == kb.len ==> bytes == kb.bytes
      invariant len > kb.len ==> ReederChain(c, hashoid, engineID, Key(kb), needKeyLen).Ok?
      decreases need
    {
      var ok;
      ok, bytes, len := ReederRound(c, hashoid, engineID, kb.bytes, bytes, len, needKeyLen);
      if !ok {
        return GenErr, kb;
      }
      need := needKeyLen - len;
    }
    return Success, KeyBuf(bytes, len);
  }

  /**
   * `_kul_extend_reeder`.  It rejects a target larger than the buffer and
   * an unknown hash OID (even when nothing is missing), then grows the key
   * to exactly the target length.  It fails when a round's `generate_Ku`
   * (passphrase too short) or `generate_kul` (empty engine ID) fails, and a
   * failure leaves the buffer untouched.
   */
  method ExtendReeder(c: Crypto, needKeyLen: int, hashoid: Oid, engineID: Bytes, kb: KeyBuffer)
    returns (status: Status, out: KeyBuffer)
    ensures status == GenErr <==>
      (|| needKeyLen > |kb.bytes|
       || hashoid !in c.authTypes
       || (kb.len < needKeyLen && (kb.len < PassphraseMinLen || |engineID| == 0)))
    ensures status == GenErr ==> out == kb
    ensures status == Success ==> out.len == Max(kb.len, needKeyLen)
    ensures status == Success ==> GrownTo(kb, out, ReederChain(c, hashoid, engineID, Key(kb), needKeyLen).value)
  {
    if needKeyLen > |kb.bytes| {
      return GenErr, kb;
    }
    if hashoid !in c.authTypes {
      return GenErr, kb;
    }
    status, out := ReederLoop(c, needKeyLen, hashoid, engineID, kb);
  }

  // ---------------------------------------------------------------------
  // The dispatcher netsnmp_extend_kul
  // ---------------------------------------------------------------------

  /** The two compile-time switches the dispatcher depends on. */
  datatype Drafts = Drafts(blumenthalAes04: bool, reeder3Des: bool)

  /** The privacy algorithm left by `privType & (USM_PRIV_MASK_ALG | USM_PRIV_MASK_VARIANT)`. */
  datatype PrivAlg = Aes192 | Aes256 | TripleDes | OtherPriv(code: nat)

  /** The parts of `privType` the dispatcher reads: the algorithm and USM_AES_REEDER_FLAG. */
  datatype PrivType = PrivType(alg: PrivAlg, reederFlag: bool)

  /**
   * The first switch: the types for which this build has an extension
   * case.  Any other type returns success with the key unchanged.
   */
  predicate HasExtension(cfg: Drafts, alg: PrivAlg): (b: bool)
    ensures b ==> !alg.OtherPriv?
    ensures !cfg.blumenthalAes04 && !cfg.reeder3Des ==> !b
    ensures cfg.blumenthalAes04 ==> (b <==> !alg.OtherPriv?)
    ensures !cfg.blumenthalAes04 ==> (b <==> alg.TripleDes? && cfg.reeder3Des)
  {
    match alg
    case Aes192 | Aes256 => cfg.blumenthalAes04
    case TripleDes => cfg.reeder3Des || cfg.blumenthalAes04
    case OtherPriv(_) => false
  }

  datatype Strategy = Blumenthal | Reeder | NoStrategy

  /**
   * The second switch.  3DES is admitted by the first switch when only the
   * AES draft is built, but has no case here (`default`: GENERR).
   */
  function ChooseStrategy(cfg: Drafts, priv: PrivType): (r: Strategy)
    ensures r != NoStrategy ==> HasExtension(cfg, priv.alg)
    ensures r == Blumenthal ==> !priv.reederFlag && !priv.alg.TripleDes?
    ensures priv.alg.TripleDes? ==> (r == Reeder <==> cfg.reeder3Des)
    ensures (priv.alg.Aes192? || priv.alg.Aes256?) ==>
      (r != NoStrategy <==> cfg.blumenthalAes04) && (r == Reeder <==> cfg.blumenthalAes04 && priv.reederFlag)
  {
    match priv.alg
    case Aes192 | Aes256 =>
      if !cfg.blumenthalAes04 then NoStrategy
      else if priv.reederFlag then Reeder
      else Blumenthal
    case TripleDes => if cfg.reeder3Des then Reeder else NoStrategy
    case OtherPriv(_) => NoStrategy
  }

  /** The key the chosen strategy produces from `key` (a Blumenthal result may fall short). */
  function ExtendedKey(c: Crypto, cfg: Drafts, priv: PrivType, hashoid: Oid, engineID: Bytes, key: Bytes, need: nat): Bytes
    requires hashoid in c.authTypes
    requires ChooseStrategy(cfg, priv) != NoStrategy
    requires ChooseStrategy(cfg, priv) == Reeder ==> ReederChain(c, hashoid, engineID, key, need).Ok?
  {
    if ChooseStrategy(cfg, priv) == Reeder then ReederChain(c, hashoid, engineID, key, need).value
    else
      var t := c.authTypes[hashoid];
      BlumenthalChain(c.hash, t, key, need, BlumenthalRounds(t.digestLen))
  }

  /** Whether the dispatcher fails for a key shorter than the target. */
  predicate ExtendFails(c: Crypto, cfg: Drafts, priv: PrivType, hashoid: Oid, engineID: Bytes, keyLen: nat)
  {
    || ChooseStrategy(cfg, priv) == NoStrategy
    || hashoid !in c.authTypes
    || (ChooseStrategy(cfg, priv) == Reeder && (keyLen < PassphraseMinLen || |engineID| == 0))
  }

  /**
   * The second switch of `netsnmp_extend_kul`: the chosen strategy runs on
   * the working buffer, and a type without a strategy fails.  The key
   * reaches the target exactly with the Reeder strategy, and with the
   * Blumenthal one when it starts at least one digest long and the target
   * is at most 256 bits.
   */
  method ApplyStrategy(c: Crypto, cfg: Drafts, needKeyLen: nat, hashoid: Oid, priv: PrivType, engineID: Bytes, work: KeyBuffer)
    returns (ret: Status, res: KeyBuffer)
    requires work.len < needKeyLen <= |work.bytes|
    ensures ret == GenErr <==> ExtendFails(c, cfg, priv, hashoid, engineID, work.len)
    ensures ret == GenErr ==> res == work
    ensures ret == Success ==> GrownTo(work, res, ExtendedKey(c, cfg, priv, hashoid, engineID, Key(work), needKeyLen))
    ensures ret == Success ==>
      (|| ChooseStrategy(cfg, priv) == Reeder
       || (needKeyLen <= 32 && work.len >= c.authTypes[hashoid].digestLen))
      ==> res.len == needKeyLen
  {
    match ChooseStrategy(cfg, priv) {
      case Reeder =>
        ret, res := ExtendReeder(c, needKeyLen, hashoid, engineID, work);
      case Blumenthal =>
        ret, res := ExtendBlumenthal(c, needKeyLen, hashoid, work);
        if ret == Success && needKeyLen <= 32 && work.len >= c.authTypes[hashoid].digestLen {
          BlumenthalReachesNeed(c.hash, c.authTypes[hashoid], Key(work), needKeyLen);
        }
      case NoStrategy =>
        ret, res := GenErr, work;
    }
  }

  /**
   * `netsnmp_extend_kul`.  A key already long enough, or a privacy type with
   * no extension case, is returned unchanged with success.  Otherwise a new
   * zero-filled buffer of the target size, seeded with the key, replaces
   * the old one only when the old allocation is too small, and the chosen
   * strategy runs on it.  On success the key and its length are the
   * strategy's; on failure the caller's buffer and length stay as they were.
   * The key reaches the target exactly with the Reeder strategy, and with
   * the Blumenthal one when it starts at least one digest long and the
   * target is at most 256 bits.
   * The superseded buffer is freed without being zeroed.
   */
  method ExtendKul(c: Crypto, cfg: Drafts, needKeyLen: nat, hashoid: Oid, priv: PrivType, engineID: Bytes, kb: KeyBuffer)
    returns (status: Status, out: KeyBuffer)
    ensures kb.len >= needKeyLen ==> status == Success && out == kb
    ensures !HasExtension(cfg, priv.alg) ==> status == Success && out == kb
    ensures status == GenErr <==>
      (kb.len < needKeyLen && HasExtension(cfg, priv.alg) && ExtendFails(c, cfg, priv, hashoid, engineID, kb.len))
    ensures status == GenErr ==> out == kb
    ensures status == Success && kb.len < needKeyLen && HasExtension(cfg, priv.alg) ==>
      && |out.bytes| == Max(|kb.bytes|, needKeyLen)
      && Key(out) == ExtendedKey(c, cfg, priv, hashoid, engineID, Key(kb), needKeyLen)
      && out.bytes[out.len..] == (if |kb.bytes| < needKeyLen then Zeros(needKeyLen - out.len) else kb.bytes[out.len..])
    ensures status == Success && kb.len < needKeyLen && HasExtension(cfg, priv.alg) ==>
      (|| ChooseStrategy(cfg, priv) == Reeder
       || (needKeyLen <= 32 && kb.len >= c.authTypes[hashoid].digestLen))
      ==> out.len == needKeyLen
  {
    if kb.len >= needKeyLen {
      return Success, kb;
    }
    if !HasExtension(cfg, priv.alg) {
      return Success, kb;
    }
    var work: KeyBuffer;
    if |kb.bytes| < needKeyLen {
      // calloc(1, needKeyLen) followed by a copy of the current key
      work := KeyBuf(Write(Zeros(needKeyLen), 0, Key(kb)), kb.len);
    } else {
      work := kb;
    }
    assert Key(work) == Key(kb);
    var ret, res := ApplyStrategy(c, cfg, needKeyLen, hashoid, priv, engineID, work);
    if ret == Success {
      status, out := Success, res;
    } else if |kb.bytes| < needKeyLen {
      // the fresh buffer is freed; the caller's buffer was never written
      status, out := GenErr, kb;
    } else {
      // in place: *kulBufLen keeps its old value whatever the callee did
      status, out := GenErr, KeyBuf(res.bytes, kb.len);
    }
  }

  /**
   * In a build with only the AES draft, 3DES passes the first switch but
   * finds no strategy, so extending a short 3DES key always fails.
   */
  lemma TripleDesNeedsReederDraft(reederFlag: bool)
    ensures HasExtension(Drafts(true, false), TripleDes)
    ensures ChooseStrategy(Drafts(true, false), PrivType(TripleDes, reederFlag)) == NoStrategy
    ensures !HasExtension(Drafts(false, true), Aes256)
  {
  }
}
