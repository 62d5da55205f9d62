/**
 * The KeyChange textual convention (section 5 of RFC 3414): a new key is
 * sent as `salt ++ (Hash(oldKey ++ salt) XOR newKey)`, so that it never
 * travels in the clear.  `encode_keychange` builds it; `decode_keychange`
 * recovers the new key.
 */
module KeyChange {
  import opened Octets
  import opened Scapi

  /** The caller's kcstring buffer after `encode_keychange`, and `*kcstring_len`. */
  datatype EncodeOutcome = EncodeOutcome(status: Status, kc: Bytes, kcLen: nat)

  /** The caller's newkey buffer after `decode_keychange`, and `*newkey_len`. */
  datatype DecodeOutcome = DecodeOutcome(status: Status, newkey: Bytes, newkeyLen: nat)

  /** The number of key bytes the encoder covers: `min(oldkey_len, digest length)`. */
  function EncodedLength(c: Crypto, hashtype: Oid, keyLen: nat): (p: nat)
    requires hashtype in c.authTypes
    ensures p <= keyLen && p <= c.authTypes[hashtype].digestLen
    ensures p == keyLen || p == c.authTypes[hashtype].digestLen
  {
    Min(keyLen, c.authTypes[hashtype].digestLen)
  }

  /**
   * When `encode_keychange` gets as far as `sc_hash`: non-empty keys of
   * equal length, a non-empty buffer of at least twice the key length, a
   * known OID and a random draw of exactly the wanted length.
   */
  predicate EncodeReachesHash(c: Crypto, hashtype: Oid, oldkey: Bytes, newkey: Bytes, kcCap: nat, draw: RandomDraw)
  {
    && |oldkey| > 0 && |newkey| > 0 && kcCap > 0
    && hashtype in c.authTypes
    && |oldkey| == |newkey| && kcCap >= 2 * |oldkey|
    && draw.RandomBytes?
    && |draw.bytes| == EncodedLength(c, hashtype, |oldkey|)
  }

  /**
   * When `encode_keychange` succeeds: it reaches `sc_hash` and there is
   * room after the salt for a whole digest (`sc_hash` gets
   * `*kcstring_len - p` as its capacity).
   */
  predicate EncodeAccepts(c: Crypto, hashtype: Oid, oldkey: Bytes, newkey: Bytes, kcCap: nat, draw: RandomDraw)
  {
    && EncodeReachesHash(c, hashtype, oldkey, newkey, kcCap, draw)
    && kcCap - EncodedLength(c, hashtype, |oldkey|) >= c.authTypes[hashtype].digestLen
  }

  /**
   * The buffer after a successful encoding: the salt, then the digest over
   * the old key and salt written behind it and its first p bytes XOR-ed
   * with the new key in place.
   */
  function KeyChangeLayout(kcbuf: Bytes, salt: Bytes, digest: Bytes, newkey: Bytes): (r: Bytes)
    requires |salt| == |newkey| <= |digest|
    requires |salt| + |digest| <= |kcbuf|
    ensures |r| == |kcbuf|
    ensures r[..|salt|] == salt
    ensures Xor(r[|salt|..2 * |salt|], newkey) == digest[..|salt|]
    ensures r[2 * |salt|..|salt| + |digest|] == digest[|salt|..]
    ensures r[|salt| + |digest|..] == kcbuf[|salt| + |digest|..]
  {
    var p := |salt|;
    var masked := Xor(digest[..p], newkey);
    // memcpy of the salt, sc_hash into kcstring + p, then the in-place XOR
    var r := salt + (masked + (digest[p..] + kcbuf[p + |digest|..]));
    assert r[p..] == masked + (digest[p..] + kcbuf[p + |digest|..]);
    assert r[p..2 * p] == masked;
    assert r[2 * p..] == digest[p..] + kcbuf[p + |digest|..];
    assert r[2 * p..p + |digest|] == digest[p..];
    XorCancel(digest[..p], newkey);
    r
  }

  /**
   * A successful encoding with salt `salt` (p bytes): `kc` holds the salt,
   * then the first p bytes of the digest over the old key's first p bytes
   * and the salt, XOR-ed with the new key's first p bytes, then the rest of
   * the digest; past that the buffer is untouched.  The reported length is 2p.
   */
  predicate EncodedAs(c: Crypto, hashtype: Oid, oldkey: Bytes, newkey: Bytes, kcbuf: Bytes, salt: Bytes, kc: Bytes, kcLen: nat)
  {
    && hashtype in c.authTypes
    && |salt| == EncodedLength(c, hashtype, |oldkey|) <= |newkey|
    && var t := c.authTypes[hashtype];
    var p := |salt|;
    var digest := c.hash(t, oldkey[..p] + salt);
    && |kc| == |kcbuf| >= p + t.digestLen
    && kcLen == 2 * p
    && kc[..p] == salt
    && Xor(kc[p..2 * p], newkey[..p]) == digest[..p]
    && kc[2 * p..p + t.digestLen] == digest[p..]
    && kc[p + t.digestLen..] == kcbuf[p + t.digestLen..]
  }

  /**
   * `encode_keychange`.  On success the buffer holds the salt, then the
   * first p digest bytes XOR the first p new-key bytes, `*kcstring_len` is
   * 2p, and the rest of the digest is left behind the reported length.
   * On every failure the first `*kcstring_len` bytes are zero and the rest
   * of the buffer is as the caller left it.  A failure before `sc_hash`
   * leaves `*kcstring_len` at the capacity, so the whole buffer is cleared;
   * when the digest does not fit, `*kcstring_len` is left at the capacity
   * minus p and only that much is cleared (the salt lies inside it).
   */
  function EncodeKeyChange(c: Crypto, hashtype: Oid, oldkey: Bytes, newkey: Bytes, kcbuf: Bytes, draw: RandomDraw)
    : (r: EncodeOutcome)
    ensures |r.kc| == |kcbuf| && r.kcLen <= |r.kc|
    ensures r.status == Success <==> EncodeAccepts(c, hashtype, oldkey, newkey, |kcbuf|, draw)
    ensures r.status == GenErr ==>
      && r.kcLen == (if EncodeReachesHash(c, hashtype, oldkey, newkey, |kcbuf|, draw)
                     then |kcbuf| - EncodedLength(c, hashtype, |oldkey|) else |kcbuf|)
      && AllZero(r.kc[..r.kcLen])
      && r.kc[r.kcLen..] == kcbuf[r.kcLen..]
    ensures r.status == Success ==> draw.RandomBytes? && EncodedAs(c, hashtype, oldkey, newkey, kcbuf, draw.bytes, r.kc, r.kcLen)
  {
    // Every check before sc_hash (arguments, OID, lengths, sc_random) jumps
    // to the same exit, which clears all `*kcstring_len` = capacity bytes.
    if !EncodeReachesHash(c, hashtype, oldkey, newkey, |kcbuf|, draw) then
      EncodeOutcome(GenErr, Zeros(|kcbuf|), |kcbuf|)
    else
      var t := c.authTypes[hashtype];
      var p := Min(|oldkey|, t.digestLen);
      var salt := draw.bytes;
      var salted := Write(kcbuf, 0, salt);
      // *kcstring_len -= p: sc_hash may write at most this many bytes
      var hashCap := |kcbuf| - p;
      if hashCap < t.digestLen then
        EncodeOutcome(GenErr, WipePrefix(salted, hashCap), hashCap)
      else
        var digest := c.hash(t, oldkey[..p] + salt);
        EncodeOutcome(Success, KeyChangeLayout(kcbuf, salt, digest, newkey[..p]), 2 * p)
  }

  /**
   * `decode_keychange` as written.  The `if` after the registry lookup has
   * no braces, so it guards only the debug line and the QUITFUN that
   * follows always jumps to the exit.  Both jumps happen while
   * `properlength` is still 0, so the exit clears nothing: every call
   * returns GENERR and leaves the new-key buffer and its length alone.
   */
  function DecodeKeyChangeAsWritten(c: Crypto, hashtype: Oid, oldkey: Bytes, kcstring: Bytes, newkeyBuf: Bytes)
    : (r: DecodeOutcome)
    ensures r.status == GenErr
    ensures r.newkey == newkeyBuf && r.newkeyLen == |newkeyBuf|
  {
    var properlength := 0;
    DecodeOutcome(GenErr, WipePrefix(newkeyBuf, properlength), |newkeyBuf|)
  }

  /**
   * When the intended decoder succeeds: a non-empty old key, a known OID,
   * a KeyChange string of exactly twice the old key's length and a new-key
   * buffer at least that long.
   */
  predicate DecodeAccepts(c: Crypto, hashtype: Oid, oldkey: Bytes, kcstring: Bytes, newkeyCap: nat)
  {
    && |oldkey| > 0
    && hashtype in c.authTypes
    && |kcstring| == 2 * |oldkey|
    && newkeyCap >= |oldkey|
  }

  /** The argument check passes and the OID is known, so `properlength` holds the digest length. */
  predicate DecodeReachesLengthCheck(c: Crypto, hashtype: Oid, oldkey: Bytes, kcstring: Bytes, newkeyCap: nat)
  {
    |oldkey| > 0 && |kcstring| > 0 && newkeyCap > 0 && hashtype in c.authTypes
  }

  /**
   * The first n bytes of the decoder's scratch buffer: the digest, and past
   * its end whatever the buffer held before.
   */
  function Scratch(digest: Bytes, stale: nat -> byte, n: nat): (r: Bytes)
    ensures |r| == n
    ensures forall i :: 0 <= i < Min(n, |digest|) ==> r[i] == digest[i]
    ensures n <= |digest| ==> r == digest[..n]
  {
    seq(n, i requires 0 <= i < n => if i < |digest| then digest[i] else stale(i))
  }

  /**
   * The decoder's copy of n scratch-buffer bytes into the new-key buffer,
   * XOR-ed with the masked half of the string (n is that half's length).
   * The scratch buffer holds the digest followed by bytes it held before
   * (`stale`).
   */
  function RecoverInto(newkeyBuf: Bytes, digest: Bytes, masked: Bytes, stale: nat -> byte): (r: Bytes)
    requires |masked| <= |newkeyBuf|
    ensures |r| == |newkeyBuf|
    ensures r[|masked|..] == newkeyBuf[|masked|..]
    ensures forall i :: 0 <= i < Min(|masked|, |digest|) ==> r[i] == digest[i] ^ masked[i]
    ensures |masked| <= |digest| ==> Xor(r[..|masked|], masked) == digest[..|masked|]
  {
    var n := |masked|;
    var scratch := Scratch(digest, stale, n);
    var newkey := Xor(scratch, masked);
    XorCancel(scratch, masked);
    // memcpy(newkey, tmp_buf, n) followed by the in-place XOR
    var r := newkey + newkeyBuf[n..];
    assert r[..n] == newkey;
    r
  }

  /**
   * The body of `decode_keychange` with the lookup failure braced as
   * evidently intended.  With n the old key's length, the new key is the
   * first n bytes of the scratch buffer XOR the second half of the string.
   * The scratch buffer holds `Hash(oldkey ++ kcstring[..n])` followed by
   * whatever it held before, given here as `stale` (it is never
   * initialised), so only an old key no longer than the digest gives a
   * fully determined result.
   */
  function DecodeKeyChange(c: Crypto, hashtype: Oid, oldkey: Bytes, kcstring: Bytes, newkeyBuf: Bytes, stale: nat -> byte)
    : (r: DecodeOutcome)
    ensures |r.newkey| == |newkeyBuf|
    ensures r.status == Success <==> DecodeAccepts(c, hashtype, oldkey, kcstring, |newkeyBuf|)
    ensures r.status == GenErr ==> r.newkeyLen == |newkeyBuf|
    ensures r.status == GenErr && !DecodeReachesLengthCheck(c, hashtype, oldkey, kcstring, |newkeyBuf|) ==>
      r.newkey == newkeyBuf
    ensures r.status == GenErr && DecodeReachesLengthCheck(c, hashtype, oldkey, kcstring, |newkeyBuf|) ==>
      var w := Min(c.authTypes[hashtype].digestLen, |newkeyBuf|);
      AllZero(r.newkey[..w]) && r.newkey[w..] == newkeyBuf[w..]
    ensures r.status == Success ==>
      var n := |oldkey|;
      var digest := c.hash(c.authTypes[hashtype], oldkey + kcstring[..n]);
      var masked := kcstring[n..];
      && r.newkeyLen == n <= |r.newkey|
      && |masked| == n
      && r.newkey[n..] == newkeyBuf[n..]
      && (forall i :: 0 <= i < Min(n, |digest|) ==> r.newkey[i] == digest[i] ^ masked[i])
      && (n <= |digest| ==> Xor(r.newkey[..n], masked) == digest[..n])
  {
    if |oldkey| == 0 || |kcstring| == 0 || |newkeyBuf| == 0 then
      DecodeOutcome(GenErr, newkeyBuf, |newkeyBuf|)
    else if hashtype !in c.authTypes then
      DecodeOutcome(GenErr, newkeyBuf, |newkeyBuf|)
    else
      var t := c.authTypes[hashtype];
      // properlength now holds the digest length, which is what the exit clears
      if 2 * |oldkey| != |kcstring| || |newkeyBuf| < |oldkey| then
        DecodeOutcome(GenErr, WipePrefix(newkeyBuf, t.digestLen), |newkeyBuf|)
      else
        var n := |oldkey|;
        DecodeOutcome(Success, RecoverInto(newkeyBuf, c.hash(t, oldkey + kcstring[..n]), kcstring[n..], stale), n)
  }

  /**
   * Round trip: for keys no longer than the digest, decoding what the
   * encoder produced gives back the new key, whatever salt was drawn.
   */
  lemma KeyChangeRoundTrip(c: Crypto, hashtype: Oid, oldkey: Bytes, newkey: Bytes, kcbuf: Bytes, salt: Bytes,
                           newkeyBuf: Bytes, stale: nat -> byte)
    requires hashtype in c.authTypes
    requires 0 < |oldkey| == |newkey| <= c.authTypes[hashtype].digestLen
    requires |salt| == |oldkey|
    requires |kcbuf| >= |oldkey| + c.authTypes[hashtype].digestLen
    requires |newkeyBuf| >= |oldkey|
    ensures EncodeKeyChange(c, hashtype, oldkey, newkey, kcbuf, RandomBytes(salt)).status == Success
    ensures
      var e := EncodeKeyChange(c, hashtype, oldkey, newkey, kcbuf, RandomBytes(salt));
      var d := DecodeKeyChange(c, hashtype, oldkey, e.kc[..e.kcLen], newkeyBuf, stale);
      d.status == Success && d.newkey[..d.newkeyLen] == newkey
  {
    var n := |oldkey|;
    EncodedMask(c, hashtype, oldkey, newkey, kcbuf, salt);
    var e := EncodeKeyChange(c, hashtype, oldkey, newkey, kcbuf, RandomBytes(salt));
    var kcstring := e.kc[..2 * n];
    assert kcstring[..n] == salt;
    assert kcstring[n..] == e.kc[n..2 * n];
    DecodedMask(c, hashtype, oldkey, kcstring, newkeyBuf, stale);
    var d := DecodeKeyChange(c, hashtype, oldkey, kcstring, newkeyBuf, stale);
    XorSolve(d.newkey[..n], newkey, kcstring[n..]);
  }

  /** For a key no longer than the digest the encoding is the salt followed by the masked new key. */
  lemma EncodedMask(c: Crypto, hashtype: Oid, oldkey: Bytes, newkey: Bytes, kcbuf: Bytes, salt: Bytes)
    requires hashtype in c.authTypes
    requires 0 < |oldkey| == |newkey| <= c.authTypes[hashtype].digestLen
    requires |salt| == |oldkey|
    requires |kcbuf| >= |oldkey| + c.authTypes[hashtype].digestLen
    ensures
      var n := |oldkey|;
      var e := EncodeKeyChange(c, hashtype, oldkey, newkey, kcbuf, RandomBytes(salt));
      && e.status == Success
      && e.kcLen == 2 * n
      && e.kc[..n] == salt
      && Xor(e.kc[n..2 * n], newkey) == c.hash(c.authTypes[hashtype], oldkey + salt)[..n]
  {
    var n := |oldkey|;
    assert EncodeAccepts(c, hashtype, oldkey, newkey, |kcbuf|, RandomBytes(salt));
    assert oldkey[..n] == oldkey && newkey[..n] == newkey;
  }

  /** The decoded key masks the string's second half to the digest over the old key and the salt. */
  lemma DecodedMask(c: Crypto, hashtype: Oid, oldkey: Bytes, kcstring: Bytes, newkeyBuf: Bytes, stale: nat -> byte)
    requires hashtype in c.authTypes
    requires 0 < |oldkey| <= c.authTypes[hashtype].digestLen
    requires |kcstring| == 2 * |oldkey|
    requires |newkeyBuf| >= |oldkey|
    ensures
      var n := |oldkey|;
      var d := DecodeKeyChange(c, hashtype, oldkey, kcstring, newkeyBuf, stale);
      && d.status == Success
      && Xor(d.newkey[..n], kcstring[n..]) == c.hash(c.authTypes[hashtype], oldkey + kcstring[..n])[..n]
  {
    assert DecodeAccepts(c, hashtype, oldkey, kcstring, |newkeyBuf|);
  }

  /**
   * The converse: every KeyChange string for a key no longer than the
   * digest is what the encoder produces from the key it decodes to, with
   * the string's first half as the salt.
   */
  lemma KeyChangeEncodeOfDecode(c: Crypto, hashtype: Oid, oldkey: Bytes, kcstring: Bytes, kcbuf: Bytes,
                                newkeyBuf: Bytes, stale: nat -> byte)
    requires hashtype in c.authTypes
    requires 0 < |oldkey| <= c.authTypes[hashtype].digestLen
    requires |kcstring| == 2 * |oldkey|
    requires |kcbuf| >= |oldkey| + c.authTypes[hashtype].digestLen
    requires |newkeyBuf| >= |oldkey|
    ensures
      var n := |oldkey|;
      var d := DecodeKeyChange(c, hashtype, oldkey, kcstring, newkeyBuf, stale);
      var e := EncodeKeyChange(c, hashtype, oldkey, d.newkey[..n], kcbuf, RandomBytes(kcstring[..n]));
      d.status == Success && e.status == Success && e.kc[..e.kcLen] == kcstring
  {
    var n := |oldkey|;
    DecodedMask(c, hashtype, oldkey, kcstring, newkeyBuf, stale);
    var d := DecodeKeyChange(c, hashtype, oldkey, kcstring, newkeyBuf, stale);
    var newkey := d.newkey[..n];
    var salt := kcstring[..n];
    EncodedMask(c, hashtype, oldkey, newkey, kcbuf, salt);
    var e := EncodeKeyChange(c, hashtype, oldkey, newkey, kcbuf, RandomBytes(salt));
    var masked := e.kc[n..2 * n];
    XorSolve(kcstring[n..], masked, newkey);
    HalvesJoin(e.kc, kcstring, n);
  }

  /**
   * For keys longer than the digest the encoder covers only a digest's
   * worth, so its output is shorter than twice the key and the decoder
   * rejects it.
   */
  lemma LongKeysDoNotRoundTrip(c: Crypto, hashtype: Oid, oldkey: Bytes, newkey: Bytes, kcbuf: Bytes, salt: Bytes,
                               newkeyBuf: Bytes, stale: nat -> byte)
    requires hashtype in c.authTypes
    requires |oldkey| == |newkey| > c.authTypes[hashtype].digestLen
    requires EncodeKeyChange(c, hashtype, oldkey, newkey, kcbuf, RandomBytes(salt)).status == Success
    ensures
      var e := EncodeKeyChange(c, hashtype, oldkey, newkey, kcbuf, RandomBytes(salt));
      && e.kcLen == 2 * c.authTypes[hashtype].digestLen
      && DecodeKeyChange(c, hashtype, oldkey, e.kc[..e.kcLen], newkeyBuf, stale).status == GenErr
  {
  }

  /**
   * As written, decoding fails even on a string the encoder has just
   * produced, where the intended decoder recovers the new key.
   */
  lemma DecodeAsWrittenRejectsEncoding(c: Crypto, hashtype: Oid, oldkey: Bytes, newkey: Bytes, kcbuf: Bytes,
                                       salt: Bytes, newkeyBuf: Bytes, stale: nat -> byte)
    requires hashtype in c.authTypes
    requires 0 < |oldkey| == |newkey| <= c.authTypes[hashtype].digestLen
    requires |salt| == |oldkey|
    requires |kcbuf| >= |oldkey| + c.authTypes[hashtype].digestLen
    requires |newkeyBuf| >= |oldkey|
    ensures
      var e := EncodeKeyChange(c, hashtype, oldkey, newkey, kcbuf, RandomBytes(salt));
      && e.status == Success
      && DecodeKeyChangeAsWritten(c, hashtype, oldkey, e.kc[..e.kcLen], newkeyBuf).status == GenErr
      && DecodeKeyChange(c, hashtype, oldkey, e.kc[..e.kcLen], newkeyBuf, stale).status == Success
  {
    KeyChangeRoundTrip(c, hashtype, oldkey, newkey, kcbuf, salt, newkeyBuf, stale);
  }
}
