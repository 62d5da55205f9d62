/**
 * Password-to-key (`generate_Ku`, OpenSSL branch): the passphrase is cycled
 * into a fixed-size expansion, fed to the digest in 64-byte blocks, and the
 * digest is the master key Ku (Appendix A.2 of RFC 3414).
 */
module PassphraseKey {
  import opened Octets
  import opened Scapi
  import Arith

  /** USM_LENGTH_P_MIN: the shortest passphrase accepted (section 11.2 of RFC 3414 asks for 8). */
  const PassphraseMinLen: nat := 8

  /** USM_LENGTH_EXPANDED_PASSPHRASE: the total number of bytes hashed, 2^20. */
  const ExpandedPassphraseLen: nat := 1048576

  /** USM_LENGTH_KU_HASHBLOCK: the size of one block handed to the digest. */
  const HashBlockLen: nat := 64

  /**
   * The first `n` bytes of the passphrase repeated forever, one
   * `P[pindex++ % pplen]` at a time with `pindex` carried over from block
   * to block.
   */
  function Expansion(P: Bytes, n: nat): (r: Bytes)
    requires |P| > 0
    ensures |r| == n
    decreases n
  {
    if n == 0 then [] else Expansion(P, n - 1) + [P[(n - 1) % |P|]]
  }

  /** Byte `k` of the expansion is `P[k mod |P|]`. */
  lemma {:induction false} ExpansionAt(P: Bytes, n: nat, k: nat)
    requires |P| > 0
    requires k < n
    ensures Expansion(P, n)[k] == P[k % |P|]
    decreases n
  {
    if k < n - 1 {
      ExpansionAt(P, n - 1, k);
    }
  }

  /** The cyclic expansion defined byte by byte: position `k` holds `P[k mod |P|]`. */
  function Cycle(P: Bytes, n: nat): (r: Bytes)
    requires |P| > 0
    ensures |r| == n
  {
    seq(n, k requires 0 <= k < n => P[k % |P|])
  }

  /** Building the expansion one byte at a time yields the cyclic expansion. */
  lemma {:induction false} ExpansionIsCycle(P: Bytes, n: nat)
    requires |P| > 0
    ensures Expansion(P, n) == Cycle(P, n)
  {
    forall k | 0 <= k < n
      ensures Expansion(P, n)[k] == Cycle(P, n)[k]
    {
      ExpansionAt(P, n, k);
    }
  }

  /** A shorter expansion is a prefix of a longer one. */
  lemma {:induction false} ExpansionPrefix(P: Bytes, n: nat, m: nat)
    requires |P| > 0
    requires n <= m
    ensures Expansion(P, n) == Expansion(P, m)[..n]
    decreases m - n
  {
    if n < m {
      ExpansionPrefix(P, n, m - 1);
      assert Expansion(P, m)[..m - 1] == Expansion(P, m - 1);
    }
  }

  /** Cycling: one full copy of the passphrase, then the expansion starts over. */
  lemma {:induction false} ExpansionCycles(P: Bytes, n: nat)
    requires |P| > 0
    ensures Expansion(P, |P| + n) == P + Expansion(P, n)
    decreases n
  {
    if n == 0 {
      ExpansionTruncates(P, |P|);
      assert P[..|P|] == P;
    } else {
      ExpansionCycles(P, n - 1);
      var m := |P| + n;
      Arith.ModShift(n - 1, |P|);
      calc {
        Expansion(P, m);
        Expansion(P, m - 1) + [P[(m - 1) % |P|]];
        (P + Expansion(P, n - 1)) + [P[(n - 1) % |P|]];
        P + (Expansion(P, n - 1) + [P[(n - 1) % |P|]]);
        P + Expansion(P, n);
      }
    }
  }

  /** A passphrase at least as long as the expansion is simply truncated. */
  lemma ExpansionTruncates(P: Bytes, n: nat)
    requires n <= |P|
    requires |P| > 0
    ensures Expansion(P, n) == P[..n]
  {
    var e := Expansion(P, n);
    forall k | 0 <= k < n
      ensures e[k] == P[k]
    {
      ExpansionAt(P, n, k);
      Arith.ModUnique(k, |P|, 0, k);
    }
  }

  /**
   * What `generate_Ku` computes: SNMPERR_GENERR for a zero-capacity Ku
   * buffer, a passphrase below the minimum, an unknown hash OID, or (OpenSSL
   * build) a Ku buffer smaller than EVP_MAX_MD_SIZE; otherwise the digest of
   * the expansion, whose length becomes `*kulen`.
   */
  function MasterKey(c: Crypto, hashtype: Oid, P: Bytes, kuCap: nat): (r: Result<Bytes>)
    ensures r.Ok? <==> (kuCap >= EvpMaxMdSize && |P| >= PassphraseMinLen && hashtype in c.authTypes)
    ensures r.Ok? ==> |r.value| == c.authTypes[hashtype].digestLen
  {
    if kuCap == 0 then Fail
    else if |P| < PassphraseMinLen then Fail
    else if hashtype !in c.authTypes then Fail
    else if kuCap < EvpMaxMdSize then Fail
    else Ok(c.hash(c.authTypes[hashtype], Cycle(P, ExpandedPassphraseLen)))
  }

  /**
   * `generate_Ku` as the source runs it: whole 64-byte blocks are built
   * byte by byte and handed to the digest until the expansion length is
   * covered.  The incremental digest sees the concatenation of the blocks,
   * which is the cyclic expansion.  `pindex` is an unsigned 32-bit counter
   * but never exceeds 2^20, so no wrap-around needs modelling.  The block
   * buffer and digest context are cleared only on the way out; the digest
   * context that the early returns on an EVP initialisation failure skip is
   * not part of the result and is left out, as is that failure itself.
   */
  method GenerateKu(c: Crypto, hashtype: Oid, P: Bytes, kuCap: nat) returns (r: Result<Bytes>)
    ensures r == MasterKey(c, hashtype, P, kuCap)
  {
    if kuCap == 0 {
      return Fail;
    }
    if |P| < PassphraseMinLen {
      return Fail;
    }
    if hashtype !in c.authTypes {
      return Fail;
    }
    if kuCap < EvpMaxMdSize {
      return Fail;
    }
    var t := c.authTypes[hashtype];
    var nbytes: int := ExpandedPassphraseLen;
    var pindex: nat := 0;
    var hashed: Bytes := [];  // every EVP_DigestUpdate so far, in order
    ghost var blocks: nat := 0;
    while nbytes > 0
      invariant pindex == blocks * HashBlockLen <= ExpandedPassphraseLen
      invariant nbytes == ExpandedPassphraseLen - pindex
      invariant hashed == Expansion(P, pindex)
      decreases nbytes
    {
      var buf: Bytes := [];
      var i := 0;
      while i < HashBlockLen
        invariant 0 <= i <= HashBlockLen
        invariant pindex == blocks * HashBlockLen + i
        invariant hashed + buf == Expansion(P, pindex)
      {
        buf := buf + [P[pindex % |P|]];
        pindex := pindex + 1;
        i := i + 1;
      }
      hashed := hashed + buf;
      nbytes := nbytes - HashBlockLen;
      blocks := blocks + 1;
    }
    ExpansionIsCycle(P, ExpandedPassphraseLen);
    // EVP_DigestFinal writes the digest into Ku and its length into *kulen.
    r := Ok(c.hash(t, hashed));
  }
}
