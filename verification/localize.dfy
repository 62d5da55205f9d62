/**
 * Key localisation (`generate_kul`, section 2.6 of RFC 3414): the master key
 * is wrapped around the engine identifier and the result is hashed.
 */
module Localize {
  import opened Octets
  import opened Scapi

  /**
   * What `generate_kul` computes.  It fails for an empty engine ID or Ku, a
   * zero-capacity Kul buffer, an unknown hash OID, or a Ku or Kul buffer
   * shorter than the digest length p.  Otherwise only the first p bytes of Ku
   * take part, as `Ku[..p] ++ engineID ++ Ku[..p]`, and `sc_hash`
   * (whose output buffer holds at least p bytes) writes p digest bytes.
   */
  function LocalizeKey(c: Crypto, hashtype: Oid, engineID: Bytes, ku: Bytes, kulCap: nat): (r: Result<Bytes>)
    ensures r.Ok? <==>
      && |engineID| > 0 && |ku| > 0 && kulCap > 0
      && hashtype in c.authTypes
      && kulCap >= c.authTypes[hashtype].digestLen
      && |ku| >= c.authTypes[hashtype].digestLen
    ensures r.Ok? ==> |r.value| == c.authTypes[hashtype].digestLen
  {
    if |engineID| == 0 || |ku| == 0 || kulCap == 0 then Fail
    else if hashtype !in c.authTypes then Fail
    else
      var p := c.authTypes[hashtype].digestLen;
      if kulCap < p || |ku| < p then Fail
      else Ok(c.hash(c.authTypes[hashtype], ku[..p] + engineID + ku[..p]))
  }

  /** For a Ku of exactly digest length the result is `Hash(Ku ++ engineID ++ Ku)`. */
  lemma LocalizeIsWrappedHash(c: Crypto, hashtype: Oid, engineID: Bytes, ku: Bytes, kulCap: nat)
    requires hashtype in c.authTypes
    requires |ku| == c.authTypes[hashtype].digestLen <= kulCap
    requires |engineID| > 0
    ensures LocalizeKey(c, hashtype, engineID, ku, kulCap) == Ok(c.hash(c.authTypes[hashtype], ku + engineID + ku))
  {
    assert ku[..|ku|] == ku;
  }

  /** Bytes of Ku past the digest length never influence the localised key. */
  lemma LocalizeIgnoresKuTail(c: Crypto, hashtype: Oid, engineID: Bytes, ku1: Bytes, ku2: Bytes, kulCap: nat)
    requires hashtype in c.authTypes
    requires |ku1| >= c.authTypes[hashtype].digestLen
    requires |ku2| >= c.authTypes[hashtype].digestLen
    requires ku1[..c.authTypes[hashtype].digestLen] == ku2[..c.authTypes[hashtype].digestLen]
    ensures LocalizeKey(c, hashtype, engineID, ku1, kulCap) == LocalizeKey(c, hashtype, engineID, ku2, kulCap)
  {
  }
}
