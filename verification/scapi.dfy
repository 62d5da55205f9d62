/**
 * The collaborators the key tools consume but do not implement: the OID
 * registry (`sc_get_authtype`, `sc_get_proper_auth_length_bytype`), the
 * digest primitive (`sc_hash`, `sc_hash_type`, the EVP init/update/final
 * sequence) and the random source (`sc_random`).  The digest is left
 * uninterpreted: it is a parameter, constrained only by its output length.
 */
module Scapi {
  import opened Octets

  /** OpenSSL's EVP_MAX_MD_SIZE: no supported digest is longer. */
  const EvpMaxMdSize: nat := 64

  /** A MIB object identifier naming an authentication (hash) protocol. */
  type Oid = seq<nat>

  /** A digest length in bytes, as `sc_get_proper_auth_length_bytype` reports it. */
  type DigestLen = n: nat | 1 <= n <= EvpMaxMdSize witness 16

  /** What `sc_get_authtype` resolves an OID to: an algorithm and its digest length. */
  datatype AuthType = AuthType(id: nat, digestLen: DigestLen)

  /**
   * The digest primitive.  Incremental init/update/final calls are modelled
   * as hashing the concatenation of every update.
   */
  type HashFn = h: (AuthType, Bytes) -> Bytes
    | forall t: AuthType, m: Bytes :: |h(t, m)| == t.digestLen
    witness (t: AuthType, m: Bytes) => Zeros(t.digestLen)

  /** The cryptographic back end: the OID registry together with the digest. */
  datatype Crypto = Crypto(authTypes: map<Oid, AuthType>, hash: HashFn)

  /** One call to `sc_random`: an error, or whatever bytes it delivered. */
  datatype RandomDraw = RandomError | RandomBytes(bytes: Bytes)

  /** SNMPERR_SUCCESS / SNMPERR_GENERR: every failure of the key tools is GENERR. */
  datatype Status = Success | GenErr

  /** A value computed into an output buffer, or SNMPERR_GENERR. */
  datatype Result<T> = Ok(value: T) | Fail
}
