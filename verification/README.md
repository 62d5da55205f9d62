# USM key management in net-snmp, modelled in Dafny

This project models the key-management core of the net-snmp User-based
Security Model (`snmplib/keytools.c`):

- **Password to key** (`generate_Ku`, OpenSSL branch). The passphrase is
  cycled into a 1 048 576-byte (2^20) expansion. The expansion is fed to the
  digest in 64-byte blocks, and the digest is the master key Ku (Appendix A.2
  of RFC 3414).
- **Key localisation** (`generate_kul`). `Kul = Hash(Ku ++ engineID ++ Ku)`,
  using only the first digest-length bytes of Ku (section 2.6 of RFC 3414).
- **Key extension** for privacy protocols that need more key material than
  one digest. Two strategies are covered. The first is
  `_kul_extend_blumenthal`: append `Hash(Kul)` a bounded number of times
  (section 3.1.2.1 of draft-blumenthal-aes-usm-04). The second is
  `_kul_extend_reeder`: append `localise(passwordToKey(Kul))` until long
  enough. Both sit behind the dispatcher `netsnmp_extend_kul`, which also
  reallocates a buffer that is too small.
- **The KeyChange codec** (section 5 of RFC 3414). `encode_keychange` sends a
  new key as `salt ++ (Hash(oldKey ++ salt) XOR newKey)`. `decode_keychange`
  recovers it.

The modules are as follows:

- `Octets`: bytes, XOR and buffer writes.
- `Scapi`: the crypto interface.
  - The hash is an arbitrary function whose output length is the digest length.
  - The OID registry is a map to authentication types.
  - The random source is a parameter.
- `Arith`: small arithmetic lemmas.
- `PassphraseKey`: `generate_Ku`.
- `Localize`: `generate_kul`.
- `KeyExtension`: both extension strategies and the dispatcher.
- `KeyChange`: the KeyChange codec.

Each looping routine is a method. It is proved equal to a recursive
reference definition: `Expansion`, `BlumenthalChain` or `ReederChain`. The
properties are stated against those definitions. `Expansion` is further
proved equal to `Cycle`, the byte-by-byte form that `MasterKey` hashes.

The build configuration is a parameter of the dispatcher: which of
`NETSNMP_DRAFT_BLUMENTHAL_AES_04` and `NETSNMP_DRAFT_REEDER_3DES` are
defined. Hash functions, the random source and the OID registry are
parameters too. No cryptographic primitive is modelled.

## Model

| member | source | states |
|---|---|---|
| PassphraseKey.Expansion | snmplib/keytools.c:214-218 | The string built by n steps of `P[pindex++ % pplen]`, one byte per step, has exactly n bytes. Its contents are stated by `ExpansionAt`. |
| PassphraseKey.ExpansionAt | snmplib/keytools.c:214-218 | The bytes hashed are the passphrase repeated cyclically: byte k is `P[k mod len(P)]`, because `pindex` carries over from block to block. |
| PassphraseKey.ExpansionIsCycle | snmplib/keytools.c:214-237 | Appending `P[pindex mod len(P)]` one byte at a time builds the same string as the cyclic expansion defined byte by byte, which is what the master key hashes. |
| PassphraseKey.ExpansionPrefix | snmplib/keytools.c:214-237 | The blocks digested so far are a prefix of the full expansion. |
| PassphraseKey.ExpansionCycles | snmplib/keytools.c:216-218 | After one full copy of the passphrase the expansion starts over. |
| PassphraseKey.ExpansionTruncates | snmplib/keytools.c:216-218 | A passphrase at least as long as the expansion is only truncated. |
| PassphraseKey.MasterKey | snmplib/keytools.c:145-173 | Success exactly when the Ku buffer holds at least EVP_MAX_MD_SIZE (64) bytes, the passphrase has at least 8 bytes and the hash OID is registered. On success the key is one digest long. |
| PassphraseKey.GenerateKu | snmplib/keytools.c:145-245 | The 64-byte block loop over 2^20 bytes hashes exactly the cyclic expansion. It fails in exactly the cases `MasterKey` names. |
| Localize.LocalizeKey | snmplib/keytools.c:408-439 | Success exactly when the engine ID and Ku are non-empty, the Kul capacity is non-zero, the OID is known and both Ku and the Kul buffer hold at least one digest. The result is one digest long. |
| Localize.LocalizeIsWrappedHash | snmplib/keytools.c:432-439 | For a Ku of exactly digest length the localised key is `Hash(Ku ++ engineID ++ Ku)`. |
| Localize.LocalizeIgnoresKuTail | snmplib/keytools.c:432-437 | Ku bytes past the digest length never influence the localised key. |
| KeyExtension.BlumenthalRounds | snmplib/keytools.c:511-515 | The count as written is the largest number of whole digests that fit in 256 bits (truncating division), not the ceiling the quoted draft asks for. |
| KeyExtension.BlumenthalRoundsCeil | snmplib/keytools.c:511-514 | The corrected count is the fewest whole digests that cover 256 bits. |
| KeyExtension.BlumenthalChain | snmplib/keytools.c:523-542 | The extended key keeps the old key as a prefix and never exceeds the target. A key already long enough is returned unchanged. |
| KeyExtension.BlumenthalChainLength | snmplib/keytools.c:523-542 | After r rounds the key holds `min(need, len(key) + r * digestLen)` bytes. |
| KeyExtension.BlumenthalRound | snmplib/keytools.c:526-537 | One round appends `min(remaining, digest)` bytes of the hash of the whole current key. The bytes past the new key are untouched, and the chain advances by one round. |
| KeyExtension.BlumenthalLoop | snmplib/keytools.c:523-541 | The round loop with its early exit produces the reference chain in the buffer. Bytes past the new length are left as they were. |
| KeyExtension.ExtendBlumenthal | snmplib/keytools.c:487-547 | GENERR exactly for a target beyond the buffer or an unknown OID, with the buffer untouched. Otherwise the key becomes the chain of `256 / (8 * hashBytes)` rounds. |
| KeyExtension.ExtendBlumenthalCeil | snmplib/keytools.c:510-542 | With the ceiling round count the draft asks for, any target of at most 32 bytes is reached exactly. |
| KeyExtension.RoundsCover | snmplib/keytools.c:515 | The truncated count plus one more digest covers 256 bits. |
| KeyExtension.RoundsCeilCover | snmplib/keytools.c:510-515 | The ceiling count covers 256 bits. |
| KeyExtension.BlumenthalReachesNeed | snmplib/keytools.c:515-542 | As written, a key that starts at least one digest long reaches any target of at most 32 bytes exactly. |
| KeyExtension.BlumenthalFallsShort | snmplib/keytools.c:515 | As written, a 20-byte digest gets one round, so an 8-byte key extended towards 32 bytes stops at 28. |
| KeyExtension.BlumenthalCeilReachesNeed | snmplib/keytools.c:510-542 | With the ceiling count any starting key reaches a target of at most 32 bytes. |
| KeyExtension.BlumenthalChainSettles | snmplib/keytools.c:538-540 | Once the target is reached, further rounds change nothing. |
| KeyExtension.BlumenthalChainsMeet | snmplib/keytools.c:538-540 | Because the loop stops once the target is reached, any two round counts that both reach it leave the same key. |
| KeyExtension.BlumenthalCountsAgree | snmplib/keytools.c:515-542 | For keys at least one digest long and targets of at most 32 bytes, the truncated and ceiling counts yield the same key. |
| KeyExtension.ReederChain | snmplib/keytools.c:589-616 | It succeeds exactly when nothing is missing, or the key is at least 8 bytes, the OID is known and the engine ID is non-empty. On success it holds exactly `max(len(key), need)` bytes with the old key as prefix. |
| KeyExtension.ReederStep | snmplib/keytools.c:596-616 | One successful round appends the missing bytes of `localise(passwordToKey(key))`. |
| KeyExtension.ReederRound | snmplib/keytools.c:591-615 | `generate_Ku` into a 64-byte buffer, then `generate_kul`, then appending the missing bytes. The round fails exactly when the reference chain fails. Otherwise the key grows without passing the target, the bytes past it are untouched, and the chain is unchanged. |
| KeyExtension.ReederLoop | snmplib/keytools.c:587-620 | GENERR exactly when the chain fails, leaving the buffer untouched. Otherwise the buffer holds the chain's key. |
| KeyExtension.ExtendReeder | snmplib/keytools.c:579-620 | GENERR exactly for a target beyond the buffer, an unknown OID, or (when bytes are missing) a key under 8 bytes or an empty engine ID. On success the key has exactly `max(len, need)` bytes. |
| KeyExtension.HasExtension | snmplib/keytools.c:667-682 | The first switch: only AES-192, AES-256 and 3DES can have an extension case. A build with the AES draft has one for all three. Without the AES draft only 3DES has one, and only when the Reeder draft is built. |
| KeyExtension.ChooseStrategy | snmplib/keytools.c:711-738 | The second switch: every type given a strategy passed the first switch. 3DES gets Reeder exactly when the Reeder draft is built. AES-192/256 get a strategy exactly when the AES draft is built, and Reeder exactly when `USM_AES_REEDER_FLAG` is also set. Blumenthal is never chosen for 3DES or with the flag. |
| KeyExtension.ApplyStrategy | snmplib/keytools.c:711-738 | The second switch runs the chosen strategy on the working buffer. GENERR exactly when there is no strategy, the OID is unknown, or Reeder lacks an 8-byte key or an engine ID, and then the buffer is untouched. Otherwise the buffer holds the strategy's key, and the key reaches the target exactly with Reeder, or with Blumenthal from a full-digest key up to 32 bytes. |
| KeyExtension.ExtendKul | snmplib/keytools.c:651-763 | Long-enough keys and privacy types without an extension case are returned unchanged with success. GENERR exactly when the chosen strategy fails, and then the caller's buffer and length are unchanged. A short buffer is replaced by a zero-filled one of the target size. The key is the strategy's. Reeder always, and Blumenthal from a full-digest key up to 32 bytes, reach the target exactly. |
| KeyExtension.TripleDesNeedsReederDraft | snmplib/keytools.c:667-737 | With only the AES draft built, 3DES passes the first switch but has no strategy in the second. With only the Reeder draft, AES-256 has no extension case. |
| KeyChange.EncodedLength | snmplib/keytools.c:833-841 | `properlength` is the smaller of the key length and the digest length: it exceeds neither and equals one of them. |
| KeyChange.KeyChangeLayout | snmplib/keytools.c:882-897 | The encoded buffer is salt, then digest XOR new key, then the rest of the digest. XOR-ing the middle with the new key gives back the digest. |
| KeyChange.EncodeKeyChange | snmplib/keytools.c:821-928 | Success exactly when the keys are non-empty and of equal length, the OID is known, the buffer holds twice the key, the random draw has p = min(keyLen, digestLen) bytes and a digest fits after the salt. The output is 2p bytes: the salt, then the new key masked by `Hash(oldKey[..p] ++ salt)`. On a failure before the hash the reported length stays at the capacity and the whole buffer is zeroed. When the digest does not fit after the salt, the reported length is the capacity minus p, that prefix (salt included) is zeroed, and the rest of the buffer is untouched. |
| KeyChange.DecodeKeyChangeAsWritten | snmplib/keytools.c:989-1074 | Every call returns GENERR and leaves the new-key buffer and its length unchanged. |
| KeyChange.DecodeKeyChange | snmplib/keytools.c:989-1074 | With the lookup braced as intended: success exactly for a non-empty old key, a known OID, a string of exactly twice the old key and a large enough buffer. The new key XOR the second half is `Hash(oldKey ++ salt)`. A failed length check zeroes one digest's worth of the buffer. |
| KeyChange.Scratch | snmplib/keytools.c:1045-1050 | The bytes copied out of the scratch buffer are the digest wherever it reaches. Past the digest they are whatever the buffer held before. |
| KeyChange.RecoverInto | snmplib/keytools.c:1050-1055 | The recovered key is the scratch bytes XOR the masked half. Wherever the digest covers the key, that is the digest XOR the masked half. The buffer past the key is untouched. |
| KeyChange.EncodedMask | snmplib/keytools.c:841-897 | For keys no longer than the digest, the encoding is the salt followed by the masked new key. |
| KeyChange.DecodedMask | snmplib/keytools.c:1005-1054 | For keys no longer than the digest, the decoded key masks the second half to the digest of old key and salt. |
| KeyChange.KeyChangeRoundTrip | snmplib/keytools.c:841-1054 | Decoding an encoding returns the new key, for every salt, whenever the key is no longer than the digest. |
| KeyChange.KeyChangeEncodeOfDecode | snmplib/keytools.c:841-1054 | Every well-formed string is the encoding of the key it decodes to, with its first half as the salt. |
| KeyChange.LongKeysDoNotRoundTrip | snmplib/keytools.c:841-1010 | For keys longer than the digest, the encoding has 2 x digestLen bytes and the decoder rejects it. |
| KeyChange.DecodeAsWrittenRejectsEncoding | snmplib/keytools.c:1001-1003 | As written, the decoder rejects a string the encoder has just produced, which the intended decoder accepts. |

## Left out

- Null pointer arguments. Every buffer is a value, so the `NULL` checks in each routine cannot arise.
- The PKCS#11 branch of `generate_Ku` and the internal-MD5 and internal-crypto branches. Only the OpenSSL branch is modelled.
- Debug output, `NETSNMP_ENABLE_TESTING_CODE` blocks and the `RANDOMZEROS` test mode of `encode_keychange`.
- Allocation failures. `calloc`/`malloc` are taken to succeed. When the allocation in `encode_keychange` fails the code returns success with only the salt written. That path is not modelled.
- The EVP context set-up in `generate_Ku` (`EVP_DigestInit` failing returns early without freeing the context), and the zeroing of the block buffer and context on exit. None of it affects the returned key.
- The hash algorithms, the OpenSSL hash-function lookup (folded into the OID registry) and the test vectors of RFC 3414 Appendix A.3. The hash is an uninterpreted function of the right output length.
- Integer widths. `pindex` (unsigned 32-bit) never exceeds 2^20. The `int`/`size_t` lengths are modelled as unbounded integers, which the realistic buffer sizes never exceed.
- The `SNMP_MAXBUF` stack buffer in `generate_kul`. It is assumed large enough for `Ku ++ engineID ++ Ku`, as the source's header comment does.
- The bit layout of `privType`. Only the algorithm (AES-192, AES-256, 3DES, other) and `USM_AES_REEDER_FLAG` are kept.
- Digest failures other than a too-small output buffer. The hash is a total function, so the failure returns after `sc_hash` in `generate_kul` (snmplib/keytools.c:439), after `sc_hash_type` in `_kul_extend_blumenthal` (527-531), after `sc_hash` in `encode_keychange` (886-889) and in `decode_keychange` (1046-1048) cannot arise. `ExtendKul`'s promise that GENERR leaves the buffer unchanged relies on this: in the source a digest failure in a later Blumenthal round returns after earlier rounds have already written bytes past `*kulBufLen` (534).
- `sc_hash`'s behaviour on a too-small output buffer is taken as failure without writing. That case only arises in `encode_keychange`, where the capacity is `*kcstring_len - p`.
- KeyChange.DecodeKeyChange: on a failed length check the code zeroes `digestLen` bytes of the new-key buffer even when the buffer is shorter. The model zeroes only the bytes the buffer has. For old keys longer than the digest, the bytes of `tmp_buf` past the digest are uninitialised. They are a `stale` parameter, and the contract says nothing about those key bytes.
- `net-snmp/snmplib/transports/snmpTLSTCPDomain.c`. It is TLS session, socket and allocation plumbing, outside the key-management core.

## Findings

| source | as written | input that shows it | evidently intended | confidence | as-written member | corrected member |
|---|---|---|---|---|---|---|
| snmplib/keytools.c:1001-1003 | The `if` after the hash lookup has no braces. It guards only the debug line, so the `QUITFUN` after it always jumps to the exit and every decode fails. | Any input, e.g. a string just produced by `encode_keychange` with a 16-byte key and an MD5 OID | Both statements inside braces, so that only an unknown OID fails | high, not executed | KeyChange.DecodeAsWrittenRejectsEncoding | KeyChange.KeyChangeRoundTrip |
| snmplib/keytools.c:515 | `ceil(256 / hashBits)` divides integers before `ceil`, so a 160-bit digest gets 1 round where the draft asks for 2 | An 8-byte key, a 20-byte digest, target 32 bytes: the result has 28 bytes and success is reported | `ceil(256.0 / hashBits)` | medium, not executed | KeyExtension.BlumenthalFallsShort | KeyExtension.BlumenthalCeilReachesNeed |

The dispatcher `KeyExtension.ExtendKul` keeps the round count as written.
`KeyExtension.BlumenthalCountsAgree` proves that for a starting key at least
one digest long, the usual case of a localised key, and a target of at most
32 bytes, both counts produce the same key.
