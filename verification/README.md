# Verified models of the Chainverse signer and contracts

This project models, in Dafny, the parts of the repository whose correctness rests on arithmetic, on money that must add
up, or on indexes and histories that must agree, and proves their properties for all inputs and all runs.

**The wallet signer** (`scripts/scholarship_wallet_signer.py`) is a complete Ed25519 (RFC 8032) and StrKey
implementation. `NumberTheory`, `Edwards*`, `ExtendedPoints`, `ScalarMultiplication`, `SquareRoots` and `Signer` build
from divisibility to Fermat's little theorem, the group law of complete twisted Edwards curves including associativity,
the extended-coordinate formulas, the double-and-add loop, square roots modulo q = 5 (mod 8), point encoding, and the
theorem that every signature verifies; `Ed25519` instantiates it with the script's constants, nothing assumed of them:
`Primality` and `PointTables` prove what a table of powers or of points shows, and `PrimeTables` and `BasePointTable`
hold the tables for the prime q and for the order of the base point. These two modules, in `table_primes.dfy` and
`table_base_point.dfy`, are written by `tables.py`; each entry is checked by the verifier, so the script need not be
trusted. `StrKey`, `StrKeyTheorems` and `StrKeyNumbers` treat the printed secrets: CRC16, base32, round trips, error
detection, and what every accepted or printed secret is as a number.

**The contracts** are modelled one by one, each in three modules:

- `Escrow`, `Registry`, `FineLedger`, `SignedFines`, `Timelock`, `Vault`, `Vesting`, `Licensing` hold the state and one
  transition function per entry point, with the source's guards in the source's order and every error.
- the `...Contracts` module of the same name holds a class whose fields are the contract's storage and whose methods update
  it in place, with the source's loops; each method is proved to have exactly the result and the new state of its
  transition, and each entry point to keep `Valid()`, the invariant of the contract's runs.
- the `...Theorems` module (for the escrow also `EscrowInvariant`, for licensing `LicensingEffects` and `LicensingGaps`)
  proves what the contract promises about the transitions: invariants of every step, safety over every run, and, in the
  lemmas named `...Exactly`, when exactly each call succeeds, all that it then stores and pays, and why it is refused.

Conventions. A call that fails or panics changes nothing: the host rolls it back
(contracts/library-rights/src/lib.rs:1726-1727). Overflow of a bounded integer is a failure. A signer set says who
authorized a call; the contract's own address never signs from outside. The escrow, the vault and vesting hold tokens in
a ledger from token and account to balance, and runs include token movements outside the contract; what was sent to the
contract before its deployment is its opening balance. Identifiers come from SHA-256, idealized as collision-free; that
two inputs differ, because a counter is in them, is proved (`Hashing.CollisionFreeExists` shows that the hypothesis on
the hash can be met). A `log` field in a state is what an observer writes down, never read by a transition.

Where the code and what is said about it differ, the model follows the code, and a theorem says so:

- `TimelockTheorems.RegistryNotDelayed`, `RegistryBypass`: the timelock's course registry can also be repointed without any
  delay (contracts/library-rights/src/lib.rs:1130-1141); the first says exactly when it changes.
- `TimelockTheorems.SeparationKeptExactly`, `RolesMayCoincide`: the separation of roles the bootstrap enforces is not kept by
  role transfers; the first says exactly by which.
- `LicensingGaps.PreservationExactly`, `PreservedGrantLost`: the preservation date of a scheduled revocation protects no
  grant; it is kept only when no grant is active before it.
- `LicensingGaps.RecordedExpiryHonoured`, `ExpiredEnrollmentAccepted`: a derivation checks the expiry its caller supplies, not
  the recorded one; the first says exactly when the recorded one holds all the same.
- `StrKeyTheorems.ReprintExactly`, `LongSAccepted`: a dotless i or a long s is accepted in place of I or S, so re-encoding
  gives back the lower-case text exactly for ASCII input.
- `Signer.VerifyExact`, `VerifyRaises`: `verify` is described as answering, but a public key that does not decode makes it
  raise, because the key is decoded outside its error handling (scripts/scholarship_wallet_signer.py:158-172).
- `VaultTheorems.DeduplicateIdentity`: duplicate approvers are rejected before deduplication, which therefore never
  changes anything, although a comment says they are deduplicated (contracts/escrow-vault/src/lib.rs:108-123).

`dafny verify dfyconfig.toml` checks the whole project.

## Model

| member | source | states |
|---|---|---|
| `NumberTheory.Fermat` | scripts/scholarship_wallet_signer.py:52-66 | Fermat's little theorem for every prime q and every a it does not divide: the fact behind every power to q - 2 taken as an inverse |
| `NumberTheory.InvIsInverse` | scripts/scholarship_wallet_signer.py:109-114 | a to the power q - 2 is the inverse of a modulo a prime q, for every a that q does not divide |
| `Edwards.DenominatorsNonzero` | scripts/scholarship_wallet_signer.py:75-83 | on a curve whose d is no square, neither denominator of the addition law is ever zero: the formulas have no exceptional pairs |
| `EdwardsGroup.AddInGroup` | scripts/scholarship_wallet_signer.py:75-83 | the sum of two curve points is a reduced curve point |
| `EdwardsGroup.Commutative` | scripts/scholarship_wallet_signer.py:75-83 | the addition law is commutative |
| `EdwardsGroup.Associative` | scripts/scholarship_wallet_signer.py:75-106 | the addition law is associative, for any three curve points of any complete curve; proved, not assumed |
| `EdwardsGroup.MulSum` | scripts/scholarship_wallet_signer.py:98-106 | (m + n) P = m P + n P for multiples by repeated addition |
| `EdwardsGroup.MulMul` | scripts/scholarship_wallet_signer.py:98-106 | (m n) P = m (n P) |
| `ExtendedPoints.AddStands` | scripts/scholarship_wallet_signer.py:75-83 | `_add` on any extended representations of two curve points gives an extended representation (z invertible, t z = x y) of their affine sum, section 5.1.4 of RFC 8032 |
| `ExtendedPoints.DoubleStands` | scripts/scholarship_wallet_signer.py:86-95 | `_double` gives an extended representation of P + P |
| `ScalarMultiplication.DoubleIsAdd` | scripts/scholarship_wallet_signer.py:75-95 | `_double(p)` and `_add(p, p)` are the same projective point |
| `ScalarMultiplication.ScalarMultLoop` | scripts/scholarship_wallet_signer.py:98-106 | the lowest-bit-first loop, with its invariant, returns a representation of the e-fold sum of the point |
| `ScalarMultiplication.DoubleAndAddStands` | scripts/scholarship_wallet_signer.py:98-106 | what the loop still has to do always adds up to result + e addend |
| `ScalarMultiplication.ScalarMultStands` | scripts/scholarship_wallet_signer.py:98-106 | scalar multiplication equals e-fold repeated addition |
| `SquareRoots.XSquaredMeaning` | scripts/scholarship_wallet_signer.py:52-66 | (x, y) is on the curve exactly when x squared is the residue computed from y |
| `SquareRoots.RootFound` | scripts/scholarship_wallet_signer.py:52-66 | for q = 5 modulo 8, one of the two candidate roots squares to x2 whenever x2 is a nonzero square |
| `SquareRoots.RecoverSound` | scripts/scholarship_wallet_signer.py:52-66 | whatever `_recover_x` returns is the reduced x of a curve point, of the requested parity |
| `SquareRoots.RecoverComplete` | scripts/scholarship_wallet_signer.py:52-66 | every reduced curve point is recovered from its y and the parity of its x |
| `SquareRoots.RecoverExact` | scripts/scholarship_wallet_signer.py:52-66 | `_recover_x` answers x if and only if (x, y) is a reduced curve point with that parity |
| `Signer.EncodeMeaning` | scripts/scholarship_wallet_signer.py:109-114 | every extended representation of a point has the same encoding |
| `Signer.EncodedNumber` | scripts/scholarship_wallet_signer.py:109-114 | the encoding is 32 bytes that write y + 2^255 (x mod 2), low byte first |
| `Signer.DecodeExact` | scripts/scholarship_wallet_signer.py:117-126 | data decodes to a curve point if and only if it is that point's encoding, and nothing else decodes |
| `Signer.DecodeMeaning` | scripts/scholarship_wallet_signer.py:117-126 | whatever decodes is a curve point in extended form |
| `Signer.DecodeEncode` | scripts/scholarship_wallet_signer.py:109-126 | decoding the encoding of any curve point gives the point back, sections 5.1.2 and 5.1.3 of RFC 8032 |
| `Signer.EncodeInjective` | scripts/scholarship_wallet_signer.py:109-126 | two curve points with the same 32 bytes are equal |
| `Signer.ReduceScalar` | scripts/scholarship_wallet_signer.py:144-155 | reducing a scalar modulo the order of the base point does not change the multiple |
| `Signer.SignatureScalar` | scripts/scholarship_wallet_signer.py:144-155 | s B = R + k A for s = (r + k a) mod L, for every r including 0 |
| `Signer.SignedAs` | scripts/scholarship_wallet_signer.py:129-155 | public key and signature encode a B and r B: a is the first half of the seed's digest with bits 0 to 2 and 255 cleared, bit 254 set and the others kept, r the hash of the second half and the message modulo L, and the scalar carries the hash of R, A and the message |
| `Signer.VerifyExact` | scripts/scholarship_wallet_signer.py:158-172 | on every input: `verify` accepts if and only if the lengths are right, both points decode, s < L and s B = R + k A with k the hash of R, key and message written out; it raises if and only if the lengths are right, R decodes and s < L but the key does not decode; it returns False otherwise |
| `Signer.VerifyRaises` | scripts/scholarship_wallet_signer.py:158-172 | a key and a signature for which `verify` raises, for every message |
| `Signer.SignVerify` | scripts/scholarship_wallet_signer.py:98-172 | over every valid domain, every seed and message: the signature verifies under the derived key |
| `Signer.OtherSeedsRefused` | scripts/scholarship_wallet_signer.py:136-155 | keys and signatures come from seeds of 32 bytes and from no others |
| `Signer.MessageBound` | scripts/scholarship_wallet_signer.py:158-172 | a signature accepted under one key for two messages: the hashes of R, key and either message, modulo L, take the key's point to the same multiple, for every key that decodes |
| `Signer.MessageBoundForKey` | scripts/scholarship_wallet_signer.py:136-172 | for keys that are multiples of the base point, the same without reducing the hashes |
| `Primality.Pocklington` | scripts/scholarship_wallet_signer.py:40 | Pocklington's test: an odd number modulo which some element has a large enough prime order is prime, once the few candidates for a small factor are excluded |
| `Primality.ReachedPower` | scripts/scholarship_wallet_signer.py:40 | what a table of squarings and multiplications reaches is the power it names |
| `PrimeTables.ModulusIsPrime` | scripts/scholarship_wallet_signer.py:40 | 2 to the 255 less 19 is prime, by Pocklington's test down to 11 |
| `PointTables.WalkedMul` | scripts/scholarship_wallet_signer.py:98-106 | what a table of doublings and additions reaches is the multiple of the base point it names, on every complete curve |
| `BasePointTable.OrderReached` | scripts/scholarship_wallet_signer.py:41 | doubling and adding along the bits of `_L` leads from the base point to the identity |
| `Ed25519.OrderOfBase` | scripts/scholarship_wallet_signer.py:41 | `_L` times the base point is the identity |
| `Ed25519.DomainIsValid` | scripts/scholarship_wallet_signer.py:40-72 | the signer's constants satisfy everything its correctness asks of them |
| `Ed25519.TwoNonResidue` | scripts/scholarship_wallet_signer.py:43 | 2 to the power (q - 1)/2 is -1 modulo every prime q = 5 modulo 8 |
| `Ed25519.RootOfMinusOne` | scripts/scholarship_wallet_signer.py:43 | `_SQRT_M1` is a square root of -1 |
| `Ed25519.DNotSquare` | scripts/scholarship_wallet_signer.py:42 | d is not a square modulo q |
| `Ed25519.CurveIsComplete` | scripts/scholarship_wallet_signer.py:40-43 | the signer's curve is complete and its square root applies |
| `Ed25519.BasePointDecodes` | scripts/scholarship_wallet_signer.py:69-71 | `_recover_x` gives the base point its standard coordinates |
| `Ed25519.SignaturesVerify` | scripts/scholarship_wallet_signer.py:129-172 | sections 5.1.5 to 5.1.7 of RFC 8032 for the signer's own constants, with nothing assumed of them: for every 32-byte seed, every message and every hash function the signature verifies |
| `StrKeyTheorems.Crc16Xmodem` | scripts/scholarship_wallet_signer.py:237-249 | the byte-wise loop, eight turns after each exclusive or, computes the bit-serial CRC register of the data |
| `StrKeyTheorems.FeedLinear` | scripts/scholarship_wallet_signer.py:237-249 | the checksum of an exclusive or is the exclusive or of the checksums |
| `StrKeyTheorems.BurstDetected` | scripts/scholarship_wallet_signer.py:237-249 | two bit strings that differ only within 16 consecutive bits never share a checksum |
| `StrKeyTheorems.RawBurst` | scripts/scholarship_wallet_signer.py:252-279 | no corruption within 16 consecutive bits of version and seed of an accepted secret is accepted |
| `StrKeyTheorems.TypingErrorDetected` | scripts/scholarship_wallet_signer.py:252-279 | changing up to three neighbouring characters of the version and seed part of an accepted secret is always rejected |
| `StrKeyTheorems.DecodeOfEncode` | scripts/scholarship_wallet_signer.py:282-290 | base32 of section 6 of RFC 4648: decoding undoes encoding |
| `StrKeyTheorems.EncodeOfDecode` | scripts/scholarship_wallet_signer.py:252-279 | encoding undoes decoding: no two base32 texts stand for the same bits |
| `StrKeyTheorems.CheckExactly` | scripts/scholarship_wallet_signer.py:252-279 | of all 35-byte strings, exactly the raw form of a seed passes version and checksum, and it gives that seed (in numbers: CheckNumbers) |
| `StrKeyNumbers.ChecksumNumber` | scripts/scholarship_wallet_signer.py:237-249 | the register read as a number is the CRC of the source's own arithmetic: double, exclusive or with 0x1021 on overflow, modulo 2^16 |
| `StrKeyNumbers.CheckNumbers` | scripts/scholarship_wallet_signer.py:268-279 | 35 bytes pass with a seed if and only if the first is 0x90, the next 32 are the seed and the last two are that CRC, low byte first; each refusal has its exact cause |
| `StrKeyNumbers.AlphabetSymbols` | scripts/scholarship_wallet_signer.py:252-290 | the 32 symbols and their values, section 6 of RFC 4648 |
| `StrKeyNumbers.SecretNumber` | scripts/scholarship_wallet_signer.py:282-290 | a printed secret is 56 lower-case symbols that write, in base 32, the number of 0x90, the seed and the CRC, low byte first |
| `StrKeyNumbers.ReadNumber` | scripts/scholarship_wallet_signer.py:252-279 | a text of 56 symbols is read as a seed if and only if it writes the number of that seed's raw form |
| `StrKeyNumbers.RefusedTexts` | scripts/scholarship_wallet_signer.py:252-267 | a text is refused for its length, or for a character outside base32, exactly when it has that fault |
| `StrKeyNumbers.StripExact` | scripts/scholarship_wallet_signer.py:252-258 | white space is taken off both ends, all of it, and nothing else |
| `StrKeyTheorems.SeedRoundTrip` | scripts/scholarship_wallet_signer.py:252-290 | `secret_to_seed(seed_to_secret(s)) == s` for every 32-byte seed |
| `StrKeyTheorems.AcceptedExactly` | scripts/scholarship_wallet_signer.py:252-290 | a text is accepted with a seed if and only if its canonical lower-case form is that seed's printed secret |
| `StrKeyTheorems.LongSAccepted` | scripts/scholarship_wallet_signer.py:252-290 | for every seed, its printed secret with the leading s replaced by U+017F is accepted with the same seed and is not what is printed for it |
| `StrKeyTheorems.ReprintExactly` | scripts/scholarship_wallet_signer.py:252-290 | re-encoding an accepted text gives its lower-case form if and only if the text is ASCII |
| `EscrowInvariant.StepKeeps` | contracts/escrow/src/lib.rs:30-173 | every entry point keeps solvency, per-escrow conservation, the fee books, the total volume, the ledger history and the three indexes |
| `EscrowTheorems.RunKeeps` | contracts/escrow/src/lib.rs:30-173 | the whole invariant holds after every run from a fresh deployment |
| `EscrowTheorems.SolventInEveryRun` | contracts/escrow/src/release.rs:45-167 | in every run, for every token and whatever the contract's address held before deployment, the balance covers that, all funded and disputed escrows and the fee pool; when nobody pays the contract itself it equals them plus the unallocated residue |
| `EscrowTheorems.BooksBalance` | contracts/escrow/src/storage.rs:88-246 | in every run: original amount = locked + to seller + fees + to buyer + residue; recorded fees + resolution fees = pool + withdrawn; total volume = sum of the originals past Created |
| `EscrowTheorems.RunEvolves` | contracts/escrow/src/escrow_state.rs:8-29 | over every run an escrow's terms are fixed, its amount only falls and its status follows the transition table; a settled escrow stays settled |
| `EscrowTheorems.StepEvolves` | contracts/escrow/src/escrow_state.rs:8-29 | every actual status change of a step is in the transition table, also by the entry points that never consult it |
| `EscrowTheorems.Covered` | contracts/escrow/src/release.rs:45-167 | the balance covers all escrows together with the fee pool and what was there before deployment, so each escrow too |
| `EscrowTheorems.ExactlySolvent` | contracts/escrow/src/resolve.rs:41-74 | when nobody pays the contract itself, balance = opening balance + locked + fee pool + residue of resolutions |
| `EscrowTheorems.ChangesNeedAuthority` | contracts/escrow/src/release.rs:30-39 | no step changes an escrow without its buyer, the admin before the deadline, or the arbiter once disputed |
| `EscrowTheorems.DisputeLocks` | contracts/escrow/src/dispute.rs:10-43 | a disputed escrow can be neither released nor refunded nor disputed again, and no money moved |
| `EscrowTheorems.SetAdminExactly` | contracts/escrow/src/lib.rs:30-41 | the admin is set or rotated if and only if the present one signed, or the new one when there is none |
| `EscrowTheorems.ConfigurationExactly` | contracts/escrow/src/lib.rs:44-141 | whitelist, arbiter and fee are set by the signed admin alone, each leaving the rest of the state, the fee up to 5000 basis points |
| `EscrowTheorems.CreateExactly` | contracts/escrow/src/create.rs:11-51 | an escrow is created if and only if its guards hold, under the next number with the parties, token, amount and expiration asked for, and appended to its three indexes alone; every refusal has its cause and changes nothing |
| `EscrowTheorems.FundExactly` | contracts/escrow/src/fund.rs:8-45 | funding succeeds if and only if its guards hold, and moves exactly the original amount from the buyer to the contract; nothing but balances, status, volume and log changes; every refusal has its cause and changes nothing |
| `EscrowTheorems.RefundExactly` | contracts/escrow/src/refund.rs:9-41 | a refund succeeds if and only if its guards hold; over all tokens and accounts, the remaining amount goes from the contract to the escrow's buyer and nothing else moves, the record is cancelled with nothing left and every other record stands; every refusal has its cause and changes nothing |
| `EscrowTheorems.ReleaseExactly` | contracts/escrow/src/release.rs:45-95 | a release succeeds if and only if its guards hold and the fee's product fits 128 bits; over all tokens and accounts, the amount less the truncated fee goes to the seller and the fee to the pool and the history; every refusal has its cause and changes nothing |
| `EscrowTheorems.PartialReleaseExactly` | contracts/escrow/src/release.rs:99-167 | the same for a partial release of an amount within the remaining one |
| `EscrowTheorems.DisputeExactly` | contracts/escrow/src/dispute.rs:10-43 | the buyer disputes exactly a funded escrow; its status alone changes; every refusal has its cause |
| `EscrowTheorems.ResolveExactly` | contracts/escrow/src/resolve.rs:13-85 | every non-negative allocation within the remaining amount can be paid, and no other is accepted; buyer, seller and pool get their parts, and the escrow is completed with nothing left |
| `EscrowTheorems.WithdrawExactly` | contracts/escrow/src/lib.rs:150-173 | the admin can withdraw any part of the fee pool and nothing more, and exactly that goes to the recipient named |
| `EscrowTheorems.IndexesExact` | contracts/escrow/src/create.rs:35-48 | each index lists exactly the escrows of its token, buyer or seller, once each, ascending |
| `EscrowTheorems.FeeWithinBounds` | contracts/escrow/src/release.rs:15-28 | fee + payout = amount, 0 <= fee <= amount/2 under the cap, fee is the truncated share, and the product fits for every amount up to (2^128 - 1)/5000 |
| `EscrowTheorems.FeeRate` | contracts/escrow/src/storage.rs:217-226 | in every run the fee rate is at most 5000 basis points, and 100 as long as no call sets it |
| `EscrowTheorems.FeeOfParts` | contracts/escrow/src/release.rs:15-28 | releasing an amount in k parts costs no more than one release and at most k - 1 less |
| `EscrowContracts.EscrowContract.CreateEscrow` | contracts/escrow/src/create.rs:11-51 | the entry point updates storage in place to exactly the state and result of its transition, with every error rolled back, and keeps the invariant of the contract |
| `EscrowContracts.EscrowContract.FundEscrow` | contracts/escrow/src/fund.rs:8-45 | the entry point updates storage in place to exactly the state and result of its transition, with every error rolled back, and keeps the invariant of the contract |
| `EscrowContracts.EscrowContract.AuthorizeReleaser` | contracts/escrow/src/release.rs:30-39 | succeeds if and only if the caller signed and is the buyer or the admin, with the error of the first check that fails |
| `EscrowContracts.EscrowContract.ReleaseEscrow` | contracts/escrow/src/release.rs:45-95 | the entry point updates storage in place to exactly the state and result of its transition, with every error rolled back, and keeps the invariant of the contract |
| `EscrowContracts.EscrowContract.PartialRelease` | contracts/escrow/src/release.rs:99-167 | the entry point updates storage in place to exactly the state and result of its transition, with every error rolled back, and keeps the invariant of the contract |
| `EscrowContracts.EscrowContract.Dispute` | contracts/escrow/src/dispute.rs:10-43 | the entry point updates storage in place to exactly the state and result of its transition, with every error rolled back, and keeps the invariant of the contract |
| `EscrowContracts.EscrowContract.ResolveDispute` | contracts/escrow/src/resolve.rs:13-85 | the entry point updates storage in place to exactly the state and result of its transition, with every error rolled back, and keeps the invariant of the contract |
| `EscrowContracts.EscrowContract.RefundEscrow` | contracts/escrow/src/refund.rs:9-41 | the entry point updates storage in place to exactly the state and result of its transition, with every error rolled back, and keeps the invariant of the contract |
| `EscrowContracts.EscrowContract.WithdrawFees` | contracts/escrow/src/lib.rs:150-173 | the entry point updates storage in place to exactly the state and result of its transition, with every error rolled back, and keeps the invariant of the contract |
| `RegistryTheorems.StepKeeps` | contracts/library-rights/src/registry.rs:85-381 | every entry point keeps forest, history and child index, and changes no recorded snapshot, kind, parent or index position |
| `RegistryTheorems.Reachable` | contracts/library-rights/src/registry.rs:149-381 | the invariant holds in every reachable state |
| `RegistryTheorems.RunKeeps` | contracts/library-rights/src/registry.rs:149-381 | over every run recorded snapshots, kinds, parents and index positions never change and versions never fall |
| `RegistryTheorems.Forest` | contracts/library-rights/src/registry.rs:185-279 | parents lead from a rendition over an edition to a work and end there: acyclic, of depth at most two |
| `RegistryTheorems.HistoryStands` | contracts/library-rights/src/registry.rs:398-417 | a version is found exactly when it is between 1 and the current one, and reads the same after every run |
| `RegistryTheorems.WorkExactly` | contracts/library-rights/src/registry.rs:149-180 | a work is registered if and only if the signed policy manager gives a free identifier and acceptable metadata; entry, first version and nothing else are written, with the values asked for; every refusal has its cause and changes nothing |
| `RegistryTheorems.EditionExactly` | contracts/library-rights/src/registry.rs:185-227 | the same for an edition, if and only if moreover its parent is a work with room |
| `RegistryTheorems.RenditionExactly` | contracts/library-rights/src/registry.rs:233-279 | the same for a rendition, if and only if moreover its digest is not all zero and its parent is an edition with room; algorithm and digest are stored as given |
| `RegistryTheorems.WorkRecorded` | contracts/library-rights/src/registry.rs:149-180 | after any run, version 1 of a registered work shows what it was registered with, by whom and when |
| `RegistryTheorems.EditionRecorded` | contracts/library-rights/src/registry.rs:185-227 | the same for an edition, whose parent stays the one named |
| `RegistryTheorems.RenditionRecorded` | contracts/library-rights/src/registry.rs:233-279 | the same for a rendition, with the algorithm and digest it was registered with |
| `RegistryTheorems.MetadataExactly` | contracts/library-rights/src/registry.rs:284-327 | metadata is updated if and only if the signed policy manager names an entry whose version does not overflow and acceptable metadata; the next version carries it and keeps the rest |
| `RegistryTheorems.ContentExactly` | contracts/library-rights/src/registry.rs:333-381 | content is updated if and only if the same holds of a rendition and a digest that is not all zero |
| `RegistryTheorems.MetadataRecorded` | contracts/library-rights/src/registry.rs:284-327 | an updated metadata is what every later reader finds under the returned version, with the content unchanged |
| `RegistryTheorems.ContentRecorded` | contracts/library-rights/src/registry.rs:333-381 | the same for a rendition's content hash, with the metadata unchanged |
| `RegistryTheorems.ChildListExact` | contracts/library-rights/src/registry.rs:106-124 | positions 0 to the child count hold exactly the entries with that parent, each once |
| `RegistryTheorems.EditionAppended` | contracts/library-rights/src/registry.rs:185-227 | a registered edition becomes the last element of its work's list and of no other |
| `RegistryTheorems.RenditionAppended` | contracts/library-rights/src/registry.rs:233-279 | a registered rendition becomes the last element of its edition's list and of no other |
| `RegistryTheorems.PageIsSlice` | contracts/library-rights/src/registry.rs:424-463 | a page is the slice of the child list at its cursor; limits and cursors are rejected exactly out of range |
| `RegistryTheorems.WalkRebuilds` | contracts/library-rights/src/registry.rs:424-463 | following next cursors with any limits of 1 to 50 yields each remaining child once, in order |
| `RegistryTheorems.LiveWalkExact` | contracts/library-rights/src/registry.rs:424-463 | the same while any calls run between two pages: each child once, in order, without a gap, and all that were there at the start after as many pages |
| `RegistryContracts.RegistryContract.AppendVersion` | contracts/library-rights/src/registry.rs:85-103 | writes the stored maps in place to exactly its specification |
| `RegistryContracts.RegistryContract.RecordChild` | contracts/library-rights/src/registry.rs:106-124 | writes the stored maps in place to exactly its specification |
| `RegistryContracts.RegistryContract.RegisterWork` | contracts/library-rights/src/registry.rs:149-180 | writes the stored maps in place to exactly the state and result of its transition, and keeps the invariant of the registry |
| `RegistryContracts.RegistryContract.RegisterEdition` | contracts/library-rights/src/registry.rs:185-227 | writes the stored maps in place to exactly the state and result of its transition, and keeps the invariant of the registry |
| `RegistryContracts.RegistryContract.RegisterRendition` | contracts/library-rights/src/registry.rs:233-279 | writes the stored maps in place to exactly the state and result of its transition, and keeps the invariant of the registry |
| `RegistryContracts.RegistryContract.UpdateMetadata` | contracts/library-rights/src/registry.rs:284-327 | writes the stored maps in place to exactly the state and result of its transition, and keeps the invariant of the registry |
| `RegistryContracts.RegistryContract.UpdateContentHash` | contracts/library-rights/src/registry.rs:333-381 | writes the stored maps in place to exactly the state and result of its transition, and keeps the invariant of the registry |
| `RegistryContracts.RegistryContract.Children` | contracts/library-rights/src/registry.rs:424-463 | the loop over positions, stopping at the limit, the end or a gap, collects exactly the page of the specification |
| `FineLedgerTheorems.StepKeeps` | contracts/library-fines/src/lib.rs:592-965 | every entry point keeps all ledgers, the reconciliation and unique references, and moves settlements only along the four edges |
| `FineLedgerTheorems.Reachable` | contracts/library-fines/src/lib.rs:592-965 | in every reachable state each balance is the sum of its entries and equals assessments - waivers - confirmed settlements, and is never negative |
| `FineLedgerTheorems.RunKeeps` | contracts/library-fines/src/lib.rs:592-965 | over every run entries, references and settlement terms stand, and a settlement never moves backwards |
| `FineLedgerTheorems.AssessRecords` | contracts/library-fines/src/lib.rs:639-674 | an assessment appends one entry and its amount to its patron alone |
| `FineLedgerTheorems.WaiverRecords` | contracts/library-fines/src/lib.rs:682-720 | a waiver appends one entry and takes its amount off its patron alone |
| `FineLedgerTheorems.PaymentUndone` | contracts/library-fines/src/lib.rs:774-965 | confirming takes the settlement's amount off; refunding or reversing it restores every balance, and can be done once |
| `FineLedgerTheorems.InitializeExactly` | contracts/library-fines/src/lib.rs:510-531 | the ledger is initialized once, by whoever signs for its admin |
| `FineLedgerTheorems.AddSupportedAssetExactly` | contracts/library-fines/src/lib.rs:621-633 | the signed admin adds an asset to the supported ones |
| `FineLedgerTheorems.AssessExactly` | contracts/library-fines/src/lib.rs:639-674 | an assessment succeeds if and only if its guards hold; the entry written, the balance, the reference and nothing else change; every refusal has its cause |
| `FineLedgerTheorems.WaiveExactly` | contracts/library-fines/src/lib.rs:682-720 | the same for a waiver of at most the balance |
| `FineLedgerTheorems.InitiateExactly` | contracts/library-fines/src/lib.rs:728-765 | a payment is initiated if and only if its guards hold, and binds patron, payer, asset, amount and time |
| `FineLedgerTheorems.ConfirmExactly` | contracts/library-fines/src/lib.rs:774-825 | a payment is confirmed if and only if the signed admin names a pending one of at most the balance under a fresh reference; the entry carries the settlement's own amount and asset |
| `FineLedgerTheorems.FailExactly` | contracts/library-fines/src/lib.rs:830-856 | a payment is failed if and only if the signed admin names a pending one; its phase alone changes |
| `FineLedgerTheorems.UndoExactly` | contracts/library-fines/src/lib.rs:861-965 | a payment is refunded or reversed if and only if the signed admin names a confirmed one under a fresh reference; the entry has its own kind and puts the amount back |
| `FineLedgerTheorems.PageIsSlice` | contracts/library-fines/src/lib.rs:991-1012 | a page is the slice of the ledger at its cursor, at most fifty entries |
| `FineLedgerTheorems.WalkRebuilds` | contracts/library-fines/src/lib.rs:991-1012 | pages of any limits of at least one, read one after another, rebuild the ledger |
| `FineLedgerTheorems.LiveWalkExact` | contracts/library-fines/src/lib.rs:991-1012 | the same while any calls run between two pages: each entry once, in order, without a gap, and all that were there at the start after as many pages |
| `FineLedgerContracts.FineLedgerContract.Append` | contracts/library-fines/src/lib.rs:592-616 | updates ledger, balance, references and settlements in place to exactly its specification |
| `FineLedgerContracts.FineLedgerContract.Assess` | contracts/library-fines/src/lib.rs:639-674 | updates ledger, balance, references and settlements in place to exactly its transition, and keeps the invariant of the ledger |
| `FineLedgerContracts.FineLedgerContract.Waive` | contracts/library-fines/src/lib.rs:682-720 | updates ledger, balance, references and settlements in place to exactly its transition, and keeps the invariant of the ledger |
| `FineLedgerContracts.FineLedgerContract.InitiatePayment` | contracts/library-fines/src/lib.rs:728-765 | updates ledger, balance, references and settlements in place to exactly its transition, and keeps the invariant of the ledger |
| `FineLedgerContracts.FineLedgerContract.ConfirmPayment` | contracts/library-fines/src/lib.rs:774-825 | updates ledger, balance, references and settlements in place to exactly its transition, and keeps the invariant of the ledger |
| `FineLedgerContracts.FineLedgerContract.FailPayment` | contracts/library-fines/src/lib.rs:830-856 | updates ledger, balance, references and settlements in place to exactly its transition, and keeps the invariant of the ledger |
| `FineLedgerContracts.FineLedgerContract.RefundPayment` | contracts/library-fines/src/lib.rs:861-909 | updates ledger, balance, references and settlements in place to exactly its transition, and keeps the invariant of the ledger |
| `FineLedgerContracts.FineLedgerContract.ReversePayment` | contracts/library-fines/src/lib.rs:917-965 | updates ledger, balance, references and settlements in place to exactly its transition, and keeps the invariant of the ledger |
| `FineLedgerContracts.FineLedgerContract.GetEntries` | contracts/library-fines/src/lib.rs:991-1012 | the loop over the sequence numbers collects exactly the page of the specification |
| `SignedFinesTheorems.PayloadFields` | contracts/library-fines/src/lib.rs:123-143 | every payload has 148 bytes with each field at its own place |
| `SignedFinesTheorems.TagText` | contracts/library-fines/src/lib.rs:134 | the payload's first 16 bytes are the text CHAINVERSE_FINE: |
| `SignedFinesTheorems.PayloadInjective` | contracts/library-fines/src/lib.rs:123-143 | no two assessments have the same payload |
| `SignedFinesTheorems.PreimagesDiffer` | contracts/library-fines/src/lib.rs:146-160 | two different counters never give the same identifier preimage |
| `SignedFinesTheorems.Reachable` | contracts/library-fines/src/lib.rs:269-423 | in every reachable state each loan's debt is the sum of what its fines still amount to, and Waived means nothing is left |
| `SignedFinesTheorems.DebtCoversFine` | contracts/library-fines/src/lib.rs:383-423 | no fine exceeds its loan's debt, so the unguarded subtraction of a waiver stays non-negative |
| `SignedFinesTheorems.DebtNonnegative` | contracts/library-fines/src/lib.rs:173-189 | no debt is ever negative |
| `SignedFinesTheorems.DebtCapped` | contracts/library-fines/src/lib.rs:269-378 | over every run a debt stays within the largest cumulative cap under which its loan was assessed |
| `SignedFinesTheorems.NoReplay` | contracts/library-fines/src/lib.rs:269-378 | a nonce, and so a signed payload, creates at most one fine over any run, under any key |
| `SignedFinesTheorems.InitializeExactly` | contracts/library-fines/src/lib.rs:198-212 | the contract is initialized once, by whoever signs for its admin |
| `SignedFinesTheorems.ConfigurationExactly` | contracts/library-fines/src/lib.rs:215-261 | the signed admin alone replaces the key, and stores a policy with positive caps as given |
| `SignedFinesTheorems.AssessExactly` | contracts/library-fines/src/lib.rs:269-378 | an assessment succeeds if and only if signature, nonce, expiry, grace period and both caps allow it; the fine is filed with its terms under the hash of counter, time, loan and nonce, the nonce is used up and the amount added to its own loan alone; every refusal has its cause and changes nothing |
| `SignedFinesTheorems.WaiveExactly` | contracts/library-fines/src/lib.rs:383-423 | a waiver succeeds if and only if the admin waives at most what is left; fine and debt fall alike, and the fine is marked exactly at zero |
| `SignedFinesContracts.SignedFinesContract.BuildFinePayload` | contracts/library-fines/src/lib.rs:123-143 | appends the fields to the buffer in the order of the specification |
| `SignedFinesContracts.SignedFinesContract.AssessFine` | contracts/library-fines/src/lib.rs:269-378 | updates fines, debts and nonces in place to exactly its transition, and keeps the invariant of the contract |
| `SignedFinesContracts.SignedFinesContract.WaiveFine` | contracts/library-fines/src/lib.rs:383-423 | updates fines, debts and nonces in place to exactly its transition, and keeps the invariant of the contract |
| `TimelockTheorems.StepKeeps` | contracts/library-rights/src/timelock.rs:202-393 | every entry point keeps the pending list exact, bounded and duplicate-free, the delay window within bounds and the dispatch history |
| `TimelockTheorems.Reachable` | contracts/library-rights/src/timelock.rs:202-393 | in every reachable state the pending list is exactly the changes neither executed nor cancelled, at most 64, no two of one proposer and action |
| `TimelockTheorems.NothingBeforeItsTime` | contracts/library-rights/src/timelock.rs:323-363 | in every run roles and window are what bootstrap and dispatches made them, and every dispatch was queued before, once, by at least one hour and at least the minimum delay that the events up to the queueing had put in force |
| `TimelockTheorems.QueueExactly` | contracts/library-rights/src/timelock.rs:202-280 | a change is queued if and only if its guards hold, under the hash of its salt and with the terms asked for; nothing governed changes; every refusal has its cause and changes nothing |
| `TimelockTheorems.SaltFields` | contracts/library-rights/src/timelock.rs:141-255 | the salt is proposer, number and parts of the action with roles numbered 1 to 5, eta, queueing time and counter, in this order |
| `TimelockTheorems.ExecuteExactly` | contracts/library-rights/src/timelock.rs:323-393 | a change is executed if and only if its caller signed, it is pending and due, a new holder signed or holds the role already, and a new window is within bounds; its action alone then takes effect and it alone leaves the queue |
| `TimelockTheorems.CancelExactly` | contracts/library-rights/src/timelock.rs:284-320 | a change is cancelled if and only if it is pending and its proposer or the admin signed; it alone then leaves the queue and nothing governed changes |
| `TimelockTheorems.SetCourseRegistryExactly` | contracts/library-rights/src/lib.rs:1130-1141 | the registry is set directly if and only if the signed admin asks, and nothing else changes |
| `TimelockTheorems.ClosedForGood` | contracts/library-rights/src/timelock.rs:284-363 | a change once cancelled or executed is never executed or cancelled again, over any run |
| `TimelockTheorems.BootstrapExactly` | contracts/library-rights/src/governance.rs:23-80 | the roles are assigned once, in order, to five different addresses that all signed |
| `TimelockTheorems.SeparationKeptExactly` | contracts/library-rights/src/timelock.rs:365-393 | a step loses the separation of roles if and only if it executes a due transfer to an address that signed and holds another role |
| `TimelockTheorems.RolesMayCoincide` | contracts/library-rights/src/timelock.rs:365-393 | a run from deployment, of a bootstrap, a queued transfer and its execution, after which one address holds two roles |
| `TimelockTheorems.RegistryNotDelayed` | contracts/library-rights/src/lib.rs:1130-1141 | a step changes the course registry if and only if the signed admin sets it directly, or executes a pending and due repointing, to another address than before |
| `TimelockTheorems.RegistryIsLastSet` | contracts/library-rights/src/lib.rs:1130-1141 | in every run the course registry is what was last dispatched or set directly |
| `TimelockTheorems.RegistryBypass` | contracts/library-rights/src/lib.rs:1130-1141 | a run from deployment that repoints the course registry without anything ever queued |
| `TimelockContracts.TimelockContract.Bootstrap` | contracts/library-rights/src/governance.rs:23-80 | the nested loop over addresses and the loop over roles give exactly the bootstrap's transition, and keep the invariant of the timelock |
| `TimelockContracts.TimelockContract.RequireRole` | contracts/library-rights/src/governance.rs:98-105 | succeeds if and only if the caller holds the role and signed, with the error of the first check that fails |
| `TimelockContracts.TimelockContract.Queue` | contracts/library-rights/src/timelock.rs:202-280 | updates queue, flags and pending list in place to exactly its transition, and keeps the invariant of the timelock |
| `TimelockContracts.TimelockContract.RemoveFromPending` | contracts/library-rights/src/timelock.rs:172-180 | the loop rebuilds the pending list without the identifier |
| `TimelockContracts.TimelockContract.Cancel` | contracts/library-rights/src/timelock.rs:284-319 | updates queue, flags and pending list in place to exactly its transition, and keeps the invariant of the timelock |
| `TimelockContracts.TimelockContract.Execute` | contracts/library-rights/src/timelock.rs:323-363 | updates queue, flags and pending list in place to exactly its transition, and keeps the invariant of the timelock |
| `TimelockContracts.TimelockContract.Dispatch` | contracts/library-rights/src/timelock.rs:365-393 | performs the action in place exactly as its transition does |
| `VaultTheorems.DeduplicateExact` | contracts/escrow-vault/src/lib.rs:51-61 | deduplication keeps the set of addresses, without duplicates, in the order of first occurrence |
| `VaultTheorems.DeduplicateIdentity` | contracts/escrow-vault/src/lib.rs:51-61 | deduplication is the identity on every list that passes the pairwise check |
| `VaultTheorems.StepKeeps` | contracts/escrow-vault/src/lib.rs:96-254 | every entry point keeps vote counts, quorum, payouts and solvency |
| `VaultTheorems.Reachable` | contracts/escrow-vault/src/lib.rs:96-254 | in every reachable state approvals = number of votes, voters are approvers, Pending is below and Released at the threshold, and balances cover the pending vaults |
| `VaultTheorems.ReleasedByQuorum` | contracts/escrow-vault/src/lib.rs:164-200 | a released vault has exactly threshold votes of approvers who are no parties, and was paid out once |
| `VaultTheorems.ReleasedAtThreshold` | contracts/escrow-vault/src/lib.rs:164-200 | an approval adds one voter, and releases exactly when it completes the threshold |
| `VaultTheorems.RevokeKeeps` | contracts/escrow-vault/src/lib.rs:204-226 | a revocation removes one standing vote: its saturating subtraction never saturates |
| `VaultTheorems.Covered` | contracts/escrow-vault/src/lib.rs:96-254 | the balance covers the sum of all pending vaults of a token and what was there before deployment |
| `VaultTheorems.SetAdminExactly` | contracts/escrow-vault/src/lib.rs:69-76 | the admin is set once, by its own signature |
| `VaultTheorems.CreateExactly` | contracts/escrow-vault/src/lib.rs:96-162 | a vault is created if and only if its guards hold, under the hash of counter, time and depositor, with the terms and approvers asked for, and takes the amount from the depositor; every refusal has its cause and changes nothing |
| `VaultTheorems.ApproveExactly` | contracts/escrow-vault/src/lib.rs:164-200 | an approval succeeds if and only if its guards hold: the vote is added, and the one that completes the threshold releases the vault to its recipient, which never fails; every refusal has its cause and changes nothing |
| `VaultTheorems.RevokeExactly` | contracts/escrow-vault/src/lib.rs:204-226 | exactly a standing vote for a pending vault is taken back, and nothing else changes |
| `VaultTheorems.ApprovalPays` | contracts/escrow-vault/src/lib.rs:164-200 | a releasing approval pays the recipient the vault's amount and any other moves nothing |
| `VaultTheorems.CancelExactly` | contracts/escrow-vault/src/lib.rs:231-254 | the admin can cancel exactly the pending vaults: the depositor is refunded, which never fails; every refusal has its cause and changes nothing |
| `VaultTheorems.CancellationRefunds` | contracts/escrow-vault/src/lib.rs:231-254 | a cancellation pays the depositor back and nobody else |
| `VaultContracts.Deduplicate` | contracts/escrow-vault/src/lib.rs:51-61 | the loop builds exactly the deduplicated list |
| `VaultContracts.VaultContract.CreateVault` | contracts/escrow-vault/src/lib.rs:96-162 | updates vaults, votes and balances in place to exactly its transition, and keeps the invariant of the vault |
| `VaultContracts.VaultContract.ApproveVault` | contracts/escrow-vault/src/lib.rs:164-200 | updates vaults, votes and balances in place to exactly its transition, and keeps the invariant of the vault |
| `VaultContracts.VaultContract.RevokeApproval` | contracts/escrow-vault/src/lib.rs:204-226 | updates vaults, votes and balances in place to exactly its transition, and keeps the invariant of the vault |
| `VaultContracts.VaultContract.EmergencyCancel` | contracts/escrow-vault/src/lib.rs:231-254 | updates vaults, votes and balances in place to exactly its transition, and keeps the invariant of the vault |
| `VestingTheorems.DefinedExactly` | contracts/common/vesting.rs:436-468 | the vested amount is defined at every time if and only if start + duration fits 64 bits and the largest product fits 128 |
| `VestingTheorems.VestedAt` | contracts/common/vesting.rs:436-468 | at any time: undefined exactly when a sum or the product overflows; otherwise nothing before the cliff, everything from the end on, the truncated proportion between |
| `VestingTheorems.VestedExactly` | contracts/common/vesting.rs:436-468 | nothing before the cliff, everything from the end on, the truncated proportion between; the empty-period branch is never reached |
| `VestingTheorems.Monotone` | contracts/common/vesting.rs:436-468 | the vested amount never falls |
| `VestingTheorems.RunKeeps` | contracts/common/vesting.rs:149-405 | over every run terms are fixed, a claim or revocation is final, and no grant is both claimed and revoked |
| `VestingTheorems.PaidAtMostOnce` | contracts/common/vesting.rs:247-405 | over every run each grant pays at most once and at most its amount, and nothing when revoked |
| `VestingTheorems.ClaimForfeitsTheRest` | contracts/common/vesting.rs:247-334 | after a claim the grant never pays again: what was not vested then is never paid |
| `VestingTheorems.InitExactly` | contracts/common/vesting.rs:114-146 | the contract is initialized once, by anybody |
| `VestingTheorems.GrantExactly` | contracts/common/vesting.rs:149-244 | a schedule is granted if and only if the signed admin names a positive amount and a cliff within the duration, and is stored under the next number as asked for, open; every refusal has its cause |
| `VestingTheorems.ClaimExactly` | contracts/common/vesting.rs:247-334 | a claim succeeds if and only if an open grant's beneficiary asks and something vested can be paid; exactly that moves to the beneficiary and the grant is marked; every refusal has its cause and changes nothing |
| `VestingTheorems.RevokeExactly` | contracts/common/vesting.rs:337-405 | a revocation succeeds if and only if the admin acts on an open grant after the delay; no claim succeeds after it |
| `VestingContracts.VestingContract.GrantVesting` | contracts/common/vesting.rs:149-244 | updates schedules, flags and balances in place to exactly its transition, and keeps the invariant of the contract |
| `VestingContracts.VestingContract.Claim` | contracts/common/vesting.rs:247-334 | updates schedules, flags and balances in place to exactly its transition, and keeps the invariant of the contract |
| `VestingContracts.VestingContract.Revoke` | contracts/common/vesting.rs:337-405 | updates schedules, flags and balances in place to exactly its transition, and keeps the invariant of the contract |
| `LicensingTheorems.StepKeeps` | contracts/library_licensing/src/lib.rs:804-2007 | every entry point keeps nested windows, bounded uses and seats, exact entitlement lists and allocation totals |
| `LicensingTheorems.Reachable` | contracts/library_licensing/src/lib.rs:804-2007 | in every reachable state: grants inside licenses, sessions and offline grants inside grants, uses <= max uses with active exactly below it, seats within the total, key list = entitlements, total = active allocations <= limit |
| `LicensingTheorems.ActiveNested` | contracts/library_licensing/src/lib.rs:1277-1294 | an active grant lies inside an active license at the same time |
| `LicensingTheorems.NoResurrection` | contracts/library_licensing/src/lib.rs:868-895 | once a license is revoked no grant under it is active again, in any run at any time |
| `LicensingTheorems.LicenseGranted` | contracts/library_licensing/src/lib.rs:804-859 | a license is filed under a new identifier with the terms asked for, and every other license stands |
| `LicensingTheorems.DeriveIsIssue` | contracts/library_licensing/src/lib.rs:957-1104 | a derivation succeeds only inside the license's window and its grant ends after the duration or with the license, whichever is first |
| `LicensingTheorems.NonceOnce` | contracts/library_licensing/src/lib.rs:957-1104 | an enrollment nonce backs at most one grant over any run |
| `LicensingGaps.RecordedExpiryUnused` | contracts/library_licensing/src/lib.rs:982-1030 | the expiry recorded with an enrollment never changes the outcome of a derivation |
| `LicensingGaps.DerivedWhen` | contracts/library_licensing/src/lib.rs:957-1104 | a derivation, by licensee, admin or librarian, succeeds if and only if proof, license, authority and clock allow it at that time |
| `LicensingGaps.RecordedExpiryHonoured` | contracts/library_licensing/src/lib.rs:957-1104 | for every caller: no derivation succeeds from the recorded expiry on if and only if the supplied expiry, the license, the caller's authority or the clock forbids it at the first usable moment from then on, or something is missing at all times |
| `LicensingGaps.ExpiredEnrollmentAccepted` | contracts/library_licensing/src/lib.rs:957-1104 | a run from deployment after which a grant is derived forty seconds past the recorded expiry |
| `LicensingGaps.PreservationNotHonoured` | contracts/library_licensing/src/lib.rs:1894-1937 | applying a scheduled revocation ends every grant of the license at once, at every time |
| `LicensingGaps.PreservationExactly` | contracts/library_licensing/src/lib.rs:1894-1937 | the grants active before the preservation date stay active if and only if there is no such time: the license was not active, or the date, the grant or the license has ended by the first usable moment |
| `LicensingGaps.PreservedGrantLost` | contracts/library_licensing/src/lib.rs:1894-1937 | a run from deployment in which an active grant is lost forty seconds before the preservation date |
| `LicensingTheorems.UsesCounted` | contracts/library_licensing/src/lib.rs:1996-2007 | an offline grant's counter counts exactly the successful uses of every run, never more than allowed |
| `LicensingTheorems.EntitlementRoundTrip` | contracts/library_licensing/src/lib.rs:1306-1440 | a granted entitlement holds exactly while the window is open, a revoked one never, and no other is touched |
| `LicensingTheorems.PageIsSlice` | contracts/library_licensing/src/lib.rs:1472-1498 | a page of entitlements is the slice of the key list at its offset, each key with the entitlement stored for it |
| `LicensingTheorems.SeatRoundTrip` | contracts/library_licensing/src/lib.rs:1508-1598 | releasing a seat undoes its allocation |
| `LicensingTheorems.RevokeAllocationKeeps` | contracts/library_licensing/src/lib.rs:1664-1675 | revoking an allocation takes its seats off the total, which always holds them: the saturating subtraction never saturates |
| `LicensingEffects.GrantLicenseExactly` | contracts/library_licensing/src/lib.rs:804-859 | a license is granted if and only if a cataloger gives rights, a window and seats; it is filed as asked for under the hash of counter, time, work and licensee; every refusal has its cause and changes nothing |
| `LicensingEffects.RevokeLicenseExactly` | contracts/library_licensing/src/lib.rs:868-895 | exactly an active license is revoked by a circulation librarian; its status alone changes |
| `LicensingEffects.ScheduleExactly` | contracts/library_licensing/src/lib.rs:1897-1919 | a revocation is scheduled if and only if its guards hold, with the date, preservation date and reason given |
| `LicensingEffects.ApplyExactly` | contracts/library_licensing/src/lib.rs:1924-1937 | it is applied if and only if it is scheduled, due and not applied; license and schedule change their status together |
| `LicensingEffects.EnrollmentExactly` | contracts/library_licensing/src/lib.rs:909-936 | the signed admin alone records an enrollment, under its nonce with course, learner and expiry as given |
| `LicensingEffects.DeriveEffect` | contracts/library_licensing/src/lib.rs:957-1104 | a derived grant carries license, grantee, work, start, clamped end and the hash of them, under the hash of counter, time, license and grantee; the nonce is used up |
| `LicensingEffects.DeriveRefused` | contracts/library_licensing/src/lib.rs:957-1104 | every refusal of a derivation has its cause and uses up nothing |
| `LicensingEffects.SessionExactly` | contracts/library_licensing/src/lib.rs:1941-1963 | a session is opened if and only if the grantee of a usable grant asks for a time within it; grant, grantee, key and end are filed under the hash of counter, time, grant and key |
| `LicensingEffects.OfflineExactly` | contracts/library_licensing/src/lib.rs:1968-1993 | an offline grant is made if and only if the same holds and some use is allowed; its terms, unused, are filed with their hash as commitment and under the hash of counter, time and terms |
| `LicensingEffects.ConsumeExactly` | contracts/library_licensing/src/lib.rs:1996-2007 | a use is taken if and only if grantee, commitment, time, uses left and the grant behind allow it; one use is added and the last one ends it |
| `LicensingEffects.GrantEntitlementExactly` | contracts/library_licensing/src/lib.rs:1306-1369 | an entitlement is granted if and only if the signed admin names an active license with room; it is recorded with the time and last in the list, or is there already and nothing changes |
| `LicensingEffects.RevokeEntitlementExactly` | contracts/library_licensing/src/lib.rs:1374-1413 | exactly a standing entitlement is taken away by the admin; the others keep their order |
| `LicensingEffects.AllocateSeatExactly` | contracts/library_licensing/src/lib.rs:1508-1556 | a seat is taken if and only if the licensee of an open license asks while one is free; the count alone rises by one |
| `LicensingEffects.ReleaseSeatExactly` | contracts/library_licensing/src/lib.rs:1563-1598 | a seat is given back if and only if the licensee asks and one is taken |
| `LicensingEffects.SetLimitExactly` | contracts/library_licensing/src/lib.rs:1613-1627 | a limit is set if and only if the licensee gives a positive one of at least what is allocated |
| `LicensingEffects.AllocateSeatsExactly` | contracts/library_licensing/src/lib.rs:1632-1662 | seats are allocated if and only if the licensee of an open license asks within the limit; license, account, seats and end are filed under the hash of counter, time, license and account, and the total rises by the seats |
| `LicensingEffects.EndAllocationExactly` | contracts/library_licensing/src/lib.rs:1664-1675 | exactly an active allocation of the licensee is ended; its seats leave the total |
| `LicensingEffects.QueriesExactly` | contracts/library_licensing/src/lib.rs:1277-1440 | a grant is reported active exactly when its own window and its active license's are open, an entitlement exactly when it stands and its license is open |
| `LicensingContracts.LicensingContract.GrantLicense` | contracts/library_licensing/src/lib.rs:804-859 | updates the stored records and key lists in place to exactly its transition, and keeps the invariant of the contract |
| `LicensingContracts.LicensingContract.RevokeLicense` | contracts/library_licensing/src/lib.rs:868-895 | updates the stored records and key lists in place to exactly its transition, and keeps the invariant of the contract |
| `LicensingContracts.LicensingContract.RecordEnrollment` | contracts/library_licensing/src/lib.rs:909-936 | updates the stored records and key lists in place to exactly its transition, and keeps the invariant of the contract |
| `LicensingContracts.LicensingContract.DeriveAccessGrant` | contracts/library_licensing/src/lib.rs:957-1104 | updates the stored records and key lists in place to exactly its transition, and keeps the invariant of the contract |
| `LicensingContracts.LicensingContract.GrantEntitlement` | contracts/library_licensing/src/lib.rs:1306-1369 | updates the stored records and key lists in place to exactly its transition, and keeps the invariant of the contract |
| `LicensingContracts.LicensingContract.RevokeEntitlement` | contracts/library_licensing/src/lib.rs:1374-1413 | updates the stored records and key lists in place to exactly its transition, and keeps the invariant of the contract |
| `LicensingContracts.LicensingContract.AllocateSeat` | contracts/library_licensing/src/lib.rs:1508-1556 | updates the stored records and key lists in place to exactly its transition, and keeps the invariant of the contract |
| `LicensingContracts.LicensingContract.ReleaseSeat` | contracts/library_licensing/src/lib.rs:1563-1598 | updates the stored records and key lists in place to exactly its transition, and keeps the invariant of the contract |
| `LicensingContracts.LicensingContract.SetAllocationLimit` | contracts/library_licensing/src/lib.rs:1613-1627 | updates the stored records and key lists in place to exactly its transition, and keeps the invariant of the contract |
| `LicensingContracts.LicensingContract.AllocateSeats` | contracts/library_licensing/src/lib.rs:1632-1662 | updates the stored records and key lists in place to exactly its transition, and keeps the invariant of the contract |
| `LicensingContracts.LicensingContract.RevokeAllocation` | contracts/library_licensing/src/lib.rs:1664-1675 | updates the stored records and key lists in place to exactly its transition, and keeps the invariant of the contract |
| `LicensingContracts.LicensingContract.ScheduleRevocation` | contracts/library_licensing/src/lib.rs:1897-1919 | updates the stored records and key lists in place to exactly its transition, and keeps the invariant of the contract |
| `LicensingContracts.LicensingContract.ApplyRevocation` | contracts/library_licensing/src/lib.rs:1924-1937 | updates the stored records and key lists in place to exactly its transition, and keeps the invariant of the contract |
| `LicensingContracts.LicensingContract.CreateSession` | contracts/library_licensing/src/lib.rs:1941-1963 | updates the stored records and key lists in place to exactly its transition, and keeps the invariant of the contract |
| `LicensingContracts.LicensingContract.CreateOffline` | contracts/library_licensing/src/lib.rs:1968-1993 | updates the stored records and key lists in place to exactly its transition, and keeps the invariant of the contract |
| `LicensingContracts.LicensingContract.ConsumeOffline` | contracts/library_licensing/src/lib.rs:1996-2007 | updates the stored records and key lists in place to exactly its transition, and keeps the invariant of the contract |
| `LicensingContracts.LicensingContract.Entitlements` | contracts/library_licensing/src/lib.rs:1472-1498 | the loop over the key list collects exactly the page of the specification |
| `Hashing.CodeInjective` | contracts/library_licensing/src/lib.rs:655-669 | an injective code of byte strings as identifiers: the collision-freedom assumed of SHA-256 is consistent |
| `Hashing.MadeFromFirst` | contracts/library_licensing/src/lib.rs:655-669 | under a collision-free hash an identifier determines the counter hashed first into it |
| `Hashing.MadeFromLast` | contracts/library-rights/src/timelock.rs:141-158 | the same for a counter hashed last |

## Left out

- EscrowTheorems.ReleaseExactly: assumes that the contract's own balances fit a signed 128-bit number, as the token interface guarantees, so that the fee pool cannot overflow; the same holds for PartialReleaseExactly and ResolveExactly.
- EscrowTheorems.PartialReleaseExactly: as ReleaseExactly.
- EscrowTheorems.ResolveExactly: as ReleaseExactly.
- EscrowTheorems.RefundExactly: a ledger balance is unbounded here, so that a token refuses a payment that would carry its recipient's balance past 128 bits is not modelled; where a payment is said never to fail, that failure is left out.
- EscrowTheorems.FundExactly: as RefundExactly.
- EscrowTheorems.WithdrawExactly: as RefundExactly.
- VaultTheorems.CreateExactly: as EscrowTheorems.RefundExactly.
- VaultTheorems.ApproveExactly: as EscrowTheorems.RefundExactly.
- VaultTheorems.CancelExactly: as EscrowTheorems.RefundExactly.
- VestingTheorems.ClaimExactly: as EscrowTheorems.RefundExactly.
- SHA-512, SHA-256, address serialization and the contracts' own signature checks are parameters; for SHA-256 identifiers are opaque numbers, not 32-byte strings, so that the ideal hash can exist.
- Token contracts are modelled by their standard: a transfer moves the amount or fails. Supply, allowances, and fees on transfer are not modelled.
- Identifiers, digests and addresses are opaque numbers where their bytes do not matter.
- Time-to-live extension, events, contract upgrades, pausing and the archive behaviour of the host.
- StrKey texts with a character whose upper case is several characters are treated as not base32; the error for a wrong decoded length is one with the error for an undecodable text.
- The signer's command line, self test vectors and hexadecimal seed argument.
- The writer of the licensing capabilities is not part of that contract's source; runs may set any capability at any time.
- Licensing records leave out what no modelled entry point reads back: the licensor of a license, the organization of an allocation, which is always the licensee, the active flag of a session, the issuing time of an offline grant, and identifiers repeated inside records.
- When several guards fail, the theorems give each refusal a cause that holds; which cause comes first is the order of the transition functions (proved only for AssessFine, whose order the source documents).
- Licensing: rendition migration, attestations, rental offers, institutional minting, grant transfers and commitment checks; they add records but no new kind of argument, and `accept_rental_offer` does not build a complete license.
- The two deposits the escrow counts as unsolicited, direct transfers and payments to itself, are recorded by the observer, not by the contract.
- Registry entries are modelled for registration, update and paging; loans, holds, reserves, migration, provenance and classifications of library-rights are not.
- The remaining contracts of the repository (course registry, certificates, token, mentorship, scholarship, staking, payouts).
- Vesting checks the clock and the balance only; the governance of who becomes admin is its `init`, which anybody may call first.
