# ReliefProof WB ledger, modelled in Dafny

ReliefProof WB is a browser page that records disaster-relief disbursements
on a hash-linked, append-only ledger. This project models that ledger core of
`main.js`:

- the block (`ReliefBlock`, `BeneficiaryBlock`): index, timestamp, payload,
  previous digest, and the digest over those four fields;
- the chain objects (`ReliefBlockchain` for the global ledger,
  `BeneficiaryBlockchain` for one beneficiary): restoring from the browser
  store or starting from a genesis block, the tip, the append that saves the
  whole chain, validation, lookup by relief id, and the relief-type query;
- relief id generation (`RP-WB-<date>-<count padded to 3>`);
- the handlers' ledger logic: an officer's disbursement, a beneficiary's
  claim with its duplicate guard and its copy on the global ledger, and the
  verification lookup.

Modules, one file each:

- `Blocks` (`blocks.dfy`): the block datatype and its digest.
- `Chains` (`chains.dfy`): the chain as a sequence. It holds what validation
  checks, append, load, the queries, and the lemmas about them.
- `Ledgers` (`ledgers.dfy`): the `Storage` class (the browser store) and the
  `Ledger` class. `Ledger` holds a `seq<Block>` field and is specified by the
  `Chains` definitions.
- `ReliefIds` (`relief_ids.dfy`): relief id generation and the decimal
  read-back that shows padding loses nothing.
- `Coordinator` (`coordinator.dfy`): disbursement, claim and verification.
- `Options` (`options.dfy`): the optional-value datatype.

Both JavaScript chain classes are one `Ledger` class here. Its
`beneficiaryId` is `None` for the global ledger and `Some(id)` for a
beneficiary's. That choice fixes the storage key (`reliefChain` or
`benChain_<id>`), the genesis payload, and the genesis timestamp. The global
ledger's timestamp is fixed; a beneficiary's is the clock at load time.

`JSON.stringify` and `CryptoJS.SHA256` are foreign calls. They are the two
function values of a `Hashing` parameter, so every property below holds for
every serialisation and every digest function. No property assumes either one
is injective. The clock, the `YYYYMMDD` date, and the form fields are
parameters.

Two behaviours of the code are modelled as written:

- `loadChain` does not save the genesis block it creates. The chain is first
  written by the first `addBlock`.
- `hasReliefType` leaves out genesis by the stored `index > 0`, not by the
  block's position.

## Model

| member | source | states |
|---|---|---|
| `Blocks.CalculateHash` | main.js:20-28 | The digest is SHA-256 of the serialised index, timestamp, payload and previous digest. The stored `hash` field takes no part. |
| `Blocks.NewBlock` | main.js:11-18 | A freshly built block keeps its four content fields. Its stored digest equals `calculateHash()` of those fields. |
| `Blocks.Restore` | main.js:39-44 | Rebuilding a saved record gives back exactly that record. The saved digest is kept even when it does not match the fields, so it is never recomputed. |
| `Chains.BeneficiaryKeyIsNotReliefKey` | main.js:128-141 | No key `benChain_<id>` is ever `reliefChain`, so a beneficiary ledger and the global ledger never overwrite each other in storage. |
| `Chains.StorageKey` | main.js:128 | A beneficiary ledger is stored under `benChain_<id>`. The global ledger is stored under the fixed key `reliefChain` (main.js:37). |
| `Chains.Genesis` | main.js:53-61 | The genesis block has index 0, previous digest `"0"`, relief id `GENESIS` and type `GENESIS_BLOCK`, and a consistent digest. The global timestamp is fixed; a beneficiary's genesis carries that beneficiary's id and the current time. |
| `Chains.LoadChain` | main.js:36-47 | With a saved chain, it returns exactly the saved blocks and their digests. With nothing saved, it returns just the genesis block. |
| `Chains.GenesisWellFormed` | main.js:53-61 | A chain holding only the genesis block is well formed: it is linked, and each block's index is its position. |
| `Chains.Append` | main.js:68-78 | An append adds one block. Its index is the old length, its previous digest is the old tip's digest, its timestamp and payload are the given ones, and its digest is consistent. Every earlier block is unchanged. |
| `Chains.AppendKeepsValid` | main.js:80-94 | Appending to a chain that passes validation gives a chain that passes validation. |
| `Chains.AppendKeepsWellFormed` | main.js:68-94 | Appending keeps a chain linked, with index equal to position. |
| `Chains.GrowKeepsWellFormed` | main.js:68-94 | Any run of appends keeps a well-formed chain well formed. |
| `Chains.BuiltChainIsValid` | main.js:80-94 | Any chain built from genesis by zero or more appends passes validation, and each block's index is its position. |
| `Chains.SeveredLinkDetected` | main.js:89-91 | Changing block i's previous digest (i >= 1) to anything other than block i-1's digest makes validation fail. |
| `Chains.DigestEditDetected` | main.js:80-94 | In a valid chain of two or more blocks, overwriting any one stored digest, genesis included, makes validation fail. |
| `Chains.UndetectedEditIsCollision` | main.js:85-87 | Suppose an edit to block i's fields keeps its digest and still passes validation. Then two different contents hash to one digest: a collision. |
| `Chains.GenesisEditUndetected` | main.js:80-94 | Validation starts at block 1. So any edit to the genesis block that keeps its stored digest, including a payload edit, still passes validation. |
| `Chains.FindIndex` | main.js:96-98 | Returns the position of the first block whose `reliefId` matches, or nothing exactly when no block matches. |
| `Chains.FindBlockByReliefId` | main.js:96-98 | Returns the first block carrying the relief id. It returns nothing if and only if no block carries it. |
| `Chains.FindAfterAppend` | main.js:96-98 | After appending a payload with a relief id that no earlier block carries, a lookup of that id returns the new block. |
| `Chains.FindUnusedAfterAppend` | main.js:96-98 | An id that no block carries, and that the appended payload does not carry, is still not found. |
| `Chains.HasReliefType` | main.js:170-174 | True if and only if some block with stored index > 0 carries that relief type. |
| `Chains.GenesisIsNoClaim` | main.js:170-174 | The genesis block never counts as a claim of any type. |
| `Chains.HasReliefTypeIffCounted` | main.js:170-174 | `hasReliefType(t)` holds exactly when at least one claim of type t is recorded. |
| `Chains.GuardedClaimKeepsUnique` | main.js:699-720 | Appending a claim only when its type is not yet recorded keeps "at most one claim per relief type". Afterwards the type is recorded, so a second claim of it is refused. |
| `Chains.GenesisHasNoDuplicates` | main.js:143-151 | A fresh beneficiary ledger has no duplicate claims. |
| `Ledgers.Storage.Get` | main.js:37 | Returns what the store holds under the key, or nothing when the key is absent. |
| `Ledgers.Storage.Set` | main.js:50 | Replaces the key's value and leaves every other key unchanged. |
| `Ledgers.Ledger.Relief` | main.js:32-34 | The global ledger loads from `reliefChain`. With nothing saved, it is one well-formed genesis block. |
| `Ledgers.Ledger.Beneficiary` | main.js:122-125 | A beneficiary ledger loads from `benChain_<id>`. With nothing saved, it is one well-formed genesis block with no duplicate claims. |
| `Ledgers.Ledger.GetLatestBlock` | main.js:64-66 | Returns the last block, which always exists. In a well-formed chain its index is the length minus one. |
| `Ledgers.Ledger.SaveChain` | main.js:49-51 | Writes the whole chain under this ledger's key and leaves other keys unchanged. |
| `Ledgers.Ledger.AddBlock` | main.js:68-78 | Grows the chain by exactly one block, as `Chains.Append` describes, linked to the old tip. It writes the whole new chain under this ledger's key and keeps the chain well formed. |
| `Ledgers.Ledger.IsChainValid` | main.js:80-94 | Returns true if and only if every block from index 1 has a matching digest and links back to its predecessor's digest. Genesis is not checked. |
| `ReliefIds.Decimal` | main.js:392 | The count's decimal digits: non-empty, digits only, at most three of them below 1000. |
| `ReliefIds.PadStart` | main.js:392 | Pads on the left with the fill character up to the width. Strings already that long are left as they are. |
| `ReliefIds.ParseDecimalOfDecimal` | main.js:392 | Reading the decimal digits back gives the original count. |
| `ReliefIds.PaddedCountRoundTrip` | main.js:392 | Reading the zero-padded count back gives the original count. |
| `ReliefIds.GenerateReliefId` | main.js:389-394 | The id is `RP-WB-`, then the date, then `-`, then a digit suffix of at least three characters that reads back as the count. |
| `ReliefIds.ReliefIdInjective` | main.js:389-394 | On one date, different ledger lengths give different relief ids. Below 1000 blocks, the count part is exactly three characters. |
| `Coordinator.OrNA` | main.js:404 | An empty form field is recorded as `N/A`; any other value is recorded as given. |
| `Coordinator.ReliefPayload` | main.js:399-409 | A disbursement records the relief id, district, state, post office, PIN code and type as entered. Block code, quantity and notes fall back to `N/A` when empty. |
| `Coordinator.ClaimPayload` | main.js:708-718 | A claim records the relief id, beneficiary id, district, state, post office, PIN code, type and receipt date as entered. Only the block code falls back to `N/A`. |
| `Coordinator.GlobalClaimRecord` | main.js:722-732 | The global copy of a claim keeps the claim's id, location fields and type. It adds quantity `Beneficiary Claimed` and notes `Citizen-initiated claim`. |
| `Coordinator.GlobalRecordMirrorsClaim` | main.js:722-732 | The global copy of a claim has the claim's relief id, type and location, quantity `Beneficiary Claimed`, and no beneficiary id. |
| `Coordinator.SubmitRelief` | main.js:396-411 | Appends one disbursement to the global ledger. Its relief id is numbered by the old length. If that id was unused, a lookup of it then finds the new block. |
| `Coordinator.SubmitBeneficiaryClaim` | main.js:686-732 | With no beneficiary ledger, or with the type already recorded, neither chain nor the store changes. Otherwise it appends one claim to the beneficiary ledger and one mirrored record to the global ledger, and saves both. Afterwards the type is recorded, and "at most one claim per type" still holds. |
| `Coordinator.VerifyRelief` | main.js:443-450 | Reports not found exactly when no block carries the id. Otherwise it reports the first such block, and says it is intact exactly when its stored digest matches its fields. |
| `Coordinator.FoundRecordIntact` | main.js:443-450 | On a well-formed chain, every record found after genesis verifies as intact. Genesis does too, when its own digest is consistent. |

## Left out

- The page itself is not modelled: rendering, navigation, charts, QR codes, modals, the dashboards, the audit listings and their per-type tallies, and the JSON audit download.
- The PIN-code lookup (`fetch`) and the simulated Aadhaar check (`setTimeout`) are not modelled. They are external services; the model takes their results as parameters.
- `JSON.stringify`, `JSON.parse` and `CryptoJS.SHA256` are abstract functions. The store holds block sequences, not JSON text. Key order inside a payload is not modelled, and neither is text that fails to parse.
- The model assumes only `saveChain` writes to `localStorage`. If other code stored something there, such as an empty array, a chain could become empty. `addBlock` would then throw, and that case is not modelled.
- Ledgers.Ledger.AddBlock: `localStorage.setItem` is assumed never to throw. In the source a throw, such as quota exceeded, leaves the pushed block in memory but unsaved. Nothing catches it, so in a claim it also skips the global record.
- Collision resistance is not assumed. So tampering with a block's fields is only shown to be detected up to a hash collision (`Chains.UndetectedEditIsCollision`).
- Date strings and timestamps are not computed. The clock reading for each `addBlock`, and the `YYYYMMDD` date of a relief id, are parameters.
- Input trimming is not modelled. The verification handlers `.trim()` the typed relief id; the model takes the id after trimming.
- The session is modelled only through the beneficiary ledger. `logoutBeneficiary` sets `beneficiaryChain` to null, which the claim sees as `ben == null`. The claim's beneficiary id is the ledger's `beneficiaryId`, because both are set together at login.
- Concurrency is not modelled: the page is single-threaded, so no two operations on a chain interleave.
- Coordinator.SubmitBeneficiaryClaim: the two appends are not atomic. Between the two pushes, the beneficiary ledger's `saveChain` runs, and it can throw. Because `setItem` is assumed never to throw, the model performs both appends or neither.
