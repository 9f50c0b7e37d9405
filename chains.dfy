/**
 * The chain as a sequence of blocks: what validation checks, how an append
 * extends it, how a saved chain is restored, and the queries over it
 * (`findBlockByReliefId`, `hasReliefType`). The class in module Ledgers holds
 * one such sequence and is specified through these definitions.
 */
module Chains {
  import opened Options
  import opened Blocks

  // ---------------------------------------------------------------------
  // Storage keys and genesis blocks

  const ReliefKey: string := "reliefChain"

  /** `reliefChain` for the global ledger, `benChain_<id>` for a beneficiary's. */
  function StorageKey(beneficiaryId: Option<string>): string
  {
    match beneficiaryId
    case None => ReliefKey
    case Some(id) => "benChain_" + id
  }

  /** No beneficiary chain is ever saved under the global ledger's key. */
  lemma BeneficiaryKeyIsNotReliefKey(id: string)
    ensures StorageKey(Some(id)) != ReliefKey
  {
    assert StorageKey(Some(id))[0] == 'b' != ReliefKey[0];
  }

  const ReliefGenesisTime: string := "2026-02-01T00:00:00"

  const GenesisType: string := "GENESIS_BLOCK"

  /** The genesis payload of the global ledger, or of the ledger of beneficiary `id`. */
  function GenesisPayload(beneficiaryId: Option<string>): Payload
  {
    match beneficiaryId
    case None =>
      map["reliefId" := "GENESIS", "district" := "SYSTEM", "reliefType" := GenesisType,
          "blockCode" := "INIT", "quantity" := "N/A", "notes" := "ReliefProof WB Genesis Block"]
    case Some(id) =>
      map["reliefId" := "GENESIS", "beneficiaryId" := id, "reliefType" := GenesisType,
          "district" := "SYSTEM", "notes" := "Beneficiary Relief Chain Genesis Block"]
  }

  /**
   * `createGenesisBlock()`: index 0, previous digest "0"; the global ledger's
   * timestamp is fixed, a beneficiary ledger's is the clock reading `now`.
   */
  function Genesis(h: Hashing, beneficiaryId: Option<string>, now: string): (g: Block)
    ensures g.index == 0 && g.previousHash == "0" && SelfConsistent(h, g)
    ensures HasField(g.data, "reliefId", "GENESIS") && HasField(g.data, "reliefType", GenesisType)
    ensures beneficiaryId.Some? ==> HasField(g.data, "beneficiaryId", beneficiaryId.value) && g.timestamp == now
    ensures beneficiaryId.None? ==> g.timestamp == ReliefGenesisTime
  {
    var time := if beneficiaryId.None? then ReliefGenesisTime else now;
    NewBlock(h, 0, time, GenesisPayload(beneficiaryId), "0")
  }

  /**
   * `loadChain()`: the saved records, each restored with its saved digest
   * (never recomputed), or a one-block chain holding only the genesis block.
   */
  function LoadChain(h: Hashing, saved: Option<seq<Block>>, genesis: Block): (s: seq<Block>)
    ensures saved.Some? ==> s == saved.value
    ensures saved.None? ==> s == [genesis]
  {
    match saved
    case None => [genesis]
    case Some(records) => seq(|records|, i requires 0 <= i < |records| => Restore(h, records[i]))
  }

  // ---------------------------------------------------------------------
  // Validation

  /** Block i re-hashes to its stored digest and its back-link names block i-1's digest. */
  predicate Linked(h: Hashing, s: seq<Block>, i: int)
    requires 1 <= i < |s|
  {
    s[i].hash == CalculateHash(h, s[i]) && s[i].previousHash == s[i - 1].hash
  }

  /** What `isChainValid()` checks: every block after genesis is linked; genesis is not checked. */
  predicate ChainValid(h: Hashing, s: seq<Block>)
  {
    forall i :: 1 <= i < |s| ==> Linked(h, s, i)
  }

  /** The shape every chain grown from a genesis block has. */
  predicate WellFormed(h: Hashing, s: seq<Block>)
  {
    && |s| > 0
    && s[0].previousHash == "0"
    && (forall i :: 0 <= i < |s| ==> s[i].index == i)
    && ChainValid(h, s)
  }

  /** A chain holding only a genesis block is well formed. */
  lemma GenesisWellFormed(h: Hashing, beneficiaryId: Option<string>, now: string)
    ensures WellFormed(h, [Genesis(h, beneficiaryId, now)])
  {
  }

  // ---------------------------------------------------------------------
  // Appending

  /**
   * The chain after `addBlock(data)` at clock reading `now`: one new block at
   * the end, numbered by the old length, linked to the old tip; nothing earlier changes.
   */
  function Append(h: Hashing, s: seq<Block>, now: string, data: Payload): (r: seq<Block>)
    requires |s| > 0
    ensures |r| == |s| + 1 && r[..|s|] == s
    ensures r[|s|].index == |s| && r[|s|].previousHash == s[|s| - 1].hash
    ensures r[|s|].timestamp == now && r[|s|].data == data && SelfConsistent(h, r[|s|])
  {
    s + [NewBlock(h, |s|, now, data, s[|s| - 1].hash)]
  }

  /** Appending keeps a valid chain valid. */
  lemma AppendKeepsValid(h: Hashing, s: seq<Block>, now: string, data: Payload)
    requires |s| > 0 && ChainValid(h, s)
    ensures ChainValid(h, Append(h, s, now, data))
  {
    var r := Append(h, s, now, data);
    forall i | 1 <= i < |r|
      ensures Linked(h, r, i)
    {
      if i < |s| {
        assert Linked(h, s, i);
      }
    }
  }

  /** Appending keeps a well-formed chain well formed. */
  lemma AppendKeepsWellFormed(h: Hashing, s: seq<Block>, now: string, data: Payload)
    requires WellFormed(h, s)
    ensures WellFormed(h, Append(h, s, now, data))
  {
    AppendKeepsValid(h, s, now, data);
  }

  /** One `addBlock` call's arguments: the clock reading and the payload. */
  datatype Entry = Entry(timestamp: string, data: Payload)

  /** The chain after a run of `addBlock` calls, in order. */
  function Grow(h: Hashing, s: seq<Block>, entries: seq<Entry>): (r: seq<Block>)
    requires |s| > 0
    ensures |r| == |s| + |entries|
    decreases |entries|
  {
    if entries == [] then s
    else Grow(h, Append(h, s, entries[0].timestamp, entries[0].data), entries[1..])
  }

  lemma {:induction false} GrowKeepsWellFormed(h: Hashing, s: seq<Block>, entries: seq<Entry>)
    requires WellFormed(h, s)
    ensures WellFormed(h, Grow(h, s, entries))
    decreases |entries|
  {
    if entries != [] {
      var e := entries[0];
      AppendKeepsWellFormed(h, s, e.timestamp, e.data);
      GrowKeepsWellFormed(h, Append(h, s, e.timestamp, e.data), entries[1..]);
    }
  }

  /**
   * Any chain built from a genesis block by zero or more appends passes
   * validation, and every block's index is its position.
   */
  lemma BuiltChainIsValid(h: Hashing, beneficiaryId: Option<string>, now: string, entries: seq<Entry>)
    ensures var s := Grow(h, [Genesis(h, beneficiaryId, now)], entries);
      ChainValid(h, s) && forall i :: 0 <= i < |s| ==> s[i].index == i
  {
    GenesisWellFormed(h, beneficiaryId, now);
    GrowKeepsWellFormed(h, [Genesis(h, beneficiaryId, now)], entries);
  }

  // ---------------------------------------------------------------------
  // What validation detects

  /** Rewriting the back-link of block i (i >= 1) to anything but block i-1's digest fails validation. */
  lemma SeveredLinkDetected(h: Hashing, s: seq<Block>, i: int, link: string)
    requires 1 <= i < |s| && link != s[i - 1].hash
    ensures !ChainValid(h, s[i := s[i].(previousHash := link)])
  {
    var t := s[i := s[i].(previousHash := link)];
    assert !Linked(h, t, i);
  }

  /**
   * In a valid chain of two or more blocks, overwriting any one stored digest
   * (genesis included) fails validation: a later block's digest no longer
   * matches its fields, or genesis's successor no longer links to it.
   */
  lemma DigestEditDetected(h: Hashing, s: seq<Block>, i: int, digest: string)
    requires ChainValid(h, s) && |s| >= 2 && 0 <= i < |s| && digest != s[i].hash
    ensures !ChainValid(h, s[i := s[i].(hash := digest)])
  {
    var t := s[i := s[i].(hash := digest)];
    if i == 0 {
      assert Linked(h, s, 1);
      assert !Linked(h, t, 1);
    } else {
      assert Linked(h, s, i);
      assert CalculateHash(h, t[i]) == CalculateHash(h, s[i]);
      assert !Linked(h, t, i);
    }
  }

  /**
   * An edit to the fields of block i (i >= 1) that keeps its stored digest
   * and still passes validation is a collision: two different contents
   * hashing to the same digest.
   */
  lemma UndetectedEditIsCollision(h: Hashing, s: seq<Block>, t: seq<Block>, i: int)
    requires ChainValid(h, s) && ChainValid(h, t)
    requires 1 <= i < |s| && i < |t| && t[i].hash == s[i].hash && t[i] != s[i]
    ensures CalculateHash(h, t[i]) == CalculateHash(h, s[i])
    ensures (t[i].index, t[i].timestamp, t[i].data, t[i].previousHash)
         != (s[i].index, s[i].timestamp, s[i].data, s[i].previousHash)
  {
    assert Linked(h, s, i);
    assert Linked(h, t, i);
  }

  /**
   * Validation starts at block 1, so any edit to the genesis block that keeps
   * its stored digest (its payload, timestamp, index or back-link) goes unnoticed.
   */
  lemma GenesisEditUndetected(h: Hashing, s: seq<Block>, g: Block)
    requires |s| > 0 && ChainValid(h, s) && g.hash == s[0].hash
    ensures ChainValid(h, s[0 := g])
  {
    var t := s[0 := g];
    forall i | 1 <= i < |t|
      ensures Linked(h, t, i)
    {
      assert Linked(h, s, i);
    }
  }

  // ---------------------------------------------------------------------
  // Queries

  /** `block.data.reliefId === reliefId`. */
  predicate HasReliefId(b: Block, reliefId: string)
  {
    HasField(b.data, "reliefId", reliefId)
  }

  /** The position of the first block whose payload carries `reliefId`. */
  function FindIndex(s: seq<Block>, reliefId: string): (k: Option<nat>)
    ensures k.Some? ==> k.value < |s| && HasReliefId(s[k.value], reliefId)
    ensures k.Some? ==> forall j :: 0 <= j < k.value ==> !HasReliefId(s[j], reliefId)
    ensures k.None? ==> forall j :: 0 <= j < |s| ==> !HasReliefId(s[j], reliefId)
  {
    if s == [] then None
    else if HasReliefId(s[0], reliefId) then Some(0)
    else match FindIndex(s[1..], reliefId)
      case None => None
      case Some(k) => Some(k + 1)
  }

  /** `findBlockByReliefId(reliefId)`: the first block carrying `reliefId`, or nothing. */
  function FindBlockByReliefId(s: seq<Block>, reliefId: string): (found: Option<Block>)
    ensures found.Some? ==>
      exists k :: (0 <= k < |s| && s[k] == found.value && HasReliefId(s[k], reliefId) &&
                   forall j :: 0 <= j < k ==> !HasReliefId(s[j], reliefId))
    ensures found.None? <==> forall j :: 0 <= j < |s| ==> !HasReliefId(s[j], reliefId)
  {
    match FindIndex(s, reliefId)
    case None => None
    case Some(k) => Some(s[k])
  }

  /** An appended block carrying an identifier no earlier block carries is what a lookup of it returns. */
  lemma FindAfterAppend(h: Hashing, s: seq<Block>, now: string, data: Payload, reliefId: string)
    requires |s| > 0 && HasField(data, "reliefId", reliefId)
    requires FindBlockByReliefId(s, reliefId).None?
    ensures var r := Append(h, s, now, data);
      FindBlockByReliefId(r, reliefId) == Some(r[|s|])
  {
  }

  /** A lookup of an identifier no block carries finds nothing, before or after an append of a payload without it. */
  lemma FindUnusedAfterAppend(h: Hashing, s: seq<Block>, now: string, data: Payload, reliefId: string)
    requires |s| > 0 && !HasField(data, "reliefId", reliefId)
    requires FindBlockByReliefId(s, reliefId).None?
    ensures FindBlockByReliefId(Append(h, s, now, data), reliefId).None?
  {
  }

  /** A recorded claim of relief type `t`: a non-genesis index (by the stored field) and that type. */
  predicate IsClaimOf(b: Block, reliefType: string)
  {
    b.index > 0 && HasField(b.data, "reliefType", reliefType)
  }

  /** `hasReliefType(t)`: some block with index > 0 carries relief type `t`. */
  function HasReliefType(s: seq<Block>, reliefType: string): (found: bool)
    ensures found <==> exists i :: 0 <= i < |s| && IsClaimOf(s[i], reliefType)
  {
    if s == [] then false
    else HasReliefType(s[..|s| - 1], reliefType) || IsClaimOf(s[|s| - 1], reliefType)
  }

  /** The genesis block never counts as a claim, whatever its payload. */
  lemma GenesisIsNoClaim(h: Hashing, beneficiaryId: Option<string>, now: string, reliefType: string)
    ensures !HasReliefType([Genesis(h, beneficiaryId, now)], reliefType)
  {
  }

  /** How many recorded claims of relief type `t` the chain holds. */
  function CountOfType(s: seq<Block>, reliefType: string): nat
  {
    if s == [] then 0
    else CountOfType(s[..|s| - 1], reliefType) + (if IsClaimOf(s[|s| - 1], reliefType) then 1 else 0)
  }

  lemma {:induction false} HasReliefTypeIffCounted(s: seq<Block>, reliefType: string)
    ensures HasReliefType(s, reliefType) <==> CountOfType(s, reliefType) > 0
    decreases |s|
  {
    if s != [] {
      HasReliefTypeIffCounted(s[..|s| - 1], reliefType);
    }
  }

  /** The duplicate-claim invariant: at most one recorded claim per relief type. */
  ghost predicate NoDuplicateClaims(s: seq<Block>)
  {
    forall t :: CountOfType(s, t) <= 1
  }

  /**
   * A claim appended only when `hasReliefType` denied its type keeps the
   * duplicate-claim invariant, and afterwards `hasReliefType` admits it, so a
   * second claim of that type is refused.
   */
  lemma GuardedClaimKeepsUnique(h: Hashing, s: seq<Block>, now: string, data: Payload, reliefType: string)
    requires |s| > 0 && NoDuplicateClaims(s)
    requires HasField(data, "reliefType", reliefType) && !HasReliefType(s, reliefType)
    ensures var r := Append(h, s, now, data);
      NoDuplicateClaims(r) && HasReliefType(r, reliefType)
  {
    var r := Append(h, s, now, data);
    assert r[..|r| - 1] == s;
    HasReliefTypeIffCounted(s, reliefType);
    forall t
      ensures CountOfType(r, t) <= 1
    {
      assert CountOfType(r, t) == CountOfType(s, t) + (if IsClaimOf(r[|s|], t) then 1 else 0);
      if t == reliefType {
        assert CountOfType(s, t) == 0;
      } else {
        assert !IsClaimOf(r[|s|], t);
      }
    }
    assert IsClaimOf(r[|s|], reliefType);
  }

  /** A chain holding only a genesis block has no duplicate claims. */
  lemma GenesisHasNoDuplicates(h: Hashing, beneficiaryId: Option<string>, now: string)
    ensures NoDuplicateClaims([Genesis(h, beneficiaryId, now)])
  {
  }
}
