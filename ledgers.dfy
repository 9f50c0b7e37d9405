/**
 * The chain objects (`ReliefBlockchain` and `BeneficiaryBlockchain` in
 * main.js, which differ only in storage key, genesis payload and genesis
 * timestamp) and the browser store both of them persist into.
 */
module Ledgers {
  import opened Options
  import opened Blocks
  import opened Chains

  /**
   * The browser's string-keyed persistent store (`localStorage`), seen as the
   * block sequence each key holds. The only writer is `saveChain`, which
   * always writes a chain that has just grown, so no stored chain is empty.
   */
  class Storage {
    var entries: map<string, seq<Block>>

    ghost predicate Valid()
      reads this
    {
      forall key :: key in entries ==> |entries[key]| > 0
    }

    constructor (saved: map<string, seq<Block>>)
      requires forall key :: key in saved ==> |saved[key]| > 0
      ensures Valid() && entries == saved
    {
      entries := saved;
    }

    /** `getItem(key)`: the chain saved under `key`, if any. */
    function Get(key: string): (saved: Option<seq<Block>>)
      reads this
      ensures saved.Some? <==> key in entries
      ensures saved.Some? ==> saved.value == entries[key]
    {
      if key in entries then Some(entries[key]) else None
    }

    /** `setItem(key, chain)`: replaces what `key` holds and nothing else. */
    method Set(key: string, blocks: seq<Block>)
      requires Valid() && |blocks| > 0
      modifies this
      ensures Valid() && entries == old(entries)[key := blocks]
    {
      entries := entries[key := blocks];
    }
  }

  /** One chain: the global ledger when `beneficiaryId` is `None`, else that beneficiary's. */
  class Ledger {
    const beneficiaryId: Option<string>
    const key: string
    const hashing: Hashing
    const store: Storage
    var chain: seq<Block>

    ghost predicate Valid()
      reads this, store
    {
      key == StorageKey(beneficiaryId) && |chain| > 0 && store.Valid()
    }

    /** `new ReliefBlockchain()`: the global ledger, restored from `reliefChain` or fresh. */
    constructor Relief(store: Storage, hashing: Hashing)
      requires store.Valid()
      ensures Valid() && beneficiaryId == None && key == ReliefKey
      ensures this.store == store && this.hashing == hashing
      ensures chain == LoadChain(hashing, store.Get(ReliefKey), Genesis(hashing, None, ""))
      ensures ReliefKey !in store.entries ==> |chain| == 1 && WellFormed(hashing, chain)
    {
      beneficiaryId := None;
      key := ReliefKey;
      this.hashing := hashing;
      this.store := store;
      // The global genesis block has a fixed timestamp, so no clock reading is passed.
      chain := LoadChain(hashing, store.Get(ReliefKey), Genesis(hashing, None, ""));
      GenesisWellFormed(hashing, None, "");
    }

    /**
     * `new BeneficiaryBlockchain(id)`: that beneficiary's ledger, restored from
     * `benChain_<id>` or fresh with a genesis block stamped `now`. The fresh
     * genesis block is not saved until the first append.
     */
    constructor Beneficiary(store: Storage, hashing: Hashing, id: string, now: string)
      requires store.Valid()
      ensures Valid() && beneficiaryId == Some(id) && key == StorageKey(Some(id))
      ensures this.store == store && this.hashing == hashing
      ensures chain == LoadChain(hashing, store.Get(key), Genesis(hashing, Some(id), now))
      ensures key !in store.entries ==>
        |chain| == 1 && WellFormed(hashing, chain) && NoDuplicateClaims(chain)
    {
      beneficiaryId := Some(id);
      key := StorageKey(Some(id));
      this.hashing := hashing;
      this.store := store;
      chain := LoadChain(hashing, store.Get(StorageKey(Some(id))), Genesis(hashing, Some(id), now));
      GenesisWellFormed(hashing, Some(id), now);
      GenesisHasNoDuplicates(hashing, Some(id), now);
    }

    /** `getLatestBlock()`: the tip, which exists because no chain is ever empty. */
    function GetLatestBlock(): (tip: Block)
      requires Valid()
      reads this, store
      ensures tip in chain && tip == chain[|chain| - 1]
      ensures WellFormed(hashing, chain) ==> tip.index == |chain| - 1
    {
      chain[|chain| - 1]
    }

    /** `saveChain()`: writes the whole chain under this ledger's key. */
    method SaveChain()
      requires Valid()
      modifies store
      ensures Valid() && chain == old(chain)
      ensures store.entries == old(store.entries)[key := chain]
    {
      store.Set(key, chain);
    }

    /**
     * `addBlock(data)` at clock reading `now`: the sole mutator. The new block
     * is numbered by the old length and linked to the old tip, the earlier
     * blocks are untouched, and the whole chain is saved under this ledger's key.
     */
    method AddBlock(data: Payload, now: string) returns (b: Block)
      requires Valid()
      modifies this, store
      ensures Valid()
      ensures chain == Append(hashing, old(chain), now, data) && b == chain[|chain| - 1]
      ensures b.index == old(|chain|) && b.previousHash == old(GetLatestBlock()).hash
      ensures store.entries == old(store.entries)[key := chain]
      ensures old(WellFormed(hashing, chain)) ==> WellFormed(hashing, chain)
    {
      ghost var before := chain;
      b := NewBlock(hashing, |chain|, now, data, GetLatestBlock().hash);
      chain := chain + [b];
      SaveChain();
      if WellFormed(hashing, before) {
        AppendKeepsWellFormed(hashing, before, now, data);
      }
    }

    /**
     * `isChainValid()`: walks from block 1, re-hashing each block and checking
     * its back-link, and stops at the first mismatch.
     */
    method IsChainValid() returns (ok: bool)
      ensures ok == ChainValid(hashing, chain)
    {
      var i := 1;
      while i < |chain|
        invariant i == 1 || 1 <= i <= |chain|
        invariant forall j :: 1 <= j < i ==> Linked(hashing, chain, j)
      {
        var current, previous := chain[i], chain[i - 1];
        if current.hash != CalculateHash(hashing, current) {
          assert !Linked(hashing, chain, i);
          return false;
        }
        if current.previousHash != previous.hash {
          assert !Linked(hashing, chain, i);
          return false;
        }
        i := i + 1;
      }
      return true;
    }
  }
}
