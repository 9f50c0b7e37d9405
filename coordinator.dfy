/**
 * The ledger-facing logic of the page's handlers: recording an officer's
 * disbursement (`submitRelief`), the beneficiary claim with its duplicate
 * guard and its replication into the global ledger (`submitBeneficiaryClaim`),
 * and looking a record up to verify it (`verifyOfficerRelief`,
 * `verifyBeneficiaryRelief`). Form fields, the clock and the date are parameters.
 */
module Coordinator {
  import opened Options
  import opened Blocks
  import opened Chains
  import opened Ledgers
  import opened ReliefIds

  /** `value || 'N/A'`: an empty form field is recorded as "N/A". */
  function OrNA(value: string): (recorded: string)
    ensures recorded != ""
    ensures value != "" ==> recorded == value
    ensures value == "" ==> recorded == "N/A"
  {
    if value == "" then "N/A" else value
  }

  /** The officer's disbursement form. */
  datatype ReliefForm = ReliefForm(
    district: string, state: string, postOffice: string, blockCode: string,
    pinCode: string, reliefType: string, quantity: string, notes: string)

  /** The beneficiary's claim form. */
  datatype ClaimForm = ClaimForm(
    district: string, state: string, postOffice: string, blockCode: string,
    pinCode: string, reliefType: string, receiptDate: string)

  function ReliefPayload(reliefId: string, form: ReliefForm): (data: Payload)
    ensures HasField(data, "reliefId", reliefId) && HasField(data, "reliefType", form.reliefType)
  {
    map["reliefId" := reliefId, "district" := form.district, "state" := form.state,
        "postOffice" := form.postOffice, "blockCode" := OrNA(form.blockCode),
        "pinCode" := form.pinCode, "reliefType" := form.reliefType,
        "quantity" := OrNA(form.quantity), "notes" := OrNA(form.notes)]
  }

  /** The claim as recorded on the beneficiary's own ledger. */
  function ClaimPayload(reliefId: string, beneficiaryId: string, form: ClaimForm): (data: Payload)
    ensures HasField(data, "reliefId", reliefId) && HasField(data, "reliefType", form.reliefType)
    ensures HasField(data, "beneficiaryId", beneficiaryId)
  {
    map["reliefId" := reliefId, "beneficiaryId" := beneficiaryId, "district" := form.district,
        "state" := form.state, "postOffice" := form.postOffice,
        "blockCode" := OrNA(form.blockCode), "pinCode" := form.pinCode,
        "reliefType" := form.reliefType, "receiptDate" := form.receiptDate]
  }

  const ClaimedQuantity: string := "Beneficiary Claimed"

  /** The copy of a claim placed on the global ledger, marked as citizen-initiated. */
  function GlobalClaimRecord(reliefId: string, form: ClaimForm): (data: Payload)
    ensures HasField(data, "reliefId", reliefId) && HasField(data, "reliefType", form.reliefType)
    ensures HasField(data, "quantity", ClaimedQuantity)
  {
    map["reliefId" := reliefId, "district" := form.district, "state" := form.state,
        "postOffice" := form.postOffice, "blockCode" := OrNA(form.blockCode),
        "pinCode" := form.pinCode, "reliefType" := form.reliefType,
        "quantity" := ClaimedQuantity, "notes" := "Citizen-initiated claim"]
  }

  /** The global record carries the claim's id, type and location, and says it was claimed by a beneficiary. */
  lemma GlobalRecordMirrorsClaim(reliefId: string, beneficiaryId: string, form: ClaimForm)
    ensures var claim, record := ClaimPayload(reliefId, beneficiaryId, form), GlobalClaimRecord(reliefId, form);
      && (forall f :: f in ["reliefId", "district", "state", "postOffice", "blockCode", "pinCode", "reliefType"] ==>
            f in claim && f in record && claim[f] == record[f])
      && HasField(record, "quantity", ClaimedQuantity)
      && "beneficiaryId" !in record
  {
  }

  /**
   * `submitRelief`: an officer's disbursement goes straight onto the global
   * ledger under a fresh relief id numbered by the ledger's length.
   */
  method SubmitRelief(global: Ledger, form: ReliefForm, date: string, now: string)
    returns (reliefId: string, b: Block)
    requires global.Valid() && global.beneficiaryId == None
    modifies global, global.store
    ensures global.Valid()
    ensures reliefId == GenerateReliefId(date, old(|global.chain|))
    ensures global.chain == Append(global.hashing, old(global.chain), now, ReliefPayload(reliefId, form))
    ensures b == global.chain[|global.chain| - 1]
    ensures global.store.entries == old(global.store.entries)[ReliefKey := global.chain]
    ensures old(FindBlockByReliefId(global.chain, GenerateReliefId(date, |global.chain|))).None? ==>
      FindBlockByReliefId(global.chain, reliefId) == Some(b)
  {
    reliefId := GenerateReliefId(date, |global.chain|);
    var data := ReliefPayload(reliefId, form);
    ghost var before := global.chain;
    b := global.AddBlock(data, now);
    if FindBlockByReliefId(before, reliefId).None? {
      FindAfterAppend(global.hashing, before, now, data, reliefId);
    }
  }

  datatype ClaimOutcome =
    | NotVerified                          // no beneficiary ledger: identity not verified
    | DuplicateClaim(reliefType: string)   // this relief type was already granted
    | Claimed(reliefId: string, proof: Block)

  /**
   * `submitBeneficiaryClaim`: refuses without a verified beneficiary, refuses
   * a relief type the beneficiary's ledger already records, and otherwise
   * appends the claim to the beneficiary's ledger and then a mirrored record
   * to the global ledger. `ben` is the session's beneficiary ledger, null when
   * nobody is verified.
   */
  method SubmitBeneficiaryClaim(global: Ledger, ben: Ledger?, form: ClaimForm, date: string,
                                benNow: string, globalNow: string)
    returns (outcome: ClaimOutcome)
    requires global.Valid() && global.beneficiaryId == None
    requires ben != null ==> ben.Valid() && ben.beneficiaryId.Some? && ben.store == global.store
    modifies global, ben, global.store
    ensures global.Valid() && (ben != null ==> ben.Valid())
    ensures ben == null ==>
      outcome == NotVerified && global.chain == old(global.chain) &&
      global.store.entries == old(global.store.entries)
    ensures ben != null && old(HasReliefType(ben.chain, form.reliefType)) ==>
      outcome == DuplicateClaim(form.reliefType) &&
      ben.chain == old(ben.chain) && global.chain == old(global.chain) &&
      global.store.entries == old(global.store.entries)
    ensures ben != null && !old(HasReliefType(ben.chain, form.reliefType)) ==>
      && outcome.Claimed?
      && outcome.reliefId == GenerateReliefId(date, old(|global.chain|))
      && ben.chain == Append(ben.hashing, old(ben.chain), benNow,
                             ClaimPayload(outcome.reliefId, ben.beneficiaryId.value, form))
      && outcome.proof == ben.chain[|ben.chain| - 1]
      && global.chain == Append(global.hashing, old(global.chain), globalNow,
                                GlobalClaimRecord(outcome.reliefId, form))
      && global.store.entries == old(global.store.entries)[ben.key := ben.chain][ReliefKey := global.chain]
      && HasReliefType(ben.chain, form.reliefType)
    ensures ben != null && old(NoDuplicateClaims(ben.chain)) ==> NoDuplicateClaims(ben.chain)
  {
    if ben == null {
      return NotVerified;
    }
    if HasReliefType(ben.chain, form.reliefType) {
      return DuplicateClaim(form.reliefType);
    }
    BeneficiaryKeyIsNotReliefKey(ben.beneficiaryId.value);
    var reliefId := GenerateReliefId(date, |global.chain|);
    var claim := ClaimPayload(reliefId, ben.beneficiaryId.value, form);
    ghost var before := ben.chain;
    var proof := ben.AddBlock(claim, benNow);
    assert IsClaimOf(ben.chain[|before|], form.reliefType);
    if NoDuplicateClaims(before) {
      GuardedClaimKeepsUnique(ben.hashing, before, benNow, claim, form.reliefType);
    }
    var _ := global.AddBlock(GlobalClaimRecord(reliefId, form), globalNow);
    return Claimed(reliefId, proof);
  }

  datatype Verification = NotFound | Found(block: Block, intact: bool)

  /**
   * The verification view: look the relief id up and, when found, compare the
   * block's stored digest with the one its fields hash to.
   */
  function VerifyRelief(h: Hashing, s: seq<Block>, reliefId: string): (v: Verification)
    ensures v.NotFound? <==> forall j :: 0 <= j < |s| ==> !HasReliefId(s[j], reliefId)
    ensures v.Found? ==> Some(v.block) == FindBlockByReliefId(s, reliefId)
    ensures v.Found? ==> (v.intact <==> SelfConsistent(h, v.block))
  {
    match FindBlockByReliefId(s, reliefId)
    case None => NotFound
    case Some(b) => Found(b, b.hash == CalculateHash(h, b))
  }

  /**
   * On a well-formed chain every record found after genesis verifies as
   * intact, and genesis too when its own digest is consistent.
   */
  lemma FoundRecordIntact(h: Hashing, s: seq<Block>, reliefId: string)
    requires WellFormed(h, s)
    requires VerifyRelief(h, s, reliefId).Found?
    requires VerifyRelief(h, s, reliefId).block.index > 0 || SelfConsistent(h, s[0])
    ensures VerifyRelief(h, s, reliefId).intact
  {
    var k := FindIndex(s, reliefId).value;
    if k > 0 {
      assert Linked(h, s, k);
    }
  }
}
