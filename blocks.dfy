/**
 * A ledger block (`ReliefBlock` and `BeneficiaryBlock` in main.js, which are
 * identical): four content fields and the digest computed over them.
 */
module Blocks {

  /** A block's `data`: the named string fields of a relief record. */
  type Payload = map<string, string>

  /**
   * The two foreign calls the digest rests on: `JSON.stringify` of the four
   * content fields and `CryptoJS.SHA256` of that text. They are parameters,
   * so every result below holds whatever serialisation and digest are used;
   * nothing here assumes either is injective.
   */
  datatype Hashing = Hashing(
    encode: (int, string, Payload, string) -> string,
    sha256: string -> string)

  datatype Block = Block(
    index: int,
    timestamp: string,
    data: Payload,
    previousHash: string,
    hash: string)

  /** `calculateHash()`: the digest of the block's content fields; the stored `hash` takes no part. */
  function CalculateHash(h: Hashing, b: Block): string
  {
    h.sha256(h.encode(b.index, b.timestamp, b.data, b.previousHash))
  }

  /** The stored digest is the one its own fields hash to. */
  predicate SelfConsistent(h: Hashing, b: Block)
  {
    b.hash == CalculateHash(h, b)
  }

  /** `data.<name> === value`: an absent field is `undefined` and equals no string. */
  predicate HasField(data: Payload, name: string, value: string)
  {
    name in data && data[name] == value
  }

  /** The block constructor: takes the four content fields and stores their digest. */
  function NewBlock(h: Hashing, index: int, timestamp: string, data: Payload, previousHash: string): (b: Block)
    ensures b.index == index && b.timestamp == timestamp && b.data == data && b.previousHash == previousHash
    ensures SelfConsistent(h, b)
  {
    var content := Block(index, timestamp, data, previousHash, "");
    content.(hash := CalculateHash(h, content))
  }

  /**
   * Rebuilding a block from a stored record: the constructor runs and then its
   * digest is overwritten by the stored one, so the record comes back exactly,
   * even when its stored digest does not match its fields.
   */
  function Restore(h: Hashing, record: Block): (b: Block)
    ensures b == record
  {
    NewBlock(h, record.index, record.timestamp, record.data, record.previousHash).(hash := record.hash)
  }
}
