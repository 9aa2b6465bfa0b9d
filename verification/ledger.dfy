/**
 * The values the service provider works on: transactions queued by the
 * controller node, blocks assembled by the miner, and the rows of the
 * `blocks` table, together with the pure functions that say what one
 * mining step and one service request do to them.
 */
module Ledger {

  /** A character `hexdigest()` can produce. */
  predicate IsHexChar(c: char) {
    '0' <= c <= '9' || 'a' <= c <= 'f'
  }

  /** The shape of a SHA-256 digest rendered by `hexdigest()`: 64 lower-case hex characters. */
  predicate IsDigest(s: string) {
    |s| == 64 && forall i | 0 <= i < |s| :: IsHexChar(s[i])
  }

  /** `n` copies of the character '0', the Python expression `"0" * n`. */
  function Zeros(n: nat): (s: string)
    ensures |s| == n
    ensures forall i | 0 <= i < n :: s[i] == '0'
  {
    if n == 0 then "" else Zeros(n - 1) + "0"
  }

  type Digest = s: string | IsDigest(s) witness Zeros(64)

  /** The `previous_hash` of the first block of an empty chain. */
  const GenesisHash: Digest := Zeros(64)

  /** The most transactions one block takes from the queue. */
  const BatchSize: nat := 5

  /**
   * Clicking "Start Mining" runs the miner until simulated time 30 and the
   * miner waits 5 time units after every step, so the steps at times
   * 0, 5, 10, 15, 20 and 25 run; the one due at 30 does not.
   */
  const MiningSteps: nat := 6

  /**
   * `env.now` when the controller node computes the nonce: every request
   * runs in a fresh simulation, at time 0.
   */
  const ControllerClock: string := "0"

  /** The columns of a `profiles` row that the controller node reads. */
  datatype Profile = Profile(name: string, phoneNumber: string)

  /** One queued service request. */
  datatype Transaction = Transaction(
    shareableAddress: string,
    name: string,
    phoneNumber: string,
    service: string,
    nonce: Digest,
    timestamp: string)

  /** One block of the in-memory chain. */
  datatype Block = Block(
    transactions: seq<Transaction>,
    timestamp: string,
    previousHash: Digest,
    blockHash: Digest)

  /** One row of the `blocks` table; `transactions` holds the serialised list. */
  datatype Row = Row(
    blockId: nat,
    blockHash: Digest,
    previousHash: Digest,
    timestamp: string,
    transactions: string)

  /**
   * The two foreign operations the core relies on, left uninterpreted:
   * SHA-256 of a string rendered by `hexdigest()`, and Python's `str()`
   * of a list of transactions.
   */
  datatype Primitives = Primitives(sha256: string -> Digest, render: seq<Transaction> -> string)

  /**
   * What the environment decides at one miner step: the wall-clock
   * timestamp a new block gets, and whether its INSERT and commit succeed.
   */
  datatype Tick = Tick(timestamp: string, saved: bool)

  /** The session's queue and chain, and the persistent `blocks` table. */
  datatype Session = Session(queue: seq<Transaction>, chain: seq<Block>, rows: seq<Row>)

  function Min(a: int, b: int): int {
    if a < b then a else b
  }

  function Max(a: int, b: int): int {
    if a < b then b else a
  }

  /** How many transactions a step takes from the front of the queue `q`. */
  function BatchLength(q: seq<Transaction>): (k: nat)
    ensures k <= |q| && k <= BatchSize
    ensures k == |q| || k == BatchSize
    ensures q != [] ==> 1 <= k
  {
    Min(BatchSize, |q|)
  }

  /** The hash the next block links to: the last block's hash, or the genesis hash. */
  function TipHash(chain: seq<Block>): Digest {
    if chain == [] then GenesisHash else chain[|chain| - 1].blockHash
  }

  /** The hash a block must carry: SHA-256 of the serialised transactions followed by the previous hash. */
  function BlockHash(transactions: seq<Transaction>, previousHash: Digest, p: Primitives): Digest {
    p.sha256(p.render(transactions) + previousHash)
  }

  /** The block a step assembles from `transactions` on top of `chain`. */
  function Assemble(transactions: seq<Transaction>, timestamp: string, chain: seq<Block>, p: Primitives): Block {
    var previous := TipHash(chain);
    Block(transactions, timestamp, previous, BlockHash(transactions, previous, p))
  }

  /** A block whose hash matches its contents and whose size is a real batch. */
  predicate WellFormed(b: Block, p: Primitives) {
    && 1 <= |b.transactions| <= BatchSize
    && b.blockHash == BlockHash(b.transactions, b.previousHash, p)
  }

  /** Every block is well formed and links to its predecessor (the first one to the genesis hash). */
  predicate Linked(chain: seq<Block>, p: Primitives) {
    && (forall i | 0 <= i < |chain| :: WellFormed(chain[i], p))
    && (chain != [] ==> chain[0].previousHash == GenesisHash)
    && (forall i | 0 < i < |chain| :: chain[i].previousHash == chain[i - 1].blockHash)
  }

  /** AUTOINCREMENT ids: positive and strictly increasing in insertion order. */
  predicate IdsIncreasing(rows: seq<Row>) {
    && (rows != [] ==> 1 <= rows[0].blockId)
    && (forall i | 0 < i < |rows| :: rows[i - 1].blockId < rows[i].blockId)
  }

  /** The id AUTOINCREMENT gives the next row of a table nothing is deleted from. */
  function NextRowId(rows: seq<Row>): nat {
    if rows == [] then 1 else rows[|rows| - 1].blockId + 1
  }

  /** The row the miner inserts for block `b`. */
  function RowOf(b: Block, id: nat, p: Primitives): Row {
    Row(id, b.blockHash, b.previousHash, b.timestamp, p.render(b.transactions))
  }

  /** The rows a table gains when every block of `blocks` is saved, ids counting up from `id`. */
  function RowsOf(blocks: seq<Block>, id: nat, p: Primitives): seq<Row>
    decreases |blocks|
  {
    if blocks == [] then []
    else RowsOf(blocks[..|blocks| - 1], id, p) + [RowOf(blocks[|blocks| - 1], id + |blocks| - 1, p)]
  }

  /**
   * One iteration of the miner's loop. On an empty queue nothing happens.
   * Otherwise the first `BatchLength` transactions become a block on top of
   * the chain; the block is appended to the chain unconditionally and to the
   * table only when the insert succeeds.
   */
  function Step(s: Session, t: Tick, p: Primitives): Session {
    if s.queue == [] then s
    else
      var k := BatchLength(s.queue);
      var b := Assemble(s.queue[..k], t.timestamp, s.chain, p);
      Session(
        s.queue[k..],
        s.chain + [b],
        if t.saved then s.rows + [RowOf(b, NextRowId(s.rows), p)] else s.rows)
  }

  /** The miner's loop run for one step per tick, in order. */
  function Steps(s: Session, ticks: seq<Tick>, p: Primitives): Session
    decreases |ticks|
  {
    if ticks == [] then s else Step(Steps(s, ticks[..|ticks| - 1], p), ticks[|ticks| - 1], p)
  }

  /** All transactions recorded in `chain`, block by block. */
  function Recorded(chain: seq<Block>): seq<Transaction>
    decreases |chain|
  {
    if chain == [] then [] else Recorded(chain[..|chain| - 1]) + chain[|chain| - 1].transactions
  }

  /** How many of the ticks find the queue non-empty and save their block. */
  function SavedSteps(s: Session, ticks: seq<Tick>, p: Primitives): nat
    decreases |ticks|
  {
    if ticks == [] then 0
    else
      var before := Steps(s, ticks[..|ticks| - 1], p);
      SavedSteps(s, ticks[..|ticks| - 1], p)
        + (if before.queue != [] && ticks[|ticks| - 1].saved then 1 else 0)
  }

  /** What one miner step shows on the page. */
  datatype StepReport =
    | Idle                          // the queue was empty: nothing is mined
    | Saved(blockHash: Digest)      // "Block saved with hash: ..."
    | SaveError(blockHash: Digest)  // "Database Save Error: ..."; the block stays on the chain

  /** The message a step on session `s` shows: nothing, or the new block's hash with the save's outcome. */
  function Report(s: Session, t: Tick, p: Primitives): StepReport {
    if s.queue == [] then Idle
    else if t.saved then Saved(TipHash(Step(s, t, p).chain))
    else SaveError(TipHash(Step(s, t, p).chain))
  }

  /** The reports of a run of steps, one per tick, in order. */
  function Reports(s: Session, ticks: seq<Tick>, p: Primitives): seq<StepReport>
    decreases |ticks|
  {
    if ticks == [] then []
    else
      var init := ticks[..|ticks| - 1];
      Reports(s, init, p) + [Report(Steps(s, init, p), ticks[|ticks| - 1], p)]
  }

  /** The transaction the controller node builds for a request matched to `profile`. */
  function Request(address: string, service: string, profile: Profile, timestamp: string, p: Primitives): Transaction {
    Transaction(address, profile.name, profile.phoneNumber, service,
                p.sha256(address + service + ControllerClock), timestamp)
  }

  /**
   * The queue after the controller node handles a request for `address`:
   * one transaction more when the address names a profile, unchanged otherwise.
   */
  function Submit(q: seq<Transaction>, profiles: map<string, Profile>, address: string,
                  service: string, timestamp: string, p: Primitives): seq<Transaction>
  {
    if address in profiles then q + [Request(address, service, profiles[address], timestamp, p)] else q
  }
}
