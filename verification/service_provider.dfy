/**
 * The service-provider screen's state and the two routines that change it:
 * the controller node, which turns a service request into a queued
 * transaction, and the miner, which drains the queue into hash-linked
 * blocks on the in-memory chain and into the `blocks` table.
 */
module ServiceProvider {
  import opened Ledger
  import LedgerProperties

  /**
   * The session's transaction queue and blockchain, and the persistent
   * `blocks` table. The `profiles` table belongs to another application, which
   * may add rows at any time, so each request reads it as it is at that moment.
   */
  class Provider {
    const primitives: Primitives
    var transactionQueue: seq<Transaction>
    var blockchain: seq<Block>
    var blocksTable: seq<Row>

    /** The abstract state the specification functions of `Ledger` act on. */
    function Current(): Session
      reads this
    {
      Session(transactionQueue, blockchain, blocksTable)
    }

    /** The chain is linked and the table's AUTOINCREMENT ids increase. */
    ghost predicate Valid()
      reads this
    {
      Linked(blockchain, primitives) && IdsIncreasing(blocksTable)
    }

    /**
     * A new session: empty queue and chain; the table holds what earlier
     * sessions stored in it.
     */
    constructor (primitives: Primitives, storedRows: seq<Row>)
      requires IdsIncreasing(storedRows)
      ensures Valid()
      ensures this.primitives == primitives
      ensures Current() == Session([], [], storedRows)
    {
      this.primitives := primitives;
      transactionQueue := [];
      blockchain := [];
      blocksTable := storedRows;
    }

    /**
     * Look `address` up in the profiles table as it stands now; when it is
     * there, append one transaction built from the profile's name and phone
     * number and the requested service. `timestamp` is the wall-clock time of
     * the request.
     */
    method ControllerNode(profiles: map<string, Profile>, address: string, service: string, timestamp: string)
      returns (verified: bool)
      requires Valid()
      modifies this`transactionQueue
      ensures Valid()
      ensures verified <==> address in profiles
      ensures transactionQueue == Submit(old(transactionQueue), profiles, address, service, timestamp, primitives)
    {
      if address in profiles {
        var profile := profiles[address];
        var nonce := primitives.sha256(address + service + ControllerClock);
        var transaction := Transaction(address, profile.name, profile.phoneNumber, service, nonce, timestamp);
        transactionQueue := transactionQueue + [transaction];
        verified := true;
      } else {
        verified := false;
      }
    }

    /**
     * The miner's inner loop: pop `count` transactions off the front of the
     * queue one at a time, collecting them in the order they were queued.
     */
    method PopFront(count: nat) returns (transactions: seq<Transaction>)
      requires count <= |transactionQueue|
      modifies this`transactionQueue
      ensures transactions == old(transactionQueue)[..count]
      ensures transactionQueue == old(transactionQueue)[count..]
    {
      transactions := [];
      for i := 0 to count
        invariant |transactions| == i
        invariant transactions + transactionQueue == old(transactionQueue)
      {
        var transaction := transactionQueue[0];
        transactionQueue := transactionQueue[1..];
        transactions := transactions + [transaction];
      }
    }

    /**
     * One iteration of the miner's loop: pop up to five transactions off the
     * front of the queue into a new block, link it to the chain's last block,
     * append it to the chain, then try to insert its row into the table.
     */
    method MinerStep(tick: Tick) returns (report: StepReport)
      requires Valid()
      modifies this
      ensures Valid()
      ensures Current() == Step(old(Current()), tick, primitives)
      ensures report == Report(old(Current()), tick, primitives)
    {
      ghost var before := Current();
      if transactionQueue == [] {
        report := Idle;
        return;
      }
      var previousHash := TipHash(blockchain);
      var transactions := PopFront(Min(BatchSize, |transactionQueue|));
      var block := Block(transactions, tick.timestamp, previousHash, BlockHash(transactions, previousHash, primitives));
      blockchain := blockchain + [block];
      if tick.saved {
        blocksTable := blocksTable + [RowOf(block, NextRowId(blocksTable), primitives)];
        report := Saved(block.blockHash);
      } else {
        report := SaveError(block.blockHash);
      }
      assert Current() == Step(before, tick, primitives);
      LedgerProperties.StepPreservesLinked(before, tick, primitives);
      LedgerProperties.StepPreservesIds(before, tick, primitives);
    }

    /** The miner's loop, one step per tick of the simulation clock. */
    method Miner(ticks: seq<Tick>) returns (reports: seq<StepReport>)
      requires Valid()
      modifies this
      ensures Valid()
      ensures Current() == Steps(old(Current()), ticks, primitives)
      ensures reports == Reports(old(Current()), ticks, primitives)
    {
      ghost var start := Current();
      reports := [];
      for i := 0 to |ticks|
        invariant Valid()
        invariant Current() == Steps(start, ticks[..i], primitives)
        invariant reports == Reports(start, ticks[..i], primitives)
      {
        var report := MinerStep(ticks[i]);
        reports := reports + [report];
        assert ticks[..i + 1][..i] == ticks[..i];
      }
      assert ticks[..|ticks|] == ticks;
    }

    /**
     * The "Start Mining" button: refused on an empty queue, otherwise the
     * miner runs for the six steps that fit before simulated time 30.
     */
    method StartMining(ticks: seq<Tick>) returns (mined: bool, reports: seq<StepReport>)
      requires Valid()
      requires |ticks| == MiningSteps
      modifies this
      ensures Valid()
      ensures mined <==> old(transactionQueue) != []
      ensures Current() == if mined then Steps(old(Current()), ticks, primitives) else old(Current())
      ensures reports == if mined then Reports(old(Current()), ticks, primitives) else []
    {
      if transactionQueue == [] {
        mined, reports := false, [];
      } else {
        reports := Miner(ticks);
        mined := true;
      }
    }
  }
}
