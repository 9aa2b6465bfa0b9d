/**
 * What one mining step, a run of mining steps and one service request
 * guarantee about the queue, the chain and the `blocks` table.
 */
module LedgerProperties {
  import opened Ledger

  /** A step on a non-empty queue turns its first min(5, n) transactions, in order, into one new block. */
  lemma StepTakesBatch(s: Session, t: Tick, p: Primitives)
    requires s.queue != []
    ensures var s' := Step(s, t, p);
      && |s'.chain| == |s.chain| + 1
      && s'.chain[..|s.chain|] == s.chain
      && var b := s'.chain[|s.chain|];
      && |b.transactions| == Min(BatchSize, |s.queue|)
      && 1 <= |b.transactions| <= BatchSize
      && b.transactions + s'.queue == s.queue
      && |s'.queue| == |s.queue| - |b.transactions|
      && b.previousHash == TipHash(s.chain)
      && b.blockHash == BlockHash(b.transactions, b.previousHash, p)
      && b.timestamp == t.timestamp
  {
    var k := BatchLength(s.queue);
    assert s.queue[..k] + s.queue[k..] == s.queue;
  }

  /** A step changes the session exactly when the queue holds a transaction. */
  lemma StepIsIdleIffQueueEmpty(s: Session, t: Tick, p: Primitives)
    ensures Step(s, t, p) == s <==> s.queue == []
  {
    if s.queue != [] {
      assert |Step(s, t, p).chain| == |s.chain| + 1;
    }
  }

  /** The block a step adds keeps the chain linked. */
  lemma StepPreservesLinked(s: Session, t: Tick, p: Primitives)
    requires Linked(s.chain, p)
    ensures Linked(Step(s, t, p).chain, p)
  {
    if s.queue != [] {
      var c := Step(s, t, p).chain;
      var n := |s.chain|;
      assert c[n].previousHash == TipHash(s.chain);
      forall i | 0 < i < |c|
        ensures c[i].previousHash == c[i - 1].blockHash
      {
        if i < n {
          assert c[i] == s.chain[i] && c[i - 1] == s.chain[i - 1];
        }
      }
    }
  }

  /** A step keeps the table's AUTOINCREMENT ids positive and increasing. */
  lemma StepPreservesIds(s: Session, t: Tick, p: Primitives)
    requires IdsIncreasing(s.rows)
    ensures IdsIncreasing(Step(s, t, p).rows)
  {
  }

  /**
   * When the INSERT fails the block is still on the in-memory chain but the
   * table is left as it was, so the two drift apart by one block.
   */
  lemma FailedSaveDiverges(s: Session, t: Tick, p: Primitives)
    requires s.queue != [] && !t.saved
    ensures var s' := Step(s, t, p);
      && s'.rows == s.rows
      && |s'.chain| == |s.chain| + 1
      && s'.chain[|s.chain|].blockHash == BlockHash(s.queue[..|s.queue| - |s'.queue|], TipHash(s.chain), p)
  {
    StepTakesBatch(s, t, p);
  }

  /**
   * A step's report says what happened to the table: Idle exactly when
   * nothing was mined; Saved with the new block's hash when its row was
   * appended; SaveError with that hash when the table was left unchanged.
   */
  lemma ReportTellsOutcome(s: Session, t: Tick, p: Primitives)
    ensures var s' := Step(s, t, p);
      && (Report(s, t, p) == Idle <==> s' == s)
      && (Report(s, t, p).Saved? ==>
            && |s'.chain| == |s.chain| + 1
            && Report(s, t, p).blockHash == s'.chain[|s.chain|].blockHash
            && s'.rows == s.rows + [RowOf(s'.chain[|s.chain|], NextRowId(s.rows), p)])
      && (Report(s, t, p).SaveError? ==>
            && |s'.chain| == |s.chain| + 1
            && Report(s, t, p).blockHash == s'.chain[|s.chain|].blockHash
            && s'.rows == s.rows)
  {
    StepIsIdleIffQueueEmpty(s, t, p);
  }

  /** A run of steps shows one report per tick; the i-th is the report of the step on the state after i ticks. */
  lemma {:induction false} ReportsPerTick(s: Session, ticks: seq<Tick>, p: Primitives)
    ensures |Reports(s, ticks, p)| == |ticks|
    ensures forall i | 0 <= i < |ticks| ::
              Reports(s, ticks, p)[i] == Report(Steps(s, ticks[..i], p), ticks[i], p)
    decreases |ticks|
  {
    if ticks != [] {
      var init := ticks[..|ticks| - 1];
      ReportsPerTick(s, init, p);
      forall i | 0 <= i < |ticks|
        ensures Reports(s, ticks, p)[i] == Report(Steps(s, ticks[..i], p), ticks[i], p)
      {
        if i < |init| {
          assert ticks[..i] == init[..i] && ticks[i] == init[i];
        } else {
          assert ticks[..i] == init;
        }
      }
    }
  }

  /** After k steps on a queue of length n, max(0, n - 5k) transactions are left. */
  lemma {:induction false} StepsQueueLength(s: Session, ticks: seq<Tick>, p: Primitives)
    ensures |Steps(s, ticks, p).queue| == Max(0, |s.queue| - BatchSize * |ticks|)
    decreases |ticks|
  {
    if ticks != [] {
      var before := Steps(s, ticks[..|ticks| - 1], p);
      StepsQueueLength(s, ticks[..|ticks| - 1], p);
      if before.queue != [] {
        StepTakesBatch(before, ticks[|ticks| - 1], p);
      }
    }
  }

  /** A queue of at most 5k transactions is empty after k steps. */
  lemma StepsDrainQueue(s: Session, ticks: seq<Tick>, p: Primitives)
    requires |s.queue| <= BatchSize * |ticks|
    ensures Steps(s, ticks, p).queue == []
  {
    StepsQueueLength(s, ticks, p);
  }

  /** One click of "Start Mining" leaves max(0, n - 30) of n queued transactions. */
  lemma StartMiningQueueLength(s: Session, ticks: seq<Tick>, p: Primitives)
    requires |ticks| == MiningSteps
    ensures |Steps(s, ticks, p).queue| == Max(0, |s.queue| - 30)
  {
    StepsQueueLength(s, ticks, p);
  }

  /**
   * Mining never loses, duplicates or reorders a transaction: what the chain
   * records followed by the queue stays the same, and the old chain stays a
   * prefix of the new one.
   */
  lemma {:induction false} StepsConserveTransactions(s: Session, ticks: seq<Tick>, p: Primitives)
    ensures var s' := Steps(s, ticks, p);
      && Recorded(s'.chain) + s'.queue == Recorded(s.chain) + s.queue
      && |s.chain| <= |s'.chain|
      && s'.chain[..|s.chain|] == s.chain
    decreases |ticks|
  {
    if ticks != [] {
      var before := Steps(s, ticks[..|ticks| - 1], p);
      var t := ticks[|ticks| - 1];
      StepsConserveTransactions(s, ticks[..|ticks| - 1], p);
      if before.queue != [] {
        var after := Step(before, t, p);
        StepTakesBatch(before, t, p);
        var b := after.chain[|before.chain|];
        assert after.chain[..|after.chain| - 1] == before.chain;
        calc {
          Recorded(after.chain) + after.queue;
          (Recorded(before.chain) + b.transactions) + after.queue;
          Recorded(before.chain) + (b.transactions + after.queue);
          Recorded(before.chain) + before.queue;
        }
        assert after.chain[..|s.chain|] == before.chain[..|s.chain|];
      }
    }
  }

  /** A run of steps keeps the chain linked. */
  lemma {:induction false} StepsPreserveLinked(s: Session, ticks: seq<Tick>, p: Primitives)
    requires Linked(s.chain, p)
    ensures Linked(Steps(s, ticks, p).chain, p)
    decreases |ticks|
  {
    if ticks != [] {
      StepsPreserveLinked(s, ticks[..|ticks| - 1], p);
      StepPreservesLinked(Steps(s, ticks[..|ticks| - 1], p), ticks[|ticks| - 1], p);
    }
  }

  /** A run of steps keeps the table's ids positive and increasing. */
  lemma {:induction false} StepsPreserveIds(s: Session, ticks: seq<Tick>, p: Primitives)
    requires IdsIncreasing(s.rows)
    ensures IdsIncreasing(Steps(s, ticks, p).rows)
    decreases |ticks|
  {
    if ticks != [] {
      StepsPreserveIds(s, ticks[..|ticks| - 1], p);
      StepPreservesIds(Steps(s, ticks[..|ticks| - 1], p), ticks[|ticks| - 1], p);
    }
  }

  /**
   * The table gains one row per step that found work and saved it, never
   * more rows than the chain gains blocks.
   */
  lemma {:induction false} StepsRowCount(s: Session, ticks: seq<Tick>, p: Primitives)
    ensures var s' := Steps(s, ticks, p);
      && |s'.rows| == |s.rows| + SavedSteps(s, ticks, p)
      && |s.chain| + SavedSteps(s, ticks, p) <= |s'.chain|
    decreases |ticks|
  {
    if ticks != [] {
      StepsRowCount(s, ticks[..|ticks| - 1], p);
    }
  }

  /** Appending one block to the blocks saved so far appends its row with the next id. */
  lemma RowsOfSnoc(blocks: seq<Block>, b: Block, id: nat, p: Primitives)
    ensures RowsOf(blocks + [b], id, p) == RowsOf(blocks, id, p) + [RowOf(b, id + |blocks|, p)]
  {
    assert (blocks + [b])[..|blocks|] == blocks;
  }

  /** The rows `RowsOf` adds after `rows` end with the id one below the table's next id. */
  lemma {:induction false} RowsOfNextId(rows: seq<Row>, blocks: seq<Block>, p: Primitives)
    ensures NextRowId(rows + RowsOf(blocks, NextRowId(rows), p)) == NextRowId(rows) + |blocks|
    decreases |blocks|
  {
    if blocks != [] {
      var last := RowOf(blocks[|blocks| - 1], NextRowId(rows) + |blocks| - 1, p);
      assert rows + RowsOf(blocks, NextRowId(rows), p)
          == (rows + RowsOf(blocks[..|blocks| - 1], NextRowId(rows), p)) + [last];
    }
  }

  /** One saved step extends a table that mirrors the chain's new blocks into one that still does. */
  lemma SavedStepMirrorsChain(s: Session, before: Session, t: Tick, p: Primitives)
    requires t.saved
    requires |s.chain| <= |before.chain|
    requires before.rows == s.rows + RowsOf(before.chain[|s.chain|..], NextRowId(s.rows), p)
    ensures var after := Step(before, t, p);
      && |s.chain| <= |after.chain|
      && after.rows == s.rows + RowsOf(after.chain[|s.chain|..], NextRowId(s.rows), p)
  {
    if before.queue != [] {
      var after := Step(before, t, p);
      var added := before.chain[|s.chain|..];
      var b := after.chain[|before.chain|];
      assert after.chain == before.chain + [b];
      assert after.chain[|s.chain|..] == added + [b];
      RowsOfSnoc(added, b, NextRowId(s.rows), p);
      RowsOfNextId(s.rows, added, p);
    }
  }

  /**
   * When every insert succeeds the table gains exactly the rows of the new
   * blocks, in chain order, with consecutive ids: chain and table agree.
   */
  lemma {:induction false} StepsAllSavedMirrorChain(s: Session, ticks: seq<Tick>, p: Primitives)
    requires forall i | 0 <= i < |ticks| :: ticks[i].saved
    ensures var s' := Steps(s, ticks, p);
      && |s.chain| <= |s'.chain|
      && s'.rows == s.rows + RowsOf(s'.chain[|s.chain|..], NextRowId(s.rows), p)
    decreases |ticks|
  {
    if ticks == [] {
      assert s.chain[|s.chain|..] == [];
    } else {
      var init := ticks[..|ticks| - 1];
      forall i | 0 <= i < |init| ensures init[i].saved {
        assert init[i] == ticks[i];
      }
      StepsAllSavedMirrorChain(s, init, p);
      SavedStepMirrorsChain(s, Steps(s, init, p), ticks[|ticks| - 1], p);
    }
  }

  /**
   * The controller node adds a transaction exactly when the address names a
   * profile; that transaction goes to the back of the queue and carries the
   * profile's name and phone number and the requested service.
   */
  lemma SubmitAppendsIffFound(q: seq<Transaction>, profiles: map<string, Profile>, address: string,
                              service: string, timestamp: string, p: Primitives)
    ensures var q' := Submit(q, profiles, address, service, timestamp, p);
      && (address in profiles <==> |q'| == |q| + 1)
      && (address !in profiles <==> q' == q)
      && q'[..|q|] == q
      && (address in profiles ==>
            && q'[|q|].shareableAddress == address
            && q'[|q|].name == profiles[address].name
            && q'[|q|].phoneNumber == profiles[address].phoneNumber
            && q'[|q|].service == service
            && q'[|q|].timestamp == timestamp)
  {
  }

  /**
   * Every request runs in a fresh simulation at time 0, so two requests for
   * the same address and service carry the same nonce.
   */
  lemma SameRequestSameNonce(address: string, service: string, first: Profile, second: Profile,
                             t1: string, t2: string, p: Primitives)
    ensures Request(address, service, first, t1, p).nonce == Request(address, service, second, t2, p).nonce
    ensures Request(address, service, first, t1, p).nonce == p.sha256(address + service + "0")
  {
  }

  /**
   * A request accepted by the controller node is on the chain after enough
   * mining steps: the chain then records the old queue and the new
   * transaction after everything it recorded before.
   */
  lemma SubmittedThenMined(s: Session, profiles: map<string, Profile>, address: string, service: string,
                           timestamp: string, ticks: seq<Tick>, p: Primitives)
    requires address in profiles
    requires |s.queue| < BatchSize * |ticks|
    ensures var queued := Submit(s.queue, profiles, address, service, timestamp, p);
      var s' := Steps(Session(queued, s.chain, s.rows), ticks, p);
      && s'.queue == []
      && Recorded(s'.chain)
           == Recorded(s.chain) + s.queue + [Request(address, service, profiles[address], timestamp, p)]
  {
    var queued := Submit(s.queue, profiles, address, service, timestamp, p);
    var s0 := Session(queued, s.chain, s.rows);
    StepsDrainQueue(s0, ticks, p);
    StepsConserveTransactions(s0, ticks, p);
    var s' := Steps(s0, ticks, p);
    assert Recorded(s'.chain) + [] == Recorded(s'.chain);
  }
}
