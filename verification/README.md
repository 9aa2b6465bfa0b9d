# Service-request queue and block chain

This project models the core of the service-provider screen of the bfedid
demo. That screen has two parts. The **controller node** looks up a shareable
address in the `profiles` table. When it finds one, it appends a transaction
(address, name, phone number, requested service, nonce, timestamp) to the
session's transaction queue. The **miner** drains that queue. At every step
it takes up to five transactions from the front of the queue and turns them
into a block that links to the previous block's hash. The block is appended
to the in-memory blockchain, and then the miner tries to insert it as a row
of the `blocks` table. The "Start Mining" button refuses to run on an empty
queue. Otherwise it runs the miner for one simulated period.

Files:

- `ledger.dfy` (module `Ledger`): the values (`Transaction`, `Block`, `Row`,
  `Profile`, `Session`), the digest type, the constants, and the pure
  specification of one mining step (`Step`) and the message it shows
  (`Report`), of a run of steps (`Steps`, `Reports`) and of a service request
  (`Submit`).
- `ledger_properties.dfy` (module `LedgerProperties`): what those functions
  guarantee. This covers the batch bound, FIFO order, hash linkage,
  append-only growth, queue length after k steps, conservation of
  transactions, chain/table divergence, and the controller node's
  if-and-only-if.
- `service_provider.dfy` (module `ServiceProvider`): class `Provider`. It
  holds the queue, the chain and the table as `seq` fields, with the
  primitives as a constant. Its methods change these
  fields in place the way the Python code does: `pop(0)` in a loop, `append`,
  a step loop. `ControllerNode`, `MinerStep`, `Miner` and `StartMining` are
  proved against `Submit`, `Step`, `Steps` and `Report`. `PopFront` is proved
  against slices of the old queue. Every method keeps `Valid()` true (linked
  chain, increasing row ids).

Modelling choices:

- SHA-256 (`hashlib.sha256(...).hexdigest()`) and Python's `str()` of a
  list of transaction dicts are the two fields of `Primitives`. They are
  arbitrary functions, so nothing is proved that depends on what they
  compute. A `Digest` is any string of 64 lower-case hex characters. The
  genesis hash `"0" * 64` is one of them.
- The simpy clock is replaced by a sequence of `Tick`s, one per miner step.
  `run(until=30)` schedules its stop event ahead of the miner's timeout due
  at 30. So a click of "Start Mining" runs the steps at times 0, 5, 10, 15,
  20 and 25. That is `MiningSteps = 6`, and at most 30 transactions are
  mined per click.
- The controller node runs in a fresh simulation at time 0. So its nonce is
  SHA-256 of address, service and `"0"`. The same address and service always
  give the same nonce (`SameRequestSameNonce`).
- `datetime.now()` becomes a `timestamp` parameter. Whether the INSERT
  and commit succeed becomes the `saved` flag of a tick.
- The `blocks` table is a `seq<Row>`. It persists across sessions, so the
  constructor takes the rows already stored. AUTOINCREMENT is modelled as
  "last id + 1, or 1 for an empty table". The model assumes this session is
  the table's only writer and that nothing is deleted from it.
- The `profiles` table is a `map` from shareable address to the two columns
  the controller node reads (`name`, `phone_number`, columns 1 and 2 of
  `SELECT *`). The profile-builder app can add rows to it at any time, so
  `ControllerNode` takes the table as it stands at each request as a
  parameter. It is not part of the session's state.

## Model

| member | source | states |
|---|---|---|
| `Ledger.Zeros` | service_provider.py:58 | `"0" * n` has length n and every character is '0'. So the genesis previous hash is a 64-character digest. |
| `Ledger.BatchLength` | service_provider.py:61 | The number of transactions a step takes is at most the queue length and at most 5. It equals one of the two, and it is at least 1 on a non-empty queue. |
| `LedgerProperties.StepTakesBatch` | service_provider.py:52-67 | On a non-empty queue, one step appends exactly one block and leaves earlier blocks unchanged. The block holds min(5, n) transactions, between 1 and 5. Those transactions followed by the new queue equal the old queue (FIFO). The block's previous hash is the last block's hash or the genesis hash. Its hash is H(serialize(transactions) + previous hash). It carries the tick's timestamp. |
| `LedgerProperties.StepIsIdleIffQueueEmpty` | service_provider.py:52-90 | A step leaves the whole session unchanged if and only if the queue is empty. |
| `LedgerProperties.StepPreservesLinked` | service_provider.py:55-67 | If every block is well formed and links to its predecessor (the first to the genesis hash), this still holds after one step. |
| `LedgerProperties.StepPreservesIds` | service_provider.py:69-79 | A step keeps the table's AUTOINCREMENT ids positive and strictly increasing. |
| `LedgerProperties.FailedSaveDiverges` | service_provider.py:67-88 | When the insert fails on a non-empty queue, the chain gains the new block and the table is left exactly as it was. |
| `LedgerProperties.ReportTellsOutcome` | service_provider.py:52-88 | A step's report is Idle exactly when the session is unchanged. Saved carries the new block's hash, and the table gains that block's row with the next id. SaveError carries the new block's hash, and the table is unchanged. |
| `LedgerProperties.ReportsPerTick` | service_provider.py:50-90 | A run of steps shows exactly one report per tick. The i-th is the report of the step taken on the state after the first i ticks. |
| `LedgerProperties.StepsQueueLength` | service_provider.py:50-90 | After k steps on a queue of length n, max(0, n - 5k) transactions remain. |
| `LedgerProperties.StepsDrainQueue` | service_provider.py:50-90 | A queue of at most 5k transactions is empty after k steps. |
| `LedgerProperties.StartMiningQueueLength` | service_provider.py:115-123 | One "Start Mining" run (six steps) leaves max(0, n - 30) of n queued transactions. |
| `LedgerProperties.StepsConserveTransactions` | service_provider.py:61-67 | Over any run of steps, the transactions on the chain followed by the queue stay the same: none lost, duplicated or reordered. The old chain stays a prefix of the new one (append-only). |
| `LedgerProperties.StepsPreserveLinked` | service_provider.py:50-90 | Any run of steps keeps the chain linked and well formed. |
| `LedgerProperties.StepsPreserveIds` | service_provider.py:69-79 | Any run of steps keeps the table's ids positive and strictly increasing. |
| `LedgerProperties.StepsRowCount` | service_provider.py:67-88 | The table gains one row per step that found work and saved it. It never gains more rows than the chain gains blocks. |
| `LedgerProperties.SavedStepMirrorsChain` | service_provider.py:67-79 | A saved step keeps "the table's new rows are the rows of the chain's new blocks" true. |
| `LedgerProperties.StepsAllSavedMirrorChain` | service_provider.py:67-79 | When every insert succeeds, the table gains exactly the rows of the new blocks, in chain order, with consecutive ids. |
| `LedgerProperties.SubmitAppendsIffFound` | service_provider.py:28-47 | The controller node appends exactly one transaction if and only if the address is in the profiles table. Otherwise the queue is unchanged. The earlier queue is kept. The new transaction carries the address, the profile's name and phone number, the service and the timestamp. |
| `LedgerProperties.SameRequestSameNonce` | service_provider.py:34 | The nonce depends only on address and service, because `env.now` is always 0 when it is computed. |
| `LedgerProperties.SubmittedThenMined` | service_provider.py:26-67 | After an accepted request and more than (queue length)/5 steps, the queue is empty. The chain then records the old queue followed by the new transaction, after what it recorded before. |
| `ServiceProvider.Provider.constructor` | service_provider.py:97-100 | A new session starts with an empty queue and chain. The table holds the rows stored earlier. |
| `ServiceProvider.Provider.ControllerNode` | service_provider.py:26-48 | Reports success if and only if the address is in the profiles table as given at this request. The new queue is `Submit` of the old one, and the chain stays linked. |
| `ServiceProvider.Provider.PopFront` | service_provider.py:61-63 | Popping `count` transactions off the front returns the first `count` of the old queue, in order, and leaves the rest. |
| `ServiceProvider.Provider.MinerStep` | service_provider.py:52-88 | The new queue, chain and table are `Step` of the old ones. The report is `Report` of the old state: Idle on an empty queue, otherwise Saved or SaveError with the new block's hash. |
| `ServiceProvider.Provider.Miner` | service_provider.py:50-90 | After one step per tick, the state is `Steps` of the old state. The reports are `Reports` of the old state: one per tick, and the i-th is `Report` of the state after the first i ticks (`ReportsPerTick`). |
| `ServiceProvider.Provider.StartMining` | service_provider.py:115-123 | Mining runs if and only if the queue is non-empty. Then the state is `Steps` over six ticks, and the reports are `Reports` of the old state over those ticks. Otherwise nothing changes and there are no reports. |

## Left out

- Streamlit rendering, session-state setup and button handling (service_provider.py:92-151) are UI. Only the messages' outcomes are modelled: the controller node's `verified` flag, the miner's `StepReport` and the refusal in `StartMining`.
- The SQLite connection, the table creation (service_provider.py:7-24), the debug SELECTs (service_provider.py:81-83, 126-128) and the Blockchain Viewer page (service_provider.py:132-151) are I/O. The blocks table is a sequence of rows, and the profiles table is a map.
- simpy's environment and timeouts are replaced by a sequence of ticks. The clock itself is used only in log lines, and in the nonce, where it is the constant "0".
- SHA-256 and Python `str()` of a list of dicts are foreign code. They are uninterpreted functions, so no property that depends on their output (collision resistance, the exact text) is claimed.
- `datetime.now()` is nondeterministic. It is a parameter.
- ControllerNode: `fetchone()` returns one row when several profiles share an address. The map keeps one profile per address, so which row wins is not modelled.
- MinerStep: an insert that succeeds followed by a commit that fails is folded into one "not saved" outcome. Errors other than `sqlite3.Error` are not modelled.
- MinerStep: AUTOINCREMENT ids assume no row was ever deleted from the table (the next id is the last id + 1).
- MinerStep: assumes this session is the only writer of the `blocks` table. `blockchain.db` is one file shared by every session (service_provider.py:11). A row another session inserts between two steps changes the ids, and it breaks what `StepsAllSavedMirrorChain` says about the table.
- MinerStep: a row whose INSERT succeeded but whose `commit()` failed (service_provider.py:79) stays in the open transaction. A later step's commit in the same click then stores it after all, and the ids shift. The model counts that block as never saved.
- MinerStep: the debug `SELECT`/`fetchall` inside the `try` (service_provider.py:81-82) can raise `sqlite3.Error` after a successful commit. The source then reports "Database Save Error" although the row is stored. The model has no such outcome: SaveError always means the table is unchanged.
- ControllerNode: the lookup SELECT (service_provider.py:28) is outside any `try`. `profiles` is created only by profile_builder.py. On a database without that table, or a locked one, Submit Request raises an uncaught `sqlite3` error. The model answers every address as found or not found (`verified == false`, queue unchanged) and has no error outcome.
- profile_builder.py (identifier generation from `random.choices`, address as SHA-256 of name, phone and identifier, and the profile form) is not part of this model.
