/** db_worker.cpp: the batching database writer.  Producers append to five bounded queues; the worker drains
    all of them, flushes the batch in one transaction and, when the connection broke, puts the batch back in
    front.  The transaction also keeps the round effort: accepted difficulty since the last parent block. */
module DbWorker {
  import Sequences

  datatype Share = Share(id: nat, difficulty: real, accepted: bool)
  // The coin of a block is empty for the process's own coin.
  datatype Block = Block(height: int, hash: string, coin: string)

  // ----- one queue and its history -----

  // accepted: all that was ever enqueued; committed, dropped: what the database got and what a failed flush
  // threw away; batch: what is being flushed; queue: what waits.
  datatype Lane<T> = Lane(accepted: seq<T>, committed: seq<T>, dropped: seq<T>, batch: seq<T>, queue: seq<T>)

  function Enqueued<T>(l: Lane<T>, r: T, cap: nat): Lane<T> {
    if |l.queue| >= cap then l else l.(accepted := l.accepted + [r], queue := l.queue + [r])
  }

  function Drained<T>(l: Lane<T>): Lane<T> {
    l.(batch := l.queue, queue := [])
  }

  function Committed<T>(l: Lane<T>): Lane<T> {
    l.(committed := l.committed + l.batch, batch := [])
  }

  function Requeued<T>(l: Lane<T>): Lane<T> {
    l.(queue := l.batch + l.queue, batch := [])
  }

  function Dropped<T>(l: Lane<T>): Lane<T> {
    l.(dropped := l.dropped + l.batch, batch := [])
  }

  // Nothing is lost, doubled or out of order.
  ghost predicate InOrder<T>(l: Lane<T>) {
    l.committed + l.batch + l.queue == l.accepted
  }

  // Everything accepted is in exactly one place.
  ghost predicate Accounted<T>(l: Lane<T>) {
    multiset(l.committed) + multiset(l.dropped) + multiset(l.batch) + multiset(l.queue) == multiset(l.accepted)
  }

  // What one step does to a lane: only a failed flush may lose order.
  ghost predicate LaneStep<T>(l: Lane<T>, m: Lane<T>, fails: bool) {
    (InOrder(l) && !fails ==> InOrder(m)) && (Accounted(l) ==> Accounted(m))
  }

  lemma EnqueueKeeps<T>(l: Lane<T>, r: T, cap: nat)
    ensures LaneStep(l, Enqueued(l, r, cap), false)
  {
    assert l.committed + l.batch + (l.queue + [r]) == (l.committed + l.batch + l.queue) + [r];
  }

  lemma DrainKeeps<T>(l: Lane<T>)
    requires l.batch == []
    ensures LaneStep(l, Drained(l), false)
  {
    assert l.committed + [] + l.queue == l.committed + l.queue + [];
  }

  lemma CommitKeeps<T>(l: Lane<T>)
    ensures LaneStep(l, Committed(l), false)
  {
    assert (l.committed + l.batch) + [] + l.queue == l.committed + l.batch + l.queue;
  }

  lemma RequeueKeeps<T>(l: Lane<T>)
    ensures LaneStep(l, Requeued(l), false)
  {
    assert l.committed + [] + (l.batch + l.queue) == l.committed + l.batch + l.queue;
  }

  lemma DropKeeps<T>(l: Lane<T>)
    ensures LaneStep(l, Dropped(l), true)
  {}

  // ----- the effort accumulator -----

  datatype BlockRow = BlockRow(hash: string, coin: string, effort: real)

  // snapshots: the round effort of every parent block processed, in order.
  datatype Effort = Effort(accum: real, rows: seq<BlockRow>, snapshots: seq<real>)

  function AcceptedDifficulty(shares: seq<Share>): real {
    if shares == [] then 0.0
    else AcceptedDifficulty(shares[..|shares| - 1])
         + if shares[|shares| - 1].accepted then shares[|shares| - 1].difficulty else 0.0
  }

  function AddShares(e: Effort, shares: seq<Share>): Effort {
    if AcceptedDifficulty(shares) > 0.0 then e.(accum := e.accum + AcceptedDifficulty(shares)) else e
  }

  predicate HasRow(rows: seq<BlockRow>, hash: string) {
    exists i :: 0 <= i < |rows| && rows[i].hash == hash
  }

  // INSERT ... ON CONFLICT (block_hash) DO NOTHING
  function Inserted(rows: seq<BlockRow>, row: BlockRow): seq<BlockRow> {
    if HasRow(rows, row.hash) then rows else rows + [row]
  }

  function CoinOf(coin: string, b: Block): string {
    if b.coin == "" then coin else b.coin
  }

  predicate IsAux(coin: string, b: Block) {
    CoinOf(coin, b) != coin
  }

  function AddBlock(coin: string, e: Effort, b: Block): Effort {
    if IsAux(coin, b) then e.(rows := Inserted(e.rows, BlockRow(b.hash, CoinOf(coin, b), 0.0)))
    else Effort(0.0, Inserted(e.rows, BlockRow(b.hash, CoinOf(coin, b), e.accum)), e.snapshots + [e.accum])
  }

  function AddBlocks(coin: string, e: Effort, blocks: seq<Block>): Effort {
    if blocks == [] then e
    else AddBlock(coin, AddBlocks(coin, e, blocks[..|blocks| - 1]), blocks[|blocks| - 1])
  }

  function SumOf(xs: seq<real>): real {
    if xs == [] then 0.0 else SumOf(xs[..|xs| - 1]) + xs[|xs| - 1]
  }

  // The effort recorded in stored rows.
  function Stored(rows: seq<BlockRow>): real {
    if rows == [] then 0.0 else Stored(rows[..|rows| - 1]) + rows[|rows| - 1].effort
  }

  // All the work there is: running plus snapshot.
  function Work(e: Effort): real {
    SumOf(e.snapshots) + e.accum
  }

  lemma SumAppend(xs: seq<real>, x: real)
    ensures SumOf(xs + [x]) == SumOf(xs) + x
  {
    assert (xs + [x])[..|xs|] == xs;
  }

  lemma StoredInsert(rows: seq<BlockRow>, row: BlockRow)
    ensures Stored(Inserted(rows, row)) == Stored(rows) + if HasRow(rows, row.hash) then 0.0 else row.effort
  {
    assert (rows + [row])[..|rows|] == rows;
  }

  // The work that can be read back: what the stored rows say and what is running.
  function Visible(e: Effort): real {
    Stored(e.rows) + e.accum
  }

  // A parent block whose hash is stored already, after work since the last parent block.
  predicate Repeats(coin: string, e: Effort, b: Block) {
    !IsAux(coin, b) && HasRow(e.rows, b.hash) && e.accum != 0.0
  }

  ghost predicate NoneRepeats(coin: string, e: Effort, blocks: seq<Block>) {
    forall n :: 0 <= n < |blocks| ==> !Repeats(coin, AddBlocks(coin, e, blocks[..n]), blocks[n])
  }

  // A block of the process's own coin, named or left empty, closes the round: it takes the running effort.
  lemma BlockConserves(coin: string, e: Effort, b: Block)
    ensures var f := AddBlock(coin, e, b);
            && Work(f) == Work(e)
            && (b.coin == "" || b.coin == coin ==>
                  f.accum == 0.0 && f.snapshots == e.snapshots + [e.accum]
                  && (!HasRow(e.rows, b.hash) ==> f.rows == e.rows + [BlockRow(b.hash, coin, e.accum)]))
            && (b.coin != "" && b.coin != coin ==>
                  f.accum == e.accum && f.snapshots == e.snapshots
                  && (!HasRow(e.rows, b.hash) ==> f.rows == e.rows + [BlockRow(b.hash, b.coin, 0.0)]))
            && (HasRow(e.rows, b.hash) ==> f.rows == e.rows)
  {
    SumAppend(e.snapshots, e.accum);
  }

  /** The work that can be read back never grows by a block, and stays exactly unless the block repeats a stored
      hash after new work. */
  lemma BlockVisible(coin: string, e: Effort, b: Block)
    requires e.accum >= 0.0
    ensures Visible(AddBlock(coin, e, b)) <= Visible(e) && AddBlock(coin, e, b).accum >= 0.0
    ensures Visible(AddBlock(coin, e, b)) == Visible(e) <==> !Repeats(coin, e, b)
  {
    StoredInsert(e.rows, BlockRow(b.hash, CoinOf(coin, b), if IsAux(coin, b) then 0.0 else e.accum));
  }

  lemma {:induction false} BlocksConserve(coin: string, e: Effort, blocks: seq<Block>)
    ensures Work(AddBlocks(coin, e, blocks)) == Work(e)
  {
    if blocks != [] {
      var t := blocks[..|blocks| - 1];
      BlocksConserve(coin, e, t);
      BlockConserves(coin, AddBlocks(coin, e, t), blocks[|blocks| - 1]);
    }
  }

  lemma NoneRepeatsLast(coin: string, e: Effort, blocks: seq<Block>)
    requires blocks != []
    ensures var m := |blocks| - 1;
            NoneRepeats(coin, e, blocks)
            <==> NoneRepeats(coin, e, blocks[..m]) && !Repeats(coin, AddBlocks(coin, e, blocks[..m]), blocks[m])
  {
    var m := |blocks| - 1;
    forall n | 0 <= n < m
      ensures Repeats(coin, AddBlocks(coin, e, blocks[..m][..n]), blocks[..m][n])
              == Repeats(coin, AddBlocks(coin, e, blocks[..n]), blocks[n])
    {
      assert blocks[..m][..n] == blocks[..n];
    }
  }

  lemma {:induction false} BlocksVisible(coin: string, e: Effort, blocks: seq<Block>)
    requires e.accum >= 0.0
    ensures Visible(AddBlocks(coin, e, blocks)) <= Visible(e) && AddBlocks(coin, e, blocks).accum >= 0.0
    ensures Visible(AddBlocks(coin, e, blocks)) == Visible(e) <==> NoneRepeats(coin, e, blocks)
  {
    if blocks != [] {
      var t := blocks[..|blocks| - 1];
      BlocksVisible(coin, e, t);
      BlockVisible(coin, AddBlocks(coin, e, t), blocks[|blocks| - 1]);
      NoneRepeatsLast(coin, e, blocks);
    }
  }

  lemma {:induction false} DifficultyConcat(x: seq<Share>, y: seq<Share>)
    ensures AcceptedDifficulty(x + y) == AcceptedDifficulty(x) + AcceptedDifficulty(y)
  {
    if y == [] {
      assert x + y == x;
    } else {
      DifficultyConcat(x, y[..|y| - 1]);
      assert (x + y)[..|x + y| - 1] == x + y[..|y| - 1];
    }
  }

  ghost predicate Worthy(shares: seq<Share>) {
    forall i :: 0 <= i < |shares| ==> shares[i].difficulty >= 0.0
  }

  lemma {:induction false} DifficultyNonNegative(shares: seq<Share>)
    requires Worthy(shares)
    ensures AcceptedDifficulty(shares) >= 0.0
  {
    if shares != [] {
      DifficultyNonNegative(shares[..|shares| - 1]);
    }
  }

  // ----- the writer -----

  datatype State<P, B, H> = State(shares: Lane<Share>, presences: Lane<P>, bests: Lane<B>, hashrates: Lane<H>,
                                  blocks: Lane<Block>, effort: Effort, connected: bool, flushing: bool)

  datatype Action<P, B, H> = EnqueueShare(share: Share) | EnqueuePresence(p: P) | EnqueueBest(b: B)
                           | EnqueueHashrate(h: H) | EnqueueBlock(block: Block)
                           | Reconnect(ok: bool) | Drain | Commit | Break | Fail

  datatype Config = Config(cap: nat, coin: string)

  // The database part of a transaction over the batch.
  function Transact(coin: string, e: Effort, shares: seq<Share>, blocks: seq<Block>): Effort {
    AddBlocks(coin, AddShares(e, shares), blocks)
  }

  /** One step: a producer enqueues, or the worker reconnects, drains, and ends its flush in one of three ways.
      Producers may act between any two steps of the worker. */
  function Step<P, B, H>(c: Config, s: State<P, B, H>, a: Action<P, B, H>): State<P, B, H> {
    match a
    case EnqueueShare(r) => s.(shares := Enqueued(s.shares, r, c.cap))
    case EnqueuePresence(r) => s.(presences := Enqueued(s.presences, r, c.cap))
    case EnqueueBest(r) => s.(bests := Enqueued(s.bests, r, c.cap))
    case EnqueueHashrate(r) => s.(hashrates := Enqueued(s.hashrates, r, c.cap))
    case EnqueueBlock(r) => s.(blocks := Enqueued(s.blocks, r, c.cap))
    case Reconnect(ok) => if s.connected || s.flushing then s else s.(connected := ok)
    case Drain =>
      if !s.connected || s.flushing then s
      else State(Drained(s.shares), Drained(s.presences), Drained(s.bests), Drained(s.hashrates), Drained(s.blocks),
                 s.effort, s.connected, true)
    case Commit =>
      if !s.flushing then s
      else State(Committed(s.shares), Committed(s.presences), Committed(s.bests), Committed(s.hashrates),
                 Committed(s.blocks), Transact(c.coin, s.effort, s.shares.batch, s.blocks.batch), s.connected, false)
    case Break =>
      if !s.flushing then s
      else State(Requeued(s.shares), Requeued(s.presences), Requeued(s.bests), Requeued(s.hashrates),
                 Requeued(s.blocks), s.effort, false, false)
    case Fail =>
      if !s.flushing then s
      else State(Dropped(s.shares), Dropped(s.presences), Dropped(s.bests), Dropped(s.hashrates), Dropped(s.blocks),
                 s.effort, s.connected, false)
  }

  ghost predicate Between<P, B, H>(s: State<P, B, H>) {
    !s.flushing ==> s.shares.batch == [] && s.presences.batch == [] && s.bests.batch == [] && s.hashrates.batch == []
                    && s.blocks.batch == []
  }

  ghost predicate AllAccounted<P, B, H>(s: State<P, B, H>) {
    Between(s) && Accounted(s.shares) && Accounted(s.presences) && Accounted(s.bests) && Accounted(s.hashrates)
    && Accounted(s.blocks)
  }

  ghost predicate AllInOrder<P, B, H>(s: State<P, B, H>) {
    Between(s) && InOrder(s.shares) && InOrder(s.presences) && InOrder(s.bests) && InOrder(s.hashrates)
    && InOrder(s.blocks)
  }

  lemma StepInOrder<P, B, H>(c: Config, s: State<P, B, H>, a: Action<P, B, H>)
    requires AllInOrder(s) && a != Fail
    ensures AllInOrder(Step(c, s, a))
  {
    StepBetween(c, s, a);
    StepLanes(c, s, a);
  }

  lemma StepAccounted<P, B, H>(c: Config, s: State<P, B, H>, a: Action<P, B, H>)
    requires AllAccounted(s)
    ensures AllAccounted(Step(c, s, a))
  {
    StepBetween(c, s, a);
    StepLanes(c, s, a);
  }

  ghost predicate LanesStep<P, B, H>(s: State<P, B, H>, t: State<P, B, H>, fails: bool) {
    LaneStep(s.shares, t.shares, fails) && LaneStep(s.presences, t.presences, fails)
    && LaneStep(s.bests, t.bests, fails) && LaneStep(s.hashrates, t.hashrates, fails)
    && LaneStep(s.blocks, t.blocks, fails)
  }

  lemma StepBetween<P, B, H>(c: Config, s: State<P, B, H>, a: Action<P, B, H>)
    requires Between(s)
    ensures Between(Step(c, s, a))
  {}

  lemma StepLanes<P, B, H>(c: Config, s: State<P, B, H>, a: Action<P, B, H>)
    requires Between(s)
    ensures LanesStep(s, Step(c, s, a), a == Fail)
  {
    match a {
      case EnqueueShare(r) => EnqueueKeeps(s.shares, r, c.cap);
      case EnqueuePresence(r) => EnqueueKeeps(s.presences, r, c.cap);
      case EnqueueBest(r) => EnqueueKeeps(s.bests, r, c.cap);
      case EnqueueHashrate(r) => EnqueueKeeps(s.hashrates, r, c.cap);
      case EnqueueBlock(r) => EnqueueKeeps(s.blocks, r, c.cap);
      case Reconnect(_) =>
      case Drain => DrainLanes(c, s);
      case Commit => CommitLanes(c, s);
      case Break => BreakLanes(c, s);
      case Fail => FailLanes(c, s);
    }
  }

  lemma DrainLanes<P, B, H>(c: Config, s: State<P, B, H>)
    requires Between(s)
    ensures LanesStep(s, Step(c, s, Drain), false)
  {
    if s.connected && !s.flushing {
      DrainKeeps(s.shares);
      DrainKeeps(s.presences);
      DrainKeeps(s.bests);
      DrainKeeps(s.hashrates);
      DrainKeeps(s.blocks);
    }
  }

  lemma CommitLanes<P, B, H>(c: Config, s: State<P, B, H>)
    ensures LanesStep(s, Step(c, s, Commit), false)
  {
    CommitKeeps(s.shares);
    CommitKeeps(s.presences);
    CommitKeeps(s.bests);
    CommitKeeps(s.hashrates);
    CommitKeeps(s.blocks);
  }

  lemma BreakLanes<P, B, H>(c: Config, s: State<P, B, H>)
    ensures LanesStep(s, Step(c, s, Break), false)
  {
    RequeueKeeps(s.shares);
    RequeueKeeps(s.presences);
    RequeueKeeps(s.bests);
    RequeueKeeps(s.hashrates);
    RequeueKeeps(s.blocks);
  }

  lemma FailLanes<P, B, H>(c: Config, s: State<P, B, H>)
    ensures LanesStep(s, Step(c, s, Fail), true)
  {
    DropKeeps(s.shares);
    DropKeeps(s.presences);
    DropKeeps(s.bests);
    DropKeeps(s.hashrates);
    DropKeeps(s.blocks);
  }

  // ----- whole runs -----

  // A process starts with the accumulator and the block table that earlier ones left.
  function Start<P, B, H>(start: Effort): State<P, B, H> {
    State(Lane([], [], [], [], []), Lane([], [], [], [], []), Lane([], [], [], [], []), Lane([], [], [], [], []),
          Lane([], [], [], [], []), start, false, false)
  }

  function Run<P, B, H>(c: Config, start: Effort, actions: seq<Action<P, B, H>>): State<P, B, H> {
    if actions == [] then Start(start)
    else Step(c, Run(c, start, actions[..|actions| - 1]), actions[|actions| - 1])
  }

  /** Whatever happens, every record accepted by a queue is in exactly one place: committed, dropped by a failed
      flush, being flushed or queued. */
  lemma {:induction false} RunAccounted<P, B, H>(c: Config, start: Effort, actions: seq<Action<P, B, H>>)
    ensures AllAccounted(Run(c, start, actions))
  {
    if actions != [] {
      RunAccounted(c, start, actions[..|actions| - 1]);
      StepAccounted(c, Run(c, start, actions[..|actions| - 1]), actions[|actions| - 1]);
    }
  }

  /** When no flush fails other than by a broken connection, each queue's committed records followed by the
      batch and the queue are exactly the accepted ones in order: exactly once, through every reconnect. */
  lemma {:induction false} RunInOrder<P, B, H>(c: Config, start: Effort, actions: seq<Action<P, B, H>>)
    requires forall i :: 0 <= i < |actions| ==> actions[i] != Fail
    ensures AllInOrder(Run(c, start, actions))
  {
    if actions != [] {
      RunInOrder(c, start, actions[..|actions| - 1]);
      StepInOrder(c, Run(c, start, actions[..|actions| - 1]), actions[|actions| - 1]);
    }
  }

  // Work done so far is the starting effort plus all committed accepted difficulty.
  ghost predicate EffortKept<P, B, H>(s: State<P, B, H>, start: Effort) {
    Work(s.effort) == Work(start) + AcceptedDifficulty(s.shares.committed)
  }

  ghost predicate AllWorthy<P, B, H>(s: State<P, B, H>) {
    Worthy(s.shares.batch) && Worthy(s.shares.queue)
  }

  lemma StepEffort<P, B, H>(c: Config, s: State<P, B, H>, a: Action<P, B, H>, start: Effort)
    requires EffortKept(s, start) && AllWorthy(s) && (a.EnqueueShare? ==> a.share.difficulty >= 0.0)
    ensures EffortKept(Step(c, s, a), start) && AllWorthy(Step(c, s, a))
  {
    if a.Commit? && s.flushing {
      DifficultyConcat(s.shares.committed, s.shares.batch);
      DifficultyNonNegative(s.shares.batch);
      BlocksConserve(c.coin, AddShares(s.effort, s.shares.batch), s.blocks.batch);
    }
  }

  /** Over every run, through broken connections and failed flushes: round efforts of processed parent blocks
      plus the accumulator equal what they were at the start plus all committed accepted difficulty. */
  lemma {:induction false} RunEffort<P, B, H>(c: Config, start: Effort, actions: seq<Action<P, B, H>>)
    requires forall i :: 0 <= i < |actions| && actions[i].EnqueueShare? ==> actions[i].share.difficulty >= 0.0
    ensures EffortKept(Run(c, start, actions), start) && AllWorthy(Run(c, start, actions))
  {
    if actions != [] {
      RunEffort(c, start, actions[..|actions| - 1]);
      StepEffort(c, Run(c, start, actions[..|actions| - 1]), actions[|actions| - 1], start);
    }
  }

  // The shares that count.
  ghost function Counting(shares: seq<Share>): (c: seq<Share>)
    ensures forall share :: share in c <==> share in shares && share.accepted
  {
    Sequences.TakeDrop(shares, if shares == [] then 0 else |shares| - 1);
    if shares == [] then []
    else
      var last := shares[|shares| - 1];
      Counting(shares[..|shares| - 1]) + if last.accepted then [last] else []
  }

  ghost function Difficulty(shares: seq<Share>): real {
    if shares == [] then 0.0 else Difficulty(shares[..|shares| - 1]) + shares[|shares| - 1].difficulty
  }

  lemma {:induction false} AcceptedCount(shares: seq<Share>)
    ensures AcceptedDifficulty(shares) == Difficulty(Counting(shares))
  {
    if shares != [] {
      var before, last := shares[..|shares| - 1], shares[|shares| - 1];
      AcceptedCount(before);
      Sequences.Unit(Counting(before));
      Sequences.TakeAppended(Counting(before), [last]);
    }
  }

  /** What the effort grows by is the difficulty of the committed shares that were accepted, and of no others. */
  lemma RunEffortCounts<P, B, H>(c: Config, start: Effort, actions: seq<Action<P, B, H>>)
    requires forall i :: 0 <= i < |actions| && actions[i].EnqueueShare? ==> actions[i].share.difficulty >= 0.0
    ensures var s := Run(c, start, actions);
            Work(s.effort) == Work(start) + Difficulty(Counting(s.shares.committed))
  {
    RunEffort(c, start, actions);
    AcceptedCount(Run(c, start, actions).shares.committed);
  }

  // ----- what can be read back -----

  // No committed batch repeats the hash of a stored block after new work.
  ghost predicate StepKeeps<P, B, H>(c: Config, s: State<P, B, H>, a: Action<P, B, H>) {
    a.Commit? && s.flushing ==> NoneRepeats(c.coin, AddShares(s.effort, s.shares.batch), s.blocks.batch)
  }

  ghost predicate RunKeeps<P, B, H>(c: Config, start: Effort, actions: seq<Action<P, B, H>>) {
    forall n :: 0 <= n < |actions| ==> StepKeeps(c, Run(c, start, actions[..n]), actions[n])
  }

  // The rows and the accumulator say no more than was committed, and exactly that as long as nothing repeats.
  ghost predicate ReadsBack<P, B, H>(s: State<P, B, H>, start: Effort, exactly: bool) {
    var committed := Visible(start) + AcceptedDifficulty(s.shares.committed);
    s.effort.accum >= 0.0 && Visible(s.effort) <= committed && (Visible(s.effort) == committed <==> exactly)
  }

  lemma StepReadsBack<P, B, H>(c: Config, s: State<P, B, H>, a: Action<P, B, H>, start: Effort, exactly: bool)
    requires ReadsBack(s, start, exactly) && AllWorthy(s)
    ensures ReadsBack(Step(c, s, a), start, exactly && StepKeeps(c, s, a))
  {
    if a.Commit? && s.flushing {
      CommitReadsBack(c, s, start, exactly);
    }
  }

  lemma CommitReadsBack<P, B, H>(c: Config, s: State<P, B, H>, start: Effort, exactly: bool)
    requires ReadsBack(s, start, exactly) && Worthy(s.shares.batch)
    requires s.flushing
    ensures ReadsBack(Step(c, s, Commit), start, exactly && StepKeeps(c, s, Commit))
  {
    DifficultyConcat(s.shares.committed, s.shares.batch);
    TransactVisible(c.coin, s.effort, s.shares.batch, s.blocks.batch);
  }

  // A transaction adds the shares' difficulty to what can be read back, or less.
  lemma TransactVisible(coin: string, e: Effort, shares: seq<Share>, blocks: seq<Block>)
    requires e.accum >= 0.0 && Worthy(shares)
    ensures var t, more := Transact(coin, e, shares, blocks), AcceptedDifficulty(shares);
            && t.accum >= 0.0 && Visible(t) <= Visible(e) + more
            && (Visible(t) == Visible(e) + more <==> NoneRepeats(coin, AddShares(e, shares), blocks))
  {
    DifficultyNonNegative(shares);
    SharesVisible(e, shares);
    BlocksVisible(coin, AddShares(e, shares), blocks);
  }

  lemma SharesVisible(e: Effort, shares: seq<Share>)
    requires AcceptedDifficulty(shares) >= 0.0
    ensures Visible(AddShares(e, shares)) == Visible(e) + AcceptedDifficulty(shares)
    ensures AddShares(e, shares).accum == e.accum + AcceptedDifficulty(shares)
  {}

  lemma KeepsLast<P, B, H>(c: Config, start: Effort, actions: seq<Action<P, B, H>>)
    requires actions != []
    ensures var m := |actions| - 1;
            RunKeeps(c, start, actions)
            <==> RunKeeps(c, start, actions[..m]) && StepKeeps(c, Run(c, start, actions[..m]), actions[m])
  {
    var m := |actions| - 1;
    forall n | 0 <= n < m
      ensures StepKeeps(c, Run(c, start, actions[..m][..n]), actions[..m][n])
              == StepKeeps(c, Run(c, start, actions[..n]), actions[n])
    {
      assert actions[..m][..n] == actions[..n];
    }
  }

  /** Over every run, from whatever table it starts with: the efforts in the stored rows plus the accumulator grow by
      all committed accepted difficulty exactly when no committed parent block repeats a stored hash after new work;
      otherwise they fall short. */
  lemma {:induction false} RunReadsBack<P, B, H>(c: Config, start: Effort, actions: seq<Action<P, B, H>>)
    requires start.accum >= 0.0
    requires forall i :: 0 <= i < |actions| && actions[i].EnqueueShare? ==> actions[i].share.difficulty >= 0.0
    ensures ReadsBack(Run(c, start, actions), start, RunKeeps(c, start, actions))
  {
    if actions != [] {
      var t := actions[..|actions| - 1];
      RunReadsBack(c, start, t);
      RunEffort(c, start, t);
      StepReadsBack(c, Run(c, start, t), actions[|actions| - 1], start, RunKeeps(c, start, t));
      KeepsLast(c, start, actions);
    }
  }

  // ----- the methods -----

  /** Puts a batch back in front of a queue, last record first. */
  method PushBack<T>(batch: seq<T>, queue: seq<T>) returns (result: seq<T>)
    ensures result == batch + queue
  {
    result := queue;
    var i := |batch|;
    while i > 0
      invariant 0 <= i <= |batch| && result == batch[i..] + queue
    {
      i := i - 1;
      result := [batch[i]] + result;
    }
  }

  /** The effort part of the transaction. */
  method FlushEffort(coin: string, e: Effort, shares: seq<Share>, blocks: seq<Block>) returns (r: Effort)
    ensures r == Transact(coin, e, shares, blocks)
  {
    var batchDiff := 0.0;
    for i := 0 to |shares|
      invariant batchDiff == AcceptedDifficulty(shares[..i])
    {
      assert shares[..i + 1][..i] == shares[..i];
      if shares[i].accepted {
        batchDiff := batchDiff + shares[i].difficulty;
      }
    }
    assert shares[..|shares|] == shares;
    r := e;
    if batchDiff > 0.0 {
      r := r.(accum := r.accum + batchDiff);
    }
    for i := 0 to |blocks|
      invariant r == AddBlocks(coin, AddShares(e, shares), blocks[..i])
    {
      assert blocks[..i + 1][..i] == blocks[..i];
      var b := blocks[i];
      var blockCoin := if b.coin == "" then coin else b.coin;
      var isAux := blockCoin != coin;
      var roundEffort := if isAux then 0.0 else r.accum;
      var conflict := HasRow(r.rows, b.hash);
      var rows := if conflict then r.rows else r.rows + [BlockRow(b.hash, blockCoin, roundEffort)];
      if isAux {
        r := r.(rows := rows);
      } else {
        r := Effort(0.0, rows, r.snapshots + [roundEffort]);
      }
    }
    assert blocks[..|blocks|] == blocks;
  }

  // ----- the worker object -----

  datatype Records<P, B, H> = Records(shares: seq<Share>, presences: seq<P>, bests: seq<B>, hashrates: seq<H>,
                                      blocks: seq<Block>)

  function Nothing<P, B, H>(): Records<P, B, H> {
    Records([], [], [], [], [])
  }

  function Both<P, B, H>(x: Records<P, B, H>, y: Records<P, B, H>): Records<P, B, H> {
    Records(x.shares + y.shares, x.presences + y.presences, x.bests + y.bests, x.hashrates + y.hashrates,
            x.blocks + y.blocks)
  }

  // The five lanes of what was accepted, committed, dropped, is being flushed and waits.
  function Lanes<P, B, H>(accepted: Records<P, B, H>, committed: Records<P, B, H>, dropped: Records<P, B, H>,
                          batch: Records<P, B, H>, queued: Records<P, B, H>,
                          effort: Effort, connected: bool, flushing: bool): State<P, B, H> {
    State(Lane(accepted.shares, committed.shares, dropped.shares, batch.shares, queued.shares),
          Lane(accepted.presences, committed.presences, dropped.presences, batch.presences, queued.presences),
          Lane(accepted.bests, committed.bests, dropped.bests, batch.bests, queued.bests),
          Lane(accepted.hashrates, committed.hashrates, dropped.hashrates, batch.hashrates, queued.hashrates),
          Lane(accepted.blocks, committed.blocks, dropped.blocks, batch.blocks, queued.blocks),
          effort, connected, flushing)
  }

  class Worker<P, B, H> {
    const config: Config
    // The five queues shared with the producers, and the batch being flushed.
    var queued: Records<P, B, H>
    var batch: Records<P, B, H>
    var flushing: bool
    var connected: bool
    // The effort row and block table of the database.
    var effort: Effort
    // What the queues accepted, what was committed and what a failed flush dropped.
    ghost var accepted: Records<P, B, H>
    ghost var committed: Records<P, B, H>
    ghost var dropped: Records<P, B, H>

    ghost function Now(): State<P, B, H>
      reads this
    {
      Lanes(accepted, committed, dropped, batch, queued, effort, connected, flushing)
    }

    constructor (c: Config, start: Effort)
      ensures config == c && Now() == Start(start)
    {
      config := c;
      queued, batch := Nothing(), Nothing();
      flushing, connected, effort := false, false, start;
      accepted, committed, dropped := Nothing(), Nothing(), Nothing();
    }

    method EnqueueShare(r: Share) returns (ok: bool)
      modifies this
      ensures Now() == Step(config, old(Now()), Action.EnqueueShare(r)) && ok == (|old(queued.shares)| < config.cap)
    {
      if |queued.shares| >= config.cap {
        return false;
      }
      queued := queued.(shares := queued.shares + [r]);
      accepted := accepted.(shares := accepted.shares + [r]);
      return true;
    }

    method EnqueuePresence(r: P) returns (ok: bool)
      modifies this
      ensures Now() == Step(config, old(Now()), Action.EnqueuePresence(r))
      ensures ok == (|old(queued.presences)| < config.cap)
    {
      if |queued.presences| >= config.cap {
        return false;
      }
      queued := queued.(presences := queued.presences + [r]);
      accepted := accepted.(presences := accepted.presences + [r]);
      return true;
    }

    method EnqueueBest(r: B) returns (ok: bool)
      modifies this
      ensures Now() == Step(config, old(Now()), Action.EnqueueBest(r)) && ok == (|old(queued.bests)| < config.cap)
    {
      if |queued.bests| >= config.cap {
        return false;
      }
      queued := queued.(bests := queued.bests + [r]);
      accepted := accepted.(bests := accepted.bests + [r]);
      return true;
    }

    method EnqueueHashrate(r: H) returns (ok: bool)
      modifies this
      ensures Now() == Step(config, old(Now()), Action.EnqueueHashrate(r))
      ensures ok == (|old(queued.hashrates)| < config.cap)
    {
      if |queued.hashrates| >= config.cap {
        return false;
      }
      queued := queued.(hashrates := queued.hashrates + [r]);
      accepted := accepted.(hashrates := accepted.hashrates + [r]);
      return true;
    }

    method EnqueueBlock(r: Block) returns (ok: bool)
      modifies this
      ensures Now() == Step(config, old(Now()), Action.EnqueueBlock(r)) && ok == (|old(queued.blocks)| < config.cap)
    {
      if |queued.blocks| >= config.cap {
        return false;
      }
      queued := queued.(blocks := queued.blocks + [r]);
      accepted := accepted.(blocks := accepted.blocks + [r]);
      return true;
    }

    method TryReconnect(ok: bool)
      modifies this
      ensures Now() == Step(config, old(Now()), Reconnect(ok))
    {
      if !connected && !flushing {
        connected := ok;
      }
    }

    /** Moves everything queued into the batch; only with a live connection. */
    method DrainQueues()
      requires connected && !flushing
      modifies this
      ensures Now() == Step(config, old(Now()), Drain)
    {
      batch, queued := queued, Nothing();
      flushing := true;
    }

    method CommitBatch()
      requires flushing
      modifies this
      ensures Now() == Step(config, old(Now()), Commit)
    {
      effort := FlushEffort(config.coin, effort, batch.shares, batch.blocks);
      committed := Both(committed, batch);
      batch, flushing := Nothing(), false;
    }

    /** A broken connection: the transaction never committed, so the batch goes back to the front. */
    method RequeueBatch()
      requires flushing
      modifies this
      ensures Now() == Step(config, old(Now()), Break)
    {
      var shares := PushBack(batch.shares, queued.shares);
      var presences := PushBack(batch.presences, queued.presences);
      var bests := PushBack(batch.bests, queued.bests);
      var hashrates := PushBack(batch.hashrates, queued.hashrates);
      var blocks := PushBack(batch.blocks, queued.blocks);
      queued := Records(shares, presences, bests, hashrates, blocks);
      batch, flushing, connected := Nothing(), false, false;
    }

    /** Any other error: requeuing would loop on a poisoned batch, so it is dropped. */
    method DropBatch()
      requires flushing
      modifies this
      ensures Now() == Step(config, old(Now()), Fail)
    {
      dropped := Both(dropped, batch);
      batch, flushing := Nothing(), false;
    }
  }
}
