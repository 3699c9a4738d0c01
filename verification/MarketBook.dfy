/** market_stream.py: the incremental order-book store.  Snapshots replace a book, deltas with contiguous ids
    update it, a gap removes it, and get returns the best levels. */
module MarketBook {
  import opened Options
  import Pricing

  type Key = (string, string)
  type Level = Pricing.Level

  // A level as it arrives; gone marks the exchange's own deletion code.
  datatype Row = Row(price: real, amount: real, gone: bool)

  datatype Book = Book(asks: map<real, real>, bids: map<real, real>, id: Option<int>, updatedMs: int)

  function Amount(row: Row, deleted: bool): real {
    if deleted || row.gone then 0.0 else row.amount
  }

  // A side built from a snapshot: later rows win, empty ones are left out.
  function SideOf(rows: seq<Row>): map<real, real> {
    if rows == [] then map[]
    else
      var row, before := rows[|rows| - 1], SideOf(rows[..|rows| - 1]);
      if Amount(row, false) > 0.0 then before[row.price := Amount(row, false)] else before
  }

  // A side after a delta: an empty row removes its price.
  function Updated(side: map<real, real>, rows: seq<Row>, deleted: bool): map<real, real> {
    if rows == [] then side
    else
      var row, before := rows[|rows| - 1], Updated(side, rows[..|rows| - 1], deleted);
      if Amount(row, deleted) <= 0.0 then before - {row.price} else before[row.price := Amount(row, deleted)]
  }

  ghost predicate Positive(side: map<real, real>) {
    forall p :: p in side ==> side[p] > 0.0
  }

  lemma {:induction false} SidePositive(rows: seq<Row>)
    ensures Positive(SideOf(rows))
  {
    if rows != [] {
      SidePositive(rows[..|rows| - 1]);
    }
  }

  lemma {:induction false} UpdatePositive(side: map<real, real>, rows: seq<Row>, deleted: bool)
    requires Positive(side)
    ensures Positive(Updated(side, rows, deleted))
  {
    if rows != [] {
      UpdatePositive(side, rows[..|rows| - 1], deleted);
    }
  }

  // ----- calls -----

  datatype Call = Replace(key: Key, asks: seq<Row>, bids: seq<Row>, id: Option<int>, now: int)
                 | Apply(key: Key, asks: seq<Row>, bids: seq<Row>, id: Option<int>, deleted: bool, contiguous: bool,
                         now: int)

  function Snapshot(c: Call): Book
    requires c.Replace?
  {
    Book(SideOf(c.asks), SideOf(c.bids), c.id, c.now)
  }

  function Delta(b: Book, c: Call): Book
    requires c.Apply?
  {
    Book(Updated(b.asks, c.asks, c.deleted), Updated(b.bids, c.bids, c.deleted),
         if c.id.Some? then c.id else b.id, c.now)
  }

  datatype Effect = Ignored | Removed | Taken

  // What a delta does to a stored book.
  function EffectOf(b: Book, c: Call): Effect
    requires c.Apply?
  {
    if c.id.Some? && b.id.Some? && c.id.value <= b.id.value then Ignored
    else if c.contiguous && c.id.Some? && b.id.Some? && c.id.value != b.id.value + 1 then Removed
    else Taken
  }

  function Step(books: map<Key, Book>, c: Call): map<Key, Book> {
    match c
    case Replace(key, _, _, _, _) => books[key := Snapshot(c)]
    case Apply(key, _, _, _, _, _, _) =>
      if key !in books then books
      else match EffectOf(books[key], c)
        case Ignored => books
        case Removed => books - {key}
        case Taken => books[key := Delta(books[key], c)]
  }

  function Run(calls: seq<Call>): map<Key, Book> {
    if calls == [] then map[] else Step(Run(calls[..|calls| - 1]), calls[|calls| - 1])
  }

  // ----- where a stored book comes from -----

  // The snapshot and the deltas folded into it, as positions in the run.
  datatype Source = Source(snapshot: nat, deltas: seq<nat>)

  // The sources after the call at position n met these books.
  function NextSources(sources: map<Key, Source>, books: map<Key, Book>, c: Call, n: nat): map<Key, Source> {
    match c
    case Replace(key, _, _, _, _) => sources[key := Source(n, [])]
    case Apply(key, _, _, _, _, _, _) =>
      if key !in books || key !in sources then sources
      else match EffectOf(books[key], c)
        case Ignored => sources
        case Removed => sources - {key}
        case Taken => sources[key := Source(sources[key].snapshot, sources[key].deltas + [n])]
  }

  function Sources(calls: seq<Call>): map<Key, Source> {
    if calls == [] then map[]
    else
      var n := |calls| - 1;
      NextSources(Sources(calls[..n]), Run(calls[..n]), calls[n], n)
  }

  // The calls at these positions are deltas.
  ghost predicate AreDeltas(calls: seq<Call>, at: seq<nat>) {
    forall k :: 0 <= k < |at| ==> at[k] < |calls| && calls[at[k]].Apply?
  }

  function Replayed(calls: seq<Call>, b: Book, at: seq<nat>): Book
    requires AreDeltas(calls, at)
  {
    if at == [] then b else Delta(Replayed(calls, b, at[..|at| - 1]), calls[at[|at| - 1]])
  }

  // A source is a snapshot of the key followed by deltas of the key in order, with no other snapshot since.
  ghost predicate Genuine(calls: seq<Call>, key: Key, s: Source) {
    && s.snapshot < |calls| && calls[s.snapshot].Replace? && calls[s.snapshot].key == key
    && AreDeltas(calls, s.deltas)
    && (forall k :: 0 <= k < |s.deltas| ==> calls[s.deltas[k]].key == key && s.deltas[k] > s.snapshot)
    && (forall j, k :: 0 <= j < k < |s.deltas| ==> s.deltas[j] < s.deltas[k])
    && (forall n :: s.snapshot < n < |calls| && calls[n].Replace? ==> calls[n].key != key)
  }

  lemma {:induction false} ReplayLonger(calls: seq<Call>, c: Call, b: Book, at: seq<nat>)
    requires AreDeltas(calls, at)
    ensures AreDeltas(calls + [c], at) && Replayed(calls + [c], b, at) == Replayed(calls, b, at)
  {
    if at != [] {
      ReplayLonger(calls, c, b, at[..|at| - 1]);
    }
  }

  // What one key's book is and where it comes from.
  ghost predicate Explained(calls: seq<Call>, key: Key) {
    var books, sources := Run(calls), Sources(calls);
    && (key in books <==> key in sources)
    && (key in books ==>
          && Genuine(calls, key, sources[key])
          && books[key] == Replayed(calls, Snapshot(calls[sources[key].snapshot]), sources[key].deltas))
  }

  lemma GenuineLonger(calls: seq<Call>, c: Call, key: Key, s: Source)
    requires Genuine(calls, key, s) && !(c.Replace? && c.key == key)
    ensures Genuine(calls + [c], key, s)
    ensures Replayed(calls + [c], Snapshot(calls[s.snapshot]), s.deltas)
            == Replayed(calls, Snapshot(calls[s.snapshot]), s.deltas)
  {
    ReplayLonger(calls, c, Snapshot(calls[s.snapshot]), s.deltas);
  }

  lemma TakenGenuine(calls: seq<Call>, c: Call, key: Key, s: Source)
    requires Genuine(calls, key, s) && c.Apply? && c.key == key
    ensures Genuine(calls + [c], key, Source(s.snapshot, s.deltas + [|calls|]))
  {
    var more, at := calls + [c], s.deltas + [|calls|];
    assert more[|calls|] == c;
    assert forall k :: 0 <= k < |s.deltas| ==> at[k] == s.deltas[k] && more[at[k]] == calls[s.deltas[k]];
  }

  lemma TakenDelta(calls: seq<Call>, c: Call, key: Key, s: Source)
    requires Genuine(calls, key, s) && c.Apply? && c.key == key
    ensures var t := Source(s.snapshot, s.deltas + [|calls|]);
            && Genuine(calls + [c], key, t)
            && Replayed(calls + [c], Snapshot(calls[s.snapshot]), t.deltas)
               == Delta(Replayed(calls, Snapshot(calls[s.snapshot]), s.deltas), c)
  {
    TakenGenuine(calls, c, key, s);
    ReplayLonger(calls, c, Snapshot(calls[s.snapshot]), s.deltas);
    var at := s.deltas + [|calls|];
    assert at[..|at| - 1] == s.deltas && (calls + [c])[|calls|] == c;
  }

  /** After any run of calls a stored book is its last snapshot with the taken deltas folded in, in order. */
  lemma {:induction false} RunExplained(calls: seq<Call>, key: Key)
    ensures Explained(calls, key)
  {
    if calls != [] {
      var before, c := calls[..|calls| - 1], calls[|calls| - 1];
      RunExplained(before, key);
      assert calls == before + [c];
      StepExplained(before, c, key);
    }
  }

  lemma OneMoreCall(before: seq<Call>, c: Call)
    ensures Run(before + [c]) == Step(Run(before), c)
    ensures Sources(before + [c]) == NextSources(Sources(before), Run(before), c, |before|)
  {
    var calls := before + [c];
    assert calls[..|calls| - 1] == before && calls[|calls| - 1] == c;
  }

  // The call leaves this key alone.
  predicate Untouched(books: map<Key, Book>, c: Call, key: Key) {
    c.key != key || (c.Apply? && (key !in books || EffectOf(books[key], c) == Ignored))
  }

  lemma UntouchedSame(books: map<Key, Book>, sources: map<Key, Source>, c: Call, key: Key, n: nat)
    requires Untouched(books, c, key)
    ensures key in Step(books, c) <==> key in books
    ensures key in books ==> Step(books, c)[key] == books[key]
    ensures key in NextSources(sources, books, c, n) <==> key in sources
    ensures key in sources ==> NextSources(sources, books, c, n)[key] == sources[key]
  {}

  lemma StepExplained(before: seq<Call>, c: Call, key: Key)
    requires Explained(before, key)
    ensures Explained(before + [c], key)
  {
    var books, sources := Run(before), Sources(before);
    OneMoreCall(before, c);
    if Untouched(books, c, key) {
      UntouchedSame(books, sources, c, key, |before|);
      if key in books {
        GenuineLonger(before, c, key, sources[key]);
      }
    } else if c.Replace? {
      assert (before + [c])[|before|] == c;
    } else if EffectOf(books[key], c) == Taken {
      TakenDelta(before, c, key, sources[key]);
      assert (before + [c])[sources[key].snapshot] == before[sources[key].snapshot];
    }
  }

  // ----- contiguous ids -----

  // Snapshots carry ids, deltas carry ids and ask for contiguity.
  ghost predicate Strict(c: Call) {
    c.id.Some? && (c.Apply? ==> c.contiguous)
  }

  // The ids of a book's deltas follow its snapshot's one by one.
  ghost predicate Contiguous(calls: seq<Call>, s: Source, id: Option<int>)
    requires s.snapshot < |calls| && AreDeltas(calls, s.deltas)
  {
    && calls[s.snapshot].id.Some?
    && id == Some(calls[s.snapshot].id.value + |s.deltas|)
    && (forall k :: 0 <= k < |s.deltas| ==> calls[s.deltas[k]].id == Some(calls[s.snapshot].id.value + k + 1))
  }

  /** When every call carries an id and every delta asks for contiguity, a stored book with update id u is its
      last snapshot, with id s, and exactly the deltas s + 1, ..., u: none missing, none twice. */
  lemma {:induction false} RunContiguous(calls: seq<Call>, key: Key)
    requires forall n :: 0 <= n < |calls| ==> Strict(calls[n])
    ensures Explained(calls, key)
    ensures key in Run(calls) ==> Contiguous(calls, Sources(calls)[key], Run(calls)[key].id)
  {
    RunExplained(calls, key);
    if calls != [] {
      var before, c := calls[..|calls| - 1], calls[|calls| - 1];
      RunContiguous(before, key);
      assert calls == before + [c] && Strict(c);
      StepContiguous(before, c, key);
    }
  }

  lemma ContiguousLonger(before: seq<Call>, c: Call, s: Source, id: Option<int>)
    requires s.snapshot < |before| && AreDeltas(before, s.deltas) && Contiguous(before, s, id)
    requires AreDeltas(before + [c], s.deltas)
    ensures Contiguous(before + [c], s, id)
  {}

  lemma ContiguousTaken(before: seq<Call>, c: Call, s: Source, id: int)
    requires s.snapshot < |before| && AreDeltas(before, s.deltas) && Contiguous(before, s, Some(id))
    requires c.Apply? && c.id == Some(id + 1) && AreDeltas(before + [c], s.deltas + [|before|])
    ensures Contiguous(before + [c], Source(s.snapshot, s.deltas + [|before|]), Some(id + 1))
  {
    assert (before + [c])[|before|] == c;
  }

  lemma StepContiguous(before: seq<Call>, c: Call, key: Key)
    requires Explained(before, key) && Strict(c)
    requires key in Run(before) ==> Contiguous(before, Sources(before)[key], Run(before)[key].id)
    requires Explained(before + [c], key)
    ensures key in Run(before + [c]) ==> Contiguous(before + [c], Sources(before + [c])[key], Run(before + [c])[key].id)
  {
    var books, sources := Run(before), Sources(before);
    OneMoreCall(before, c);
    if Untouched(books, c, key) {
      UntouchedSame(books, sources, c, key, |before|);
      if key in books {
        ContiguousLonger(before, c, sources[key], books[key].id);
      }
    } else if c.Replace? {
      assert (before + [c])[|before|] == c;
    } else if EffectOf(books[key], c) == Taken {
      ContiguousTaken(before, c, sources[key], books[key].id.value);
    }
  }

  // ----- when a book is there -----

  predicate DeltaOf(c: Call, key: Key) {
    c.Apply? && c.key == key && c.id.Some?
  }

  function LastSnapshot(calls: seq<Call>, key: Key): (p: Option<nat>)
    ensures p.Some? ==> p.value < |calls| && calls[p.value].Replace? && calls[p.value].key == key
  {
    if calls == [] then None
    else
      var n := |calls| - 1;
      if calls[n].Replace? && calls[n].key == key then Some(n) else LastSnapshot(calls[..n], key)
  }

  // The delta at n follows the snapshot at p, with id s, or some delta that came after it.
  ghost predicate Follows(calls: seq<Call>, key: Key, p: nat, s: int, n: nat)
    requires n < |calls| && DeltaOf(calls[n], key)
  {
    calls[n].id.value <= s + 1 || exists m :: p < m < n && Precedes(calls[m], calls[n], key)
  }

  predicate Precedes(c: Call, next: Call, key: Key)
    requires next.id.Some?
  {
    DeltaOf(c, key) && c.id.value == next.id.value - 1
  }

  ghost predicate NoGap(calls: seq<Call>, key: Key, p: nat, s: int) {
    forall n :: p < n < |calls| && DeltaOf(calls[n], key) ==> Follows(calls, key, p, s, n)
  }

  ghost predicate Present(calls: seq<Call>, key: Key) {
    var p := LastSnapshot(calls, key);
    p.Some? && calls[p.value].id.Some? && NoGap(calls, key, p.value, calls[p.value].id.value)
  }

  // A stored book has seen no id above its own.
  ghost predicate SeenUpTo(calls: seq<Call>, key: Key, p: nat, u: int) {
    forall n :: p < n < |calls| && DeltaOf(calls[n], key) ==> calls[n].id.value <= u
  }

  ghost predicate UpToDate(calls: seq<Call>, key: Key) {
    key in Run(calls) ==>
      && LastSnapshot(calls, key).Some? && Run(calls)[key].id.Some?
      && SeenUpTo(calls, key, LastSnapshot(calls, key).value, Run(calls)[key].id.value)
  }

  lemma LastOneMore(before: seq<Call>, c: Call, key: Key)
    ensures LastSnapshot(before + [c], key)
            == if c.Replace? && c.key == key then Some(|before|) else LastSnapshot(before, key)
  {
    var calls := before + [c];
    assert calls[..|calls| - 1] == before;
  }

  lemma {:induction false} LastIs(calls: seq<Call>, key: Key, p: nat)
    requires p < |calls| && calls[p].Replace? && calls[p].key == key
    requires forall n :: p < n < |calls| && calls[n].Replace? ==> calls[n].key != key
    ensures LastSnapshot(calls, key) == Some(p)
  {
    var n := |calls| - 1;
    if p < n {
      LastIs(calls[..n], key, p);
    }
  }

  lemma GapOneMore(before: seq<Call>, c: Call, key: Key, p: nat, s: int)
    requires p < |before|
    ensures NoGap(before + [c], key, p, s)
            <==> NoGap(before, key, p, s) && (DeltaOf(c, key) ==> Follows(before + [c], key, p, s, |before|))
  {
    var calls := before + [c];
    forall n | p < n < |before| && DeltaOf(before[n], key)
      ensures Follows(calls, key, p, s, n) <==> Follows(before, key, p, s, n)
    {
      if m :| p < m < n && Precedes(calls[m], calls[n], key) {
        assert Precedes(before[m], before[n], key);
      }
      if m :| p < m < n && Precedes(before[m], before[n], key) {
        assert Precedes(calls[m], calls[n], key);
      }
    }
    assert calls[|before|] == c;
    assert forall n :: 0 <= n < |before| ==> calls[n] == before[n];
  }

  /** A contiguous delta removes the book exactly when its id skips one, and otherwise takes the id or leaves it. */
  lemma GapRemoves(books: map<Key, Book>, c: Call)
    requires c.Apply? && c.contiguous && c.key in books && c.id.Some? && books[c.key].id.Some?
    ensures c.key !in Step(books, c) <==> c.id.value > books[c.key].id.value + 1
    ensures c.key in Step(books, c) ==>
              Step(books, c)[c.key].id == Some(if c.id.value > books[c.key].id.value then c.id.value
                                               else books[c.key].id.value)
  {}

  lemma SeenOneMore(before: seq<Call>, c: Call, key: Key, p: nat, u: int, v: int)
    requires SeenUpTo(before, key, p, u) && u <= v && (DeltaOf(c, key) ==> c.id.value <= v)
    ensures SeenUpTo(before + [c], key, p, v)
  {
    var calls := before + [c];
    assert forall n :: 0 <= n < |calls| ==> calls[n] == if n < |before| then before[n] else c;
  }

  lemma StepUpToDate(before: seq<Call>, c: Call, key: Key)
    requires UpToDate(before, key) && Strict(c)
    ensures UpToDate(before + [c], key)
  {
    var books := Run(before);
    OneMoreCall(before, c);
    LastOneMore(before, c, key);
    if key in Run(before + [c]) && !(c.Replace? && c.key == key) {
      var u := books[key].id.value;
      if DeltaOf(c, key) {
        GapRemoves(books, c);
      }
      SeenOneMore(before, c, key, LastSnapshot(before, key).value, u, Run(before + [c])[key].id.value);
    }
  }

  // Where a book is, a delta follows exactly when it leaves the book there.
  lemma FollowsUpTo(calls: seq<Call>, key: Key, s: Source, u: int, n: nat)
    requires s.snapshot < n < |calls| && DeltaOf(calls[n], key) && AreDeltas(calls, s.deltas)
    requires Contiguous(calls, s, Some(u)) && SeenUpTo(calls[..n], key, s.snapshot, u)
    requires forall k :: 0 <= k < |s.deltas| ==> calls[s.deltas[k]].key == key && s.snapshot < s.deltas[k] < n
    ensures Follows(calls, key, s.snapshot, calls[s.snapshot].id.value, n) <==> calls[n].id.value <= u + 1
  {
    var first, id := calls[s.snapshot].id.value, calls[n].id.value;
    if first + 1 < id <= u + 1 {
      var k := id - first - 2;
      assert Precedes(calls[s.deltas[k]], calls[n], key);
    }
    if m :| s.snapshot < m < n && Precedes(calls[m], calls[n], key) {
      assert calls[..n][m] == calls[m];
    }
  }

  lemma DeltaStays(before: seq<Call>, c: Call, key: Key)
    requires Explained(before, key) && UpToDate(before, key) && Strict(c) && DeltaOf(c, key) && key in Run(before)
    requires Contiguous(before, Sources(before)[key], Run(before)[key].id)
    ensures LastSnapshot(before, key).Some? && before[LastSnapshot(before, key).value].id.Some?
    ensures (before + [c])[|before|] == c
    ensures var p := LastSnapshot(before, key).value;
            key in Step(Run(before), c) <==> Follows(before + [c], key, p, before[p].id.value, |before|)
  {
    var calls, books, s := before + [c], Run(before), Sources(before)[key];
    LastIs(before, key, s.snapshot);
    GapRemoves(books, c);
    ContiguousLonger(before, c, s, books[key].id);
    assert calls[..|before|] == before && calls[|before|] == c && calls[s.snapshot] == before[s.snapshot];
    FollowsUpTo(calls, key, s, books[key].id.value, |before|);
  }

  lemma SnapshotPresent(before: seq<Call>, c: Call, key: Key)
    requires Strict(c) && c.Replace? && c.key == key
    ensures Present(before + [c], key)
  {
    LastOneMore(before, c, key);
    assert (before + [c])[|before|] == c;
  }

  lemma PresentOneMore(before: seq<Call>, c: Call, key: Key)
    requires !(c.Replace? && c.key == key)
    ensures (before + [c])[|before|] == c
    ensures Present(before + [c], key) <==>
              && Present(before, key)
              && var p := LastSnapshot(before, key).value;
                 DeltaOf(c, key) ==> Follows(before + [c], key, p, before[p].id.value, |before|)
  {
    LastOneMore(before, c, key);
    assert (before + [c])[|before|] == c;
    if LastSnapshot(before, key).Some? {
      var p := LastSnapshot(before, key).value;
      assert (before + [c])[p] == before[p];
      if before[p].id.Some? {
        GapOneMore(before, c, key, p, before[p].id.value);
      }
    }
  }

  lemma StepPresent(before: seq<Call>, c: Call, key: Key)
    requires Explained(before, key) && UpToDate(before, key) && Strict(c)
    requires key in Run(before) ==> Contiguous(before, Sources(before)[key], Run(before)[key].id)
    requires key in Run(before) <==> Present(before, key)
    ensures key in Run(before + [c]) <==> Present(before + [c], key)
  {
    OneMoreCall(before, c);
    if c.Replace? && c.key == key {
      SnapshotPresent(before, c, key);
    } else {
      PresentOneMore(before, c, key);
      if DeltaOf(c, key) && key in Run(before) {
        DeltaStays(before, c, key);
      }
    }
  }

  /** When every call carries an id and every delta asks for contiguity, a book is stored exactly when it had a snapshot
      and since the last one each delta's id was at most one above the snapshot's or that of an earlier delta; a gap
      removes it until the next snapshot. */
  lemma {:induction false} RunPresent(calls: seq<Call>, key: Key)
    requires forall n :: 0 <= n < |calls| ==> Strict(calls[n])
    ensures UpToDate(calls, key) && (key in Run(calls) <==> Present(calls, key))
  {
    if calls != [] {
      var before, c := calls[..|calls| - 1], calls[|calls| - 1];
      assert calls == before + [c];
      RunPresent(before, key);
      RunContiguous(before, key);
      StepUpToDate(before, c, key);
      StepPresent(before, c, key);
    }
  }

  ghost predicate BooksPositive(books: map<Key, Book>) {
    forall key :: key in books ==> Positive(books[key].asks) && Positive(books[key].bids)
  }

  lemma {:induction false} RunPositive(calls: seq<Call>)
    ensures BooksPositive(Run(calls))
  {
    if calls != [] {
      var books, c := Run(calls[..|calls| - 1]), calls[|calls| - 1];
      RunPositive(calls[..|calls| - 1]);
      SidePositive(c.asks);
      SidePositive(c.bids);
      if c.key in books && c.Apply? {
        UpdatePositive(books[c.key].asks, c.asks, c.deleted);
        UpdatePositive(books[c.key].bids, c.bids, c.deleted);
      }
    }
  }

  // ----- the best levels -----

  // Better first: lower asks, higher bids.
  predicate Better(x: real, y: real, asks: bool) {
    if asks then x < y else x > y
  }

  ghost predicate Listed(levels: seq<Level>, p: real) {
    exists i :: 0 <= i < |levels| && levels[i].price == p
  }

  /** The best n levels of a side, best first: strictly ordered, each as stored, and every other stored price is
      worse than all of them. */
  ghost predicate IsTop(levels: seq<Level>, side: map<real, real>, n: nat, asks: bool) {
    && |levels| == (if |side| < n then |side| else n)
    && (forall i :: 0 <= i < |levels| ==> levels[i].price in side && side[levels[i].price] == levels[i].amount)
    && (forall i, j :: 0 <= i < j < |levels| ==> Better(levels[i].price, levels[j].price, asks))
    && (forall p, i :: p in side && !Listed(levels, p) && 0 <= i < |levels| ==> Better(levels[i].price, p, asks))
  }

  /** There is only one such list. */
  lemma {:induction false} TopUnique(x: seq<Level>, y: seq<Level>, side: map<real, real>, n: nat, asks: bool)
    requires IsTop(x, side, n, asks) && IsTop(y, side, n, asks)
    ensures x == y
  {
    var k := 0;
    while k < |x|
      invariant 0 <= k <= |x| && x[..k] == y[..k]
    {
      FirstBest(x, y, side, n, asks, k);
      FirstBest(y, x, side, n, asks, k);
      k := k + 1;
    }
    assert x == x[..k] && y == y[..k];
  }

  // After an equal beginning the next price of one list is no worse than that of the other.
  lemma FirstBest(x: seq<Level>, y: seq<Level>, side: map<real, real>, n: nat, asks: bool, k: nat)
    requires IsTop(x, side, n, asks) && IsTop(y, side, n, asks) && k < |x| && x[..k] == y[..k]
    ensures y[k].price == x[k].price || Better(y[k].price, x[k].price, asks)
  {
    var p := x[k].price;
    forall i | 0 <= i < k
      ensures y[i].price != p
    {
      assert y[..k][i] == x[..k][i];
      assert Better(x[i].price, x[k].price, asks);
    }
    if Listed(y, p) {
      var i :| 0 <= i < |y| && y[i].price == p;
      assert i >= k;
    }
  }

  ghost predicate Ordered(l: seq<Level>, asks: bool) {
    forall i, j :: 0 <= i < j < |l| ==> if asks then l[i].price < l[j].price else l[i].price > l[j].price
  }

  lemma {:induction false} LiveOrdered(levels: seq<Level>, asks: bool)
    requires Ordered(levels, asks)
    ensures Ordered(Pricing.Live(levels), asks)
  {
    if levels != [] {
      LiveOrdered(levels[1..], asks);
      var t := Pricing.Live(levels[1..]);
      forall j | 0 <= j < |t|
        ensures if asks then levels[0].price < t[j].price else levels[0].price > t[j].price
      {
        assert t[j] in t && t[j] in levels[1..];
        var k :| 0 <= k < |levels[1..]| && levels[1..][k] == t[j];
        assert levels[1..][k] == levels[k + 1];
      }
    }
  }

  /** What get returns after any run is fit for pricing and execution: positive amounts, and best first on both
      sides. */
  lemma ServedBestFirst(calls: seq<Call>, key: Key, asks: seq<Level>, bids: seq<Level>, n: nat)
    requires key in Run(calls)
    requires IsTop(asks, Run(calls)[key].asks, n, true) && IsTop(bids, Run(calls)[key].bids, n, false)
    ensures Pricing.Positive(asks) && Pricing.Positive(bids)
    ensures Pricing.Ascending(Pricing.Live(asks)) && Pricing.Descending(Pricing.Live(bids))
  {
    RunPositive(calls);
    LiveOrdered(asks, true);
    LiveOrdered(bids, false);
  }

  lemma SomeMember(s: set<real>)
    requires s != {}
    ensures exists p :: p in s
  {
    assert (forall p: real :: p !in s) ==> s == {};
  }

  // ----- the store -----

  class OrderBookStore {
    const maxLevels: nat
    var books: map<Key, Book>

    constructor (levels: nat)
      ensures maxLevels == levels && books == Run([])
    {
      maxLevels, books := levels, map[];
    }

    method BuildSide(rows: seq<Row>) returns (side: map<real, real>)
      ensures side == SideOf(rows)
    {
      side := map[];
      for i := 0 to |rows|
        invariant side == SideOf(rows[..i])
      {
        assert rows[..i + 1][..i] == rows[..i];
        var amount := Amount(rows[i], false);
        if amount > 0.0 {
          side := side[rows[i].price := amount];
        }
      }
      assert rows[..|rows|] == rows;
    }

    method ReplaceBook(c: Call)
      requires c.Replace?
      modifies this
      ensures books == Step(old(books), c)
    {
      var asks := BuildSide(c.asks);
      var bids := BuildSide(c.bids);
      books := books[c.key := Book(asks, bids, c.id, c.now)];
    }

    method UpdateSide(side: map<real, real>, rows: seq<Row>, deleted: bool) returns (result: map<real, real>)
      ensures result == Updated(side, rows, deleted)
    {
      result := side;
      for i := 0 to |rows|
        invariant result == Updated(side, rows[..i], deleted)
      {
        assert rows[..i + 1][..i] == rows[..i];
        var amount := Amount(rows[i], deleted);
        if amount <= 0.0 {
          result := result - {rows[i].price};
        } else {
          result := result[rows[i].price := amount];
        }
      }
      assert rows[..|rows|] == rows;
    }

    method ApplyDelta(c: Call) returns (applied: bool)
      requires c.Apply?
      modifies this
      ensures books == Step(old(books), c)
      ensures applied == (c.key in old(books) && EffectOf(old(books)[c.key], c) == Taken)
    {
      if c.key !in books {
        return false;
      }
      var book := books[c.key];
      var previous := book.id;
      if c.id.Some? && previous.Some? && c.id.value <= previous.value {
        return false;
      }
      if c.contiguous && c.id.Some? && previous.Some? && c.id.value != previous.value + 1 {
        books := books - {c.key};
        return false;
      }
      var asks := UpdateSide(book.asks, c.asks, c.deleted);
      var bids := UpdateSide(book.bids, c.bids, c.deleted);
      books := books[c.key := Book(asks, bids, if c.id.Some? then c.id else previous, c.now)];
      return true;
    }

    method BestOf(side: map<real, real>, left: set<real>, asks: bool) returns (best: real)
      requires left <= side.Keys && left != {}
      ensures best in left && forall p :: p in left ==> p == best || Better(best, p, asks)
    {
      SomeMember(left);
      best :| best in left;
      var rest := left - {best};
      while rest != {}
        invariant rest <= left && best in left && best !in rest
        invariant forall p :: p in left && p !in rest ==> p == best || Better(best, p, asks)
        decreases |rest|
      {
        SomeMember(rest);
        var p :| p in rest;
        rest := rest - {p};
        if Better(p, best, asks) {
          best := p;
        }
      }
    }

    /** The sorted side cut to n levels. */
    method TopLevels(side: map<real, real>, n: nat, asks: bool) returns (levels: seq<Level>)
      ensures IsTop(levels, side, n, asks)
    {
      levels := [];
      var left := side.Keys;
      while left != {} && |levels| < n
        invariant left <= side.Keys && |levels| + |left| == |side| && |levels| <= n
        invariant forall p :: p in side <==> p in left || Listed(levels, p)
        invariant forall i :: 0 <= i < |levels| ==> levels[i].price in side && side[levels[i].price] == levels[i].amount
        invariant forall i, j :: 0 <= i < j < |levels| ==> Better(levels[i].price, levels[j].price, asks)
        invariant forall p, i :: p in left && 0 <= i < |levels| ==> Better(levels[i].price, p, asks)
        decreases |left|
      {
        var best := BestOf(side, left, asks);
        ghost var before := levels;
        levels := levels + [Pricing.Level.Level(best, side[best])];
        left := left - {best};
        assert forall p :: Listed(levels, p) <==> Listed(before, p) || p == best by {
          assert levels[|before|].price == best;
          assert forall i :: 0 <= i < |before| ==> levels[i] == before[i];
        }
      }
    }

    /** None when there is no book or it is too old. */
    method Get(key: Key, maxAgeMs: int, now: int) returns (result: Option<(seq<Level>, seq<Level>)>)
      ensures result.Some? <==> key in books && now - books[key].updatedMs <= maxAgeMs
      ensures result.Some? ==> IsTop(result.value.0, books[key].asks, maxLevels, true)
                               && IsTop(result.value.1, books[key].bids, maxLevels, false)
    {
      if key !in books || now - books[key].updatedMs > maxAgeMs {
        return None;
      }
      var asks := TopLevels(books[key].asks, maxLevels, true);
      var bids := TopLevels(books[key].bids, maxLevels, false);
      return Some((asks, bids));
    }
  }
}
