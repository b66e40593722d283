/** From orders to a dashboard: what a client of the snapshot and delta stream sees of a real book. */
module MarketData {
  import opened Domain
  import opened BookSpec
  import opened BookRuns
  import opened DepthTheory
  import opened BookStream

  /** The snapshots delivered after the first `cuts[i]` operations of one run. */
  ghost predicate Sampled(snapshots: seq<Snapshot>, backend: Backend, symbol: Symbol, ops: seq<Op>, cuts: seq<nat>, depth: nat) {
    && |cuts| == |snapshots| && (forall i, j :: 0 <= i <= j < |cuts| ==> cuts[i] <= cuts[j])
    && forall i :: 0 <= i < |snapshots| ==>
         cuts[i] <= |ops| && snapshots[i] == backend.Deliver(TakeSnapshot(After(backend, Empty(symbol), ops[..cuts[i]]).book, depth))
  }

  /** A C++ book's sequence reaches the service in 32 bits. */
  predicate SequencesFit(backend: Backend, symbol: Symbol, ops: seq<Op>) {
    backend.Native? ==> After(backend, Empty(symbol), ops).book.sequence < WORD
  }

  lemma {:induction false} SequenceGrows(backend: Backend, s: State, ops: seq<Op>)
    ensures s.book.sequence <= After(backend, s, ops).book.sequence
    decreases |ops|
  {
    if ops != [] {
      StepSequence(backend, s, ops[0]);
      SequenceGrows(backend, Step(backend, s, ops[0]), ops[1..]);
    }
  }

  /** Later snapshots never have smaller sequence numbers, as long as C++'s fit the frame. */
  lemma {:induction false} SampledInOrder(snapshots: seq<Snapshot>, backend: Backend, symbol: Symbol, ops: seq<Op>, cuts: seq<nat>, depth: nat)
    requires Sampled(snapshots, backend, symbol, ops, cuts, depth) && SequencesFit(backend, symbol, ops)
    ensures NonDecreasing(snapshots)
  {
    hide TakeSnapshot, Wrapped, Step;
    forall i, j | 0 <= i <= j < |snapshots|
      ensures snapshots[i].sequence <= snapshots[j].sequence
    {
      var a, b, c := ops[..cuts[i]], ops[cuts[i]..cuts[j]], ops[cuts[j]..];
      assert ops[..cuts[j]] == a + b && ops == (a + b) + c;
      AfterConcat(backend, Empty(symbol), a, b);
      AfterConcat(backend, Empty(symbol), a + b, c);
      SequenceGrows(backend, After(backend, Empty(symbol), a), b);
      SequenceGrows(backend, After(backend, Empty(symbol), a + b), c);
      DeliveredSequence(backend, After(backend, Empty(symbol), a).book, depth);
      DeliveredSequence(backend, After(backend, Empty(symbol), a + b).book, depth);
    }
  }

  lemma {:induction false} DeliveredSequence(backend: Backend, book: Book, depth: nat)
    requires backend.Native? ==> book.sequence < WORD
    ensures backend.Deliver(TakeSnapshot(book, depth)).sequence == book.sequence
  {
    hide Levels, Wrapped;
  }

  lemma {:induction false} RowsFrom(levels: seq<Level>)
    ensures forall p :: p in AsMap(levels) ==> AsMap(levels)[p] in levels
  {
    if levels != [] {
      RowsFrom(levels[..|levels| - 1]);
    }
  }

  /** One side of a picture: at every price shown, the volume and the number of the orders there, in the backend's words. */
  ghost predicate PictureOf(backend: Backend, picture: map<Price, Level>, queue: seq<OrderRec>) {
    forall p :: p in picture ==>
      && picture[p].price == p
      && picture[p].quantity == backend.Word(VolumeAt(queue, p)) && VolumeAt(queue, p) > 0
      && picture[p].count == backend.Word(CountAt(queue, p)) && CountAt(queue, p) > 0
  }

  lemma {:induction false} TruthfulRows(backend: Backend, rows: seq<Level>, queue: seq<OrderRec>)
    requires ShownTruly(backend, rows, queue)
    ensures PictureOf(backend, AsMap(rows), queue)
  {
    RowsFrom(rows);
    AsMapPrices(rows);
    hide VolumeAt, CountAt, AsMap;
    forall p | p in AsMap(rows)
      ensures var row := AsMap(rows)[p];
              row.price == p && row.quantity == backend.Word(VolumeAt(queue, p)) && VolumeAt(queue, p) > 0
              && row.count == backend.Word(CountAt(queue, p)) && CountAt(queue, p) > 0
    {
      var i :| 0 <= i < |rows| && rows[i] == AsMap(rows)[p];
    }
  }

  lemma {:induction false} CompleteRows(levels: seq<Level>, queue: seq<OrderRec>)
    requires DepthTheory.Complete(levels, queue)
    ensures forall i :: 0 <= i < |queue| ==> queue[i].Px() in AsMap(levels)
  {
    AsMapPrices(levels);
    forall i | 0 <= i < |queue|
      ensures queue[i].Px() in AsMap(levels)
    {
      assert Shows(levels, queue[i].Px());
    }
  }

  /** What a client that shows the snapshot taken after `n` operations knows of the book then. */
  lemma {:induction false} PictureTrue(backend: Backend, symbol: Symbol, ops: seq<Op>, n: nat, depth: nat)
    requires Admissible(backend, Empty(symbol), ops) && n <= |ops|
    ensures var book := After(backend, Empty(symbol), ops[..n]).book;
            var shot := backend.Deliver(TakeSnapshot(book, depth));
            var picture := Showing(shot);
            && PictureOf(backend, picture.bids, book.bids) && PictureOf(backend, picture.asks, book.asks)
            && (|shot.bids| < depth ==> forall i :: 0 <= i < |book.bids| ==> book.bids[i].Px() in picture.bids)
            && (|shot.asks| < depth ==> forall i :: 0 <= i < |book.asks| ==> book.asks[i].Px() in picture.asks)
  {
    assert ops == ops[..n] + ops[n..];
    AdmissibleConcat(backend, Empty(symbol), ops[..n], ops[n..]);
    SnapshotsTellTheTruth(backend, symbol, ops[..n], depth);
    var book := After(backend, Empty(symbol), ops[..n]).book;
    var shot := backend.Deliver(TakeSnapshot(book, depth));
    hide TakeSnapshot, After, Admissible, ShownTruly, DepthTheory.Complete, StrictlySorted, PictureOf, WrapSnapshot, FromTheTop;
    TruthfulRows(backend, shot.bids, book.bids);
    TruthfulRows(backend, shot.asks, book.asks);
    if |shot.bids| < depth {
      CompleteRows(shot.bids, book.bids);
    }
    if |shot.asks| < depth {
      CompleteRows(shot.asks, book.asks);
    }
  }

  // ---------- levels that vanish ----------

  /** No row that is new or changed on a side has a volume the backend shows as 0. */
  ghost predicate StaysVisible(backend: Backend, was: map<Price, Level>, now: map<Price, Level>, queue: seq<OrderRec>) {
    forall p :: p in now && At(was, p) != At(now, p) ==> backend.Word(VolumeAt(queue, p)) != 0
  }

  /** Between one sampled snapshot and the next no level vanishes: in C++, no new or changed level shown has a volume divisible by 2^32. */
  ghost predicate NothingVanishes(snapshots: seq<Snapshot>, backend: Backend, symbol: Symbol, ops: seq<Op>, cuts: seq<nat>)
    requires |cuts| == |snapshots| && forall i :: 0 <= i < |cuts| ==> cuts[i] <= |ops|
  {
    forall i :: 0 < i < |snapshots| ==>
      var book := After(backend, Empty(symbol), ops[..cuts[i]]).book;
      var was, now := Showing(snapshots[i - 1]), Showing(snapshots[i]);
      StaysVisible(backend, was.bids, now.bids, book.bids) && StaysVisible(backend, was.asks, now.asks, book.asks)
  }

  lemma {:induction false} VisibleIff(backend: Backend, was: map<Price, Level>, now: map<Price, Level>, queue: seq<OrderRec>)
    requires PictureOf(backend, now, queue)
    ensures StaysVisible(backend, was, now, queue) <==> NoEmptyRow(was, now)
    ensures backend.Python? ==> NoEmptyRow(was, now)
  {
    hide VolumeAt, CountAt;
  }

  lemma {:induction false} NeverEmptyIff(snapshots: seq<Snapshot>, backend: Backend, symbol: Symbol, ops: seq<Op>, cuts: seq<nat>, depth: nat)
    requires Admissible(backend, Empty(symbol), ops) && Sampled(snapshots, backend, symbol, ops, cuts, depth)
    ensures NeverEmpty(snapshots) <==> NothingVanishes(snapshots, backend, symbol, ops, cuts)
    ensures backend.Python? ==> NeverEmpty(snapshots)
  {
    hide Admissible, After, TakeSnapshot, PictureOf, StaysVisible, NoEmptyRow, AsMap, Backend.Deliver;
    forall i | 0 < i < |snapshots|
      ensures var book := After(backend, Empty(symbol), ops[..cuts[i]]).book;
              var was, now := Showing(snapshots[i - 1]), Showing(snapshots[i]);
              && (StaysVisible(backend, was.bids, now.bids, book.bids) <==> NoEmptyRow(was.bids, now.bids))
              && (StaysVisible(backend, was.asks, now.asks, book.asks) <==> NoEmptyRow(was.asks, now.asks))
              && (backend.Python? ==> NoEmptyRow(was.bids, now.bids) && NoEmptyRow(was.asks, now.asks))
    {
      PictureTrue(backend, symbol, ops, cuts[i], depth);
      var book := After(backend, Empty(symbol), ops[..cuts[i]]).book;
      var was, now := Showing(snapshots[i - 1]), Showing(snapshots[i]);
      VisibleIff(backend, was.bids, now.bids, book.bids);
      VisibleIff(backend, was.asks, now.asks, book.asks);
    }
  }

  /**
   Clients of snapshots sampled anywhere along any run, both those that receive every
   message and those that join late, show the sampled books exactly when no level
   vanishes. A C++ stream must also stay below sequence 2^32.
   */
  lemma {:induction false} DashboardConvergesIff(snapshots: seq<Snapshot>, messages: seq<Message>, backend: Backend, symbol: Symbol, ops: seq<Op>,
                                                 cuts: seq<nat>, depth: nat)
    requires Admissible(backend, Empty(symbol), ops) && Sampled(snapshots, backend, symbol, ops, cuts, depth)
    requires Stream(snapshots, messages)
    ensures AlwaysReplays(snapshots, messages) <==> NothingVanishes(snapshots, backend, symbol, ops, cuts)
    ensures SequencesFit(backend, symbol, ops) ==>
              (AlwaysJoins(snapshots, messages) <==> NothingVanishes(snapshots, backend, symbol, ops, cuts))
  {
    hide Stream, NeverEmpty, NonDecreasing, Admissible, AlwaysReplays, AlwaysJoins, NothingVanishes, SequencesFit, After;
    NeverEmptyIff(snapshots, backend, symbol, ops, cuts, depth);
    StreamReplaysIff(snapshots, messages);
    if SequencesFit(backend, symbol, ops) {
      SampledInOrder(snapshots, backend, symbol, ops, cuts, depth);
      LateJoinersConvergeIff(snapshots, messages);
    }
  }

  /** Streams of the Python book converge without further conditions. */
  lemma {:induction false} DashboardConverges(snapshots: seq<Snapshot>, messages: seq<Message>, symbol: Symbol, ops: seq<Op>, cuts: seq<nat>, depth: nat)
    requires Admissible(Python, Empty(symbol), ops) && Sampled(snapshots, Python, symbol, ops, cuts, depth)
    requires Stream(snapshots, messages)
    ensures AlwaysReplays(snapshots, messages) && AlwaysJoins(snapshots, messages)
  {
    hide Stream, NeverEmpty, Admissible, AlwaysReplays, AlwaysJoins, NothingVanishes, After;
    NeverEmptyIff(snapshots, Python, symbol, ops, cuts, depth);
    DashboardConvergesIff(snapshots, messages, Python, symbol, ops, cuts, depth);
  }

  // ---------- a level that vanishes ----------

  /** A sell order of half a word: 2^31 at 10.0. */
  function Half(id: OrderId, symbol: Symbol): OrderRec {
    OrderRec(id, symbol, Sell, Limit, Some(10.0), 0x8000_0000, GTC, 0, Pending)
  }

  function TwoHalves(symbol: Symbol): seq<Op> { [SubmitOp(Half(1, symbol)), SubmitOp(Half(2, symbol))] }

  lemma {:induction false} HalfRests(symbol: Symbol, asks: seq<OrderRec>, sequence: nat, id: OrderId)
    requires asks == [] || asks == [Half(1, symbol).(status := Open)]
    ensures var book := Book(symbol, [], asks, sequence);
            Submit(book, Half(id, symbol), Some(10.0)).0 == Book(symbol, [], asks + [Half(id, symbol).(status := Open)], sequence + 1)
  {
    var order := Half(id, symbol);
    assert Match(order, Some(10.0), []) == Sweep(order, [], [], []);
    assert Rank(asks, Sell, 10.0) == |asks|;
  }

  lemma {:induction false} HalvesRest(symbol: Symbol)
    ensures var ops := TwoHalves(symbol);
            var one, two := Half(1, symbol).(status := Open), Half(2, symbol).(status := Open);
            && Admissible(Native, Empty(symbol), ops) && Admissible(Native, Empty(symbol), ops[..1])
            && After(Native, Empty(symbol), ops[..1]).book == Book(symbol, [], [one], 1)
            && After(Native, Empty(symbol), ops).book == Book(symbol, [], [one, two], 2)
  {
    hide Submit;
    var ops := TwoHalves(symbol);
    var one, two := Half(1, symbol).(status := Open), Half(2, symbol).(status := Open);
    HalfRests(symbol, [], 0, 1);
    HalfRests(symbol, [one], 1, 2);
    assert [] + [one] == [one] && [one] + [two] == [one, two];
    var s := Step(Native, Empty(symbol), ops[0]);
    assert ops[..1] == [ops[0]] && ops[1..] == [ops[1]];
    assert [ops[0]][1..] == [] && [ops[1]][1..] == [];
    assert Admissible(Native, s, [ops[1]]);
    assert After(Native, s, [ops[1]]) == Step(Native, s, ops[1]);
  }

  /** Two orders at one price, and one alone, as rows. */
  lemma {:induction false} TwoAsRows(a: OrderRec, b: OrderRec)
    requires a.Px() == b.Px()
    ensures Levels([]) == [] && Levels([a]) == [Level(a.Px(), a.Remaining(), 1)] && Levels([a, b]) == [Level(a.Px(), a.Remaining() + b.Remaining(), 2)]
    ensures VolumeAt([a, b], a.Px()) == a.Remaining() + b.Remaining()
  {
    var both, one, two := [a, b], [a], [b];
    assert both[1..] == two && two[1..] == [] && one[1..] == [];
    assert Run(two, a.Px()) == 1 && Run(both, a.Px()) == 2 && Run(one, a.Px()) == 1;
    assert both[..2] == both && one[..1] == one && both[2..] == [];
    assert Volume(two) == b.Remaining();
    assert Volume(both) == both[0].Remaining() + Volume(both[1..]);
    assert VolumeAt(two, a.Px()) == b.Remaining();
  }

  /**
   Two orders that the C++ book takes and keeps, after which it shows their level
   with volume 0: whatever delta is projected, the client drops the level.
   */
  lemma {:induction false} VanishingLevel(symbol: Symbol, message: Message, depth: nat)
    requires depth > 0
    ensures var ops := TwoHalves(symbol);
            var book := After(Native, Empty(symbol), ops).book;
            var first := Native.Deliver(TakeSnapshot(After(Native, Empty(symbol), ops[..1]).book, depth));
            var second := Native.Deliver(TakeSnapshot(book, depth));
            && Admissible(Native, Empty(symbol), ops) && |book.asks| == 2 && VolumeAt(book.asks, 10.0) == 0x1_0000_0000
            && second.asks == [Level(10.0, 0, 2)]
            && (Projected(Some(first), second, message) ==> 10.0 !in Patch(Showing(first).asks, message.asks))
  {
    HalvesRest(symbol);
    var one, two := Half(1, symbol).(status := Open), Half(2, symbol).(status := Open);
    TwoAsRows(one, two);
    hide Admissible, After, Patch, IsDiff, Levels, VolumeAt;
    var book := Book(symbol, [], [one, two], 2);
    var first := Native.Deliver(TakeSnapshot(Book(symbol, [], [one], 1), depth));
    var second := Native.Deliver(TakeSnapshot(book, depth));
    assert first.asks == [Level(10.0, 0x8000_0000, 1)] && second.asks == [Level(10.0, 0, 2)];
    if Projected(Some(first), second, message) {
      OneRow(first.asks[0]);
      OneRow(second.asks[0]);
      EmptyRowVanishes(AsMap(first.asks), AsMap(second.asks), message.asks, 10.0);
    }
  }

  lemma {:induction false} OneRow(row: Level)
    ensures AsMap([row]) == map[row.price := row]
  {
    assert [row][..0] == [];
  }
}
