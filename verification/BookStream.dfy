/** Depth snapshots turned into deltas by the server, and patched together again by the client. */
module BookStream {
  import opened Domain

  datatype Message =
    | SnapshotMessage(symbol: Symbol, sequence: nat, bids: seq<Level>, asks: seq<Level>)
    | DeltaMessage(symbol: Symbol, previous: nat, sequence: nat, bids: seq<Level>, asks: seq<Level>)

  /** A dictionary built from rows: a later row with the same price replaces an earlier one. */
  function AsMap(levels: seq<Level>): map<Price, Level> {
    if levels == [] then map[]
    else
      var last := levels[|levels| - 1];
      AsMap(levels[..|levels| - 1])[last.price := last]
  }

  function At(m: map<Price, Level>, price: Price): Option<Level> {
    if price in m then Some(m[price]) else None
  }

  lemma {:induction false} AsMapPrices(levels: seq<Level>)
    ensures forall p :: p in AsMap(levels) ==> AsMap(levels)[p].price == p
    ensures forall i :: 0 <= i < |levels| ==> levels[i].price in AsMap(levels)
  {
    if levels != [] {
      AsMapPrices(levels[..|levels| - 1]);
      forall i | 0 <= i < |levels|
        ensures levels[i].price in AsMap(levels)
      {
        if i < |levels| - 1 {
          assert levels[..|levels| - 1][i].price in AsMap(levels[..|levels| - 1]);
        }
      }
    }
  }

  // ---------- the server's diff ----------

  ghost predicate OncePerPrice(changes: seq<Level>) {
    forall i, j :: 0 <= i < j < |changes| ==> changes[i].price != changes[j].price
  }

  /** What a list of changes may say about one price. */
  predicate SaysRight(change: Level, was: map<Price, Level>, now: map<Price, Level>) {
    if change.price in now then change == now[change.price] && At(was, change.price) != Some(change)
    else change.price in was && change.quantity == 0
  }

  ghost predicate Mentions(changes: seq<Level>, price: Price) {
    exists i :: 0 <= i < |changes| && changes[i].price == price
  }

  /** The changes name every price that differs, once, with its new row; a row that is gone is named with quantity 0. */
  ghost predicate IsDiff(changes: seq<Level>, was: map<Price, Level>, now: map<Price, Level>) {
    && OncePerPrice(changes)
    && (forall i :: 0 <= i < |changes| ==> SaysRight(changes[i], was, now))
    && (forall p :: (p in was || p in now) && At(was, p) != At(now, p) ==> Mentions(changes, p))
  }

  /** The rows that are new or differ, in row order, then deletions in no particular order. */
  method Changes(previous: seq<Level>, current: seq<Level>) returns (changes: seq<Level>)
    ensures IsDiff(changes, AsMap(previous), AsMap(current))
  {
    var was, now := AsMap(previous), AsMap(current);
    AsMapPrices(current);
    changes := Upserts(was, now, current);
    changes := Deletions(was, now, changes);
  }

  method Upserts(was: map<Price, Level>, now: map<Price, Level>, current: seq<Level>) returns (changes: seq<Level>)
    requires now == AsMap(current)
    ensures OncePerPrice(changes) && forall i :: 0 <= i < |changes| ==> changes[i].price in now && SaysRight(changes[i], was, now)
    ensures forall p :: p in now && At(was, p) != At(now, p) ==> Mentions(changes, p)
  {
    changes := [];
    var seen := {};
    AsMapPrices(current);
    for i := 0 to |current|
      invariant OncePerPrice(changes) && forall j :: 0 <= j < i ==> current[j].price in seen
      invariant forall j :: 0 <= j < |changes| ==> changes[j].price in seen && changes[j].price in now && SaysRight(changes[j], was, now)
      invariant forall p :: p in seen ==> p in now && (At(was, p) != At(now, p) ==> Mentions(changes, p))
    {
      var p := current[i].price;
      if p !in seen {
        seen := seen + {p};
        if At(was, p) != Some(now[p]) {
          Appended(changes, now[p]);
          changes := changes + [now[p]];
        }
      }
    }
    AllSeen(current);
  }

  lemma {:induction false} AllSeen(levels: seq<Level>)
    ensures forall p :: p in AsMap(levels) ==> Mentions(levels, p)
  {
    if levels != [] {
      var rest, last := levels[..|levels| - 1], levels[|levels| - 1];
      AllSeen(rest);
      assert levels == rest + [last];
      Appended(rest, last);
    }
  }

  /** Part of the deletions are still to be written. */
  ghost predicate Deleting(changes: seq<Level>, deletions: set<Price>, was: map<Price, Level>, now: map<Price, Level>) {
    && deletions <= was.Keys - now.Keys && OncePerPrice(changes)
    && (forall i :: 0 <= i < |changes| ==> changes[i].price !in deletions && SaysRight(changes[i], was, now))
    && (forall p :: (p in was || p in now) && At(was, p) != At(now, p) && p !in deletions ==> Mentions(changes, p))
  }

  lemma {:induction false} DeleteOne(changes: seq<Level>, deletions: set<Price>, was: map<Price, Level>, now: map<Price, Level>, price: Price)
    requires Deleting(changes, deletions, was, now) && price in deletions
    ensures Deleting(changes + [Level(price, 0, 0)], deletions - {price}, was, now)
  {
    Appended(changes, Level(price, 0, 0));
  }

  method Deletions(was: map<Price, Level>, now: map<Price, Level>, upserts: seq<Level>) returns (changes: seq<Level>)
    requires OncePerPrice(upserts) && forall i :: 0 <= i < |upserts| ==> upserts[i].price in now && SaysRight(upserts[i], was, now)
    requires forall p :: p in now && At(was, p) != At(now, p) ==> Mentions(upserts, p)
    ensures IsDiff(changes, was, now)
  {
    hide Deleting, IsDiff, OncePerPrice, SaysRight, Mentions;
    changes := upserts;
    var deletions := was.Keys - now.Keys;
    StartDeleting(was, now, upserts);
    while deletions != {}
      invariant Deleting(changes, deletions, was, now)
      decreases |deletions|
    {
      var p := Any(deletions);
      DeleteOne(changes, deletions, was, now, p);
      changes := changes + [Level(p, 0, 0)];
      deletions := deletions - {p};
    }
    DoneDeleting(was, now, changes);
  }

  lemma {:induction false} StartDeleting(was: map<Price, Level>, now: map<Price, Level>, upserts: seq<Level>)
    requires OncePerPrice(upserts) && forall i :: 0 <= i < |upserts| ==> upserts[i].price in now && SaysRight(upserts[i], was, now)
    requires forall p :: p in now && At(was, p) != At(now, p) ==> Mentions(upserts, p)
    ensures Deleting(upserts, was.Keys - now.Keys, was, now)
  {
  }

  lemma {:induction false} DoneDeleting(was: map<Price, Level>, now: map<Price, Level>, changes: seq<Level>)
    requires Deleting(changes, {}, was, now)
    ensures IsDiff(changes, was, now)
  {
  }

  lemma {:induction false} Appended(changes: seq<Level>, change: Level)
    ensures forall p :: Mentions(changes + [change], p) <==> Mentions(changes, p) || p == change.price
    ensures OncePerPrice(changes) && !Mentions(changes, change.price) ==> OncePerPrice(changes + [change])
  {
    assert (changes + [change])[|changes|] == change;
    forall p | Mentions(changes, p)
      ensures Mentions(changes + [change], p)
    {
      var i :| 0 <= i < |changes| && changes[i].price == p;
      assert (changes + [change])[i].price == p;
    }
  }

  // ---------- the client's patch ----------

  function PatchOne(book: map<Price, Level>, change: Level): map<Price, Level> {
    if change.quantity == 0 then book - {change.price} else book[change.price := change]
  }

  function Patch(book: map<Price, Level>, changes: seq<Level>): map<Price, Level>
    decreases |changes|
  {
    if changes == [] then book
    else PatchOne(Patch(book, changes[..|changes| - 1]), changes[|changes| - 1])
  }

  /** Applying the changes to a local copy, one by one. */
  method ApplyChanges(book: map<Price, Level>, changes: seq<Level>) returns (patched: map<Price, Level>)
    ensures patched == Patch(book, changes)
  {
    patched := book;
    for i := 0 to |changes|
      invariant patched == Patch(book, changes[..i])
    {
      assert changes[..i + 1][..i] == changes[..i];
      if changes[i].quantity == 0 {
        patched := patched - {changes[i].price};
      } else {
        patched := patched[changes[i].price := changes[i]];
      }
    }
    assert changes[..|changes|] == changes;
  }

  /** After patching, a price named by the changes is as its change says; the others are untouched. */
  lemma {:induction false} PatchAt(book: map<Price, Level>, changes: seq<Level>, price: Price)
    requires OncePerPrice(changes)
    ensures !Mentions(changes, price) ==> At(Patch(book, changes), price) == At(book, price)
    ensures forall i :: 0 <= i < |changes| && changes[i].price == price ==>
              At(Patch(book, changes), price) == if changes[i].quantity == 0 then None else Some(changes[i])
    decreases |changes|
  {
    if changes != [] {
      var rest, last := changes[..|changes| - 1], changes[|changes| - 1];
      PatchAt(book, rest, price);
      assert changes == rest + [last];
      Appended(rest, last);
      forall i | 0 <= i < |changes| - 1 && changes[i].price == price
        ensures At(Patch(book, changes), price) == if changes[i].quantity == 0 then None else Some(changes[i])
      {
        assert rest[i] == changes[i];
      }
    }
  }

  /** No row that the diff reports as present has quantity 0. */
  ghost predicate NoEmptyRow(was: map<Price, Level>, now: map<Price, Level>) {
    forall p :: p in now && At(was, p) != At(now, p) ==> now[p].quantity != 0
  }

  ghost predicate WellKeyed(m: map<Price, Level>) {
    forall p :: p in m ==> m[p].price == p
  }

  /** What patching a diff does to any book, price by price. */
  lemma {:induction false} PatchDiffAt(book: map<Price, Level>, changes: seq<Level>, was: map<Price, Level>, now: map<Price, Level>, price: Price)
    requires IsDiff(changes, was, now) && NoEmptyRow(was, now) && WellKeyed(now) && WellKeyed(was)
    ensures At(Patch(book, changes), price) == if At(was, price) == At(now, price) then At(book, price) else At(now, price)
  {
    PatchAt(book, changes, price);
    if At(was, price) != At(now, price) {
      assert Mentions(changes, price);
      var i :| 0 <= i < |changes| && changes[i].price == price;
      assert SaysRight(changes[i], was, now);
    } else {
      SameNotMentioned(changes, was, now, price);
    }
  }

  lemma {:induction false} SameNotMentioned(changes: seq<Level>, was: map<Price, Level>, now: map<Price, Level>, price: Price)
    requires IsDiff(changes, was, now) && WellKeyed(now) && At(was, price) == At(now, price)
    ensures !Mentions(changes, price)
  {
    forall i | 0 <= i < |changes|
      ensures changes[i].price != price
    {
      assert SaysRight(changes[i], was, now);
    }
  }

  lemma {:induction false} SameAt(a: map<Price, Level>, b: map<Price, Level>)
    requires forall p :: At(a, p) == At(b, p)
    ensures a == b
  {
    forall p
      ensures p in a <==> p in b
      ensures p in a && p in b ==> a[p] == b[p]
    {
      assert At(a, p) == At(b, p);
    }
    assert a.Keys == b.Keys;
  }

  lemma {:induction false} MapsKeyed(levels: seq<Level>)
    ensures WellKeyed(AsMap(levels))
  {
    AsMapPrices(levels);
  }

  /** Patching the old rows with their diff gives the new rows, exactly when no new or changed row is empty. */
  lemma {:induction false} PatchIffNoEmptyRow(previous: seq<Level>, current: seq<Level>, changes: seq<Level>)
    requires IsDiff(changes, AsMap(previous), AsMap(current))
    ensures Patch(AsMap(previous), changes) == AsMap(current) <==> NoEmptyRow(AsMap(previous), AsMap(current))
  {
    var was, now := AsMap(previous), AsMap(current);
    MapsKeyed(previous);
    MapsKeyed(current);
    if NoEmptyRow(was, now) {
      forall p: Price
        ensures At(Patch(was, changes), p) == At(now, p)
      {
        PatchDiffAt(was, changes, was, now, p);
      }
      SameAt(Patch(was, changes), now);
    } else {
      var p: Price :| p in now && At(was, p) != At(now, p) && now[p].quantity == 0;
      EmptyRowVanishes(was, now, changes, p);
      assert p in now && p !in Patch(was, changes);
      assert Patch(was, changes) != now;
    }
  }

  lemma {:induction false} EmptyRowVanishes(was: map<Price, Level>, now: map<Price, Level>, changes: seq<Level>, p: Price)
    requires IsDiff(changes, was, now) && p in now && At(was, p) != At(now, p) && now[p].quantity == 0
    ensures p !in Patch(was, changes)
  {
    assert Mentions(changes, p);
    var i :| 0 <= i < |changes| && changes[i].price == p;
    assert SaysRight(changes[i], was, now);
    PatchAt(was, changes, p);
  }

  // ---------- the stream ----------

  class BookDeltaProjector {
    var prior: map<Symbol, Snapshot>

    constructor ()
      ensures prior == map[]
    {
      prior := map[];
    }

    /** The first snapshot of an instrument goes out whole, later ones as changes. */
    method Project(snapshot: Snapshot) returns (message: Message)
      modifies this
      ensures Projected(if snapshot.symbol in old(prior) then Some(old(prior)[snapshot.symbol]) else None, snapshot, message)
      ensures prior == old(prior)[snapshot.symbol := snapshot]
    {
      if snapshot.symbol !in prior {
        prior := prior[snapshot.symbol := snapshot];
        message := SnapshotMessage(snapshot.symbol, snapshot.sequence, snapshot.bids, snapshot.asks);
      } else {
        var was := prior[snapshot.symbol];
        prior := prior[snapshot.symbol := snapshot];
        var bids := Changes(was.bids, snapshot.bids);
        var asks := Changes(was.asks, snapshot.asks);
        message := DeltaMessage(snapshot.symbol, was.sequence, snapshot.sequence, bids, asks);
      }
    }
  }

  ghost predicate Projected(previous: Option<Snapshot>, snapshot: Snapshot, message: Message) {
    match previous
    case None => message == SnapshotMessage(snapshot.symbol, snapshot.sequence, snapshot.bids, snapshot.asks)
    case Some(was) =>
      && message.DeltaMessage? && message.previous == was.sequence && message.sequence == snapshot.sequence
      && IsDiff(message.bids, AsMap(was.bids), AsMap(snapshot.bids))
      && IsDiff(message.asks, AsMap(was.asks), AsMap(snapshot.asks))
  }

  /** The client's picture of one instrument. */
  datatype ClientBook = ClientBook(sequence: nat, bids: map<Price, Level>, asks: map<Price, Level>)

  function Showing(snapshot: Snapshot): ClientBook {
    ClientBook(snapshot.sequence, AsMap(snapshot.bids), AsMap(snapshot.asks))
  }

  /** A snapshot replaces the picture; a delta is taken only if it starts where the picture is. */
  function Receive(client: Option<ClientBook>, message: Message): Option<ClientBook> {
    match message
    case SnapshotMessage(_, sequence, bids, asks) => Some(ClientBook(sequence, AsMap(bids), AsMap(asks)))
    case DeltaMessage(_, previous, sequence, bids, asks) =>
      if client.None? || previous != client.value.sequence then client
      else Some(ClientBook(sequence, Patch(client.value.bids, bids), Patch(client.value.asks, asks)))
  }

  function ReceiveAll(client: Option<ClientBook>, messages: seq<Message>): Option<ClientBook>
    decreases |messages|
  {
    if messages == [] then client
    else Receive(ReceiveAll(client, messages[..|messages| - 1]), messages[|messages| - 1])
  }

  /** Apply a delta to a picture it continues. */
  method ApplyDelta(previous: ClientBook, message: Message) returns (next: ClientBook)
    requires message.DeltaMessage?
    ensures message.previous == previous.sequence ==> Receive(Some(previous), message) == Some(next)
    ensures next == ClientBook(message.sequence, Patch(previous.bids, message.bids), Patch(previous.asks, message.asks))
  {
    var bids := ApplyChanges(previous.bids, message.bids);
    var asks := ApplyChanges(previous.asks, message.asks);
    next := ClientBook(message.sequence, bids, asks);
  }

  /** Nothing new or changed between two snapshots is empty. */
  ghost predicate NoEmptyRows(previous: Snapshot, snapshot: Snapshot) {
    && NoEmptyRow(AsMap(previous.bids), AsMap(snapshot.bids))
    && NoEmptyRow(AsMap(previous.asks), AsMap(snapshot.asks))
  }

  /** One delta takes a client from one snapshot to the next, exactly when no new or changed row is empty. */
  lemma {:induction false} DeltaIffNoEmptyRows(previous: Snapshot, snapshot: Snapshot, message: Message)
    requires Projected(Some(previous), snapshot, message)
    ensures Receive(Some(Showing(previous)), message) == Some(Showing(snapshot)) <==> NoEmptyRows(previous, snapshot)
  {
    PatchIffNoEmptyRow(previous.bids, snapshot.bids, message.bids);
    PatchIffNoEmptyRow(previous.asks, snapshot.asks, message.asks);
    hide Patch, AsMap, NoEmptyRow, IsDiff;
  }

  /** `messages` are what a new projector makes of `snapshots`, all of one instrument. */
  ghost predicate Stream(snapshots: seq<Snapshot>, messages: seq<Message>) {
    && |messages| == |snapshots|
    && forall i :: 0 <= i < |snapshots| ==> Projected(if i == 0 then None else Some(snapshots[i - 1]), snapshots[i], messages[i])
  }

  ghost predicate NeverEmpty(snapshots: seq<Snapshot>) {
    forall i :: 0 < i < |snapshots| ==> NoEmptyRows(snapshots[i - 1], snapshots[i])
  }

  /** As long as no snapshot has a new or changed empty row, a client that receives all messages shows the last one. */
  lemma {:induction false} StreamReplays(snapshots: seq<Snapshot>, messages: seq<Message>, n: nat)
    requires Stream(snapshots, messages) && NeverEmpty(snapshots) && 0 < n <= |messages|
    ensures ReceiveAll(None, messages[..n]) == Some(Showing(snapshots[n - 1]))
  {
    assert messages[..n][..n - 1] == messages[..n - 1];
    assert Projected(if n - 1 == 0 then None else Some(snapshots[n - 2]), snapshots[n - 1], messages[n - 1]);
    if n == 1 {
      assert messages[..0] == [];
    } else {
      StreamReplays(snapshots, messages, n - 1);
      assert NoEmptyRows(snapshots[n - 2], snapshots[n - 1]);
      DeltaIffNoEmptyRows(snapshots[n - 2], snapshots[n - 1], messages[n - 1]);
    }
  }

  // ---------- a client that joins late ----------

  ghost predicate NonDecreasing(snapshots: seq<Snapshot>) {
    forall i, j :: 0 <= i <= j < |snapshots| ==> snapshots[i].sequence <= snapshots[j].sequence
  }

  /** Price by price, a picture agrees with one of two others. */
  ghost predicate Between(m: map<Price, Level>, a: map<Price, Level>, b: map<Price, Level>) {
    forall p :: At(m, p) == At(a, p) || At(m, p) == At(b, p)
  }

  /**
   A late joiner still being fed deltas older than its baseline: it ignores those
   that start at earlier sequence numbers; once they start at the baseline's own
   number, each price shows either the fed row or the baseline's.
   */
  ghost predicate CatchingUp(client: Option<ClientBook>, now: Snapshot, baseline: Snapshot) {
    if now.sequence < baseline.sequence then client == Some(Showing(baseline))
    else
      && client.Some? && client.value.sequence == baseline.sequence
      && Between(client.value.bids, AsMap(now.bids), AsMap(baseline.bids))
      && Between(client.value.asks, AsMap(now.asks), AsMap(baseline.asks))
  }

  lemma {:induction false} BetweenStep(m: map<Price, Level>, was: seq<Level>, now: seq<Level>, baseline: map<Price, Level>, changes: seq<Level>)
    requires Between(m, AsMap(was), baseline) && IsDiff(changes, AsMap(was), AsMap(now)) && NoEmptyRow(AsMap(was), AsMap(now))
    ensures Between(Patch(m, changes), AsMap(now), baseline)
  {
    MapsKeyed(was);
    MapsKeyed(now);
    forall p
      ensures At(Patch(m, changes), p) == At(AsMap(now), p) || At(Patch(m, changes), p) == At(baseline, p)
    {
      PatchDiffAt(m, changes, AsMap(was), AsMap(now), p);
    }
  }

  lemma {:induction false} CatchUpStep(client: Option<ClientBook>, was: Snapshot, now: Snapshot, baseline: Snapshot, message: Message)
    requires CatchingUp(client, was, baseline) && was.sequence <= now.sequence <= baseline.sequence
    requires Projected(Some(was), now, message) && NoEmptyRows(was, now)
    ensures CatchingUp(Receive(client, message), now, baseline)
  {
    if was.sequence == baseline.sequence {
      BetweenStep(client.value.bids, was.bids, now.bids, AsMap(baseline.bids), message.bids);
      BetweenStep(client.value.asks, was.asks, now.asks, AsMap(baseline.asks), message.asks);
    }
  }

  /** Caught up with its own baseline, a late joiner shows it exactly. */
  lemma {:induction false} CaughtUp(client: Option<ClientBook>, baseline: Snapshot)
    requires CatchingUp(client, baseline, baseline)
    ensures client == Some(Showing(baseline))
  {
    SameAt(client.value.bids, AsMap(baseline.bids));
    SameAt(client.value.asks, AsMap(baseline.asks));
  }

  /** One delta further along the stream. */
  lemma {:induction false} StreamStep(snapshots: seq<Snapshot>, messages: seq<Message>, n: nat)
    requires Stream(snapshots, messages) && NeverEmpty(snapshots) && 1 < n <= |snapshots|
    ensures |messages| == |snapshots| && Projected(Some(snapshots[n - 2]), snapshots[n - 1], messages[n - 1])
    ensures NoEmptyRows(snapshots[n - 2], snapshots[n - 1])
  {
    hide Projected, NoEmptyRows;
    assert Projected(if n - 1 == 0 then None else Some(snapshots[n - 2]), snapshots[n - 1], messages[n - 1]);
    assert NoEmptyRows(snapshots[n - 2], snapshots[n - 1]);
  }

  lemma {:induction false} OneMoreMessage(client: Option<ClientBook>, messages: seq<Message>, from: nat, n: nat)
    requires from < n <= |messages|
    ensures ReceiveAll(client, messages[from..n]) == Receive(ReceiveAll(client, messages[from..n - 1]), messages[n - 1])
  {
    hide Receive;
    assert messages[from..n][..n - from - 1] == messages[from..n - 1];
  }

  /** Fed from delta `from` on, up to and including the one into snapshot `n - 1`, none newer than the baseline `k`. */
  lemma {:induction false} CatchesUp(snapshots: seq<Snapshot>, messages: seq<Message>, k: nat, from: nat, n: nat)
    requires Stream(snapshots, messages) && NeverEmpty(snapshots) && NonDecreasing(snapshots)
    requires 0 < from <= n <= k + 1 <= |snapshots| == |messages|
    ensures CatchingUp(ReceiveAll(Some(Showing(snapshots[k])), messages[from..n]), snapshots[n - 1], snapshots[k])
    decreases n - from
  {
    hide Stream, NeverEmpty, Receive, Showing, Projected, NoEmptyRows, Between;
    assert snapshots[n - 1].sequence <= snapshots[k].sequence;
    if n == from {
      assert messages[from..n] == [];
      CaughtUpFrom(snapshots[n - 1], snapshots[k]);
    } else {
      CatchesUp(snapshots, messages, k, from, n - 1);
      StreamStep(snapshots, messages, n);
      OneMoreMessage(Some(Showing(snapshots[k])), messages, from, n);
      CatchUpStep(ReceiveAll(Some(Showing(snapshots[k])), messages[from..n - 1]), snapshots[n - 2], snapshots[n - 1], snapshots[k], messages[n - 1]);
    }
  }

  /** The baseline itself is where every late joiner starts. */
  lemma {:induction false} CaughtUpFrom(now: Snapshot, baseline: Snapshot)
    requires now.sequence <= baseline.sequence
    ensures CatchingUp(Some(Showing(baseline)), now, baseline)
  {
  }

  /**
   A client that takes snapshot `k` as its baseline and is then fed deltas from any
   point at or before it shows snapshot `n - 1` after the delta into it, for every
   `n` past `k`, even if several snapshots share a sequence number.
   */
  lemma {:induction false} LateJoinerConverges(snapshots: seq<Snapshot>, messages: seq<Message>, k: nat, from: nat, n: nat)
    requires Stream(snapshots, messages) && NeverEmpty(snapshots) && NonDecreasing(snapshots)
    requires 0 < from <= k + 1 <= n <= |snapshots| == |messages|
    ensures ReceiveAll(Some(Showing(snapshots[k])), messages[from..n]) == Some(Showing(snapshots[n - 1]))
    decreases n
  {
    hide Stream, NeverEmpty, NonDecreasing, Receive, ReceiveAll, Showing, Projected, NoEmptyRows, CatchingUp;
    if n == k + 1 {
      CatchesUp(snapshots, messages, k, from, n);
      CaughtUp(ReceiveAll(Some(Showing(snapshots[k])), messages[from..n]), snapshots[k]);
    } else {
      LateJoinerConverges(snapshots, messages, k, from, n - 1);
      StreamStep(snapshots, messages, n);
      OneMoreMessage(Some(Showing(snapshots[k])), messages, from, n);
      DeltaIffNoEmptyRows(snapshots[n - 2], snapshots[n - 1], messages[n - 1]);
    }
  }

  // ---------- exactly when ----------

  /** A client of the first `n` messages shows the last of their snapshots. */
  ghost predicate Replays(snapshots: seq<Snapshot>, messages: seq<Message>, n: nat) {
    0 < n <= |messages| == |snapshots| && ReceiveAll(None, messages[..n]) == Some(Showing(snapshots[n - 1]))
  }

  /** A client with baseline `k`, fed from delta `from` on, shows snapshot `n - 1` after the delta into it. */
  ghost predicate Joins(snapshots: seq<Snapshot>, messages: seq<Message>, k: nat, from: nat, n: nat) {
    && 0 < from <= k + 1 <= n <= |messages| == |snapshots|
    && ReceiveAll(Some(Showing(snapshots[k])), messages[from..n]) == Some(Showing(snapshots[n - 1]))
  }

  ghost predicate AlwaysReplays(snapshots: seq<Snapshot>, messages: seq<Message>) {
    forall n :: 0 < n <= |messages| ==> Replays(snapshots, messages, n)
  }

  ghost predicate AlwaysJoins(snapshots: seq<Snapshot>, messages: seq<Message>) {
    forall k, from, n :: 0 < from <= k + 1 <= n <= |messages| ==> Joins(snapshots, messages, k, from, n)
  }

  /** A stream replays at every point exactly when no snapshot has a new or changed empty row. */
  lemma {:induction false} StreamReplaysIff(snapshots: seq<Snapshot>, messages: seq<Message>)
    requires Stream(snapshots, messages)
    ensures AlwaysReplays(snapshots, messages) <==> NeverEmpty(snapshots)
  {
    hide Receive, Showing, NoEmptyRows, Projected;
    if NeverEmpty(snapshots) {
      forall n | 0 < n <= |messages|
        ensures Replays(snapshots, messages, n)
      {
        StreamReplays(snapshots, messages, n);
      }
    } else if AlwaysReplays(snapshots, messages) {
      forall i | 0 < i < |snapshots|
        ensures NoEmptyRows(snapshots[i - 1], snapshots[i])
      {
        assert Replays(snapshots, messages, i) && Replays(snapshots, messages, i + 1);
        assert messages[..i + 1][..i] == messages[..i];
        assert Projected(if i == 0 then None else Some(snapshots[i - 1]), snapshots[i], messages[i]);
        DeltaIffNoEmptyRows(snapshots[i - 1], snapshots[i], messages[i]);
      }
    }
  }

  /** Late joiners converge, from every baseline and every delta, under exactly the same condition. */
  lemma {:induction false} LateJoinersConvergeIff(snapshots: seq<Snapshot>, messages: seq<Message>)
    requires Stream(snapshots, messages) && NonDecreasing(snapshots)
    ensures AlwaysJoins(snapshots, messages) <==> NeverEmpty(snapshots)
  {
    hide Receive, Showing, NoEmptyRows, Projected, NonDecreasing;
    if NeverEmpty(snapshots) {
      forall k, from, n | 0 < from <= k + 1 <= n <= |messages|
        ensures Joins(snapshots, messages, k, from, n)
      {
        LateJoinerConverges(snapshots, messages, k, from, n);
      }
    } else if AlwaysJoins(snapshots, messages) {
      forall i | 0 < i < |snapshots|
        ensures NoEmptyRows(snapshots[i - 1], snapshots[i])
      {
        assert Joins(snapshots, messages, i - 1, i, i + 1);
        OneMoreMessage(Some(Showing(snapshots[i - 1])), messages, i, i + 1);
        assert messages[i..i] == [];
        assert Projected(if i == 0 then None else Some(snapshots[i - 1]), snapshots[i], messages[i]);
        DeltaIffNoEmptyRows(snapshots[i - 1], snapshots[i], messages[i]);
      }
    }
  }
}
