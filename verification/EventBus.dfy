/** The in-process event bus: bounded queues, one per subscription, that drop and count what does not fit. */
module EventBus {

  /** A queue of capacity 0 never fills. */
  predicate HasRoom(capacity: nat, size: nat) { capacity == 0 || size < capacity }

  /** One subscriber's bounded queue, with everything ever offered to it. */
  class Subscription<T> {
    const capacity: nat
    var queue: seq<T>
    var dropped: nat
    ghost var offered: seq<T>
    ghost var got: seq<T>

    constructor (capacity: nat)
      ensures Valid() && this.capacity == capacity && offered == [] && got == [] && dropped == 0
    {
      this.capacity := capacity;
      queue, dropped, offered, got := [], 0, [], [];
    }

    /** What was taken and what waits is what was offered, in order, less exactly as many events as were counted dropped. */
    ghost predicate Valid()
      reads this
    {
      && (capacity > 0 ==> |queue| <= capacity)
      && Thinned(got + queue, offered, dropped)
    }

    method PutNowait(event: T) returns (fits: bool)
      requires Valid()
      modifies `queue, `offered, `dropped
      ensures Valid() && offered == old(offered) + [event] && fits == HasRoom(capacity, |old(queue)|)
      ensures fits <==> capacity == 0 || |old(queue)| < capacity
      ensures if fits then queue == old(queue) + [event] && dropped == old(dropped)
              else queue == old(queue) && dropped == old(dropped) + 1
    {
      fits := HasRoom(capacity, |queue|);
      offered := offered + [event];
      if fits {
        KeepOne(got + queue, old(offered), dropped, event);
        assert got + (queue + [event]) == got + queue + [event];
        queue := queue + [event];
      } else {
        DropOne(got + queue, old(offered), dropped, event);
        dropped := dropped + 1;
      }
    }

    method Get() returns (event: T)
      requires Valid() && queue != []
      modifies `queue, `got
      ensures Valid() && event == old(queue)[0] && queue == old(queue)[1..] && got == old(got) + [event]
    {
      event := queue[0];
      assert got + queue == (got + [queue[0]]) + queue[1..];
      queue := queue[1..];
      got := got + [event];
    }
  }

  /** The event is last in the queue if there was room, and counted as dropped if not. */
  ghost predicate Put<T>(q: Subscription<T>, was: seq<T>, dropped: nat, event: T)
    reads q
  {
    if HasRoom(q.capacity, |was|) then q.queue == was + [event] && q.dropped == dropped else q.queue == was && q.dropped == dropped + 1
  }

  /** How many of these queues have no room. */
  ghost function FullCount<T>(queues: seq<Subscription<T>>): nat
    reads queues
  {
    if queues == [] then 0
    else
      var last := queues[|queues| - 1];
      FullCount(queues[..|queues| - 1]) + (if HasRoom(last.capacity, |last.queue|) then 0 else 1)
  }

  class Bus<E(==), T> {
    const capacity: nat
    var topics: map<E, seq<Subscription<T>>>
    var dropped: nat

    constructor (capacity: nat)
      ensures Valid() && this.capacity == capacity && topics == map[] && dropped == 0
    {
      this.capacity := capacity;
      topics, dropped := map[], 0;
    }

    ghost predicate Sound(queues: seq<Subscription<T>>)
      reads queues
    {
      && (forall i :: 0 <= i < |queues| ==> queues[i].Valid())
      && (forall i, j :: 0 <= i < j < |queues| ==> queues[i] != queues[j])
    }

    ghost predicate Valid()
      reads *
    {
      forall e :: e in topics ==> Sound(topics[e])
    }

    /** A new queue that will be offered every event of these types from now on. */
    method Subscribe(types: set<E>) returns (q: Subscription<T>)
      requires Valid()
      modifies `topics
      ensures Valid() && fresh(q) && q.queue == [] && q.capacity == capacity
      ensures forall e :: e in topics <==> e in old(topics) || e in types
      ensures forall e :: e in types ==> topics[e] == (if e in old(topics) then old(topics)[e] else []) + [q]
      ensures forall e :: e in old(topics) && e !in types ==> topics[e] == old(topics)[e]
    {
      q := new Subscription(capacity);
      topics := map e | e in topics.Keys + types :: (if e in topics then topics[e] else []) + (if e in types then [q] else []);
    }

    /** Offer an event to every queue subscribed to its type; a full queue drops it and the drop is counted. */
    method PublishNowait(kind: E, event: T)
      requires Valid()
      modifies `dropped, if kind in topics then (set q | q in topics[kind]) else {}
      ensures Valid()
      ensures kind in topics ==> forall i :: 0 <= i < |topics[kind]| ==> topics[kind][i].offered == old(topics[kind][i].offered) + [event]
      ensures kind in topics ==> forall i :: 0 <= i < |topics[kind]| ==> Put(topics[kind][i], old(topics[kind][i].queue), old(topics[kind][i].dropped), event)
      ensures kind in topics ==> dropped == old(dropped) + old(FullCount(topics[kind]))
      ensures kind !in topics ==> dropped == old(dropped)
    {
      hide Subscription.Valid, HasRoom;
      if kind !in topics {
        return;
      }
      var queues := topics[kind];
      assert forall i :: 0 <= i < |queues| ==> queues[i] in queues;
      for n := 0 to |queues|
        invariant Valid() && Sound(queues)
        invariant forall i :: 0 <= i < n ==> queues[i].offered == old(queues[i].offered) + [event]
        invariant forall i :: 0 <= i < n ==> Put(queues[i], old(queues[i].queue), old(queues[i].dropped), event)
        invariant forall i :: n <= i < |queues| ==> unchanged(queues[i])
        invariant dropped == old(dropped) + old(FullCount(queues[..n]))
      {
        assert queues[..n + 1][..n] == queues[..n] && queues[..n + 1][n] == queues[n];
        var fits := queues[n].PutNowait(event);
        if !fits {
          dropped := dropped + 1;
        }
      }
      assert queues[..|queues|] == queues;
    }
  }

  /** `kept` is `all` with exactly `gone` elements left out. */
  ghost predicate Thinned<T>(kept: seq<T>, all: seq<T>, gone: nat)
    decreases |all|
  {
    if all == [] then kept == [] && gone == 0
    else
      var front, last := all[..|all| - 1], all[|all| - 1];
      || (kept != [] && kept[|kept| - 1] == last && Thinned(kept[..|kept| - 1], front, gone))
      || (gone > 0 && Thinned(kept, front, gone - 1))
  }

  lemma {:induction false} KeepOne<T>(kept: seq<T>, all: seq<T>, gone: nat, x: T)
    requires Thinned(kept, all, gone)
    ensures Thinned(kept + [x], all + [x], gone)
  {
    assert (all + [x])[..|all|] == all && (kept + [x])[..|kept|] == kept;
  }

  lemma {:induction false} DropOne<T>(kept: seq<T>, all: seq<T>, gone: nat, x: T)
    requires Thinned(kept, all, gone)
    ensures Thinned(kept, all + [x], gone + 1)
  {
    assert (all + [x])[..|all|] == all;
  }

  lemma {:induction false} ThinnedLength<T>(kept: seq<T>, all: seq<T>, gone: nat)
    requires Thinned(kept, all, gone)
    ensures |kept| + gone == |all|
    decreases |all|
  {
    if all != [] {
      var front, last := all[..|all| - 1], all[|all| - 1];
      if kept != [] && kept[|kept| - 1] == last && Thinned(kept[..|kept| - 1], front, gone) {
        ThinnedLength(kept[..|kept| - 1], front, gone);
      } else {
        ThinnedLength(kept, front, gone - 1);
      }
    }
  }

  /** With no drops counted, a subscriber has seen or has waiting every event offered, in order; and conversely. */
  lemma {:induction false} NothingMissingIff<T>(kept: seq<T>, all: seq<T>, gone: nat)
    requires Thinned(kept, all, gone)
    ensures gone == 0 <==> kept == all
    decreases |all|
  {
    ThinnedLength(kept, all, gone);
    if gone == 0 && all != [] {
      NothingMissingIff(kept[..|kept| - 1], all[..|all| - 1], 0);
      assert kept == kept[..|kept| - 1] + [kept[|kept| - 1]];
      assert all == all[..|all| - 1] + [all[|all| - 1]];
    }
  }
}
