/** The event queue as its callers see it: one line of events, each waiting behind every event that is due no later.

    `Insert` says where `EventQueue::schedule_event` puts an event, without the list of per-time lists. The reference
    it is measured against is a priority queue over (time, scheduling number): see `InsertKeepsLine`, `LineUnique`
    and `ReplayIsPriorityQueue`.
 */
module StableQueue {

  datatype Entry<E> = Entry(time: nat, event: E)

  ghost predicate Sorted<E(!new)>(q: seq<Entry<E>>) {
    forall i, j :: 0 <= i < j < |q| ==> q[i].time <= q[j].time
  }

  /** The new entry goes in front of the first entry due after it. */
  function Insert<E(!new)>(q: seq<Entry<E>>, t: nat, e: E): (r: seq<Entry<E>>) {
    if q == [] || t < q[0].time then [Entry(t, e)] + q else [q[0]] + Insert(q[1..], t, e)
  }

  lemma {:induction false} InsertPlace<E(!new)>(q: seq<Entry<E>>, t: nat, e: E) returns (k: nat)
    ensures k <= |q|
    ensures Insert(q, t, e) == q[..k] + [Entry(t, e)] + q[k..]
    ensures forall i :: 0 <= i < k ==> q[i].time <= t
    ensures k < |q| ==> t < q[k].time
  {
    if q == [] || t < q[0].time {
      k := 0;
    } else {
      var l := InsertPlace(q[1..], t, e);
      k := l + 1;
      assert q[..k] == [q[0]] + q[1..][..l];
      assert q[k..] == q[1..][l..];
    }
  }

  lemma InsertMembers<E(!new)>(q: seq<Entry<E>>, t: nat, e: E)
    ensures |Insert(q, t, e)| == |q| + 1
    ensures forall x :: x in Insert(q, t, e) <==> x in q || x == Entry(t, e)
  {
    var k := InsertPlace(q, t, e);
    assert q == q[..k] + q[k..];
  }

  lemma InsertSorted<E(!new)>(q: seq<Entry<E>>, t: nat, e: E)
    requires Sorted(q)
    ensures Sorted(Insert(q, t, e))
  {
    var k := InsertPlace(q, t, e);
  }

  /** Entries that are all due by `t` stay in front of an event scheduled for `t`: this is what lets a batch that is
      being executed be split off from the rest of the queue. */
  lemma {:induction false} InsertBehind<E(!new)>(front: seq<Entry<E>>, back: seq<Entry<E>>, t: nat, e: E)
    requires forall x :: x in front ==> x.time <= t
    ensures Insert(front + back, t, e) == front + Insert(back, t, e)
  {
    if front == [] {
      assert front + back == back;
    } else {
      assert front[0] in front;
      assert (front + back)[1..] == front[1..] + back;
      InsertBehind(front[1..], back, t, e);
    }
  }

  /** Entries that are all due after `t` do not matter to it. */
  lemma {:induction false} InsertAhead<E(!new)>(front: seq<Entry<E>>, back: seq<Entry<E>>, t: nat, e: E)
    requires forall x :: x in back ==> t < x.time
    ensures Insert(front + back, t, e) == Insert(front, t, e) + back
  {
    if front == [] {
      assert front + back == back;
      assert back != [] ==> back[0] in back;
    } else {
      assert (front + back)[1..] == front[1..] + back;
      InsertAhead(front[1..], back, t, e);
    }
  }

  // ---------------------------------------------------------------------------------------------------------------
  // The reference: a priority queue ordered by (time, scheduling number)
  // ---------------------------------------------------------------------------------------------------------------

  /** An event together with the number of the schedule_event call that put it there. */
  datatype Stamped<E> = Stamped(stamp: nat, event: E)

  predicate Before<E(!new)>(a: Entry<Stamped<E>>, b: Entry<Stamped<E>>) {
    a.time < b.time || (a.time == b.time && a.event.stamp < b.event.stamp)
  }

  ghost predicate InLine<E(!new)>(q: seq<Entry<Stamped<E>>>) {
    forall i, j :: 0 <= i < j < |q| ==> Before(q[i], q[j])
  }

  ghost predicate StampsBelow<E(!new)>(q: seq<Entry<Stamped<E>>>, n: nat) {
    forall x :: x in q ==> x.event.stamp < n
  }

  lemma InsertKeepsLine<E(!new)>(q: seq<Entry<Stamped<E>>>, t: nat, n: nat, e: E)
    requires InLine(q) && StampsBelow(q, n)
    ensures InLine(Insert(q, t, Stamped(n, e))) && StampsBelow(Insert(q, t, Stamped(n, e)), n + 1)
    ensures multiset(Insert(q, t, Stamped(n, e))) == multiset(q) + multiset{Entry(t, Stamped(n, e))}
  {
    hide InLine, Insert;
    var k := InsertPlace(q, t, Stamped(n, e));
    assert q == q[..k] + q[k..];
    PlacedInLine(q, k, Entry(t, Stamped(n, e)));
  }

  lemma PlacedInLine<E(!new)>(q: seq<Entry<Stamped<E>>>, k: nat, x: Entry<Stamped<E>>)
    requires InLine(q) && StampsBelow(q, x.event.stamp) && k <= |q|
    requires forall i :: 0 <= i < k ==> q[i].time <= x.time
    requires k < |q| ==> x.time < q[k].time
    ensures InLine(q[..k] + [x] + q[k..])
  {
    var r := q[..k] + [x] + q[k..];
    forall i, j | 0 <= i < j < |r| ensures Before(r[i], r[j]) {
      if i < k == j {
        assert r[i] == q[i] && q[i] in q;
      } else if i == k < j {
        assert j - 1 == k || Before(q[k], q[j - 1]);
      }
    }
  }

  lemma HeadUnique<E(!new)>(p: seq<Entry<Stamped<E>>>, q: seq<Entry<Stamped<E>>>)
    requires InLine(p) && InLine(q) && p != [] && q != []
    requires p[0] in q && q[0] in p
    ensures p[0] == q[0]
  {
  }

  /** An order of service by (time, scheduling number) is determined by what is waiting. */
  lemma {:induction false} LineUnique<E(!new)>(p: seq<Entry<Stamped<E>>>, q: seq<Entry<Stamped<E>>>)
    requires InLine(p) && InLine(q) && multiset(p) == multiset(q)
    ensures p == q
  {
    assert |p| == |multiset(p)| == |multiset(q)| == |q|;
    if p != [] {
      assert p[0] in multiset(q) && q[0] in multiset(p);
      HeadUnique(p, q);
      var x, p', q' := p[0], p[1..], q[1..];
      assert p == [x] + p' && q == [x] + q';
      SameTail(x, p', q');
      assert InLine(p') && InLine(q');
      LineUnique(p', q');
    }
  }

  lemma SameTail<X>(x: X, p: seq<X>, q: seq<X>)
    requires multiset([x] + p) == multiset([x] + q)
    ensures multiset(p) == multiset(q)
  {
    assert multiset(p) == multiset([x] + p) - multiset{x};
    assert multiset(q) == multiset([x] + q) - multiset{x};
  }

  function Unstamped<E(!new)>(q: seq<Entry<Stamped<E>>>): (r: seq<Entry<E>>)
    ensures |r| == |q| && forall i :: 0 <= i < |q| ==> r[i] == Entry(q[i].time, q[i].event.event)
  {
    seq(|q|, i requires 0 <= i < |q| => Entry(q[i].time, q[i].event.event))
  }

  lemma {:induction false} InsertUnstamped<E(!new)>(q: seq<Entry<Stamped<E>>>, t: nat, n: nat, e: E)
    ensures Unstamped(Insert(q, t, Stamped(n, e))) == Insert(Unstamped(q), t, e)
  {
    if q == [] || t < q[0].time {
    } else {
      assert Unstamped(q)[1..] == Unstamped(q[1..]);
      InsertUnstamped(q[1..], t, n, e);
    }
  }

  /** What a client can do to the queue: schedule an event, or take the first one. */
  datatype Op<E> = Schedule(time: nat, event: E) | Take

  /** The queue after some operations, as the program keeps it. Taking from an empty queue is not allowed. */
  function Replay<E(!new)>(ops: seq<Op<E>>): (r: seq<Entry<E>>)
    requires Legal(ops)
    decreases |ops|, 1
  {
    if ops == [] then []
    else
      var q := Replay(ops[..|ops| - 1]);
      match ops[|ops| - 1]
      case Schedule(t, e) => Insert(q, t, e)
      case Take => q[1..]
  }

  predicate Legal<E(!new)>(ops: seq<Op<E>>)
    decreases |ops|, 0
  {
    ops != [] ==>
      && Legal(ops[..|ops| - 1])
      && (ops[|ops| - 1].Take? ==> Replay(ops[..|ops| - 1]) != [])
  }

  /** One operation on the reference queue, a bag: an arriving event is stamped `n`; taking removes the event that is
      due first and, among those due together, was scheduled first. */
  ghost predicate Serves<E(!new)>(op: Op<E>, n: nat, bag: multiset<Entry<Stamped<E>>>, bag': multiset<Entry<Stamped<E>>>)
  {
    match op
    case Schedule(t, e) => bag' == bag + multiset{Entry(t, Stamped(n, e))}
    case Take => exists x :: x in bag && bag' == bag - multiset{x} && forall y :: y in bag' ==> Before(x, y)
  }

  ghost predicate Reference<E(!new)>(ops: seq<Op<E>>, bag: multiset<Entry<Stamped<E>>>)
  {
    if ops == [] then bag == multiset{}
    else
      var n := |ops| - 1;
      exists prior :: Reference(ops[..n], prior) && Serves(ops[n], n, prior, bag)
  }

  /** Whatever is scheduled and taken, in whatever order, the program's queue is the reference queue's content laid
      out by (time, scheduling number). */
  lemma {:induction false} ReplayIsPriorityQueue<E(!new)>(ops: seq<Op<E>>)
    returns (q: seq<Entry<Stamped<E>>>)
    requires Legal(ops)
    ensures InLine(q) && StampsBelow(q, |ops|)
    ensures Replay(ops) == Unstamped(q)
    ensures Reference(ops, multiset(q))
  {
    if ops == [] {
      q := [];
    } else {
      var n := |ops| - 1;
      var p := ReplayIsPriorityQueue(ops[..n]);
      q := ReplayStep(ops[n], n, p);
      ReferenceStep(ops, multiset(p), multiset(q));
    }
  }

  lemma ReferenceStep<E(!new)>(ops: seq<Op<E>>, prior: multiset<Entry<Stamped<E>>>, bag: multiset<Entry<Stamped<E>>>)
    requires ops != []
    requires Reference(ops[..|ops| - 1], prior) && Serves(ops[|ops| - 1], |ops| - 1, prior, bag)
    ensures Reference(ops, bag)
  {
  }

  lemma ReplayStep<E(!new)>(op: Op<E>, n: nat, p: seq<Entry<Stamped<E>>>) returns (q: seq<Entry<Stamped<E>>>)
    requires InLine(p) && StampsBelow(p, n) && (op.Take? ==> p != [])
    ensures InLine(q) && StampsBelow(q, n + 1)
    ensures Unstamped(q) == if op.Schedule? then Insert(Unstamped(p), op.time, op.event) else Unstamped(p)[1..]
    ensures Serves(op, n, multiset(p), multiset(q))
  {
    match op
    case Schedule(t, e) =>
      InsertKeepsLine(p, t, n, e);
      InsertUnstamped(p, t, n, e);
      q := Insert(p, t, Stamped(n, e));
    case Take =>
      q := p[1..];
      TakeIsLeast(p);
      TakeFromBag(p[0], q);
      assert p == [p[0]] + q;
  }

  lemma TakeIsLeast<E(!new)>(p: seq<Entry<Stamped<E>>>)
    requires InLine(p) && p != []
    ensures InLine(p[1..]) && Unstamped(p[1..]) == Unstamped(p)[1..]
    ensures forall y :: y in p[1..] ==> Before(p[0], y)
  {
    var rest := p[1..];
    assert forall i :: 0 <= i < |rest| ==> rest[i] == p[i + 1];
  }

  lemma TakeFromBag<E(!new)>(x: Entry<Stamped<E>>, rest: seq<Entry<Stamped<E>>>)
    requires forall y :: y in rest ==> Before(x, y)
    ensures Serves<E>(Take, 0, multiset([x] + rest), multiset(rest))
  {
  }
}
