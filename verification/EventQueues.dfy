/** The event queue as the program keeps it: a list of per-time event lists, in order of time
    (common/event-queue/EventQueue.cpp, EventList.cpp). Its `Flat` view is the line of `StableQueue`. */
module EventQueues {
  import opened StableQueue

  /** An EventList is held and copied by value, so it is one here. */
  datatype EventList<E> = EventList(eventTime: nat, events: seq<E>) {
    function AddEvent(e: E): EventList<E> {
      this.(events := events + [e])
    }
  }

  function Entries<E>(time: nat, events: seq<E>): (r: seq<Entry<E>>)
    ensures |r| == |events| && forall i :: 0 <= i < |r| ==> r[i] == Entry(time, events[i])
  {
    seq(|events|, i requires 0 <= i < |events| => Entry(time, events[i]))
  }

  function Flatten<E>(lists: seq<EventList<E>>): seq<Entry<E>> {
    if lists == [] then [] else Entries(lists[0].eventTime, lists[0].events) + Flatten(lists[1..])
  }

  /** Strictly increasing times from `now` on, and no empty list. */
  ghost predicate Ordered<E>(lists: seq<EventList<E>>, now: nat) {
    && (forall i :: 0 <= i < |lists| ==> now <= lists[i].eventTime && lists[i].events != [])
    && (forall i, j :: 0 <= i < j < |lists| ==> lists[i].eventTime < lists[j].eventTime)
  }

  lemma {:induction false} FlattenTimes<E(!new)>(lists: seq<EventList<E>>, x: Entry<E>)
    requires x in Flatten(lists)
    ensures exists i :: 0 <= i < |lists| && x.time == lists[i].eventTime
  {
    if x in Entries(lists[0].eventTime, lists[0].events) {
      assert x.time == lists[0].eventTime;
    } else {
      FlattenTimes(lists[1..], x);
      var i :| 0 <= i < |lists[1..]| && x.time == lists[1..][i].eventTime;
      assert x.time == lists[i + 1].eventTime;
    }
  }

  lemma {:induction false} FlattenSorted<E(!new)>(lists: seq<EventList<E>>, now: nat)
    requires Ordered(lists, now)
    ensures Sorted(Flatten(lists))
    ensures forall x :: x in Flatten(lists) ==> now <= x.time
  {
    if lists != [] {
      FlattenSorted(lists[1..], lists[0].eventTime);
      forall x | x in Flatten(lists[1..]) ensures lists[0].eventTime <= x.time {
        FlattenTimes(lists[1..], x);
      }
    }
  }

  /** The lists once `e` has been scheduled for `t`. */
  ghost function Put<E(!new)>(lists: seq<EventList<E>>, t: nat, e: E): seq<EventList<E>> {
    if lists == [] || t < lists[0].eventTime then [EventList(t, [e])] + lists
    else if lists[0].eventTime == t then [lists[0].AddEvent(e)] + lists[1..]
    else [lists[0]] + Put(lists[1..], t, e)
  }

  lemma {:induction false} PutOrdered<E(!new)>(lists: seq<EventList<E>>, now: nat, t: nat, e: E)
    requires Ordered(lists, now) && now <= t
    ensures Ordered(Put(lists, t, e), now)
    ensures Put(lists, t, e)[0].eventTime == if lists == [] || t < lists[0].eventTime then t else lists[0].eventTime
  {
    if lists != [] && lists[0].eventTime < t {
      PutOrdered(lists[1..], lists[0].eventTime + 1, t, e);
    }
  }

  /** On the flat view, `Put` is a stable insertion. */
  lemma {:induction false} PutStable<E(!new)>(lists: seq<EventList<E>>, now: nat, t: nat, e: E)
    requires Ordered(lists, now)
    ensures Flatten(Put(lists, t, e)) == Insert(Flatten(lists), t, e)
  {
    if lists == [] || t < lists[0].eventTime {
      InsertFirst(lists, now, t, e);
    } else {
      var head, tail := lists[0], lists[1..];
      var front := Entries(head.eventTime, head.events);
      InsertBehind(front, Flatten(tail), t, e);
      if head.eventTime == t {
        InsertFirst(tail, t + 1, t, e);
        PutLast(head, tail, e);
      } else {
        PutStable(tail, head.eventTime, t, e);
        assert Put(lists, t, e)[1..] == Put(tail, t, e);
      }
    }
  }

  lemma InsertFirst<E(!new)>(lists: seq<EventList<E>>, now: nat, t: nat, e: E)
    requires Ordered(lists, now) && (lists == [] || t < lists[0].eventTime)
    ensures Insert(Flatten(lists), t, e) == [Entry(t, e)] + Flatten(lists)
    ensures Flatten([EventList(t, [e])] + lists) == [Entry(t, e)] + Flatten(lists)
  {
  }

  lemma PutLast<E(!new)>(head: EventList<E>, tail: seq<EventList<E>>, e: E)
    ensures Flatten([head.AddEvent(e)] + tail)
         == Entries(head.eventTime, head.events) + ([Entry(head.eventTime, e)] + Flatten(tail))
  {
    assert ([head.AddEvent(e)] + tail)[1..] == tail;
    assert Entries(head.eventTime, head.events + [e]) == Entries(head.eventTime, head.events) + [Entry(head.eventTime, e)];
  }

  /** What a scan for the first list not before `t` finds is where `Put` puts the event. */
  lemma {:induction false} PutNewAtScan<E(!new)>(lists: seq<EventList<E>>, t: nat, e: E, i: nat)
    requires i <= |lists| && forall j :: 0 <= j < i ==> lists[j].eventTime < t
    requires i == |lists| || t < lists[i].eventTime
    ensures Put(lists, t, e) == lists[..i] + [EventList(t, [e])] + lists[i..]
  {
    if i != 0 {
      var tail := lists[1..];
      PutNewAtScan(tail, t, e, i - 1);
      assert lists[..i] == [lists[0]] + tail[..i - 1];
      assert lists[i..] == tail[i - 1..];
    }
  }

  lemma {:induction false} PutOldAtScan<E(!new)>(lists: seq<EventList<E>>, t: nat, e: E, i: nat)
    requires i < |lists| && forall j :: 0 <= j < i ==> lists[j].eventTime < t
    requires t == lists[i].eventTime
    ensures Put(lists, t, e) == lists[i := lists[i].AddEvent(e)]
  {
    if i != 0 {
      PutOldAtScan(lists[1..], t, e, i - 1);
    }
  }

  class EventQueue<E(!new)> {
    var currentTime: nat
    var lists: seq<EventList<E>>

    ghost predicate Valid()
      reads this
    {
      Ordered(lists, currentTime)
    }

    /** What is waiting, in the order it will be invoked. */
    ghost function Flat(): seq<Entry<E>>
      reads this
    {
      Flatten(lists)
    }

    constructor ()
      ensures Valid() && currentTime == 0 && Flat() == []
    {
      currentTime := 0;
      lists := [];
    }

    predicate Finished()
      reads this
    {
      lists == []
    }

    method ScheduleEvent(eventTime: nat, event: E)
      requires Valid() && currentTime <= eventTime
      modifies this`lists
      ensures Valid()
      ensures Flat() == Insert(old(Flat()), eventTime, event)
    {
      hide Flatten, Insert, Put, Ordered;
      var i := 0;
      while i < |lists| && lists[i].eventTime < eventTime
        invariant 0 <= i <= |lists| && lists == old(lists)
        invariant forall j :: 0 <= j < i ==> lists[j].eventTime < eventTime
      {
        i := i + 1;
      }
      PutOrdered(lists, currentTime, eventTime, event);
      PutStable(lists, currentTime, eventTime, event);
      if i == |lists| || eventTime < lists[i].eventTime {
        PutNewAtScan(lists, eventTime, event, i);
        lists := lists[..i] + [EventList(eventTime, [])] + lists[i..];
      } else {
        PutOldAtScan(lists, eventTime, event, i);
      }
      lists := lists[i := lists[i].AddEvent(event)];
      assert [] + [event] == [event];
      assert lists == Put(old(lists), eventTime, event);
    }

    /** The first half of `proceed`: take the first list off the queue and move the clock to it. The caller then
        invokes the events of the list, which by now are out of reach of whatever those events schedule. */
    method Advance() returns (batch: seq<E>)
      requires Valid() && !Finished()
      modifies this
      ensures Valid() && batch != []
      ensures old(currentTime) <= currentTime
      ensures old(Flat()) == Entries(currentTime, batch) + Flat()
      ensures forall x :: x in Flat() ==> currentTime < x.time
    {
      var list := lists[0];
      lists := lists[1..];
      currentTime := list.eventTime;
      batch := list.events;
      forall x | x in Flat() ensures currentTime < x.time {
        FlattenTimes(lists, x);
      }
    }
  }
}
