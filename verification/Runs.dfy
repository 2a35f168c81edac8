/** Runs of the congestion-aware simulator: events, one at a time, with new chunks handed in whenever the user likes. */
module Runs {
  import opened Network

  /** A chunk as the user makes it. */
  datatype Parcel = Parcel(route: seq<nat>, size: nat)

  datatype Action = Happen | Hand(parcel: Parcel)

  ghost predicate CanAct(f: Fabric, s: Sim, a: Action) {
    && Inv(f, s)
    && match a
       case Happen => s.queue != []
       case Hand(p) => CanInject(f, p.route, p.size)
  }

  ghost function Act(f: Fabric, s: Sim, a: Action): Sim
    requires CanAct(f, s, a)
  {
    match a
    case Happen => Step(f, s)
    case Hand(p) => Inject(f, s, p.route, p.size)
  }

  lemma ActKeeps(f: Fabric, s: Sim, a: Action)
    requires CanAct(f, s, a)
    ensures Inv(f, Act(f, s, a))
  {
    match a
    case Happen => StepKeeps(f, s);
    case Hand(p) => InjectKeeps(f, s, p.route, p.size);
  }

  /** The actions can be carried out one after the other. */
  ghost predicate Run(f: Fabric, s: Sim, acts: seq<Action>)
    decreases acts
  {
    Inv(f, s) && (acts != [] ==> CanAct(f, s, acts[0]) && Run(f, Act(f, s, acts[0]), acts[1..]))
  }

  ghost function After(f: Fabric, s: Sim, acts: seq<Action>): Sim
    requires Run(f, s, acts)
    decreases acts
  {
    if acts == [] then s else After(f, Act(f, s, acts[0]), acts[1..])
  }

  lemma {:induction false} RunKeeps(f: Fabric, s: Sim, acts: seq<Action>)
    requires Run(f, s, acts)
    ensures Inv(f, After(f, s, acts))
    decreases acts
  {
    if acts != [] {
      RunKeeps(f, Act(f, s, acts[0]), acts[1..]);
    }
  }

  lemma {:induction false} RunSnoc(f: Fabric, s: Sim, acts: seq<Action>, a: Action)
    requires Run(f, s, acts) && CanAct(f, After(f, s, acts), a)
    ensures Run(f, s, acts + [a]) && After(f, s, acts + [a]) == Act(f, After(f, s, acts), a)
    decreases acts
  {
    hide CanAct, Act;
    if acts == [] {
      RunOne(f, s, a);
      assert acts + [a] == [a];
    } else {
      var rest := acts[1..] + [a];
      RunSnoc(f, Act(f, s, acts[0]), acts[1..], a);
      assert acts + [a] == [acts[0]] + rest;
      RunCons(f, s, acts[0], rest);
      assert acts == [acts[0]] + acts[1..];
    }
  }

  lemma RunOne(f: Fabric, s: Sim, a: Action)
    requires CanAct(f, s, a)
    ensures Run(f, s, [a]) && After(f, s, [a]) == Act(f, s, a)
  {
    ActKeeps(f, s, a);
    RunCons(f, s, a, []);
    assert [a] + [] == [a];
  }

  lemma RunCons(f: Fabric, s: Sim, a: Action, rest: seq<Action>)
    requires CanAct(f, s, a) && Run(f, Act(f, s, a), rest)
    ensures Run(f, s, [a] + rest) && After(f, s, [a] + rest) == After(f, Act(f, s, a), rest)
  {
    assert ([a] + rest)[1..] == rest;
  }

  lemma RunNothing(f: Fabric, s: Sim)
    requires Inv(f, s)
    ensures Run(f, s, []) && After(f, s, []) == s
  {
  }

  lemma {:induction false} RunConcat(f: Fabric, s: Sim, a: seq<Action>, b: seq<Action>)
    requires Run(f, s, a) && Run(f, After(f, s, a), b)
    ensures Run(f, s, a + b) && After(f, s, a + b) == After(f, After(f, s, a), b)
    ensures Events(a + b) == Events(a) + Events(b) && Handed(a + b) == Handed(a) + Handed(b)
    decreases a
  {
    hide CanAct, Act;
    if a == [] {
      assert a + b == b;
    } else {
      assert a + b == [a[0]] + (a[1..] + b);
      assert (a + b)[1..] == a[1..] + b;
      RunConcat(f, Act(f, s, a[0]), a[1..], b);
    }
  }

  /** How many of the actions are events. */
  function Events(acts: seq<Action>): nat {
    if acts == [] then 0 else (if acts[0].Happen? then 1 else 0) + Events(acts[1..])
  }

  /** The chunks handed in; the i-th of them becomes chunk i of a run that starts with none. */
  function Handed(acts: seq<Action>): seq<Parcel> {
    if acts == [] then []
    else if acts[0].Happen? then Handed(acts[1..])
    else [acts[0].parcel] + Handed(acts[1..])
  }

  /** A run from the empty simulator after which no event is left. */
  ghost predicate Complete(f: Fabric, acts: seq<Action>) {
    Run(f, Init(f), acts) && After(f, Init(f), acts).queue == []
  }

  ghost function Result(f: Fabric, acts: seq<Action>): Sim
    requires Complete(f, acts)
  {
    After(f, Init(f), acts)
  }

  lemma CompleteInv(f: Fabric, acts: seq<Action>)
    requires Complete(f, acts)
    ensures Inv(f, Result(f, acts)) && Result(f, acts).queue == []
  {
    hide CanAct, Act, Inv;
    RunKeeps(f, Init(f), acts);
  }

  /** Chunks that may be handed in, and handing them in one after the other. */
  ghost predicate AllFit(f: Fabric, parcels: seq<Parcel>) {
    forall i :: 0 <= i < |parcels| ==> CanInject(f, parcels[i].route, parcels[i].size)
  }

  function Hands(parcels: seq<Parcel>): seq<Action> {
    seq(|parcels|, i requires 0 <= i < |parcels| => Hand(parcels[i]))
  }

  lemma {:induction false} HandsFacts(parcels: seq<Parcel>)
    ensures Handed(Hands(parcels)) == parcels && Events(Hands(parcels)) == 0
  {
    if parcels != [] {
      assert Hands(parcels)[1..] == Hands(parcels[1..]);
      HandsFacts(parcels[1..]);
    }
  }

  lemma HandIsInject(f: Fabric, s: Sim, acts: seq<Action>, p: Parcel)
    requires Run(f, s, acts) && Inv(f, After(f, s, acts)) && CanInject(f, p.route, p.size)
    ensures CanAct(f, After(f, s, acts), Hand(p))
    ensures Act(f, After(f, s, acts), Hand(p)) == Inject(f, After(f, s, acts), p.route, p.size)
  {
  }
}
