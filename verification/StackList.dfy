/**
 One producer and one consumer over a shared linked list that is pushed and popped at
 its head.  Which orders of consumption can occur?
 */
module StackList {
  import opened Basics
  import opened Runs

  datatype Producer = PNew | PLock(t: nat) | PPush(t: nat) | PSignal

  datatype Consumer = CLock | CWhile | CAsleep | CWoken | CPop | CPrint(v: nat)

  datatype Owner = Nobody | OfProducer | OfConsumer

  /** `list` is the shared list from head on. */
  datatype System = System(
    cnt: nat, list: seq<nat>, owner: Owner, prod: Producer, cons: Consumer, consumed: seq<nat>)

  /** The next step of the producer, of the consumer, or a spurious wake-up. */
  datatype Action = P | C | Spurious

  function Init(): System { System(0, [], Nobody, PNew, CLock, []) }

  function ProducerStep(s: System): Option<System> {
    match s.prod
    case PNew => Some(s.(prod := PLock(s.cnt), cnt := s.cnt + 1))
    case PLock(t) => if s.owner == Nobody then Some(s.(prod := PPush(t), owner := OfProducer)) else None
    case PPush(t) => Some(s.(prod := PSignal, owner := Nobody, list := [t] + s.list))
    case PSignal => Some(s.(prod := PNew, cons := if s.cons == CAsleep then CWoken else s.cons))
  }

  function ConsumerStep(s: System): Option<System> {
    match s.cons
    case CLock => if s.owner == Nobody then Some(s.(cons := CWhile, owner := OfConsumer)) else None
    case CWhile => if s.list == [] then Some(s.(cons := CAsleep, owner := Nobody)) else Some(s.(cons := CPop))
    case CAsleep => None
    case CWoken => if s.owner == Nobody then Some(s.(cons := CWhile, owner := OfConsumer)) else None
    case CPop =>
      if s.list == [] then None
      else Some(s.(cons := CPrint(s.list[0]), list := s.list[1..], owner := Nobody))
    case CPrint(v) => Some(s.(cons := CLock, consumed := s.consumed + [v]))
  }

  function Step(s: System, a: Action): Option<System> {
    match a
    case P => ProducerStep(s)
    case C => ConsumerStep(s)
    case Spurious => if s.cons == CAsleep then Some(s.(cons := CWoken)) else None
  }

  ghost predicate Reachable(s: System) { exists acts: seq<Action> :: Exec(Step, Init(), acts) == Some(s) }

  // ---- What every run keeps --------------------------------------------------------------

  predicate Distinct(s: seq<nat>) { forall a, b :: 0 <= a < b < |s| ==> s[a] != s[b] }

  predicate Descending(s: seq<nat>) { forall a, b :: 0 <= a < b < |s| ==> s[a] > s[b] }

  /** An order of consumption a stack allows: when a message follows a larger one,
      everything between the two came before it. */
  ghost predicate StackOrder(out: seq<nat>) {
    && Distinct(out)
    && forall a, b, t :: 0 <= a < b < |out| && out[b] < t < out[a] ==> t in out[..b]
  }

  predicate InProducer(s: System, k: nat) { s.prod == PLock(k) || s.prod == PPush(k) }

  /** The messages popped so far, in order, including the one about to be printed. */
  function Popped(s: System): seq<nat> { if s.cons.CPrint? then s.consumed + [s.cons.v] else s.consumed }

  /** Produced messages are consumed, listed, or in a thread's hand; each in one place. */
  ghost predicate Partition(s: System) {
    && Distinct(Popped(s)) && Descending(s.list)
    && (forall k :: 0 <= k < s.cnt ==> k in Popped(s) || k in s.list || InProducer(s, k))
    && (forall k :: k in Popped(s) ==> k < s.cnt && k !in s.list && !InProducer(s, k))
    && (forall k :: k in s.list ==> k < s.cnt && !InProducer(s, k))
    && (s.prod.PLock? || s.prod.PPush? ==> s.cnt == s.prod.t + 1)
  }

  ghost predicate Inv(s: System) {
    && Partition(s) && StackOrder(Popped(s))
    && (s.owner == OfProducer <==> s.prod.PPush?)
    && (s.owner == OfConsumer <==> s.cons == CWhile || s.cons == CPop)
    && (s.cons == CPop ==> s.list != [])
    && (s.cons == CAsleep && s.list != [] ==> s.prod == PSignal)
  }

  lemma PushInv(s: System)
    requires Inv(s) && s.prod.PPush?
    ensures Inv(ProducerStep(s).value)
  {
    var t := ProducerStep(s).value;
    assert Popped(t) == Popped(s);
    assert forall k :: k in t.list <==> k == s.prod.t || k in s.list;
    forall j | 0 <= j < |s.list| ensures s.list[j] < s.prod.t {
      assert s.list[j] in s.list;
    }
  }

  lemma ProducerInv(s: System)
    requires Inv(s) && ProducerStep(s).Some?
    ensures Inv(ProducerStep(s).value)
  {
    if s.prod.PPush? {
      PushInv(s);
    } else {
      assert Popped(ProducerStep(s).value) == Popped(s);
    }
  }

  /** Popping the head extends a stack order by one. */
  lemma PopOrder(s: System)
    requires Inv(s) && s.cons == CPop
    ensures StackOrder(Popped(s) + [s.list[0]])
  {
    var out, v := Popped(s), s.list[0];
    var next := out + [v];
    assert v in s.list;
    forall a, b, t | 0 <= a < b < |next| && next[b] < t < next[a] ensures t in next[..b] {
      if b < |out| {
        assert next[..b] == out[..b];
      } else {
        assert next[..b] == out;
        assert out[a] in out;
        assert forall j :: 0 <= j < |s.list| ==> s.list[j] <= v;
      }
    }
  }

  lemma PopPartition(s: System)
    requires Partition(s) && s.cons == CPop && s.list != []
    ensures Partition(ConsumerStep(s).value)
  {
    var t := ConsumerStep(s).value;
    assert Popped(t) == Popped(s) + [s.list[0]];
    assert s.list == [s.list[0]] + t.list;
    assert forall k :: k in s.list <==> k == s.list[0] || k in t.list;
    assert s.list[0] !in Popped(s) && s.list[0] !in t.list;
  }

  lemma ConsumerInv(s: System)
    requires Inv(s) && ConsumerStep(s).Some?
    ensures Inv(ConsumerStep(s).value)
  {
    var t := ConsumerStep(s).value;
    if s.cons == CPop {
      PopOrder(s);
      PopPartition(s);
    } else {
      assert Popped(t) == Popped(s);
    }
  }

  lemma Safety(s: System)
    requires Reachable(s)
    ensures Inv(s)
  {
    var acts: seq<Action> :| Exec(Step, Init(), acts) == Some(s);
    forall t, a | Inv(t) && Step(t, a).Some? ensures Inv(Step(t, a).value) {
      match a {
        case P => ProducerInv(t);
        case C => ConsumerInv(t);
        case Spurious => assert Popped(Step(t, a).value) == Popped(t);
      }
    }
    InvariantHolds(Step, Inv, Init(), acts);
  }

  /** The list descends from its head, every produced message is in exactly one place,
      and a consumer asleep beside messages is about to be signalled. */
  lemma ListDescends(s: System)
    requires Reachable(s)
    ensures Partition(s) && (s.cons == CAsleep && s.list != [] ==> s.prod == PSignal)
  {
    Safety(s);
  }

  lemma PrefixOrder(out: seq<nat>, n: nat)
    requires StackOrder(out) && n <= |out|
    ensures StackOrder(out[..n])
  {
    var p := out[..n];
    forall a, b, t | 0 <= a < b < |p| && p[b] < t < p[a] ensures t in p[..b] {
      assert p[..b] == out[..b];
    }
  }

  lemma ConsumedInStackOrder(s: System)
    requires Reachable(s)
    ensures StackOrder(s.consumed)
  {
    Safety(s);
    PrefixOrder(Popped(s), |s.consumed|);
    assert Popped(s)[..|s.consumed|] == s.consumed;
  }

  /** Largest, smallest, middle. */
  ghost predicate Has312(out: seq<nat>) {
    exists a, b, c :: 0 <= a < b < c < |out| && out[b] < out[c] < out[a]
  }

  /** No three messages are consumed in the order largest, smallest, middle. */
  lemma Never312(s: System)
    requires Reachable(s)
    ensures !Has312(s.consumed)
  {
    ConsumedInStackOrder(s);
    Avoids312(s.consumed);
  }

  lemma Avoids312(out: seq<nat>)
    requires StackOrder(out)
    ensures !Has312(out)
  {
    forall a, b, c | 0 <= a < b < c < |out| ensures !(out[b] < out[c] < out[a]) {
      assert out[c] !in out[..b];
    }
  }

  /** For a complete order, one that consumes all of 0..n, avoiding the pattern is
      all that a stack order asks. */
  lemma CompleteOrder(out: seq<nat>)
    requires Distinct(out) && forall k: nat :: k in out <==> k < |out|
    ensures StackOrder(out) <==> !Has312(out)
  {
    if StackOrder(out) {
      Avoids312(out);
    } else {
      var a, b, t :| 0 <= a < b < |out| && out[b] < t < out[a] && t !in out[..b];
      assert out[a] in out && t in out;
      var c :| 0 <= c < |out| && out[c] == t;
      forall j | 0 <= j < b ensures out[j] in out[..b] {
        assert out[..b][j] == out[j];
      }
      assert a < b < c;
    }
  }

  // ---- Every stack order occurs ----------------------------------------------------------------

  /** The messages below n that are not in out, largest first. */
  function Left(n: nat, out: seq<nat>): seq<nat> {
    if n == 0 then [] else (if n - 1 in out then [] else [n - 1]) + Left(n - 1, out)
  }

  /** Both threads between two rounds, n messages produced and `out` consumed. */
  function Rest(n: nat, out: seq<nat>): System { System(n, Left(n, out), Nobody, PNew, CLock, out) }

  lemma ReachableNext(s: System, a: Action, t: System)
    requires Reachable(s) && Step(s, a) == Some(t)
    ensures Reachable(t)
  {
    var acts: seq<Action> :| Exec(Step, Init(), acts) == Some(s);
    ExecNext(Step, Init(), acts, s, a, t);
  }

  lemma {:induction false} PushUpTo(n: nat, m: nat, out: seq<nat>)
    requires n <= m && Reachable(Rest(n, out)) && forall k :: n <= k < m ==> k !in out
    ensures Reachable(Rest(m, out))
    decreases m - n
  {
    if n < m {
      var s := Rest(n, out);
      var s1 := s.(prod := PLock(n), cnt := n + 1);
      var s2 := s1.(prod := PPush(n), owner := OfProducer);
      var s3 := s2.(prod := PSignal, owner := Nobody, list := [n] + s.list);
      ReachableNext(s, P, s1);
      ReachableNext(s1, P, s2);
      ReachableNext(s2, P, s3);
      ReachableNext(s3, P, Rest(n + 1, out));
      PushUpTo(n + 1, m, out);
    }
  }

  /** Consuming the largest message that is left. */
  lemma PopOne(n: nat, v: nat, out: seq<nat>)
    requires Reachable(Rest(n, out)) && v < n && v !in out && forall t :: v < t < n ==> t in out
    ensures Reachable(Rest(n, out + [v]))
  {
    LeftHead(n, v, out);
    LeftAfter(n, v, out);
    var s := Rest(n, out);
    var s1 := s.(cons := CWhile, owner := OfConsumer);
    var s2 := s1.(cons := CPop);
    var s3 := s2.(cons := CPrint(v), list := Left(v, out), owner := Nobody);
    ReachableNext(s, C, s1);
    ReachableNext(s1, C, s2);
    ReachableNext(s2, C, s3);
    ReachableNext(s3, C, Rest(n, out + [v]));
  }

  lemma {:induction false} LeftHead(n: nat, v: nat, out: seq<nat>)
    requires v < n && v !in out && forall t :: v < t < n ==> t in out
    ensures Left(n, out) == [v] + Left(v, out)
    decreases n
  {
    if v < n - 1 {
      LeftHead(n - 1, v, out);
    }
  }

  lemma {:induction false} LeftAfter(n: nat, v: nat, out: seq<nat>)
    requires forall t :: v < t < n ==> t in out
    ensures Left(n, out + [v]) == Left(if v < n then v else n, out)
    decreases n
  {
    if n > 0 {
      LeftAfter(n - 1, v, out);
    }
  }

  /** One more than the largest message in out. */
  function Top(out: seq<nat>): (n: nat)
    ensures forall k :: k in out ==> k < n
    ensures out == [] || n - 1 in out
    ensures out == [] ==> n == 0
  {
    if out == [] then 0
    else
      var v, n := out[|out| - 1], Top(out[..|out| - 1]);
      assert out == out[..|out| - 1] + [v];
      if v < n then n else v + 1
  }

  /** Scheduling the last message of a stack order after the rest. */
  lemma ScheduleLast(p: seq<nat>, v: nat)
    requires StackOrder(p + [v]) && Reachable(Rest(Top(p), p))
    ensures Reachable(Rest(if v < Top(p) then Top(p) else v + 1, p + [v]))
  {
    var n, out := Top(p), p + [v];
    assert v !in p by {
      assert out[|p|] == v && forall j :: 0 <= j < |p| ==> out[j] == p[j];
    }
    if v >= n {
      PushUpTo(n, v + 1, p);
      PopOne(v + 1, v, p);
    } else {
      forall t | v < t < n ensures t in p {
        AllBetween(p, v, t);
      }
      PopOne(n, v, p);
    }
  }

  lemma AllBetween(p: seq<nat>, v: nat, t: nat)
    requires StackOrder(p + [v]) && v < t < Top(p)
    ensures t in p
  {
    var out := p + [v];
    var a :| 0 <= a < |p| && p[a] == Top(p) - 1;
    if t < p[a] {
      assert out[|p|] < t < out[a];
      assert out[..|p|] == p;
    }
  }

  /** Produce just enough, then consume: a schedule for any stack order. */
  lemma {:induction false} Schedule(out: seq<nat>)
    requires StackOrder(out)
    ensures Reachable(Rest(Top(out), out))
    decreases |out|
  {
    if out == [] {
      assert Exec(Step, Init(), []) == Some(Init());
    } else {
      var b := |out| - 1;
      assert out == out[..b] + [out[b]];
      PrefixOrder(out, b);
      Schedule(out[..b]);
      ScheduleLast(out[..b], out[b]);
    }
  }

  /** The orders of consumption that occur are exactly the stack orders. */
  lemma OrdersExactly(out: seq<nat>)
    ensures StackOrder(out) <==> exists s :: Reachable(s) && s.consumed == out
  {
    if StackOrder(out) {
      Schedule(out);
      assert Rest(Top(out), out).consumed == out;
    }
    if s :| Reachable(s) && s.consumed == out {
      ConsumedInStackOrder(s);
    }
  }
}

/** The linked list itself. */
module SharedList {
  import opened StackList

  class Msg {
    var data: nat
    var next: Msg?

    constructor (d: nat)
      ensures data == d && next == null
    {
      data := d;
      next := null;
    }
  }

  function NodeAt(ns: seq<Msg>, i: nat): Msg? { if i < |ns| then ns[i] else null }

  class MessageList {
    var head: Msg?

    /** The nodes from head on. */
    ghost var nodes: seq<Msg>

    ghost predicate Valid()
      reads this, nodes
    {
      && head == NodeAt(nodes, 0)
      && (forall i :: 0 <= i < |nodes| ==> nodes[i].next == NodeAt(nodes, i + 1))
      && (forall i, j :: 0 <= i < j < |nodes| ==> nodes[i] != nodes[j])
    }

    ghost function Contents(): (s: seq<nat>)
      reads this, nodes
      ensures |s| == |nodes|
    {
      seq(|nodes|, i requires 0 <= i < |nodes| reads this, nodes => nodes[i].data)
    }

    constructor ()
      ensures Valid() && Contents() == []
    {
      head := null;
      nodes := [];
    }

    /** The producer's critical section. */
    method Push(t: Msg)
      requires Valid() && t !in nodes
      modifies this, t`next
      ensures Valid() && nodes == [t] + old(nodes)
      ensures Contents() == [t.data] + old(Contents())
      ensures forall s: System :: s.list == old(Contents()) && s.prod == PPush(t.data) ==>
                ProducerStep(s).Some? && ProducerStep(s).value.list == Contents()
    {
      t.next := head;
      head := t;
      nodes := [t] + nodes;
      forall i | 0 < i < |nodes| ensures nodes[i].next == NodeAt(nodes, i + 1) {
        assert nodes[i] == old(nodes)[i - 1];
      }
    }

    /** The consumer's critical section after its wait. */
    method Pop() returns (mp: Msg)
      requires Valid() && head != null
      modifies this
      ensures Valid() && mp !in nodes && old(nodes) == [mp] + nodes
      ensures old(Contents()) == [mp.data] + Contents()
      ensures forall s: System :: s.list == old(Contents()) && s.cons == CPop ==>
                ConsumerStep(s).Some? && ConsumerStep(s).value.list == Contents()
                && ConsumerStep(s).value.cons == CPrint(mp.data)
    {
      mp := head;
      head := mp.next;
      nodes := nodes[1..];
      forall i | 0 <= i < |nodes| ensures nodes[i].next == NodeAt(nodes, i + 1) {
        assert nodes[i] == old(nodes)[i + 1];
      }
    }
  }
}
