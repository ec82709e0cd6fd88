/**
 Progress of the producer and the consumer: who can move when, and that every message
 produced is consumed once the producer stops making new ones.
 */
module StackProgress {
  import opened Basics
  import opened Runs
  import opened StackList

  /** The producer waits for nothing but the lock, the consumer for nothing but the lock
      and, asleep, for a wake-up; whoever holds the lock can move. */
  lemma WhoCanMove(s: System)
    requires Reachable(s)
    ensures Step(s, P).None? <==> s.prod.PLock? && s.owner != Nobody
    ensures Step(s, C).None? <==> s.cons == CAsleep || ((s.cons == CLock || s.cons == CWoken) && s.owner != Nobody)
    ensures s.cons != CAsleep && s.owner != OfProducer ==> Step(s, C).Some?
    ensures s.owner == OfProducer ==> Step(s, P).Some?
    ensures s.owner == OfConsumer ==> Step(s, C).Some?
  {
    Safety(s);
  }

  /** A listed message always has a step behind it that brings it nearer to being taken:
      the consumer's, that of the producer holding the lock, or the signal about to be
      sent to the sleeping consumer. */
  lemma ListedMessageMoves(s: System)
    requires Reachable(s) && s.list != []
    ensures Step(s, C).Some? || (Step(s, P).Some? && (s.owner == OfProducer || s.prod == PSignal))
    ensures s.cons == CAsleep ==> Step(s, P).Some? && Step(s, P).value.cons == CWoken
  {
    ListDescends(s);
    WhoCanMove(s);
  }

  /** A wake-up without a signal is possible at any time of sleep, and a consumer that
      finds the list still empty is asleep again two steps later, with nothing changed. */
  lemma SpuriousWakeupIsHarmless(s: System)
    requires Reachable(s) && s.cons == CAsleep
    ensures Step(s, Spurious).Some?
    ensures s.owner == Nobody && s.list == [] ==> Exec(Step, s, [Spurious, C, C]) == Some(s)
  {
    if s.owner == Nobody && s.list == [] {
      var s1 := s.(cons := CWoken);
      var s2 := s.(cons := CWhile, owner := OfConsumer);
      assert Exec(Step, s2, [C]) == Some(s);
      assert Exec(Step, s1, [C, C]) == Exec(Step, s2, [C]);
      assert Exec(Step, s, [Spurious, C, C]) == Exec(Step, s1, [C, C]);
    }
  }

  // ---- Finishing -------------------------------------------------------------------

  /** Any step but a wake-up without a signal and the making of a new message. */
  predicate Finishes(s: System, a: Action) { a == C || (a == P && s.prod != PNew) }

  ghost predicate FinishingRun(s: System, acts: seq<Action>)
    decreases |acts|
  {
    acts == [] ||
    (Finishes(s, acts[0]) && Step(s, acts[0]).Some? && FinishingRun(Step(s, acts[0]).value, acts[1..]))
  }

  /** Steps left at most: each message is pushed, popped and printed, and a signal may
      send the consumer round its loop once more. */
  function Rank(s: System): nat {
    5 * |s.list|
    + (match s.prod
       case PNew => 0
       case PLock(_) => 10
       case PPush(_) => 9
       case PSignal => 3)
    + (match s.cons
       case CLock | CWoken => 2
       case CWhile => 1
       case CAsleep | CPop => 0
       case CPrint(_) => 3)
  }

  lemma RankFalls(s: System, a: Action)
    requires Finishes(s, a) && Step(s, a).Some?
    ensures Rank(Step(s, a).value) < Rank(s) && Step(s, a).value.cnt == s.cnt
  {
  }

  /** However the two are scheduled, finishing takes no more than Rank steps. */
  lemma {:induction false} FinishingEnds(s: System, acts: seq<Action>)
    requires FinishingRun(s, acts)
    ensures |acts| <= Rank(s)
    decreases |acts|
  {
    if acts != [] {
      RankFalls(s, acts[0]);
      FinishingEnds(Step(s, acts[0]).value, acts[1..]);
    }
  }

  /** Everything made has been consumed, each message once, and the consumer waits. */
  ghost predicate AllConsumed(s: System) {
    && s.list == [] && s.cons == CAsleep && s.owner == Nobody
    && (forall k: nat :: k in s.consumed <==> k < s.cnt)
    && forall a, b :: 0 <= a < b < |s.consumed| ==> s.consumed[a] != s.consumed[b]
  }

  /** A schedule that can finish no further has consumed everything, and only then. */
  lemma FinishedMeansConsumed(s: System)
    requires Reachable(s)
    ensures (forall a :: Finishes(s, a) ==> Step(s, a).None?) <==> AllConsumed(s) && s.prod == PNew
  {
    Safety(s);
    WhoCanMove(s);
    if forall a :: Finishes(s, a) ==> Step(s, a).None? {
      assert Finishes(s, C) && (s.prod != PNew ==> Finishes(s, P));
      assert s.cons == CAsleep && s.prod == PNew && Popped(s) == s.consumed;
    }
  }

  /** From every state the run can be finished, and then every message made so far has
      been consumed exactly once. */
  lemma {:induction false} EveryMessageIsConsumed(s: System) returns (acts: seq<Action>, t: System)
    requires Reachable(s)
    ensures FinishingRun(s, acts) && Exec(Step, s, acts) == Some(t)
    ensures t.cnt == s.cnt && AllConsumed(t)
    decreases Rank(s)
  {
    FinishedMeansConsumed(s);
    if a :| Finishes(s, a) && Step(s, a).Some? {
      var u := Step(s, a).value;
      RankFalls(s, a);
      ReachableNext(s, a, u);
      acts, t := EveryMessageIsConsumed(u);
      acts := [a] + acts;
    } else {
      acts, t := [], s;
    }
  }
}
