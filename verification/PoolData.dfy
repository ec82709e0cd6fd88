/**
 The fields of the pthread pool's threadpool_t, the updates its functions make to
 them under `lock`, and the manager's growth scan over the slot table.
 */
module PoolData {
  import opened Basics
  import opened Counting
  import opened TaskRing

  const MIN_WAIT_TASK_NUM: nat := 10
  const DEFAULT_THREAD_VARY: nat := 10

  type Ticket = nat
  type Tid = nat

  /** `threads[i] == None` is the zero the table is filled with. */
  datatype Shared = Shared(
    min: nat, max: nat, ring: Ring<Ticket>, threads: seq<Option<Tid>>,
    live: int, busy: int, waitExit: int, shutdown: bool)

  predicate Sized(sh: Shared) { |sh.threads| == sh.max }

  /** threadpool_create: workers 0..min go into the first slots. */
  function Create(min: nat, max: nat, queueMax: nat): Shared {
    Shared(min, max, Ring(seq(queueMax, _ => 0), 0, 0, 0),
           seq(max, i => if i < min then Some(i) else None), min, 0, 0, false)
  }

  /** threadpool_add after its checks: store at the rear. */
  function AddTask(sh: Shared, t: Ticket): Shared
    requires sh.ring.rear < |sh.ring.slots|
  {
    sh.(ring := Put(sh.ring, t))
  }

  /** threadpool_thread after its checks: read at the front and advance. */
  function TakeTask(sh: Shared): (Ticket, Shared)
    requires sh.ring.front < |sh.ring.slots| && 0 < sh.ring.size
  {
    (sh.ring.slots[sh.ring.front], sh.(ring := Drop(sh.ring)))
  }

  /** What a woken worker does before it looks at the queue again; the flag says
      that it retires. */
  function RetireCheck(sh: Shared): (bool, Shared) {
    if sh.waitExit > 0 then
      var sh' := sh.(waitExit := sh.waitExit - 1);
      if sh.live > sh.min then (true, sh'.(live := sh.live - 1)) else (false, sh')
    else (false, sh)
  }

  function ArmShrink(sh: Shared): Shared { sh.(waitExit := DEFAULT_THREAD_VARY) }

  // ---- The growth scan ---------------------------------------------------------

  predicate Scanning(sh: Shared, i: nat, add: nat) {
    i < sh.max && add < DEFAULT_THREAD_VARY && sh.live < sh.max
  }

  /** is_thread_alive is asked about slot i only when the slot was ever used. */
  predicate Reusable(sh: Shared, i: nat, alive: bool)
    requires Sized(sh) && i < sh.max
  {
    sh.threads[i] == None || !alive
  }

  function Spawn(sh: Shared, i: nat, tid: Tid): Shared
    requires Sized(sh) && i < sh.max
  {
    sh.(threads := sh.threads[i := Some(tid)], live := sh.live + 1)
  }

  /** The whole scan from slot i on; `alive[j]` is the answer obtained for slot j and
      `tid` the next thread id.  Returns the pool and how many threads it holds added. */
  function Scan(sh: Shared, i: nat, add: nat, tid: Tid, alive: seq<bool>): (r: (Shared, nat))
    requires Sized(sh) && |alive| == sh.max
    ensures Sized(r.0)
    decreases sh.max - i
  {
    if !Scanning(sh, i, add) then (sh, add)
    else if Reusable(sh, i, alive[i]) then Scan(Spawn(sh, i, tid), i + 1, add + 1, tid + 1, alive)
    else Scan(sh, i + 1, add, tid, alive)
  }

  ghost function FreeFrom(sh: Shared, alive: seq<bool>, i: nat): nat
    requires Sized(sh) && |alive| == sh.max
    decreases sh.max - i
  {
    if i >= sh.max then 0 else (if Reusable(sh, i, alive[i]) then 1 else 0) + FreeFrom(sh, alive, i + 1)
  }

  function Min3(a: int, b: int, c: int): int {
    if a <= b && a <= c then a else if b <= c then b else c
  }

  /** Filling a slot does not change which later slots are free. */
  lemma {:induction false} FreeAfterSpawn(sh: Shared, i: nat, tid: Tid, alive: seq<bool>, j: nat)
    requires Sized(sh) && |alive| == sh.max && i < sh.max && i < j
    ensures FreeFrom(Spawn(sh, i, tid), alive, j) == FreeFrom(sh, alive, j)
    decreases sh.max - j
  {
    if j < sh.max {
      FreeAfterSpawn(sh, i, tid, alive, j + 1);
    }
  }

  /** The scan adds as many threads as the batch size, the room below the maximum
      and the free slots all allow. */
  lemma {:induction false} ScanCount(sh: Shared, i: nat, add: nat, tid: Tid, alive: seq<bool>)
    requires Sized(sh) && |alive| == sh.max
    requires add <= DEFAULT_THREAD_VARY && sh.live <= sh.max
    ensures var (sh', add') := Scan(sh, i, add, tid, alive);
            && add' - add == Min3(DEFAULT_THREAD_VARY - add, sh.max - sh.live, FreeFrom(sh, alive, i))
            && sh'.live == sh.live + (add' - add)
    decreases sh.max - i
  {
    if Scanning(sh, i, add) {
      if Reusable(sh, i, alive[i]) {
        FreeAfterSpawn(sh, i, tid, alive, i + 1);
        ScanCount(Spawn(sh, i, tid), i + 1, add + 1, tid + 1, alive);
      } else {
        ScanCount(sh, i + 1, add, tid, alive);
      }
    }
  }

  /** Only reusable slots are written, and everything but `threads` and `live` stays. */
  lemma {:induction false} ScanKeepsOccupied(sh: Shared, i: nat, add: nat, tid: Tid, alive: seq<bool>, j: nat)
    requires Sized(sh) && |alive| == sh.max && j < sh.max && !Reusable(sh, j, alive[j])
    ensures var sh' := Scan(sh, i, add, tid, alive).0;
            sh' == sh.(threads := sh'.threads, live := sh'.live) && sh'.threads[j] == sh.threads[j]
    decreases sh.max - i
  {
    if Scanning(sh, i, add) {
      if Reusable(sh, i, alive[i]) {
        ScanKeepsOccupied(Spawn(sh, i, tid), i + 1, add + 1, tid + 1, alive, j);
      } else {
        ScanKeepsOccupied(sh, i + 1, add, tid, alive, j);
      }
    }
  }

  // ---- Counting occupied slots ---------------------------------------------------

  /** `up[w]` says that worker w has not exited, `home[w]` is the slot it was created in. */
  ghost predicate Housed(threads: seq<Option<Tid>>, up: seq<bool>, home: seq<nat>) {
    && |home| == |up|
    && (forall w :: 0 <= w < |up| ==> home[w] < |threads|)
    && (forall w :: 0 <= w < |up| && up[w] ==> threads[home[w]] == Some(w))
    && (forall i :: 0 <= i < |threads| && threads[i].Some? ==>
         threads[i].value < |home| && home[threads[i].value] == i)
  }

  ghost function Occupied(up: seq<bool>): Option<Tid> -> int {
    (slot: Option<Tid>) => if slot.Some? && slot.value < |up| && up[slot.value] then 1 else 0
  }

  function One(b: bool): int { if b then 1 else 0 }

  /** Sums agree when the weights agree on every element. */
  lemma {:induction false} SumCongruent<T>(s: seq<T>, f: T -> int, g: T -> int)
    requires forall k :: 0 <= k < |s| ==> f(s[k]) == g(s[k])
    ensures Sum(s, f) == Sum(s, g)
  {
    SumMonotone(s, f, g);
    SumMonotone(s, g, f);
  }

  /** Forgetting the last worker, and its slot if it still has it. */
  lemma HousedWithoutLast(threads: seq<Option<Tid>>, up: seq<bool>, home: seq<nat>)
    requires Housed(threads, up, home) && up != []
    ensures var w := |up| - 1;
            var cleared := if threads[home[w]] == Some(w) then threads[home[w] := None] else threads;
            && Housed(cleared, up[..w], home[..w])
            && forall k :: 0 <= k < |cleared| ==> Occupied(up[..w])(cleared[k]) == Occupied(up)(cleared[k])
  {
  }

  /** There are exactly as many occupied slots as workers that have not exited. */
  lemma {:induction false} OccupiedCount(threads: seq<Option<Tid>>, up: seq<bool>, home: seq<nat>)
    requires Housed(threads, up, home)
    ensures Sum(threads, Occupied(up)) == Sum(up, One)
    decreases |up|
  {
    if up == [] {
      SumZero(threads, Occupied(up));
    } else {
      var w := |up| - 1;
      var i := home[w];
      var cleared := if threads[i] == Some(w) then threads[i := None] else threads;
      HousedWithoutLast(threads, up, home);
      OccupiedCount(cleared, up[..w], home[..w]);
      SumCongruent(cleared, Occupied(up[..w]), Occupied(up));
      SumUpdate(threads, i, None, Occupied(up));
    }
  }

  lemma SumPrefix<T>(s: seq<T>, f: T -> int, i: nat)
    requires i < |s|
    ensures Sum(s[..i + 1], f) == Sum(s[..i], f) + f(s[i])
  {
    assert s[..i + 1] == s[..i] + [s[i]];
    SumAppend(s[..i], s[i], f);
  }

  lemma SlotFreeOrOccupied(sh: Shared, up: seq<bool>, alive: seq<bool>, i: nat)
    requires Sized(sh) && |alive| == sh.max && i < sh.max
    requires sh.threads[i].Some? ==> sh.threads[i].value < |up| && alive[i] == up[sh.threads[i].value]
    ensures Occupied(up)(sh.threads[i]) == if Reusable(sh, i, alive[i]) then 0 else 1
  {
  }

  /** Free slots are the complement of the occupied ones. */
  lemma {:induction false} FreeIsRest(sh: Shared, up: seq<bool>, alive: seq<bool>, i: nat)
    requires Sized(sh) && |alive| == sh.max && i <= sh.max
    requires forall j :: 0 <= j < sh.max && sh.threads[j].Some? ==>
               sh.threads[j].value < |up| && alive[j] == up[sh.threads[j].value]
    ensures FreeFrom(sh, alive, i) == sh.max - i - (Sum(sh.threads, Occupied(up)) - Sum(sh.threads[..i], Occupied(up)))
    decreases sh.max - i
  {
    if i < sh.max {
      FreeIsRest(sh, up, alive, i + 1);
      SumPrefix(sh.threads, Occupied(up), i);
      SlotFreeOrOccupied(sh, up, alive, i);
    } else {
      assert sh.threads[..i] == sh.threads;
    }
  }

  /** When `live` counts the workers that have not exited and the liveness answers
      are right, the scan adds exactly min(10, max - live) threads. */
  lemma GrowthExact(sh: Shared, up: seq<bool>, home: seq<nat>, alive: seq<bool>)
    requires Sized(sh) && |alive| == sh.max && sh.live <= sh.max
    requires Housed(sh.threads, up, home) && sh.live == Sum(up, One)
    requires forall j :: 0 <= j < sh.max && sh.threads[j].Some? ==> alive[j] == up[sh.threads[j].value]
    ensures var (sh', added) := Scan(sh, 0, 0, |up|, alive);
            && added == (if DEFAULT_THREAD_VARY <= sh.max - sh.live then DEFAULT_THREAD_VARY else sh.max - sh.live)
            && sh'.live == sh.live + added
  {
    ScanCount(sh, 0, 0, |up|, alive);
    OccupiedCount(sh.threads, up, home);
    FreeIsRest(sh, up, alive, 0);
    assert sh.threads[..0] == [];
  }
}
