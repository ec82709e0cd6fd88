/**
 The self-resizing pthread pool as a labelled transition system: any number of
 producers, a changing set of workers, the manager and the shutdown write, with
 every lock acquisition, wait, check and queue mutation a step of its own.

 `lock` is modelled by its owner; sections of `thread_counter` touch one variable
 and are single steps.  `shutdown` is written by a step that needs no lock.
 A task's ticket is its place in the order of acceptance.
 */
module PthreadPool {
  import opened Basics
  import opened Runs
  import opened PoolData

  // ---- Program counters ----------------------------------------------------------

  /** `sig` marks a worker that a signal took off the wait set of queue_not_empty and
      that has not yet acted on it. */
  datatype Worker =
    | AtLock                          // about to lock
    | AtWhile(sig: bool)              // holds lock: loop condition
    | AboutToWait                     // holds lock: condition was true
    | Asleep                          // waiting on queue_not_empty
    | Woken(sig: bool)                // off the wait set, wants the lock back
    | Resumed(sig: bool)              // holds lock: returned from the wait
    | AtShutdownCheck(sig: bool)      // holds lock: after the loop
    | AtDequeue(sig: bool)            // holds lock: will take a task
    | Taken(ticket: Ticket)           // lock released, not yet counted busy
    | Running(ticket: Ticket)         // counted busy, executing
    | Finished                        // executed, still counted busy
    | Leaving(retired: bool)          // lock released, about to exit
    | Gone(retired: bool)             // exited

  datatype Producer =
    | Idle
    | PLock                           // called threadpool_add
    | PWhile                          // holds lock: loop condition
    | PAboutToWait                    // holds lock: condition was true
    | PAsleep                         // waiting on queue_not_full
    | PWoken                          // off the wait set, wants the lock back
    | PCheck                          // holds lock: shutdown check
    | PEnqueue                        // holds lock: will store its task

  /** The numbers are the manager's snapshots, possibly stale. */
  datatype Manager =
    | MLoop                                                // reads shutdown
    | MSleep                                               // sleeps, then wants lock
    | MSnapshot                                            // holds lock
    | MCount(queued: int, live: int)                       // wants thread_counter
    | MGrowTest(queued: int, live: int, busy: int)
    | MGrowLock(live: int, busy: int)                      // wants lock
    | MGrow(i: nat, add: nat, live: int, busy: int)        // holds lock: scanning
    | MShrinkTest(live: int, busy: int)
    | MShrinkLock                                          // wants lock
    | MShrink                                              // holds lock
    | MSignal(k: nat)                                      // signalling, no lock
    | MExited

  datatype Owner = Nobody | OfWorker(w: nat) | OfProducer(p: nat) | OfManager

  /** `home[w]` is the slot worker w was created in.  `taken`, `takenBy` and `runs` are
      histories: tickets in the order taken, who took each, and how often each
      accepted task has been executed. */
  datatype Pool = Pool(
    sh: Shared, owner: Owner, workers: seq<Worker>, producers: seq<Producer>, mgr: Manager,
    home: seq<nat>, taken: seq<Ticket>, takenBy: seq<nat>, runs: seq<nat>)

  /** For a signal the environment chooses the thread it wakes; for a scan step it
      gives the answer of is_thread_alive. */
  datatype Action =
    | W(w: nat) | WSpurious(w: nat)
    | P(p: nat, target: Option<nat>) | PSpurious(p: nat)
    | M(target: Option<nat>, alive: bool)
    | SetShutdown | DestroyBroadcast

  function Init(min: nat, max: nat, queueMax: nat, producers: nat): Pool {
    Pool(Create(min, max, queueMax), Nobody, seq(min, _ => AtLock), seq(producers, _ => Idle), MLoop,
         seq(min, i => i), [], [], [])
  }

  // ---- Waking -------------------------------------------------------------------

  predicate SomeAsleep(ws: seq<Worker>) { exists w :: 0 <= w < |ws| && ws[w] == Asleep }

  function WakeWorkers(ws: seq<Worker>): (r: seq<Worker>)
    ensures |r| == |ws| && !SomeAsleep(r)
    ensures forall i :: 0 <= i < |ws| ==> r[i] == if ws[i] == Asleep then Woken(true) else ws[i]
  {
    seq(|ws|, i requires 0 <= i < |ws| => if ws[i] == Asleep then Woken(true) else ws[i])
  }

  function WakeProducers(ps: seq<Producer>): (r: seq<Producer>)
    ensures |r| == |ps|
    ensures forall i :: 0 <= i < |ps| ==> r[i] == if ps[i] == PAsleep then PWoken else ps[i]
  {
    seq(|ps|, i requires 0 <= i < |ps| => if ps[i] == PAsleep then PWoken else ps[i])
  }

  /** pthread_cond_signal on queue_not_empty: wakes one sleeper if there is one. */
  function Signal(ws: seq<Worker>, target: Option<nat>): Option<seq<Worker>> {
    match target
    case Some(w) => if w < |ws| && ws[w] == Asleep then Some(ws[w := Woken(true)]) else None
    case None => if SomeAsleep(ws) then None else Some(ws)
  }

  // ---- Worker steps -------------------------------------------------------------

  predicate WaitsForWork(sh: Shared) { sh.ring.size == 0 && !sh.shutdown }

  predicate WaitsForRoom(sh: Shared) { sh.ring.size == |sh.ring.slots| && !sh.shutdown }

  function SetW(s: Pool, w: nat, pc: Worker): Pool
    requires w < |s.workers|
  {
    s.(workers := s.workers[w := pc])
  }

  function LockW(s: Pool, w: nat, pc: Worker): Option<Pool>
    requires w < |s.workers|
  {
    if s.owner == Nobody then Some(SetW(s, w, pc).(owner := OfWorker(w))) else None
  }

  function UnlockW(s: Pool, w: nat, pc: Worker): Option<Pool>
    requires w < |s.workers|
  {
    Some(SetW(s, w, pc).(owner := Nobody))
  }

  function ResumedStep(s: Pool, w: nat, sig: bool): Option<Pool>
    requires w < |s.workers|
  {
    var (retires, sh) := RetireCheck(s.sh);
    if retires then UnlockW(s.(sh := sh), w, Leaving(true)) else Some(SetW(s.(sh := sh), w, AtWhile(sig)))
  }

  function DequeueStep(s: Pool, w: nat): Option<Pool>
    requires w < |s.workers|
  {
    if s.sh.ring.front < |s.sh.ring.slots| && 0 < s.sh.ring.size then
      var (t, sh) := TakeTask(s.sh);
      UnlockW(s.(sh := sh, producers := WakeProducers(s.producers),
                 taken := s.taken + [t], takenBy := s.takenBy + [w]), w, Taken(t))
    else None
  }

  function ExecuteStep(s: Pool, w: nat, t: Ticket): Option<Pool>
    requires w < |s.workers|
  {
    if t < |s.runs| then Some(SetW(s, w, Finished).(runs := s.runs[t := s.runs[t] + 1])) else None
  }

  function WorkerStep(s: Pool, w: nat): Option<Pool> {
    if w >= |s.workers| then None
    else
      match s.workers[w]
      case AtLock => LockW(s, w, AtWhile(false))
      case AtWhile(sig) => Some(SetW(s, w, if WaitsForWork(s.sh) then AboutToWait else AtShutdownCheck(sig)))
      case AboutToWait => UnlockW(s, w, Asleep)
      case Asleep => None
      case Woken(sig) => LockW(s, w, Resumed(sig))
      case Resumed(sig) => ResumedStep(s, w, sig)
      case AtShutdownCheck(sig) =>
        if s.sh.shutdown then UnlockW(s, w, Leaving(false)) else Some(SetW(s, w, AtDequeue(sig)))
      case AtDequeue(_) => DequeueStep(s, w)
      case Taken(t) => Some(SetW(s, w, Running(t)).(sh := s.sh.(busy := s.sh.busy + 1)))
      case Running(t) => ExecuteStep(s, w, t)
      case Finished => Some(SetW(s, w, AtLock).(sh := s.sh.(busy := s.sh.busy - 1)))
      case Leaving(r) => Some(SetW(s, w, Gone(r)))
      case Gone(_) => None
  }

  // ---- Producer steps -----------------------------------------------------------

  function SetP(s: Pool, p: nat, pc: Producer): Pool
    requires p < |s.producers|
  {
    s.(producers := s.producers[p := pc])
  }

  function LockP(s: Pool, p: nat): Option<Pool>
    requires p < |s.producers|
  {
    if s.owner == Nobody then Some(SetP(s, p, PWhile).(owner := OfProducer(p))) else None
  }

  function EnqueueStep(s: Pool, p: nat, target: Option<nat>): Option<Pool>
    requires p < |s.producers|
  {
    if s.sh.ring.rear >= |s.sh.ring.slots| then None
    else
      match Signal(s.workers, target)
      case None => None
      case Some(ws) =>
        Some(SetP(s, p, Idle).(owner := Nobody, workers := ws,
                               sh := AddTask(s.sh, |s.runs|), runs := s.runs + [0]))
  }

  function ProducerStep(s: Pool, p: nat, target: Option<nat>): Option<Pool> {
    if p >= |s.producers| then None
    else
      match s.producers[p]
      case Idle => Some(SetP(s, p, PLock))
      case PLock => LockP(s, p)
      case PWhile => Some(SetP(s, p, if WaitsForRoom(s.sh) then PAboutToWait else PCheck))
      case PAboutToWait => Some(SetP(s, p, PAsleep).(owner := Nobody))
      case PAsleep => None
      case PWoken => LockP(s, p)
      case PCheck =>
        if s.sh.shutdown then Some(SetP(s, p, Idle).(owner := Nobody, workers := WakeWorkers(s.workers)))
        else Some(SetP(s, p, PEnqueue))
      case PEnqueue => EnqueueStep(s, p, target)
  }

  // ---- Manager steps ------------------------------------------------------------

  /** The liveness oracle never denies a thread that has not exited. */
  predicate HonestAnswer(s: Pool, i: nat, alive: bool) {
    (i < |s.sh.threads| && s.sh.threads[i].Some? && s.sh.threads[i].value < |s.workers|
     && !s.workers[s.sh.threads[i].value].Gone?) ==> alive
  }

  function GrowStep(s: Pool, i: nat, add: nat, live: int, busy: int, alive: bool): Option<Pool> {
    if !Scanning(s.sh, i, add) then Some(s.(mgr := MShrinkTest(live, busy), owner := Nobody))
    else if !Sized(s.sh) || !HonestAnswer(s, i, alive) then None
    else if Reusable(s.sh, i, alive) then
      Some(s.(sh := Spawn(s.sh, i, |s.workers|), workers := s.workers + [AtLock], home := s.home + [i],
              mgr := MGrow(i + 1, add + 1, live, busy)))
    else Some(s.(mgr := MGrow(i + 1, add, live, busy)))
  }

  function LockM(s: Pool, pc: Manager): Option<Pool> {
    if s.owner == Nobody then Some(s.(mgr := pc, owner := OfManager)) else None
  }

  function SignalStep(s: Pool, k: nat, target: Option<nat>): Option<Pool> {
    if k >= DEFAULT_THREAD_VARY then Some(s.(mgr := MLoop))
    else
      match Signal(s.workers, target)
      case None => None
      case Some(ws) => Some(s.(mgr := MSignal(k + 1), workers := ws))
  }

  function ManagerStep(s: Pool, target: Option<nat>, alive: bool): Option<Pool> {
    match s.mgr
    case MLoop => Some(s.(mgr := if s.sh.shutdown then MExited else MSleep))
    case MSleep => LockM(s, MSnapshot)
    case MSnapshot => Some(s.(mgr := MCount(s.sh.ring.size, s.sh.live), owner := Nobody))
    case MCount(q, l) => Some(s.(mgr := MGrowTest(q, l, s.sh.busy)))
    case MGrowTest(q, l, b) =>
      Some(s.(mgr := if q >= MIN_WAIT_TASK_NUM && l < s.sh.max then MGrowLock(l, b) else MShrinkTest(l, b)))
    case MGrowLock(l, b) => LockM(s, MGrow(0, 0, l, b))
    case MGrow(i, add, l, b) => GrowStep(s, i, add, l, b, alive)
    case MShrinkTest(l, b) =>
      Some(s.(mgr := if b * 2 < l && l > s.sh.min then MShrinkLock else MLoop))
    case MShrinkLock => LockM(s, MShrink)
    case MShrink => Some(s.(mgr := MSignal(0), sh := ArmShrink(s.sh), owner := Nobody))
    case MSignal(k) => SignalStep(s, k, target)
    case MExited => None
  }

  function Step(s: Pool, a: Action): Option<Pool> {
    match a
    case W(w) => WorkerStep(s, w)
    case WSpurious(w) =>
      if w < |s.workers| && s.workers[w] == Asleep then Some(SetW(s, w, Woken(false))) else None
    case P(p, target) => ProducerStep(s, p, target)
    case PSpurious(p) =>
      if p < |s.producers| && s.producers[p] == PAsleep then Some(SetP(s, p, PWoken)) else None
    case M(target, alive) => ManagerStep(s, target, alive)
    case SetShutdown => Some(s.(sh := s.sh.(shutdown := true)))
    case DestroyBroadcast =>
      if s.sh.shutdown && s.mgr == MExited then Some(s.(workers := WakeWorkers(s.workers))) else None
  }

  /** The arguments threadpool_create is meant for. */
  predicate ValidArguments(min: nat, max: nat, queueMax: nat) { 1 <= min <= max && 1 <= queueMax }

  ghost predicate Reachable(s: Pool) {
    exists min: nat, max: nat, queueMax: nat, producers: nat, acts: seq<Action> ::
      ValidArguments(min, max, queueMax) && Exec(Step, Init(min, max, queueMax, producers), acts) == Some(s)
  }
}
