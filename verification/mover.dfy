/** The move engine: phases, one serial queue per destination volume, and the environment's answers
    as events (internal/mover). */
module Mover {
  import opened DiskUsage
  import opened PlannerModel

  /** One planned move as the engine sees it; ceiling is zero for none. */
  datatype Move = Move(size: int, destination: Path, phase: int, ceiling: real)

  /** What decides which queue a move joins. */
  datatype VolumeKey = Device(id: nat) | OwnPath(path: Path) | SerialQueue

  function KeyOf(path: Path, volumeOf: map<Path, nat>): VolumeKey {
    if path in volumeOf then Device(volumeOf[path]) else OwnPath(path)
  }

  /** Whether a move may be fired at a destination that reads as given (None: it could not be read). */
  predicate HasRoom(reading: Option<Usage>, m: Move) {
    m.size <= 0
    || (reading.Some? && m.size <= reading.value.free
        && !(m.ceiling > 0.0 && PercentUsed(reading.value.used + m.size, reading.value.free - m.size) > m.ceiling))
  }

  datatype Status = Pending | Moving | Done | Failed

  predicate Terminal(s: Status) { s == Done || s == Failed }

  /** How far the head of a queue has got; Blocking is a queue that was stopped for good. */
  datatype Stage = Idle | Checking | Verifying | Requesting | Settling | Recording | Blocking

  /** One volume's queue in the current phase: the entries left, the first of them in hand. */
  datatype Worker = Worker(todo: seq<nat>, stage: Stage)

  /** The moves of a run, each one's queue, and the distinct phases in ascending order. */
  datatype Job = Job(moves: seq<Move>, keys: seq<VolumeKey>, phases: seq<int>)

  /** A run so far. requests, rejected and landed are its history: every Move call made, the ones the
      app definitely turned down, and the ones ConfirmLanded agreed to. */
  datatype State = State(status: seq<Status>, at: nat, workers: map<VolumeKey, Worker>, phaseLanded: bool,
                         requests: seq<nat>, rejected: set<nat>, landed: set<nat>, done: bool)

  datatype Answer = Accepted | Refused | Ambiguous

  /** Everything that can happen next: a worker's step with what the environment answered, or the
      phase barrier. */
  datatype Event =
    | Begin(key: VolumeKey)
    | Storage(key: VolumeKey, ok: bool)
    | Room(key: VolumeKey, reading: Option<Usage>)
    | Answered(key: VolumeKey, answer: Answer)
    | Settled(key: VolumeKey, confirmed: bool)
    | Recorded(key: VolumeKey, ok: bool)
    | Block(key: VolumeKey)
    | NextPhase

  ghost predicate ValidJob(job: Job) {
    && |job.keys| == |job.moves|
    && (job.phases == [] ==> job.moves == [])
    && (forall a, b :: 0 <= a < b < |job.phases| ==> job.phases[a] < job.phases[b])
    && forall i :: 0 <= i < |job.moves| ==> job.moves[i].phase in job.phases
  }

  predicate InQueue(job: Job, phase: int, key: VolumeKey, i: nat) {
    i < |job.moves| == |job.keys| && job.moves[i].phase == phase && job.keys[i] == key
  }

  /** The entries of one phase bound for one queue, in plan order, from entry i on. */
  function QueueFrom(job: Job, phase: int, key: VolumeKey, i: nat): seq<nat>
    decreases |job.moves| - i
  {
    if i >= |job.moves| then []
    else (if InQueue(job, phase, key, i) then [i] else []) + QueueFrom(job, phase, key, i + 1)
  }

  function KeysIn(job: Job, phase: int): set<VolumeKey> {
    set i | 0 <= i < |job.keys| && InQueue(job, phase, job.keys[i], i) :: job.keys[i]
  }

  function WorkersFor(job: Job, phase: int): map<VolumeKey, Worker> {
    map k | k in KeysIn(job, phase) :: Worker(QueueFrom(job, phase, k, 0), Idle)
  }

  function Start(job: Job): State {
    State(seq(|job.moves|, _ => Pending), 0, if job.phases == [] then map[] else WorkersFor(job, job.phases[0]),
          true, [], {}, {}, job.phases == [])
  }

  predicate Busy(s: State, k: VolumeKey) {
    k in s.workers && s.workers[k].todo != []
  }

  predicate Enabled(job: Job, s: State, ev: Event) {
    && !s.done && s.at < |job.phases|
    && match ev {
      case Begin(k) => Busy(s, k) && s.workers[k].stage == Idle
      case Storage(k, _) => Busy(s, k) && s.workers[k].stage == Checking
      case Room(k, _) => Busy(s, k) && s.workers[k].stage == Verifying
      case Answered(k, _) => Busy(s, k) && s.workers[k].stage == Requesting
      case Settled(k, _) => Busy(s, k) && s.workers[k].stage == Settling
      case Recorded(k, _) => Busy(s, k) && s.workers[k].stage == Recording
      case Block(k) => Busy(s, k) && s.workers[k].stage == Blocking
      case NextPhase => forall k :: k in s.workers ==> s.workers[k].todo == []
    }
  }

  /** What a worker's step does to the entry in hand: its new status, whether the worker is finished
      with it, the stage the worker goes to, and what enters the history. */
  datatype Effect = Effect(status: Status, leaves: bool, stage: Stage, requests: bool, rejects: bool, lands: bool, missed: bool)

  function Proceed(stage: Stage): Effect { Effect(Moving, false, stage, false, false, false, false) }
  /** A failure before the app accepted anything: the volume stays safe. */
  function FailSafe(): Effect { Effect(Failed, true, Idle, false, false, false, true) }
  /** A failure that may leave a transfer running: the queue stops. */
  function FailBlocking(): Effect { Effect(Failed, true, Blocking, false, false, false, true) }

  function EffectOf(ev: Event, m: Move): Effect
    requires !ev.NextPhase?
  {
    match ev
    case Begin(_) => Proceed(Checking)
    case Storage(_, ok) => if ok then Proceed(Verifying) else FailSafe()
    case Room(_, reading) => if HasRoom(reading, m) then Proceed(Requesting) else FailSafe()
    case Answered(_, answer) =>
      (match answer
       case Accepted => Proceed(Settling)
       case Refused => FailSafe().(rejects := true)
       case Ambiguous => FailBlocking()).(requests := true)
    case Settled(_, confirmed) => if confirmed then Proceed(Recording).(lands := true) else FailBlocking()
    case Recorded(_, ok) => Effect(if ok then Done else Failed, true, Idle, false, false, false, false)
    case Block(_) => FailBlocking()
  }

  function Perform(s: State, k: VolumeKey, eff: Effect): State
    requires Busy(s, k) && s.workers[k].todo[0] < |s.status|
  {
    var w := s.workers[k];
    var h := w.todo[0];
    s.(status := s.status[h := eff.status],
       workers := s.workers[k := Worker(if eff.leaves then w.todo[1..] else w.todo, eff.stage)],
       phaseLanded := s.phaseLanded && !eff.missed,
       requests := if eff.requests then s.requests + [h] else s.requests,
       rejected := if eff.rejects then s.rejected + {h} else s.rejected,
       landed := if eff.lands then s.landed + {h} else s.landed)
  }

  /** Every entry of a later phase failed. */
  function GivenUp(job: Job, status: seq<Status>, at: nat): seq<Status>
    requires at < |job.phases| && |status| == |job.moves|
  {
    seq(|status|, i requires 0 <= i < |status| => if job.moves[i].phase > job.phases[at] then Failed else status[i])
  }

  /** The phase barrier: on to the next phase if everything landed, else every later entry is given up. */
  function Advance(job: Job, s: State): State
    requires s.at < |job.phases| && |s.status| == |job.moves|
  {
    if !s.phaseLanded then
      s.(done := true, status := GivenUp(job, s.status, s.at))
    else if s.at + 1 == |job.phases| then s.(done := true)
    else s.(at := s.at + 1, workers := WorkersFor(job, job.phases[s.at + 1]), phaseLanded := true)
  }

  function Head(s: State, k: VolumeKey): nat
    requires Busy(s, k)
  {
    s.workers[k].todo[0]
  }

  predicate WellSized(job: Job, s: State) {
    |s.status| == |job.moves| && forall k :: k in s.workers && s.workers[k].todo != [] ==> s.workers[k].todo[0] < |job.moves|
  }

  function Step(job: Job, s: State, ev: Event): State
    requires Enabled(job, s, ev) && WellSized(job, s)
  {
    if ev.NextPhase? then Advance(job, s) else Perform(s, ev.key, EffectOf(ev, job.moves[Head(s, ev.key)]))
  }

  // ----- what every step keeps

  predicate IsHead(w: Worker, i: nat) {
    w.todo != [] && w.todo[0] == i
  }

  /** Where the entry in hand stands, by the stage of its worker. */
  ghost predicate InHand(s: State, i: nat, stage: Stage)
    requires i < |s.status|
  {
    && s.status[i] == (if stage == Idle || stage == Blocking then Pending else Moving)
    && (i in s.requests <==> stage == Settling || stage == Recording)
    && (i in s.landed <==> stage == Recording)
    && i !in s.rejected
  }

  /** An entry its queue is through with: it is finished, comes before everything left, and - unless the
      queue was stopped - nothing of it can still be writing. */
  ghost predicate Through(s: State, i: nat, w: Worker)
    requires i < |s.status|
  {
    && Terminal(s.status[i])
    && (forall t :: t in w.todo ==> i < t)
    && (w.stage != Blocking && i in s.requests ==> i in s.landed || i in s.rejected)
    && (s.phaseLanded ==> i in s.landed)
  }

  ghost predicate EntryOk(job: Job, s: State, i: nat)
    requires i < |job.moves| == |s.status| == |job.keys| && s.at < |job.phases|
  {
    var phase, current := job.moves[i].phase, job.phases[s.at];
    if phase < current then Terminal(s.status[i]) && i in s.landed
    else if phase > current then
      i !in s.requests && i !in s.landed && i !in s.rejected && s.status[i] == if s.done && !s.phaseLanded then Failed else Pending
    else
      && job.keys[i] in s.workers
      && var w := s.workers[job.keys[i]];
         if i !in w.todo then Through(s, i, w)
         else !s.done && InHand(s, i, if IsHead(w, i) then w.stage else Idle)
  }

  ghost predicate WorkerOk(job: Job, s: State, k: VolumeKey)
    requires k in s.workers && s.at < |job.phases|
  {
    var w := s.workers[k];
    && (forall i :: i in w.todo ==> InQueue(job, job.phases[s.at], k, i))
    && (forall a, b :: 0 <= a < b < |w.todo| ==> w.todo[a] < w.todo[b])
    && (w.todo == [] ==> w.stage == Idle || w.stage == Blocking)
  }

  ghost predicate HistoryOk(job: Job, s: State) {
    && (forall r :: r in s.requests ==> r < |job.moves|)
    && (forall i :: i in s.landed || i in s.rejected ==> i in s.requests)
    && s.landed !! s.rejected
    && NoRepeats(s.requests)
  }

  /** Each Move call was made with every earlier request to the same queue landed or turned down. */
  ghost predicate Exclusive(job: Job, s: State) {
    forall a, b :: 0 <= a < b < |s.requests| && SameQueue(job, s.requests[a], s.requests[b]) ==> Over(s, s.requests[a])
  }

  predicate SameQueue(job: Job, i: nat, j: nat) {
    i < |job.keys| && j < |job.keys| && job.keys[i] == job.keys[j]
  }

  predicate Over(s: State, i: nat) {
    i in s.landed || i in s.rejected
  }

  /** A phase is marked as missed only when one of its finished entries did not land. */
  ghost predicate MissedOne(job: Job, s: State)
    requires s.at < |job.phases|
  {
    !s.phaseLanded ==> exists i :: 0 <= i < |job.moves| && Missed(job, s, i)
  }

  ghost predicate Missed(job: Job, s: State, i: nat)
    requires s.at < |job.phases|
  {
    && i < |job.keys| && InQueue(job, job.phases[s.at], job.keys[i], i) && i !in s.landed
    && (job.keys[i] in s.workers ==> i !in s.workers[job.keys[i]].todo)
  }

  ghost predicate Inv(job: Job, s: State) {
    && ValidJob(job) && |s.status| == |job.moves|
    && HistoryOk(job, s) && Exclusive(job, s)
    && (job.phases == [] ==> s.done && |job.moves| == 0 && s.workers == map[])
    && (job.phases != [] ==>
          && s.at < |job.phases|
          && (forall i: nat :: i < |job.moves| ==> EntryOk(job, s, i))
          && (forall k :: k in s.workers ==> WorkerOk(job, s, k))
          && (s.done && s.phaseLanded ==> s.at + 1 == |job.phases|)
          && (s.done ==> forall k :: k in s.workers ==> s.workers[k].todo == [])
          && MissedOne(job, s))
  }
}
