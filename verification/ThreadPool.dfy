/** The thread pool's sleep, wake-up and shutdown protocol (mutex and condition variable build).

    Workers take tasks from a FIFO queue and sleep on a condition variable when it is empty;
    `enqueue_task` appends a task and then signals; `destroy_thread_pool` raises the shutdown
    flag, appends one stop task per worker, broadcasts, and joins the workers.  Every queue
    operation, flag access, lock operation, wait and wake-up is one step; sleepers may also wake
    spuriously; any number of clients and workers interleave.  Fields after `// history` do
    not exist in the program. */
module ThreadPool {
  import Runs

  type Tid = nat
  datatype Task = Work | Stop
  datatype Holder = Free | Worker(w: Tid) | Client(c: Tid) | Destroyer

  datatype WPC =
    | Top                 // about to load the shutdown flag
    | Take                // about to dequeue without the lock
    | Lock                // about to lock the mutex
    | Check               // locked, about to re-load the flag
    | UnlockToDrain       // locked, flag seen
    | TakeLocked          // locked, about to dequeue
    | UnlockWith(j: nat)  // locked, task j dequeued
    | Wait                // locked, about to wait on the condition
    | Asleep              // waiting on the condition
    | Woken               // woken, about to re-acquire the mutex
    | Unlock              // locked after waking, about to unlock
    | TakeWoken           // about to dequeue after waking
    | Recheck             // about to load the flag after waking for nothing
    | Drain               // flag seen, about to dequeue what is left
    | Have(j: nat)        // task j dequeued
    | Done                // left the loop

  datatype CPC = CLock | CSignal | CUnlock
  datatype DPC = Idle | PushStop(left: nat) | Broadcast | DUnlock | Join | Joined

  datatype State = State(
    tasks: seq<Task>, taken: nat,        // the queue is tasks[taken..]
    shutdown: bool, mutex: Holder, workers: map<Tid, WPC>, clients: map<Tid, CPC>, boss: DPC,
    // history
    before: nat,              // how many tasks were enqueued when the flag was raised
    taker: map<nat, Tid>,     // task -> worker that dequeued it
    ran: set<nat>)            // tasks that have run

  datatype Step =
    | Move(w: Tid)               // a worker's next operation
    | Wake(w: Tid)               // spurious wake-up
    | Enqueue(c: Tid)            // enqueue_task appends its task
    | ClientLock(c: Tid) | Signal(c: Tid, w: Tid) | SignalNobody(c: Tid) | ClientUnlock(c: Tid)
    | Shutdown | EnqueueStop | BossLock | BroadcastAll | BossUnlock | JoinAll

  predicate Init(s: State) {
    && s.workers != map[] && (forall w :: w in s.workers ==> s.workers[w] == Top)
    && s == State([], 0, false, Free, s.workers, map[], Idle, 0, map[], {})
  }

  predicate AnyAsleep(s: State) { exists w :: w in s.workers && s.workers[w].Asleep? }

  predicate Moves(s: State, w: Tid) {
    && w in s.workers && !s.workers[w].Asleep? && !s.workers[w].Done?
    && (s.workers[w].Lock? || s.workers[w].Woken? ==> s.mutex.Free?)
  }

  predicate Enabled(s: State, st: Step) {
    match st
    case Move(w) => Moves(s, w)
    case Wake(w) => w in s.workers && s.workers[w].Asleep?
    case Enqueue(c) => c !in s.clients
    case ClientLock(c) => c in s.clients && s.clients[c].CLock? && s.mutex.Free?
    case Signal(c, w) => c in s.clients && s.clients[c].CSignal? && w in s.workers && s.workers[w].Asleep?
    case SignalNobody(c) => c in s.clients && s.clients[c].CSignal? && !AnyAsleep(s)
    case ClientUnlock(c) => c in s.clients && s.clients[c].CUnlock?
    case Shutdown => s.boss.Idle?
    case EnqueueStop => s.boss.PushStop? && s.boss.left > 0
    case BossLock => s.boss == PushStop(0) && s.mutex.Free?
    case BroadcastAll => s.boss.Broadcast?
    case BossUnlock => s.boss.DUnlock?
    case JoinAll => s.boss.Join? && forall w :: w in s.workers ==> s.workers[w].Done?
  }

  function Go(s: State, w: Tid, pc: WPC): State { s.(workers := s.workers[w := pc]) }

  // Dequeue: to `some` with the first task, to `none` if the queue is empty.
  function Dequeue(s: State, w: Tid, locked: bool, none: WPC): State {
    if s.taken < |s.tasks|
    then Go(s.(taken := s.taken + 1, taker := s.taker[s.taken := w]), w,
            if locked then UnlockWith(s.taken) else Have(s.taken))
    else Go(s, w, none)
  }

  predicate Dequeues(pc: WPC) { pc.Take? || pc.TakeLocked? || pc.TakeWoken? || pc.Drain? }

  function DequeueWorker(s: State, w: Tid): State
    requires Moves(s, w) && Dequeues(s.workers[w])
  {
    match s.workers[w]
    case Take => Dequeue(s, w, false, Lock)
    case TakeLocked => Dequeue(s, w, true, Wait)
    case TakeWoken => Dequeue(s, w, false, Recheck)
    case Drain => Dequeue(s, w, false, Done)
  }

  predicate Syncs(pc: WPC) {
    pc.Lock? || pc.UnlockToDrain? || pc.UnlockWith? || pc.Wait? || pc.Woken? || pc.Unlock?
  }

  function SyncWorker(s: State, w: Tid): State
    requires Moves(s, w) && Syncs(s.workers[w])
  {
    match s.workers[w]
    case Lock => Go(s.(mutex := Worker(w)), w, Check)
    case UnlockToDrain => Go(s.(mutex := Free), w, Drain)
    case UnlockWith(j) => Go(s.(mutex := Free), w, Have(j))
    case Wait => Go(s.(mutex := Free), w, Asleep)
    case Woken => Go(s.(mutex := Worker(w)), w, Unlock)
    case Unlock => Go(s.(mutex := Free), w, TakeWoken)
  }

  function LookWorker(s: State, w: Tid): State
    requires Moves(s, w) && !Dequeues(s.workers[w]) && !Syncs(s.workers[w])
  {
    match s.workers[w]
    case Top => Go(s, w, if s.shutdown then Drain else Take)
    case Check => Go(s, w, if s.shutdown then UnlockToDrain else TakeLocked)
    case Recheck => Go(s, w, if s.shutdown then Drain else Take)
    case Have(j) =>
      if j < |s.tasks| && s.tasks[j].Stop? then Go(s, w, Done) else Go(s.(ran := s.ran + {j}), w, Top)
  }

  function MoveWorker(s: State, w: Tid): State
    requires Moves(s, w)
  {
    if Dequeues(s.workers[w]) then DequeueWorker(s, w)
    else if Syncs(s.workers[w]) then SyncWorker(s, w)
    else LookWorker(s, w)
  }

  function Apply(s: State, st: Step): State
    requires Enabled(s, st)
  {
    match st
    case Move(w) => MoveWorker(s, w)
    case Wake(w) => Go(s, w, Woken)
    case Enqueue(c) => s.(tasks := s.tasks + [Work], clients := s.clients[c := CLock])
    case ClientLock(c) => s.(mutex := Client(c), clients := s.clients[c := CSignal])
    case Signal(c, w) => Go(s.(clients := s.clients[c := CUnlock]), w, Woken)
    case SignalNobody(c) => s.(clients := s.clients[c := CUnlock])
    case ClientUnlock(c) => s.(mutex := Free, clients := s.clients - {c})
    case Shutdown => s.(shutdown := true, before := |s.tasks|, boss := PushStop(|s.workers|))
    case EnqueueStop => s.(tasks := s.tasks + [Stop], boss := PushStop(s.boss.left - 1))
    case BossLock => s.(mutex := Destroyer, boss := Broadcast)
    case BroadcastAll =>
      s.(workers := map w | w in s.workers :: if s.workers[w].Asleep? then Woken else s.workers[w], boss := DUnlock)
    case BossUnlock => s.(mutex := Free, boss := Join)
    case JoinAll => s.(boss := Joined)
  }

  // ---------------------------------------------------------------- invariant

  predicate HasLock(pc: WPC) {
    pc.Check? || pc.UnlockToDrain? || pc.TakeLocked? || pc.UnlockWith? || pc.Wait? || pc.Unlock?
  }

  predicate Holds(pc: WPC, j: nat) { (pc.UnlockWith? || pc.Have?) && pc.j == j }

  // Will look at the queue again before it sleeps.
  predicate Awake(pc: WPC) { !pc.Asleep? && !pc.Wait? && !pc.Done? }

  // The flag is up and every sleeper has been told.
  predicate Told(s: State) { s.boss.DUnlock? || s.boss.Join? || s.boss.Joined? }

  predicate LockOk(s: State) {
    match s.mutex
    case Free => !s.boss.Broadcast? && !s.boss.DUnlock?
    case Worker(w) => w in s.workers && HasLock(s.workers[w]) && !s.boss.Broadcast? && !s.boss.DUnlock?
    case Client(c) => c in s.clients && !s.clients[c].CLock? && !s.boss.Broadcast? && !s.boss.DUnlock?
    case Destroyer => s.boss.Broadcast? || s.boss.DUnlock?
  }

  predicate FlagOk(s: State) {
    && s.taken <= |s.tasks|
    && s.workers != map[]
    && (s.shutdown <==> !s.boss.Idle?)
    && (s.shutdown ==> s.before <= |s.tasks|)
  }

  predicate TaskOk(s: State, j: nat)
    requires j < |s.tasks|
  {
    && (s.tasks[j].Stop? ==> s.shutdown && j >= s.before && j !in s.ran)
    && (j >= s.taken ==> j !in s.ran)
    && (j < s.taken ==>
          j in s.ran || s.tasks[j].Stop? ||
                (j in s.taker && s.taker[j] in s.workers && Holds(s.workers[s.taker[j]], j)))
  }

  predicate WorkerOk(s: State, w: Tid)
    requires w in s.workers
  {
    var pc := s.workers[w];
    && (HasLock(pc) ==> s.mutex == Worker(w))
    && (pc.UnlockWith? || pc.Have? ==>
          pc.j < s.taken && pc.j < |s.tasks| && pc.j !in s.ran && pc.j in s.taker && s.taker[pc.j] == w)
    && (pc.UnlockToDrain? || pc.Drain? ==> s.shutdown)
    && (pc.Done? ==> s.shutdown && s.taken >= s.before)
    && (Told(s) ==> !pc.Asleep? && !pc.Wait? && !pc.TakeLocked?)
  }

  predicate ClientOk(s: State, c: Tid)
    requires c in s.clients
  {
    !s.clients[c].CLock? ==> s.mutex == Client(c)
  }

  /** No lost wake-up: before shutdown, a task in the queue always has a worker that will look at the queue
      again, or a client that has yet to signal. */
  ghost predicate NoLostWakeUp(s: State) { !s.shutdown && s.taken < |s.tasks| ==> Hopeful(s) }

  ghost predicate Hopeful(s: State) {
    || (exists w :: w in s.workers && Awake(s.workers[w]))
    || (exists c :: c in s.clients && !s.clients[c].CUnlock?)
  }

  ghost predicate Inv(s: State) {
    && LockOk(s) && FlagOk(s) && NoLostWakeUp(s)
    && (forall j {:trigger TaskOk(s, j)} :: 0 <= j < |s.tasks| ==> TaskOk(s, j))
    && (forall w {:trigger WorkerOk(s, w)} :: w in s.workers ==> WorkerOk(s, w))
    && (forall c {:trigger ClientOk(s, c)} :: c in s.clients ==> ClientOk(s, c))
    && (forall j :: j in s.ran ==> j < |s.tasks|)
  }

  // What is known of a worker and of the task in its hands.
  predicate Around(s: State, v: Tid) {
    && LockOk(s) && FlagOk(s) && v in s.workers && WorkerOk(s, v)
    && (s.workers[v].Have? ==> TaskOk(s, s.workers[v].j))
  }

  // ... and of the client that acts.
  predicate Near(s: State, st: Step) {
    && LockOk(s) && FlagOk(s)
    && (st.ClientLock? || st.Signal? || st.SignalNobody? || st.ClientUnlock? ==> st.c in s.clients ==>
          ClientOk(s, st.c))
  }

  lemma WorkerFacts(s: State, v: Tid)
    requires Inv(s) && v in s.workers
    ensures Around(s, v)
  {
    assert WorkerOk(s, v);
    if s.workers[v].Have? { assert TaskOk(s, s.workers[v].j); }
  }

  lemma Facts(s: State, st: Step)
    requires Inv(s)
    ensures Near(s, st)
  {
    if (st.ClientLock? || st.Signal? || st.SignalNobody? || st.ClientUnlock?) && st.c in s.clients {
      assert ClientOk(s, st.c);
    }
  }

  lemma DequeueKeepsWords(s: State, v: Tid)
    requires Around(s, v) && Moves(s, v) && Dequeues(s.workers[v])
    ensures LockOk(DequeueWorker(s, v)) && FlagOk(DequeueWorker(s, v))
  {
  }

  lemma SyncKeepsWords(s: State, v: Tid)
    requires Around(s, v) && Moves(s, v) && Syncs(s.workers[v])
    ensures LockOk(SyncWorker(s, v)) && FlagOk(SyncWorker(s, v))
  {
  }

  lemma LookKeepsWords(s: State, v: Tid)
    requires Around(s, v) && Moves(s, v) && !Dequeues(s.workers[v]) && !Syncs(s.workers[v])
    ensures LockOk(LookWorker(s, v)) && FlagOk(LookWorker(s, v))
  {
  }

  lemma OtherKeepsWords(s: State, st: Step)
    requires Near(s, st) && Enabled(s, st) && !st.Move?
    ensures LockOk(Apply(s, st)) && FlagOk(Apply(s, st))
  {
    if st.BroadcastAll? { assert Apply(s, st).workers.Keys == s.workers.Keys; }
  }

  lemma DequeueKeepsTask(s: State, v: Tid, j: nat)
    requires FlagOk(s) && Moves(s, v) && Dequeues(s.workers[v]) && j < |s.tasks| && TaskOk(s, j)
    ensures j < |DequeueWorker(s, v).tasks| && TaskOk(DequeueWorker(s, v), j)
  {
  }

  lemma SyncKeepsTask(s: State, v: Tid, j: nat)
    requires Moves(s, v) && Syncs(s.workers[v])
    requires j < |s.tasks| && TaskOk(s, j)
    ensures j < |SyncWorker(s, v).tasks| && TaskOk(SyncWorker(s, v), j)
  {
  }

  lemma LookKeepsTask(s: State, v: Tid, j: nat)
    requires Around(s, v) && Moves(s, v) && !Dequeues(s.workers[v]) && !Syncs(s.workers[v])
    requires j < |s.tasks| && TaskOk(s, j)
    ensures j < |LookWorker(s, v).tasks| && TaskOk(LookWorker(s, v), j)
  {
  }

  lemma OtherKeepsTask(s: State, st: Step, j: nat)
    requires Near(s, st) && Enabled(s, st) && !st.Move?
    requires j < |Apply(s, st).tasks|
    requires j < |s.tasks| ==> TaskOk(s, j)
    requires forall i :: i in s.ran ==> i < |s.tasks|
    ensures TaskOk(Apply(s, st), j)
  {
  }

  lemma DequeueKeepsTaker(s: State, v: Tid)
    requires FlagOk(s) && Moves(s, v) && Dequeues(s.workers[v]) && WorkerOk(s, v)
    requires s.taken < |s.tasks| ==> TaskOk(s, s.taken)
    ensures v in DequeueWorker(s, v).workers && WorkerOk(DequeueWorker(s, v), v)
  {
  }

  lemma DequeueKeepsOther(s: State, v: Tid, w: Tid)
    requires FlagOk(s) && Moves(s, v) && Dequeues(s.workers[v]) && w in s.workers && WorkerOk(s, w) && w != v
    ensures w in DequeueWorker(s, v).workers && WorkerOk(DequeueWorker(s, v), w)
  {
  }

  lemma SyncKeepsWorker(s: State, v: Tid, w: Tid)
    requires Around(s, v) && Moves(s, v) && Syncs(s.workers[v])
    requires w in s.workers && WorkerOk(s, w)
    ensures w in SyncWorker(s, v).workers && WorkerOk(SyncWorker(s, v), w)
  {
  }

  lemma LookKeepsWorker(s: State, v: Tid, w: Tid)
    requires Around(s, v) && Moves(s, v) && !Dequeues(s.workers[v]) && !Syncs(s.workers[v]) && !s.workers[v].Have?
    requires w in s.workers && WorkerOk(s, w)
    ensures w in LookWorker(s, v).workers && WorkerOk(LookWorker(s, v), w)
  {
  }

  lemma RunKeepsWorker(s: State, v: Tid, w: Tid)
    requires Around(s, v) && Moves(s, v) && s.workers[v].Have?
    requires w in s.workers && WorkerOk(s, w)
    ensures w in LookWorker(s, v).workers && WorkerOk(LookWorker(s, v), w)
  {
  }

  lemma OtherKeepsWorker(s: State, st: Step, w: Tid)
    requires Near(s, st) && Enabled(s, st) && !st.Move?
    requires w in s.workers && WorkerOk(s, w)
    ensures w in Apply(s, st).workers && WorkerOk(Apply(s, st), w)
  {
  }

  lemma MoveKeepsClient(s: State, v: Tid, c: Tid)
    requires Around(s, v) && Moves(s, v) && c in s.clients && ClientOk(s, c)
    ensures MoveWorker(s, v).clients == s.clients && ClientOk(MoveWorker(s, v), c)
  {
  }

  lemma OtherKeepsClient(s: State, st: Step, c: Tid)
    requires Near(s, st) && Enabled(s, st) && !st.Move? && c in Apply(s, st).clients
    requires c in s.clients ==> ClientOk(s, c)
    ensures ClientOk(Apply(s, st), c)
  {
  }

  lemma WakeUpKept(s: State, st: Step)
    requires Inv(s) && Enabled(s, st)
    ensures NoLostWakeUp(Apply(s, st))
  {
    var s' := Apply(s, st);
    if !s'.shutdown && s'.taken < |s'.tasks| {
      match st
      case Enqueue(c) => assert c in s'.clients && !s'.clients[c].CUnlock?;
      case ClientLock(c) => assert c in s'.clients && !s'.clients[c].CUnlock?;
      case Signal(c, w) => assert w in s'.workers && Awake(s'.workers[w]);
      case SignalNobody(c) =>
        Facts(s, st);
        var w :| w in s.workers;
        assert WorkerOk(s, w);
        assert w in s'.workers && Awake(s'.workers[w]);
      case Wake(w) => assert w in s'.workers && Awake(s'.workers[w]);
      case ClientUnlock(c) => SurvivorAwake(s, s', c);
      case Move(w) => MoverKeepsHope(s, w);
      case _ => StillAwake(s, s');
    }
  }

  lemma SurvivorAwake(s: State, s': State, c: Tid)
    requires NoLostWakeUp(s) && !s.shutdown && s.taken < |s.tasks|
    requires s'.workers == s.workers && s'.clients == s.clients - {c} && c in s.clients && s.clients[c].CUnlock?
    ensures Hopeful(s')
  {
    if d :| d in s.clients && !s.clients[d].CUnlock? { assert d in s'.clients; }
  }

  lemma StillAwake(s: State, s': State)
    requires NoLostWakeUp(s) && !s.shutdown && s.taken < |s.tasks| && s'.workers == s.workers && s'.clients == s.clients
    ensures Hopeful(s')
  {
  }

  // A worker gives up the hope of a waiting task only by finding the queue empty under the lock.
  lemma MoverKeepsHope(s: State, v: Tid)
    requires Inv(s) && Moves(s, v)
    requires var s' := MoveWorker(s, v); !s'.shutdown && s'.taken < |s'.tasks|
    ensures Hopeful(MoveWorker(s, v))
  {
    WorkerFacts(s, v);
    if d :| d in s.clients && !s.clients[d].CUnlock? {
      assert d in MoveWorker(s, v).clients;
    } else {
      var w :| w in s.workers && Awake(s.workers[w]);
      if w == v { MoverStaysAwake(s, v); }
      else if Dequeues(s.workers[v]) { DequeueFrame(s, v, w); }
      else if Syncs(s.workers[v]) { SyncFrame(s, v, w); }
      else { LookFrame(s, v, w); }
    }
  }

  lemma MoverStaysAwake(s: State, v: Tid)
    requires Moves(s, v) && Awake(s.workers[v]) && Around(s, v)
    requires var s' := MoveWorker(s, v); !s'.shutdown && s'.taken < |s'.tasks|
    ensures v in MoveWorker(s, v).workers && Awake(MoveWorker(s, v).workers[v])
  {
  }

  lemma DequeueFrame(s: State, v: Tid, w: Tid)
    requires Moves(s, v) && Dequeues(s.workers[v]) && w in s.workers && w != v
    ensures w in DequeueWorker(s, v).workers && DequeueWorker(s, v).workers[w] == s.workers[w]
  {
  }

  lemma SyncFrame(s: State, v: Tid, w: Tid)
    requires Moves(s, v) && Syncs(s.workers[v]) && w in s.workers && w != v
    ensures w in SyncWorker(s, v).workers && SyncWorker(s, v).workers[w] == s.workers[w]
  {
  }

  lemma LookFrame(s: State, v: Tid, w: Tid)
    requires Moves(s, v) && !Dequeues(s.workers[v]) && !Syncs(s.workers[v]) && w in s.workers && w != v
    ensures w in LookWorker(s, v).workers && LookWorker(s, v).workers[w] == s.workers[w]
  {
  }

  lemma TasksKept(s: State, st: Step)
    requires Inv(s) && Enabled(s, st)
    ensures var s' := Apply(s, st); forall j {:trigger TaskOk(s', j)} :: 0 <= j < |s'.tasks| ==> TaskOk(s', j)
  {
    var s' := Apply(s, st);
    Facts(s, st);
    if st.Move? { WorkerFacts(s, st.w); }
    forall j | 0 <= j < |s'.tasks| ensures TaskOk(s', j) {
      if j < |s.tasks| { assert TaskOk(s, j); }
      if !st.Move? { OtherKeepsTask(s, st, j); }
      else if Dequeues(s.workers[st.w]) { DequeueKeepsTask(s, st.w, j); }
      else if Syncs(s.workers[st.w]) { SyncKeepsTask(s, st.w, j); }
      else { LookKeepsTask(s, st.w, j); }
    }
  }

  lemma RanKept(s: State, st: Step)
    requires Inv(s) && Enabled(s, st)
    ensures forall j :: j in Apply(s, st).ran ==> j < |Apply(s, st).tasks|
  {
    if st.Move? { WorkerFacts(s, st.w); }
  }

  lemma WorkersKept(s: State, st: Step)
    requires Inv(s) && Enabled(s, st)
    ensures var s' := Apply(s, st); forall w {:trigger WorkerOk(s', w)} :: w in s'.workers ==> WorkerOk(s', w)
  {
    var s' := Apply(s, st);
    Facts(s, st);
    if st.Move? { WorkerFacts(s, st.w); }
    if s.taken < |s.tasks| { assert TaskOk(s, s.taken); }
    forall w | w in s'.workers ensures WorkerOk(s', w) {
      assert WorkerOk(s, w);
      if !st.Move? { OtherKeepsWorker(s, st, w); }
      else if Dequeues(s.workers[st.w]) && w == st.w { DequeueKeepsTaker(s, w); }
      else if Dequeues(s.workers[st.w]) { DequeueKeepsOther(s, st.w, w); }
      else if Syncs(s.workers[st.w]) { SyncKeepsWorker(s, st.w, w); }
      else if s.workers[st.w].Have? { RunKeepsWorker(s, st.w, w); }
      else { LookKeepsWorker(s, st.w, w); }
    }
  }

  lemma ClientsKept(s: State, st: Step)
    requires Inv(s) && Enabled(s, st)
    ensures var s' := Apply(s, st); forall c {:trigger ClientOk(s', c)} :: c in s'.clients ==> ClientOk(s', c)
  {
    var s' := Apply(s, st);
    Facts(s, st);
    if st.Move? { WorkerFacts(s, st.w); }
    forall c | c in s'.clients ensures ClientOk(s', c) {
      if c in s.clients { assert ClientOk(s, c); }
      if st.Move? { MoveKeepsClient(s, st.w, c); } else { OtherKeepsClient(s, st, c); }
    }
  }

  lemma StepKeepsInv(s: State, st: Step)
    requires Inv(s) && Enabled(s, st)
    ensures Inv(Apply(s, st))
  {
    Facts(s, st);
    if !st.Move? {
      OtherKeepsWords(s, st);
    } else {
      WorkerFacts(s, st.w);
      if Dequeues(s.workers[st.w]) { DequeueKeepsWords(s, st.w); }
      else if Syncs(s.workers[st.w]) { SyncKeepsWords(s, st.w); }
      else { LookKeepsWords(s, st.w); }
    }
    WakeUpKept(s, st); TasksKept(s, st); RanKept(s, st); WorkersKept(s, st); ClientsKept(s, st);
  }

  // ---------------------------------------------------------------- results over whole runs

  /** One step of some thread. */
  ghost predicate Next(s: State, s': State) {
    exists st :: Enabled(s, st) && s' == Apply(s, st)
  }

  /** The states that some interleaving reaches. */
  ghost predicate Reachable(s: State) { Runs.Reached(Init, Next, s) }

  lemma NextKeepsInv(s: State, s': State)
    requires Inv(s) && Next(s, s')
    ensures Inv(s')
  {
    var st :| Enabled(s, st) && s' == Apply(s, st);
    StepKeepsInv(s, st);
  }

  lemma ReachableInv(s: State)
    requires Reachable(s)
    ensures Inv(s)
  {
    forall s, s' | Inv(s) && Next(s, s') ensures Inv(s') { NextKeepsInv(s, s'); }
    Runs.Induction(Init, Next, Inv, s);
  }

  /** Before shutdown a non-empty queue always has an awake worker or an enqueuer yet to signal. */
  lemma TaskInQueueIsNeverForgotten(s: State)
    requires Reachable(s) && !s.shutdown && s.taken < |s.tasks|
    ensures (exists w :: w in s.workers && Awake(s.workers[w])) ||
          (exists c :: c in s.clients && !s.clients[c].CUnlock?)
  {
    ReachableInv(s);
  }

  /** Tasks are taken in the order they were enqueued, and a task is run at most once, by the worker that took it. */
  lemma TaskRunsAtMostOnce(s: State, w: Tid)
    requires Reachable(s) && w in s.workers && s.workers[w].Have?
    ensures s.workers[w].j < s.taken && s.workers[w].j !in s.ran
    ensures forall u :: u in s.workers && Holds(s.workers[u], s.workers[w].j) ==> u == w
  {
    ReachableInv(s);
    assert WorkerOk(s, w);
    forall u | u in s.workers && Holds(s.workers[u], s.workers[w].j) ensures u == w { assert WorkerOk(s, u); }
  }

  // The past of the pool: tasks, who took them, and which have run.
  ghost predicate Grown(s: State, s': State) {
    && s.tasks <= s'.tasks && s.taken <= s'.taken && s.ran <= s'.ran
    && (forall j :: j in s.taker && j < s.taken ==> j in s'.taker && s'.taker[j] == s.taker[j])
    && (s.shutdown ==> s'.shutdown && s'.before == s.before)
  }

  lemma MoveGrows(s: State, v: Tid)
    requires Moves(s, v)
    ensures Grown(s, MoveWorker(s, v))
  {
  }

  lemma OtherGrows(s: State, st: Step)
    requires FlagOk(s) && Enabled(s, st) && !st.Move?
    ensures Grown(s, Apply(s, st))
  {
  }

  lemma NextGrows(s: State, s': State)
    requires Inv(s) && Next(s, s')
    ensures Grown(s, s')
  {
    var st :| Enabled(s, st) && s' == Apply(s, st);
    if st.Move? { MoveGrows(s, st.w); } else { OtherGrows(s, st); }
  }

  /** Along every run tasks, takers and the set of tasks run only grow; with the result above, no task runs twice. */
  lemma HistoryGrows(s: State, s': State)
    requires Reachable(s) && Runs.Reached((x: State) => x == s, Next, s')
    ensures Grown(s, s')
  {
    ReachableInv(s);
    forall x, x' | (Inv(x) && Grown(s, x)) && Next(x, x') ensures Inv(x') && Grown(s, x') {
      NextKeepsInv(x, x');
      NextGrows(x, x');
    }
    Runs.Induction((x: State) => x == s, Next, (x: State) => Inv(x) && Grown(s, x), s');
  }

  /** When destroy has joined all workers, every task enqueued before destroy has run. */
  lemma ShutdownRunsEveryEarlierTask(s: State, j: nat)
    requires Reachable(s) && Enabled(s, JoinAll) && j < s.before
    ensures j in s.ran
  {
    ReachableInv(s);
    var w :| w in s.workers;
    assert WorkerOk(s, w);
    assert TaskOk(s, j);
  }

  /** Once destroy has broadcast, no worker sleeps or is about to: every worker reaches the end of its loop. */
  lemma ShutdownReachesEveryWorker(s: State, w: Tid)
    requires Reachable(s) && Told(s) && w in s.workers
    ensures !s.workers[w].Asleep? && !s.workers[w].Wait?
  {
    ReachableInv(s);
    assert WorkerOk(s, w);
  }

  // ---------------------------------------------------------------- progress

  // How many moves an awake worker is away from a dequeue while the queue is not empty.
  function TakeRank(pc: WPC): nat {
    match pc
    case UnlockWith(_) => 4
    case Have(_) => 3
    case Top => 1
    case Recheck => 1
    case Lock => 3
    case Check => 2
    case UnlockToDrain => 1
    case Woken => 2
    case Unlock => 1
    case _ => 0
  }

  // The worker is about to leave the loop with a stop task.
  predicate Stopping(s: State, pc: WPC) { (pc.UnlockWith? || pc.Have?) && pc.j < |s.tasks| && s.tasks[pc.j].Stop? }

  /** While the queue is not empty, each move of an awake worker takes the first task or brings it closer to taking it:
      with nobody else moving, one is taken after at most five moves. */
  lemma AwakeWorkerComesToTheQueue(s: State, w: Tid)
    requires Reachable(s) && Moves(s, w) && Awake(s.workers[w]) && s.taken < |s.tasks| && !Stopping(s, s.workers[w])
    ensures var s' := MoveWorker(s, w);
            && s'.tasks == s.tasks && w in s'.workers
            && if s'.taken == s.taken
               then Awake(s'.workers[w]) && !Stopping(s', s'.workers[w]) &&
                     TakeRank(s'.workers[w]) < TakeRank(s.workers[w])
               else s'.taken == s.taken + 1 && Holds(s'.workers[w], s.taken)
  {
    ReachableInv(s);
    WorkerFacts(s, w);
    if Dequeues(s.workers[w]) {
      DequeueTakes(s, w);
    } else if Syncs(s.workers[w]) {
      SyncComesCloser(s, w);
    } else {
      LookComesCloser(s, w);
    }
  }

  lemma SyncComesCloser(s: State, w: Tid)
    requires Moves(s, w) && Awake(s.workers[w]) && Syncs(s.workers[w]) && !Stopping(s, s.workers[w])
    ensures var s' := SyncWorker(s, w);
            && s'.tasks == s.tasks && s'.taken == s.taken && w in s'.workers
            && Awake(s'.workers[w]) && !Stopping(s', s'.workers[w]) && TakeRank(s'.workers[w]) < TakeRank(s.workers[w])
  {
  }

  lemma LookComesCloser(s: State, w: Tid)
    requires Moves(s, w) && !Dequeues(s.workers[w]) && !Syncs(s.workers[w]) && WorkerOk(s, w)
    requires !Stopping(s, s.workers[w])
    ensures var s' := LookWorker(s, w);
            && s'.tasks == s.tasks && s'.taken == s.taken && w in s'.workers
            && Awake(s'.workers[w]) && !Stopping(s', s'.workers[w]) && TakeRank(s'.workers[w]) < TakeRank(s.workers[w])
  {
  }

  lemma DequeueTakes(s: State, w: Tid)
    requires Moves(s, w) && Dequeues(s.workers[w]) && s.taken < |s.tasks|
    ensures var s' := MoveWorker(s, w); s'.tasks == s.tasks && s'.taken == s.taken + 1 && Holds(s'.workers[w], s.taken)
  {
  }

  /** A worker that holds a task runs it, or leaves if it is a stop task. */
  lemma HeldTaskIsRun(s: State, w: Tid)
    requires Reachable(s) && w in s.workers && (s.workers[w].UnlockWith? || s.workers[w].Have?)
    ensures Moves(s, w) && s.workers[w].j < |s.tasks|
    ensures var s', j := MoveWorker(s, w), s.workers[w].j;
            if s.workers[w].UnlockWith? then s'.workers[w] == Have(j) && s'.ran == s.ran
            else if s.tasks[j].Work? then s'.workers[w] == Top && s'.ran == s.ran + {j}
            else s'.workers[w] == Done && s'.ran == s.ran
  {
    ReachableInv(s);
    WorkerFacts(s, w);
  }

  // Runs in which only worker w moves.
  ghost predicate Alone(s: State, w: Tid, s': State) {
    Runs.Reached((x: State) => x == s, (x: State, x': State) => Moves(x, w) && x' == MoveWorker(x, w), s')
  }

  lemma AloneMove(s: State, w: Tid, s': State)
    requires Alone(s, w, s') && Moves(s', w)
    ensures Alone(s, w, MoveWorker(s', w))
  {
    Runs.Extend((x: State) => x == s, (x: State, x': State) => Moves(x, w) && x' == MoveWorker(x, w),
                s', MoveWorker(s', w));
  }

  lemma MoveReaches(s: State, w: Tid)
    requires Reachable(s) && Moves(s, w)
    ensures Reachable(MoveWorker(s, w))
  {
    assert Enabled(s, Move(w)) && Apply(s, Move(w)) == MoveWorker(s, w);
    assert Next(s, MoveWorker(s, w));
    Runs.Extend(Init, Next, s, MoveWorker(s, w));
  }

  /** From any reachable state with a task at the front of the queue, an awake worker whose mutex nobody else holds
      takes that task and runs it by its own moves alone. */
  lemma AwakeWorkerRunsNextTask(s: State, w: Tid) returns (s': State)
    requires Reachable(s) && w in s.workers && Awake(s.workers[w]) && !Stopping(s, s.workers[w])
    requires s.taken < |s.tasks| && s.tasks[s.taken].Work? && (s.mutex.Free? || s.mutex == Worker(w))
    ensures Alone(s, w, s') && s.taken in s'.ran && s'.taken == s.taken + 1
  {
    AloneStart(s, w);
    var s1 := TakeAlone(s, w, s);
    s' := RunAlone(s, w, s1);
  }

  lemma AloneStart(s: State, w: Tid)
    ensures Alone(s, w, s)
  {
    Runs.Start((x: State) => x == s, (x: State, x': State) => Moves(x, w) && x' == MoveWorker(x, w), s);
  }

  lemma RunAlone(o: State, w: Tid, s: State) returns (s': State)
    requires Alone(o, w, s) && Reachable(s) && w in s.workers && (s.workers[w].UnlockWith? || s.workers[w].Have?)
    requires s.workers[w].j < |s.tasks| && s.tasks[s.workers[w].j].Work?
    ensures Alone(o, w, s') && s.workers[w].j in s'.ran && s'.taken == s.taken
    decreases TakeRank(s.workers[w])
  {
    HeldTaskIsRun(s, w);
    HoldingMove(s, w);
    AloneMove(o, w, s);
    MoveReaches(s, w);
    s' := MoveWorker(s, w);
    if s.workers[w].UnlockWith? { s' := RunAlone(o, w, s'); }
  }

  lemma HoldingMove(s: State, w: Tid)
    requires Moves(s, w) && (s.workers[w].UnlockWith? || s.workers[w].Have?)
    ensures MoveWorker(s, w).tasks == s.tasks && MoveWorker(s, w).taken == s.taken
    ensures w in MoveWorker(s, w).workers
  {
  }

  lemma TakeAlone(o: State, w: Tid, s: State) returns (s': State)
    requires Alone(o, w, s) && Reachable(s) && w in s.workers && Awake(s.workers[w]) && !Stopping(s, s.workers[w])
    requires s.taken < |s.tasks| && (s.mutex.Free? || s.mutex == Worker(w))
    ensures Alone(o, w, s') && Reachable(s') && s'.tasks == s.tasks && s'.taken == s.taken + 1
    ensures w in s'.workers && Holds(s'.workers[w], s.taken)
    decreases TakeRank(s.workers[w])
  {
    ReachableInv(s);
    WorkerFacts(s, w);
    assert Moves(s, w);
    AwakeWorkerComesToTheQueue(s, w);
    MutexStays(s, w);
    AloneMove(o, w, s);
    MoveReaches(s, w);
    s' := MoveWorker(s, w);
    if s'.taken == s.taken { s' := TakeAlone(o, w, s'); }
  }

  lemma MutexStays(s: State, w: Tid)
    requires Moves(s, w) && (s.mutex.Free? || s.mutex == Worker(w))
    ensures MoveWorker(s, w).mutex.Free? || MoveWorker(s, w).mutex == Worker(w)
  {
  }

  /** The tasks not yet dequeued form one FIFO queue: an enqueue adds its task at the end and destroy its stop
      tasks, one for each worker, a dequeue takes the first task, and no other step changes it. */
  lemma StepRefinesQueue(s: State, st: Step)
    requires Reachable(s) && Enabled(s, st)
    ensures s.taken <= |s.tasks|
    ensures var s' := Apply(s, st);
            && s'.taken <= |s'.tasks|
            && Pending(s') == if st.Enqueue? then Pending(s) + [Work]
                              else if st.EnqueueStop? then Pending(s) + [Stop]
                              else if st.Move? && Dequeues(s.workers[st.w]) && Pending(s) != [] then Pending(s)[1..]
                              else Pending(s)
    ensures st.Shutdown? ==> Apply(s, st).boss == PushStop(|s.workers|) && Apply(s, st).before == |s.tasks|
  {
    ReachableInv(s);
    if st.Move? { MoveQueue(s, st.w); } else { OtherQueue(s, st); }
  }

  /** Calls are never refused: a client that is not in enqueue_task may enter it, destroy may start once, and a sleeper
      may wake at any time. */
  lemma CallsStart(s: State, c: Tid)
    ensures c !in s.clients ==> Enabled(s, Enqueue(c)) && c in Apply(s, Enqueue(c)).clients
    ensures s.boss.Idle? ==> Enabled(s, Shutdown) && Apply(s, Shutdown).shutdown
    ensures c in s.workers && s.workers[c].Asleep? ==> Enabled(s, Wake(c)) && Apply(s, Wake(c)).workers[c].Woken?
  {
  }

  // The tasks not yet dequeued, in order.
  function Pending(s: State): seq<Task> { if s.taken <= |s.tasks| then s.tasks[s.taken..] else [] }

  lemma MoveQueue(s: State, w: Tid)
    requires s.taken <= |s.tasks| && Moves(s, w)
    ensures var s' := MoveWorker(s, w);
            && s'.taken <= |s'.tasks|
            && Pending(s') == if Dequeues(s.workers[w]) && Pending(s) != [] then Pending(s)[1..] else Pending(s)
  {
    if Dequeues(s.workers[w]) { DequeueQueue(s, w); } else { WorkQueue(s, w); }
  }

  lemma DequeueQueue(s: State, w: Tid)
    requires s.taken <= |s.tasks| && Moves(s, w) && Dequeues(s.workers[w])
    ensures var s' := DequeueWorker(s, w);
            && s'.tasks == s.tasks && s'.taken == s.taken + (if s.taken < |s.tasks| then 1 else 0)
  {
  }

  lemma WorkQueue(s: State, w: Tid)
    requires Moves(s, w) && !Dequeues(s.workers[w])
    ensures MoveWorker(s, w).tasks == s.tasks && MoveWorker(s, w).taken == s.taken
  {
  }

  lemma OtherQueue(s: State, st: Step)
    requires s.taken <= |s.tasks| && Enabled(s, st) && !st.Move?
    ensures var s' := Apply(s, st);
            && s'.taken <= |s'.tasks|
            && Pending(s') == if st.Enqueue? then Pending(s) + [Work] else if st.EnqueueStop? then Pending(s) + [Stop]
                              else Pending(s)
  {
  }

  lemma ReachStep(s: State, st: Step)
    requires Reachable(s) && Enabled(s, st)
    ensures Reachable(Apply(s, st))
  {
    assert Next(s, Apply(s, st));
    Runs.Extend(Init, Next, s, Apply(s, st));
  }

  /** A task enqueued while a worker sleeps is run by that worker once the enqueuer has signalled it: no third party is
      needed. */
  lemma SleeperRunsEnqueuedTask(s: State, c: Tid, w: Tid) returns (s': State)
    requires Reachable(s) && c !in s.clients && w in s.workers && s.workers[w].Asleep?
    requires s.mutex.Free? && Pending(s) == []
    ensures Reachable(s') && s'.clients == s.clients && |s.tasks| in s'.ran && s'.tasks == s.tasks + [Work]
  {
    StepRefinesQueue(s, Enqueue(c));
    var s1 := Signalled(s, c, w);
    s' := RunNext(s1, w);
    AloneKeepsClients(s1, w, s');
  }

  // The enqueuer's four steps.
  lemma Signalled(s: State, c: Tid, w: Tid) returns (s': State)
    requires Reachable(s) && c !in s.clients && w in s.workers && s.workers[w].Asleep? && s.mutex.Free?
    ensures Reachable(s') && s' == Go(s.(tasks := s.tasks + [Work]), w, Woken)
  {
    ReachStep(s, Enqueue(c));
    var s1 := Apply(s, Enqueue(c));
    ReachStep(s1, ClientLock(c));
    var s2 := Apply(s1, ClientLock(c));
    ReachStep(s2, Signal(c, w));
    var s3 := Apply(s2, Signal(c, w));
    ReachStep(s3, ClientUnlock(c));
    s' := Apply(s3, ClientUnlock(c));
    assert s'.clients == s.clients;
  }

  lemma RunNext(s: State, w: Tid) returns (s': State)
    requires Reachable(s) && w in s.workers && s.workers[w].Woken?
    requires s.taken < |s.tasks| && s.tasks[s.taken].Work? && s.mutex.Free?
    ensures Reachable(s') && Alone(s, w, s') && s.taken in s'.ran
  {
    s' := AwakeWorkerRunsNextTask(s, w);
    AloneReaches(s, w, s');
  }

  lemma AloneReaches(s: State, w: Tid, s': State)
    requires Reachable(s) && Alone(s, w, s')
    ensures Reachable(s')
  {
    forall x, x' | Reachable(x) && Moves(x, w) && x' == MoveWorker(x, w) ensures Reachable(x') { MoveReaches(x, w); }
    Runs.Induction((x: State) => x == s, (x: State, x': State) => Moves(x, w) && x' == MoveWorker(x, w), Reachable, s');
  }

  lemma AloneKeepsClients(s: State, w: Tid, s': State)
    requires Alone(s, w, s')
    ensures s'.clients == s.clients && s'.tasks == s.tasks
  {
    forall x, x' | Moves(x, w) && x' == MoveWorker(x, w) ensures x'.clients == x.clients && x'.tasks == x.tasks {
      MoveKeepsClients(x, w);
    }
    Runs.Induction((x: State) => x == s, (x: State, x': State) => Moves(x, w) && x' == MoveWorker(x, w),
                   (x: State) => x.clients == s.clients && x.tasks == s.tasks, s');
  }

  lemma MoveKeepsClients(s: State, w: Tid)
    requires Moves(s, w)
    ensures MoveWorker(s, w).clients == s.clients && MoveWorker(s, w).tasks == s.tasks
  {
  }

  // How many moves a worker is away from releasing the mutex.
  function LockRank(pc: WPC): nat { if pc.Check? then 2 else if pc.UnlockToDrain? || pc.TakeLocked? then 1 else 0 }

  /** A worker that holds the mutex can always move, and each move releases it or comes closer to releasing it. */
  lemma HolderReleases(s: State, w: Tid)
    requires Reachable(s) && s.mutex == Worker(w)
    ensures Moves(s, w)
    ensures var s' := MoveWorker(s, w);
            s'.mutex.Free? || (s'.mutex == Worker(w) && LockRank(s'.workers[w]) < LockRank(s.workers[w]))
  {
    ReachableInv(s);
    WorkerFacts(s, w);
  }

  function ClientRank(c: CPC): nat { match c case CLock => 2 case CSignal => 1 case CUnlock => 0 }

  /** An enqueuer that is not kept out by the mutex always has a next step, and leaves after at most three; its signal
      wakes a sleeper if there is one. */
  lemma ClientAdvances(s: State, c: Tid) returns (st: Step)
    requires Reachable(s) && c in s.clients && (s.clients[c].CLock? ==> s.mutex.Free?)
    ensures Enabled(s, st)
    ensures var s' := Apply(s, st);
            if c in s'.clients then ClientRank(s'.clients[c]) < ClientRank(s.clients[c])
            else s.clients[c].CUnlock? && s'.mutex.Free?
    ensures s.clients[c].CSignal? && AnyAsleep(s) ==>
              exists w :: w in s.workers && s.workers[w].Asleep? && w in Apply(s, st).workers &&
                    Apply(s, st).workers[w].Woken?
  {
    match s.clients[c]
    case CLock => st := ClientLock(c);
    case CSignal =>
      if AnyAsleep(s) {
        var w :| w in s.workers && s.workers[w].Asleep?;
        st := Signal(c, w);
      } else {
        st := SignalNobody(c);
      }
    case CUnlock => st := ClientUnlock(c);
  }

  function BossRank(b: DPC): nat {
    match b
    case Idle => 0
    case PushStop(left) => 4 + left
    case Broadcast => 3
    case DUnlock => 2
    case Join => 1
    case Joined => 0
  }

  /** The destroying thread stops only for the mutex and for the joins, queues one stop task for each worker, and wakes
      every sleeper. */
  lemma BossAdvances(s: State) returns (st: Step)
    requires Reachable(s) && s.shutdown && !s.boss.Joined?
    requires s.boss == PushStop(0) ==> s.mutex.Free?
    requires s.boss.Join? ==> forall w :: w in s.workers ==> s.workers[w].Done?
    ensures Enabled(s, st) && BossRank(Apply(s, st).boss) < BossRank(s.boss)
    ensures s.boss.PushStop? && s.boss.left > 0 ==> Apply(s, st).tasks == s.tasks + [Stop]
    ensures s.boss.Broadcast? ==>
              forall w :: w in s.workers ==> w in Apply(s, st).workers && !Apply(s, st).workers[w].Asleep?
  {
    ReachableInv(s);
    st := match s.boss
          case PushStop(left) => if left > 0 then EnqueueStop else BossLock
          case Broadcast => BroadcastAll
          case DUnlock => BossUnlock
          case _ => JoinAll;
  }

  // Bounds the moves a worker still makes after the broadcast if nothing more is enqueued.
  function EndRank(s: State, pc: WPC): int {
    8 * (|s.tasks| - s.taken) +
    match pc
    case Done => 0
    case Drain => 1
    case UnlockToDrain => 2
    case Top => 2
    case Recheck => 2
    case Have(_) => 3
    case TakeWoken => 3
    case Check => 3
    case UnlockWith(_) => 4
    case Unlock => 4
    case Lock => 4
    case Take => 5
    case Woken => 5
    case _ => 6
  }

  /** After the broadcast every move of a worker brings it closer to the end of its loop. */
  lemma WorkersEndAfterBroadcast(s: State, w: Tid)
    requires Reachable(s) && Told(s) && Moves(s, w)
    ensures var s' := MoveWorker(s, w); w in s'.workers && 0 <= EndRank(s', s'.workers[w]) < EndRank(s, s.workers[w])
  {
    ReachableInv(s);
    WorkerFacts(s, w);
    if Dequeues(s.workers[w]) { DequeueNearsEnd(s, w); } else { OtherNearsEnd(s, w); }
  }

  lemma DequeueNearsEnd(s: State, w: Tid)
    requires FlagOk(s) && Moves(s, w) && WorkerOk(s, w) && Told(s) && Dequeues(s.workers[w])
    ensures var s' := DequeueWorker(s, w); w in s'.workers && 0 <= EndRank(s', s'.workers[w]) < EndRank(s, s.workers[w])
  {
  }

  lemma OtherNearsEnd(s: State, w: Tid)
    requires FlagOk(s) && Moves(s, w) && WorkerOk(s, w) && Told(s) && !Dequeues(s.workers[w])
    ensures var s' := MoveWorker(s, w); w in s'.workers && 0 <= EndRank(s', s'.workers[w]) < EndRank(s, s.workers[w])
  {
  }
}
