/** The MCS queue lock (`ev_mcs_lock`).

    A thread exchanges the lock's tail for its own node; if there was a predecessor it marks its
    node locked, links itself behind the predecessor and spins on its own node.  The holder
    either swings the tail back to NULL or unlocks its successor's node, and frees its own.
    Every atomic operation is one step; any number of threads interleave; `malloc` may reuse
    freed addresses.  Fields after `// history`, a node's `own` and the `k` of a program counter do
    not exist in the program. */
module McsLock {
  import Runs

  type Tid = nat
  type Addr = nat // 0 is NULL

  datatype Owner = Private(t: Tid) | Slot(k: nat)
  datatype Node = Node(locked: bool, next: Addr, own: Owner)
  datatype Rec = Rec(who: Tid, addr: Addr)

  datatype EnterAt = AtLock | AtLink
  datatype OwnAt = Critical | AtNext | AtCas | AtSpin | AtReload | AtGrant(n: Addr)

  datatype PC =
    | Ready(a: Addr)                                    // node built, tail not exchanged yet
    | Enter(a: Addr, k: nat, pred: Addr, eat: EnterAt)  // behind a predecessor, not linked yet
    | Wait(a: Addr, k: nat)                             // spinning on the own node
    | Own(a: Addr, k: nat, oat: OwnAt)                  // holds the lock
    | Leave(a: Addr, k: nat)                            // passed the lock on, about to free

  datatype State = State(
    tail: Addr, heap: map<Addr, Node>, pcs: map<Tid, PC>,
    // history
    hist: seq<Rec>,      // the requests, in the order of the tail exchanges
    cnt: nat,            // how many of them have passed the lock on
    owners: seq<Tid>)    // the threads that got the lock, in order

  datatype Step =
    | Alloc(t: Tid, a: Addr) | Exchange(t: Tid) | SetLocked(t: Tid) | LinkPred(t: Tid) | LoadLocked(t: Tid)
    | Unlock(t: Tid) | LoadNext(t: Tid) | CasTail(t: Tid) | AwaitNext(t: Tid) | ReloadNext(t: Tid) | Grant(t: Tid)
    | Release(t: Tid)

  const INIT_STATE := State(0, map[], map[], [], 0, [])

  predicate Init(s: State) { s == INIT_STATE }

  predicate Enabled(s: State, st: Step) {
    && (st.Alloc? || st.t in s.pcs)
    && match st
       case Alloc(t, a) => t !in s.pcs && a != 0 && a !in s.heap
       case Exchange(t) => s.pcs[t].Ready?
       case SetLocked(t) => s.pcs[t].Enter? && s.pcs[t].eat.AtLock?
       case LinkPred(t) => s.pcs[t].Enter? && s.pcs[t].eat.AtLink?
       case LoadLocked(t) => s.pcs[t].Wait?
       case Unlock(t) => s.pcs[t].Own? && s.pcs[t].oat.Critical?
       case LoadNext(t) => s.pcs[t].Own? && s.pcs[t].oat.AtNext?
       case CasTail(t) => s.pcs[t].Own? && s.pcs[t].oat.AtCas?
       case AwaitNext(t) => s.pcs[t].Own? && s.pcs[t].oat.AtSpin?
       case ReloadNext(t) => s.pcs[t].Own? && s.pcs[t].oat.AtReload?
       case Grant(t) => s.pcs[t].Own? && s.pcs[t].oat.AtGrant?
       case Release(t) => s.pcs[t].Leave?
  }

  /** Every node the step reads, writes or frees is allocated. */
  predicate Safe(s: State, st: Step)
    requires Enabled(s, st)
  {
    st.t in s.pcs ==>
      && s.pcs[st.t].a in s.heap
      && (st.LinkPred? ==> s.pcs[st.t].pred in s.heap)
      && (st.Grant? ==> s.pcs[st.t].oat.n in s.heap)
  }

  function Goto(s: State, t: Tid, pc: PC): State { s.(pcs := s.pcs[t := pc]) }

  function Apply(s: State, st: Step): State
    requires Enabled(s, st) && Safe(s, st)
  {
    match st
    case Alloc(t, a) => Goto(s.(heap := s.heap[a := Node(false, 0, Private(t))]), t, Ready(a))
    case Exchange(t) =>
      var a, k := s.pcs[t].a, |s.hist|;
      var s1 := s.(tail := a, hist := s.hist + [Rec(t, a)], heap := s.heap[a := s.heap[a].(own := Slot(k))]);
      if s.tail == 0 then Goto(s1.(owners := s.owners + [t]), t, Own(a, k, Critical))
      else Goto(s1, t, Enter(a, k, s.tail, AtLock))
    case SetLocked(t) =>
      var pc := s.pcs[t];
      Goto(s.(heap := s.heap[pc.a := s.heap[pc.a].(locked := true)]), t, pc.(eat := AtLink))
    case LinkPred(t) =>
      var pc := s.pcs[t];
      Goto(s.(heap := s.heap[pc.pred := s.heap[pc.pred].(next := pc.a)]), t, Wait(pc.a, pc.k))
    case LoadLocked(t) =>
      var pc := s.pcs[t];
      if s.heap[pc.a].locked then s else Goto(s.(owners := s.owners + [t]), t, Own(pc.a, pc.k, Critical))
    case Unlock(t) => Goto(s, t, s.pcs[t].(oat := AtNext))
    case LoadNext(t) => Goto(s, t, s.pcs[t].(oat := if s.heap[s.pcs[t].a].next == 0 then AtCas else AtSpin))
    case CasTail(t) =>
      var pc := s.pcs[t];
      if s.tail == pc.a then Goto(s.(tail := 0, cnt := s.cnt + 1), t, Leave(pc.a, pc.k))
      else Goto(s, t, pc.(oat := AtSpin))
    case AwaitNext(t) => if s.heap[s.pcs[t].a].next == 0 then s else Goto(s, t, s.pcs[t].(oat := AtReload))
    case ReloadNext(t) => Goto(s, t, s.pcs[t].(oat := AtGrant(s.heap[s.pcs[t].a].next)))
    case Grant(t) =>
      var pc := s.pcs[t];
      Goto(s.(heap := s.heap[pc.oat.n := s.heap[pc.oat.n].(locked := false)], cnt := s.cnt + 1), t, Leave(pc.a, pc.k))
    case Release(t) => s.(heap := s.heap - {s.pcs[t].a}, pcs := s.pcs - {t})
  }

  // ---------------------------------------------------------------- invariant

  predicate Live(s: State, k: int) { s.cnt <= k < |s.hist| }

  /** Request `k` has not passed the lock on: its node is queued and its thread is behind it. */
  predicate SlotOk(s: State, k: nat)
    requires k < |s.hist|
  {
    var t, a := s.hist[k].who, s.hist[k].addr;
    && a != 0 && a in s.heap && s.heap[a].own == Slot(k)
    && t in s.pcs && !s.pcs[t].Ready? && !s.pcs[t].Leave? && s.pcs[t].a == a && s.pcs[t].k == k
    && (k > s.cnt ==> !s.pcs[t].Own? && (s.pcs[t].Wait? ==> s.heap[a].locked))
    && (k == s.cnt ==> !s.pcs[t].Enter? && !s.heap[a].locked)
    && (k + 1 < |s.hist| ==> s.heap[a].next == (if Linked(s, k + 1) then s.hist[k + 1].addr else 0))
    && (k + 1 == |s.hist| ==> s.heap[a].next == 0 && s.tail == a)
  }

  /** The thread of request `k` has linked itself behind its predecessor. */
  predicate Linked(s: State, k: nat)
    requires k < |s.hist|
  {
    s.hist[k].who in s.pcs && s.pcs[s.hist[k].who].Wait? && s.pcs[s.hist[k].who].k == k
  }

  predicate ThreadOk(s: State, t: Tid)
    requires t in s.pcs
  {
    match s.pcs[t]
    case Ready(a) => a != 0 && a in s.heap && s.heap[a] == Node(false, 0, Private(t))
    case Enter(a, k, pred, at) =>
      && Live(s, k) && s.hist[k] == Rec(t, a) && k > s.cnt && pred == s.hist[k - 1].addr
      && a in s.heap && s.heap[a].locked == at.AtLink?
    case Wait(a, k) => Live(s, k) && s.hist[k] == Rec(t, a)
    case Own(a, k, at) =>
      && k == s.cnt < |s.hist| && s.hist[k] == Rec(t, a)
      && (at.AtSpin? || at.AtReload? ==> k + 1 < |s.hist|)
      && (at.AtReload? ==> a in s.heap && s.heap[a].next != 0)
      && (at.AtGrant? ==> k + 1 < |s.hist| && at.n == s.hist[k + 1].addr && Linked(s, k + 1))
    case Leave(a, k) => k < s.cnt && a in s.heap && s.heap[a].own == Slot(k) && k < |s.hist| && s.hist[k] == Rec(t, a)
  }

  predicate OwnerInv(s: State) {
    && s.cnt <= |s.owners| <= |s.hist|
    && (forall j :: 0 <= j < |s.owners| ==> s.owners[j] == s.hist[j].who)
    && (s.cnt == |s.hist| ==> s.tail == 0 && |s.owners| == s.cnt)
    && (s.cnt < |s.hist| ==>
          |s.owners| == if s.hist[s.cnt].who in s.pcs && s.pcs[s.hist[s.cnt].who].Own? then s.cnt + 1 else s.cnt)
  }

  // Every allocated node belongs to a thread that is working with it.
  predicate NodeOk(s: State, a: Addr)
    requires a in s.heap
  {
    match s.heap[a].own
    case Private(t) => t in s.pcs && s.pcs[t] == Ready(a)
    case Slot(k) =>
      && k < |s.hist| && s.hist[k].addr == a && s.hist[k].who in s.pcs
      && var pc := s.pcs[s.hist[k].who]; !pc.Ready? && pc.a == a && pc.k == k
  }

  predicate Inv(s: State) {
    && OwnerInv(s)
    && (forall a {:trigger NodeOk(s, a)} :: a in s.heap ==> NodeOk(s, a))
    && (forall k {:trigger SlotOk(s, k)} :: s.cnt <= k < |s.hist| ==> SlotOk(s, k))
    && (forall t {:trigger ThreadOk(s, t)} :: t in s.pcs ==> ThreadOk(s, t))
  }

  // What the proofs about one step need, without quantifiers over requests and threads.
  predicate Near(s: State, t: Tid) {
    && OwnerInv(s)
    && (Live(s, s.cnt) ==> SlotOk(s, s.cnt) && SlotOk(s, |s.hist| - 1))
    && (Live(s, s.cnt + 1) ==> SlotOk(s, s.cnt + 1))
    && (t in s.pcs ==>
          && ThreadOk(s, t)
          && (s.pcs[t].Enter? || s.pcs[t].Wait? || s.pcs[t].Own? ==> SlotOk(s, s.pcs[t].k))
          && (s.pcs[t].Enter? ==> SlotOk(s, s.pcs[t].k - 1)))
  }

  lemma Facts(s: State, t: Tid)
    requires Inv(s)
    ensures Near(s, t)
  {
    if Live(s, s.cnt) { assert SlotOk(s, s.cnt); assert SlotOk(s, |s.hist| - 1); }
    if Live(s, s.cnt + 1) { assert SlotOk(s, s.cnt + 1); }
    if t in s.pcs {
      assert ThreadOk(s, t);
      if !s.pcs[t].Ready? && Live(s, s.pcs[t].k) { assert SlotOk(s, s.pcs[t].k); }
      if s.pcs[t].Enter? { assert SlotOk(s, s.pcs[t].k - 1); }
    }
  }

  lemma EnabledIsSafe(s: State, st: Step)
    requires Inv(s) && Enabled(s, st)
    ensures Safe(s, st)
  {
    Facts(s, st.t);
  }

  lemma OwnersKept(s: State, st: Step)
    requires Near(s, st.t) && Enabled(s, st) && Safe(s, st)
    ensures OwnerInv(Apply(s, st))
  {
  }

  predicate Acquires(st: Step) {
    st.Alloc? || st.Exchange? || st.SetLocked? || st.LinkPred? || st.LoadLocked?
  }

  lemma AcquireKeepsSlot(s: State, st: Step, k: nat)
    requires Near(s, st.t) && Enabled(s, st) && Safe(s, st) && Acquires(st)
    requires Live(Apply(s, st), k)
    requires Live(s, k) ==> SlotOk(s, k)
    requires Live(s, k + 1) ==> SlotOk(s, k + 1)
    ensures SlotOk(Apply(s, st), k)
  {
  }

  lemma PassKeepsSlot(s: State, st: Step, k: nat)
    requires Near(s, st.t) && Enabled(s, st) && Safe(s, st) && !Acquires(st)
    requires Live(Apply(s, st), k)
    requires Live(s, k) ==> SlotOk(s, k)
    requires Live(s, k + 1) ==> SlotOk(s, k + 1)
    ensures SlotOk(Apply(s, st), k)
  {
  }

  lemma AcquirerKept(s: State, st: Step)
    requires Near(s, st.t) && Enabled(s, st) && Safe(s, st)
    requires Acquires(st)
    ensures st.t in Apply(s, st).pcs ==> ThreadOk(Apply(s, st), st.t)
  {
  }

  lemma PasserKept(s: State, st: Step)
    requires Near(s, st.t) && Enabled(s, st) && Safe(s, st)
    requires !Acquires(st)
    ensures st.t in Apply(s, st).pcs ==> ThreadOk(Apply(s, st), st.t)
  {
  }

  lemma ActorKept(s: State, st: Step)
    requires Near(s, st.t) && Enabled(s, st) && Safe(s, st)
    ensures st.t in Apply(s, st).pcs ==> ThreadOk(Apply(s, st), st.t)
  {
    if Acquires(st) { AcquirerKept(s, st); } else { PasserKept(s, st); }
  }

  lemma ExchangeKeepsOther(s: State, st: Step, u: Tid)
    requires Near(s, st.t) && Enabled(s, st) && Safe(s, st) && Acquires(st)
    requires Near(s, u) && u in s.pcs && u != st.t
    requires st.Alloc? || st.Exchange?
    ensures u in Apply(s, st).pcs && ThreadOk(Apply(s, st), u)
  {
  }

  lemma WaitKeepsOther(s: State, st: Step, u: Tid)
    requires Near(s, st.t) && Enabled(s, st) && Safe(s, st) && Acquires(st)
    requires Near(s, u) && u in s.pcs && u != st.t
    requires !st.Alloc? && !st.Exchange?
    ensures u in Apply(s, st).pcs && ThreadOk(Apply(s, st), u)
  {
  }

  lemma AcquireKeepsOther(s: State, st: Step, u: Tid)
    requires Near(s, st.t) && Enabled(s, st) && Safe(s, st) && Acquires(st)
    requires Near(s, u) && u in s.pcs && u != st.t
    ensures u in Apply(s, st).pcs && ThreadOk(Apply(s, st), u)
  {
    if st.Alloc? || st.Exchange? { ExchangeKeepsOther(s, st, u); } else { WaitKeepsOther(s, st, u); }
  }

  lemma UnlockKeepsOther(s: State, st: Step, u: Tid)
    requires Near(s, st.t) && Enabled(s, st) && Safe(s, st) && !Acquires(st)
    requires Near(s, u) && u in s.pcs && u != st.t
    requires st.Unlock? || st.LoadNext? || st.AwaitNext? || st.ReloadNext?
    ensures u in Apply(s, st).pcs && ThreadOk(Apply(s, st), u)
  {
  }

  lemma GrantKeepsOther(s: State, st: Step, u: Tid)
    requires Near(s, st.t) && Enabled(s, st) && Safe(s, st) && !Acquires(st)
    requires Near(s, u) && u in s.pcs && u != st.t
    requires !(st.Unlock? || st.LoadNext? || st.AwaitNext? || st.ReloadNext?)
    ensures u in Apply(s, st).pcs && ThreadOk(Apply(s, st), u)
  {
  }

  lemma PassKeepsOther(s: State, st: Step, u: Tid)
    requires Near(s, st.t) && Enabled(s, st) && Safe(s, st) && !Acquires(st)
    requires Near(s, u) && u in s.pcs && u != st.t
    ensures u in Apply(s, st).pcs && ThreadOk(Apply(s, st), u)
  {
    if st.Unlock? || st.LoadNext? || st.AwaitNext? || st.ReloadNext? { UnlockKeepsOther(s, st, u); }
    else { GrantKeepsOther(s, st, u); }
  }

  lemma NodeKept(s: State, st: Step, a: Addr)
    requires Near(s, st.t) && Enabled(s, st) && Safe(s, st) && a in Apply(s, st).heap
    requires a in s.heap ==> NodeOk(s, a)
    ensures NodeOk(Apply(s, st), a)
  {
  }

  lemma StepKeepsInv(s: State, st: Step)
    requires Inv(s) && Enabled(s, st) && Safe(s, st)
    ensures Inv(Apply(s, st))
  {
    var s' := Apply(s, st);
    Facts(s, st.t);
    OwnersKept(s, st);
    forall a | a in s'.heap ensures NodeOk(s', a) {
      if a in s.heap { assert NodeOk(s, a); }
      NodeKept(s, st, a);
    }
    forall k | s'.cnt <= k < |s'.hist| ensures SlotOk(s', k) {
      if Live(s, k) { assert SlotOk(s, k); }
      if Live(s, k + 1) { assert SlotOk(s, k + 1); }
      if Acquires(st) { AcquireKeepsSlot(s, st, k); } else { PassKeepsSlot(s, st, k); }
    }
    forall u | u in s'.pcs ensures ThreadOk(s', u) {
      if u == st.t { ActorKept(s, st); }
      else {
        Facts(s, u);
        if Acquires(st) { AcquireKeepsOther(s, st, u); } else { PassKeepsOther(s, st, u); }
      }
    }
  }

  // ---------------------------------------------------------------- results over whole runs

  /** One step of some thread. Only safe steps are applied; NoFreedNodeTouched shows that this excludes none. */
  ghost predicate Next(s: State, s': State) {
    exists st :: Enabled(s, st) && Safe(s, st) && s' == Apply(s, st)
  }

  /** The states that some interleaving reaches. */
  ghost predicate Reachable(s: State) { Runs.Reached(Init, Next, s) }

  lemma NextKeepsInv(s: State, s': State)
    requires Inv(s) && Next(s, s')
    ensures Inv(s')
  {
    var st :| Enabled(s, st) && Safe(s, st) && s' == Apply(s, st);
    StepKeepsInv(s, st);
  }

  lemma ReachableInv(s: State)
    requires Reachable(s)
    ensures Inv(s)
  {
    forall s, s' | Inv(s) && Next(s, s') ensures Inv(s') { NextKeepsInv(s, s'); }
    Runs.Induction(Init, Next, Inv, s);
  }

  /** In every interleaving, whatever any thread does next touches only allocated nodes: no node is
      touched after its owner freed it. */
  lemma NoFreedNodeTouched(s: State, st: Step)
    requires Reachable(s) && Enabled(s, st)
    ensures Safe(s, st)
  {
    ReachableInv(s);
    EnabledIsSafe(s, st);
  }

  /** At most one thread holds the lock. */
  lemma MutualExclusion(s: State, t: Tid, u: Tid)
    requires Reachable(s) && t in s.pcs && s.pcs[t].Own? && u in s.pcs && s.pcs[u].Own?
    ensures t == u
  {
    ReachableInv(s);
    assert ThreadOk(s, t) && ThreadOk(s, u);
  }

  /** The lock is handed out in the order of the tail exchanges, and all but the last of its owners have
      passed it on. */
  lemma OwnersFollowTailExchanges(s: State)
    requires Reachable(s)
    ensures |s.owners| <= |s.hist| && forall j :: 0 <= j < |s.owners| ==> s.owners[j] == s.hist[j].who
    ensures s.cnt <= |s.owners| <= s.cnt + 1
    ensures |s.owners| == s.cnt + 1 ==>
              var t := s.owners[s.cnt]; t in s.pcs && s.pcs[t].Own? && s.pcs[t].k == s.cnt
  {
    ReachableInv(s);
    if Live(s, s.cnt) { assert SlotOk(s, s.cnt); }
  }

  /** When the holder's tail CAS fails it has a successor, which is linked behind it or still on its way to
      link itself; and the holder unlocks exactly that successor. */
  lemma SuccessorIsNeverLost(s: State, t: Tid)
    requires Reachable(s) && t in s.pcs && s.pcs[t].Own?
    ensures s.pcs[t].oat.AtCas? && s.tail != s.pcs[t].a ==> s.cnt + 1 < |s.hist|
    ensures s.pcs[t].oat.AtSpin? ==>
              s.cnt + 1 < |s.hist| && s.hist[s.cnt + 1].who in s.pcs && s.pcs[t].a in s.heap
              && (s.pcs[s.hist[s.cnt + 1].who].Enter? || s.heap[s.pcs[t].a].next == s.hist[s.cnt + 1].addr)
    ensures s.pcs[t].oat.AtGrant? ==>
              s.cnt + 1 < |s.hist| && s.pcs[t].oat.n == s.hist[s.cnt + 1].addr
              && s.hist[s.cnt + 1].who in s.pcs && s.pcs[s.hist[s.cnt + 1].who] == Wait(s.pcs[t].oat.n, s.cnt + 1)
  {
    ReachableInv(s);
    Facts(s, t);
  }

  /** A waiting thread stays locked out until it is the one next in line. */
  lemma WaitersAreLockedOut(s: State, t: Tid)
    requires Reachable(s) && t in s.pcs && s.pcs[t].Wait?
    ensures s.pcs[t].a in s.heap && (s.heap[s.pcs[t].a].locked <==> s.pcs[t].k > s.cnt)
  {
    ReachableInv(s);
    Facts(s, t);
  }

  // ---------------------------------------------------------------- progress

  /** The one step that a thread inside acquire or relinquish takes next. */
  function NextStep(s: State, t: Tid): Step
    requires t in s.pcs
  {
    match s.pcs[t]
    case Ready(_) => Exchange(t)
    case Enter(_, _, _, at) => if at.AtLock? then SetLocked(t) else LinkPred(t)
    case Wait(_, _) => LoadLocked(t)
    case Own(_, _, at) =>
      (match at
       case Critical => Unlock(t)
       case AtNext => LoadNext(t)
       case AtCas => CasTail(t)
       case AtSpin => AwaitNext(t)
       case AtReload => ReloadNext(t)
       case AtGrant(_) => Grant(t))
    case Leave(_, _) => Release(t)
  }

  // How many steps a thread is away from having freed its node, spinning aside.
  function Rank(pc: PC): nat {
    match pc
    case Ready(_) => 10
    case Enter(_, _, _, at) => if at.AtLock? then 9 else 8
    case Wait(_, _) => 7
    case Own(_, _, at) =>
      (match at
       case Critical => 6
       case AtNext => 5
       case AtCas => 4
       case AtSpin => 3
       case AtReload => 2
       case AtGrant(_) => 1)
    case Leave(_, _) => 0
  }

  /** The two waits: for the own node to be unlocked, and for the successor to link itself. */
  predicate Waits(s: State, t: Tid) {
    && t in s.pcs && s.pcs[t].a in s.heap
    && ((s.pcs[t].Wait? && s.heap[s.pcs[t].a].locked)
        || (s.pcs[t].Own? && s.pcs[t].oat.AtSpin? && s.heap[s.pcs[t].a].next == 0))
  }

  /** Outside the two waits every step brings its thread closer to the end. */
  lemma StepsAdvance(s: State, t: Tid)
    requires Reachable(s) && t in s.pcs && !Waits(s, t)
    ensures Advances(s, t)
  {
    ReachableInv(s);
    Facts(s, t);
    if s.pcs[t].Own? { OwnerAdvances(s, t); } else { OtherAdvances(s, t); }
  }

  predicate Advances(s: State, t: Tid)
    requires t in s.pcs
  {
    && Enabled(s, NextStep(s, t)) && Safe(s, NextStep(s, t))
    && var s' := Apply(s, NextStep(s, t)); t !in s'.pcs || Rank(s'.pcs[t]) < Rank(s.pcs[t])
  }

  lemma OwnerAdvances(s: State, t: Tid)
    requires Near(s, t) && t in s.pcs && !Waits(s, t) && s.pcs[t].Own?
    ensures Advances(s, t)
  {
  }

  lemma OtherAdvances(s: State, t: Tid)
    requires Near(s, t) && t in s.pcs && !Waits(s, t) && !s.pcs[t].Own?
    ensures Advances(s, t)
  {
  }

  /** No deadlock: while a thread is inside acquire or relinquish, some thread is not waiting. */
  lemma SomeoneAdvances(s: State, t: Tid) returns (u: Tid)
    requires Reachable(s) && t in s.pcs
    ensures u in s.pcs && !Waits(s, u)
  {
    ReachableInv(s);
    Facts(s, t);
    u := t;
    if Waits(s, t) {
      assert SlotOk(s, s.cnt);
      u := s.hist[s.cnt].who;
      if Waits(s, u) {
        assert ThreadOk(s, u);
        assert SlotOk(s, s.cnt + 1);
        u := s.hist[s.cnt + 1].who;
      }
    }
  }

  /** A thread that exchanges the tail of a free lock owns it. */
  lemma FreeLockIsTaken(s: State, t: Tid)
    requires Reachable(s) && t in s.pcs && s.pcs[t].Ready? && s.tail == 0
    ensures Enabled(s, Exchange(t)) && Safe(s, Exchange(t))
    ensures var s' := Apply(s, Exchange(t)); s'.pcs[t].Own? && s'.owners == s.owners + [t]
  {
    ReachableInv(s);
    Facts(s, t);
  }

  /** The waiter next in line owns the lock after its next load. */
  lemma NextInLineAcquires(s: State, t: Tid)
    requires Reachable(s) && t in s.pcs && s.pcs[t].Wait? && s.pcs[t].k == s.cnt
    ensures Enabled(s, LoadLocked(t)) && Safe(s, LoadLocked(t))
    ensures var s' := Apply(s, LoadLocked(t)); s'.pcs[t].Own? && s'.owners == s.owners + [t]
  {
    ReachableInv(s);
    Facts(s, t);
  }

  /** The grant makes the successor, and nobody else, next in line: its next load acquires. */
  lemma GrantHandsOver(s: State, t: Tid)
    requires Reachable(s) && Enabled(s, Grant(t)) && Safe(s, Grant(t))
    ensures s.cnt + 1 < |s.hist|
    ensures var s', u := Apply(s, Grant(t)), s.hist[s.cnt + 1].who;
            && u in s'.pcs && s'.pcs[u].Wait? && s'.pcs[u].k == s'.cnt == s.cnt + 1
            && Enabled(s', LoadLocked(u)) && Safe(s', LoadLocked(u))
            && var s'' := Apply(s', LoadLocked(u)); s''.pcs[u].Own? && s''.owners == s.owners + [u]
  {
    ReachableInv(s);
    Facts(s, t);
    StepKeepsInv(s, Grant(t));
    var s', u := Apply(s, Grant(t)), s.hist[s.cnt + 1].who;
    Facts(s', u);
    assert SlotOk(s', s'.cnt);
  }

  /** A thread inside acquire or relinquish has no other step than its next one. */
  lemma OnlyNextStep(s: State, st: Step)
    requires Enabled(s, st) && st.t in s.pcs
    ensures st == NextStep(s, st.t)
  {
  }

  lemma ReachStep(s: State, st: Step)
    requires Reachable(s) && Enabled(s, st) && Safe(s, st)
    ensures Reachable(Apply(s, st))
  {
    assert Next(s, Apply(s, st));
    Runs.Extend(Init, Next, s, Apply(s, st));
  }

  // The thread owns the lock and nobody else is about.
  predicate OwnsAlone(s: State, t: Tid, a: Addr, oat: OwnAt) {
    s.pcs == map[t := Own(a, s.cnt, oat)] && s.tail == a && a in s.heap && s.heap[a].next == 0
  }

  /** A thread that comes to a lock nobody uses owns it after its exchange, ... */
  lemma AcquireAlone(s: State, t: Tid, a: Addr) returns (s': State)
    requires Reachable(s) && s.pcs == map[] && a != 0
    ensures Reachable(s') && OwnsAlone(s', t, a, Critical) && s'.owners == s.owners + [t]
  {
    QuietMeansEmpty(s);
    OwnersFollowTailExchanges(s);
    ReachStep(s, Alloc(t, a));
    var s1 := Apply(s, Alloc(t, a));
    ReachStep(s1, Exchange(t));
    s' := Apply(s1, Exchange(t));
    OwnersFollowTailExchanges(s');
  }

  /** ... and its release leaves the lock free again. */
  lemma RelinquishAlone(s: State, t: Tid, a: Addr) returns (s': State)
    requires Reachable(s) && OwnsAlone(s, t, a, Critical)
    ensures Reachable(s') && s'.pcs == map[] && s'.tail == 0 && s'.heap == s.heap - {a} && s'.owners == s.owners
  {
    ReachStep(s, Unlock(t));
    var s1 := Apply(s, Unlock(t));
    ReachStep(s1, LoadNext(t));
    var s2 := Apply(s1, LoadNext(t));
    ReachStep(s2, CasTail(t));
    var s3 := Apply(s2, CasTail(t));
    ReachStep(s3, Release(t));
    s' := Apply(s3, Release(t));
  }

  /** No node is leaked: with no thread inside, nothing is allocated and the lock is free. */
  lemma QuietMeansEmpty(s: State)
    requires Reachable(s) && s.pcs == map[]
    ensures s.heap == map[] && s.tail == 0
  {
    ReachableInv(s);
    forall a | a in s.heap ensures false { NodeHasThread(s, a); }
    if Live(s, s.cnt) { SlotHasThread(s); }
  }

  lemma NodeHasThread(s: State, a: Addr)
    requires Inv(s) && a in s.heap
    ensures s.pcs != map[]
  {
    assert NodeOk(s, a);
  }

  lemma SlotHasThread(s: State)
    requires Inv(s) && Live(s, s.cnt)
    ensures s.pcs != map[]
  {
    assert SlotOk(s, s.cnt);
  }
}
