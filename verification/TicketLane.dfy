/** One lane of the ticketed queue `ev_pqueue`: a linked list with an enqueue guard and a
    dequeue guard, and the threads that are working on it.

    An enqueue with ticket e builds its node, waits until the enqueue guard shows e - n,
    exchanges the tail, releases the guard and then links or publishes its node.  A dequeue
    with ticket d waits until the dequeue guard shows d - n, unlinks the first node,
    releases the guard and frees the node.  Every atomic operation is one step.

    Fields after `// history`, a node's `own` and the `k` of `Linking` do not exist in the
    program: no step reads them to decide what to do.  (Coming to the lane demands a new
    ticket; that it always is new is part of TicketQueue.NoFreedNodeTouched.) */
module TicketLane {
  import Bytes

  type Tid = nat
  type Addr = nat // 0 is NULL
  type Data = int

  datatype Owner = Private(t: Tid) | Listed(k: nat) | Unlinked(t: Tid)
  datatype Node = Node(data: Data, next: Addr, own: Owner)
  datatype Rec = Rec(tk: int, addr: Addr)
  datatype Enq = Enq(who: Tid, v: Data)

  // A dequeue inside the guard whose node is still listed.
  datatype HoldAt = AtHead | AtNext(f: Addr) | AtStore(f: Addr, n: Addr) | AtTail(f: Addr) | AtSpin(f: Addr)
                  | AtReload(f: Addr) | AtStore2(f: Addr, n: Addr)
  // A dequeue whose node has left the list.
  datatype TookAt = AtExit | AtData | AtFree(v: Data)

  datatype PC =
    | Ready(e: int, a: Addr, entered: bool)                        // node built; entered: guard passed
    | Linking(e: int, a: Addr, last: Addr, k: nat, inside: bool)   // tail exchanged; inside: guard not released
    | Holding(d: int, hat: HoldAt)
    | Took(d: int, f: Addr, tat: TookAt)

  datatype Lane = Lane(
    n: nat, head: Addr, tail: Addr, eg: int, dg: int, heap: map<Addr, Node>, pcs: map<Tid, PC>,
    // history
    enqs: map<int, Enq>,    // the enqueues that came to this lane, by ticket
    deqs: map<int, Tid>,    // the dequeues that came to this lane, by ticket
    hist: seq<Rec>,         // every node, in the order of the tail exchanges
    cnt: nat,               // how many of them have left the list
    en: int,                // ticket of the next exchange
    dn: int,                // ticket of the next removal
    hidden: bool,           // a dequeue stored NULL in the head but its node is still the tail
    rets: map<int, Data>,   // dequeue ticket -> value returned
    place: map<int, nat>)   // enqueue ticket -> its position in hist

  datatype Step =
    | EAlloc(t: Tid, e: int, v: Data, a: Addr) | EEnter(t: Tid) | EExchange(t: Tid) | EExit(t: Tid) | EPublish(t: Tid)
    | DEnter(t: Tid, d: int) | DLoadHead(t: Tid) | DLoadNext(t: Tid) | DStoreHead(t: Tid) | DZeroTail(t: Tid)
    | DAwaitNext(t: Tid) | DReloadNext(t: Tid) | DStoreNext(t: Tid) | DExit(t: Tid) | DReadData(t: Tid)
    | DRelease(t: Tid)

  function Init(n: nat, i: nat): Lane {
    Lane(n, 0, 0, i - n, i - n, map[], map[], map[], map[], [], 0, i, i, false, map[], map[])
  }

  predicate Enabled(s: Lane, st: Step) {
    && (st.EAlloc? || st.DEnter? || st.t in s.pcs)
    && match st
       case EAlloc(t, e, v, a) => t !in s.pcs && e !in s.enqs && a != 0 && a !in s.heap
       case EEnter(t) => s.pcs[t].Ready? && !s.pcs[t].entered && s.eg == s.pcs[t].e - s.n
       case EExchange(t) => s.pcs[t].Ready? && s.pcs[t].entered
       case EExit(t) => s.pcs[t].Linking? && s.pcs[t].inside
       case EPublish(t) => s.pcs[t].Linking? && !s.pcs[t].inside
       case DEnter(t, d) => t !in s.pcs && d !in s.deqs && s.dg == d - s.n
       case DLoadHead(t) => s.pcs[t].Holding? && s.pcs[t].hat.AtHead?
       case DLoadNext(t) => s.pcs[t].Holding? && s.pcs[t].hat.AtNext?
       case DStoreHead(t) => s.pcs[t].Holding? && s.pcs[t].hat.AtStore?
       case DZeroTail(t) => s.pcs[t].Holding? && s.pcs[t].hat.AtTail?
       case DAwaitNext(t) => s.pcs[t].Holding? && s.pcs[t].hat.AtSpin?
       case DReloadNext(t) => s.pcs[t].Holding? && s.pcs[t].hat.AtReload?
       case DStoreNext(t) => s.pcs[t].Holding? && s.pcs[t].hat.AtStore2?
       case DExit(t) => s.pcs[t].Took? && s.pcs[t].tat.AtExit?
       case DReadData(t) => s.pcs[t].Took? && s.pcs[t].tat.AtData?
       case DRelease(t) => s.pcs[t].Took? && s.pcs[t].tat.AtFree?
  }

  /** Every node the step inserts, reads, writes, unlinks or frees is allocated. */
  predicate Safe(s: Lane, st: Step)
    requires Enabled(s, st)
  {
    st.t in s.pcs ==>
      match s.pcs[st.t]
      case Ready(_, a, _) => a in s.heap
      case Linking(_, a, last, _, _) => a in s.heap && (last == 0 || last in s.heap)
      case Holding(_, at) => at.AtHead? || at.f in s.heap
      case Took(_, f, _) => f in s.heap
  }

  function Goto(s: Lane, t: Tid, pc: PC): Lane { s.(pcs := s.pcs[t := pc]) }
  function Exit(s: Lane, t: Tid): Lane { s.(pcs := s.pcs - {t}) }

  // The first node leaves the list in the hands of `t`.
  function Unlink(s: Lane, t: Tid, d: int, f: Addr): Lane
    requires f in s.heap
  {
    Goto(s.(cnt := s.cnt + 1, dn := s.dn + s.n, hidden := false,
            heap := s.heap[f := s.heap[f].(own := Unlinked(t))]),
         t, Took(d, f, AtExit))
  }

  // Steps that change nothing but the program counter of their thread, and three groups of the others.
  predicate Quiet(st: Step) {
    st.EEnter? || st.DEnter? || st.DLoadHead? || st.DLoadNext? || st.DAwaitNext? || st.DReloadNext? || st.DReadData?
  }
  predicate Inserts(st: Step) { st.EExchange? || st.EExit? || st.EPublish? }
  predicate Unlinks(st: Step) { st.DStoreHead? || st.DZeroTail? || st.DStoreNext? }
  predicate Tidies(st: Step) { st.EAlloc? || st.DExit? || st.DRelease? }

  // Steps that change nothing but the program counter of their thread.
  function ApplyQuiet(s: Lane, st: Step): Lane
    requires Enabled(s, st) && Safe(s, st) && Quiet(st)
  {
    match st
    case EEnter(t) => Goto(s, t, s.pcs[t].(entered := true))
    case DEnter(t, d) => Goto(s.(deqs := s.deqs[d := t]), t, Holding(d, AtHead))
    case DLoadHead(t) => if s.head == 0 then s else Goto(s, t, s.pcs[t].(hat := AtNext(s.head)))
    case DLoadNext(t) =>
      var f := s.pcs[t].hat.f;
      Goto(s, t, s.pcs[t].(hat := AtStore(f, s.heap[f].next)))
    case DAwaitNext(t) =>
      var f := s.pcs[t].hat.f;
      if s.heap[f].next == 0 then s else Goto(s, t, s.pcs[t].(hat := AtReload(f)))
    case DReloadNext(t) =>
      var f := s.pcs[t].hat.f;
      Goto(s, t, s.pcs[t].(hat := AtStore2(f, s.heap[f].next)))
    case DReadData(t) => Goto(s, t, s.pcs[t].(tat := AtFree(s.heap[s.pcs[t].f].data)))
  }

  // An enqueue puts its node into the list.
  function ApplyInsert(s: Lane, st: Step): Lane
    requires Enabled(s, st) && Safe(s, st) && Inserts(st)
  {
    match st
    case EExchange(t) =>
      var pc := s.pcs[t];
      Goto(s.(tail := pc.a, hist := s.hist + [Rec(pc.e, pc.a)], en := s.en + s.n, place := s.place[pc.e := |s.hist|],
              heap := s.heap[pc.a := s.heap[pc.a].(own := Listed(|s.hist|))]),
           t, Linking(pc.e, pc.a, s.tail, |s.hist|, true))
    case EExit(t) => Goto(s.(eg := s.pcs[t].e), t, s.pcs[t].(inside := false))
    case EPublish(t) =>
      var pc := s.pcs[t];
      if pc.last == 0
      then Exit(s.(head := pc.a), t)
      else Exit(s.(heap := s.heap[pc.last := s.heap[pc.last].(next := pc.a)]), t)
  }

  // A dequeue takes the first node out.
  function ApplyUnlink(s: Lane, st: Step): Lane
    requires Enabled(s, st) && Safe(s, st) && Unlinks(st)
  {
    match st
    case DStoreHead(t) =>
      var pc := s.pcs[t];
      if pc.hat.n == 0
      then Goto(s.(head := 0, hidden := true), t, pc.(hat := AtTail(pc.hat.f)))
      else Unlink(s.(head := pc.hat.n), t, pc.d, pc.hat.f)
    case DZeroTail(t) =>
      var pc := s.pcs[t];
      if s.tail == pc.hat.f
      then Unlink(s.(tail := 0), t, pc.d, pc.hat.f)
      else Goto(s, t, pc.(hat := AtSpin(pc.hat.f)))
    case DStoreNext(t) =>
      var pc := s.pcs[t];
      Unlink(s.(head := pc.hat.n), t, pc.d, pc.hat.f)
  }

  // Building a node, leaving the dequeue guard, freeing a node.
  function ApplyTidy(s: Lane, st: Step): Lane
    requires Enabled(s, st) && Safe(s, st) && Tidies(st)
  {
    match st
    case EAlloc(t, e, v, a) =>
      Goto(s.(heap := s.heap[a := Node(v, 0, Private(t))], enqs := s.enqs[e := Enq(t, v)]), t, Ready(e, a, false))
    case DExit(t) => Goto(s.(dg := s.pcs[t].d), t, s.pcs[t].(tat := AtData))
    case DRelease(t) =>
      var pc := s.pcs[t];
      Exit(s.(heap := s.heap - {pc.f}, rets := s.rets[pc.d := pc.tat.v]), t)
  }

  function Apply(s: Lane, st: Step): Lane
    requires Enabled(s, st) && Safe(s, st)
  {
    if Quiet(st) then ApplyQuiet(s, st)
    else if Inserts(st) then ApplyInsert(s, st)
    else if Unlinks(st) then ApplyUnlink(s, st)
    else ApplyTidy(s, st)
  }

  // ---------------------------------------------------------------- invariant

  predicate Live(s: Lane, k: int) { s.cnt <= k < |s.hist| }

  /** The enqueue of node `k` has exchanged the tail and still has to link or publish it. */
  predicate Pending(s: Lane, k: nat, last: Addr)
    requires k < |s.hist|
  {
    var r := s.hist[k];
    && r.tk in s.enqs && s.enqs[r.tk].who in s.pcs
    && var pc := s.pcs[s.enqs[r.tk].who];
       pc.Linking? && pc.e == r.tk && pc.a == r.addr && pc.last == last && pc.k == k
  }

  predicate ListedOk(s: Lane, k: nat)
    requires k < |s.hist|
  {
    var r := s.hist[k];
    && r.tk in s.enqs
    && r.addr != 0 && r.addr in s.heap && s.heap[r.addr].own == Listed(k)
    && s.heap[r.addr].data == s.enqs[r.tk].v
  }

  /** Node `k` follows node `k - 1` in ticket order and is linked to it, or is about to be. */
  predicate LinkOk(s: Lane, k: nat)
    requires 0 < k < |s.hist|
  {
    var p, r := s.hist[k - 1], s.hist[k];
    && r.tk == p.tk + s.n
    && p.addr in s.heap
    && (s.heap[p.addr].next == r.addr || (s.heap[p.addr].next == 0 && Pending(s, k, p.addr)))
  }

  predicate EndsOk(s: Lane) {
    && s.cnt <= |s.hist|
    && (s.cnt == |s.hist| ==> s.tail == 0 && s.dn == s.en)
    && (s.cnt < |s.hist| ==>
          && s.hist[s.cnt].tk == s.dn
          && var r := s.hist[|s.hist| - 1];
             s.tail == r.addr && r.addr in s.heap && s.heap[r.addr].next == 0 && r.tk + s.n == s.en)
  }

  /** The enqueue guard: it shows the last ticket exchanged, or that enqueue is still inside. */
  predicate EnqGuardOk(s: Lane) {
    || s.eg + s.n == s.en
    || (s.eg + 2 * s.n == s.en && s.eg + s.n in s.enqs && s.enqs[s.eg + s.n].who in s.pcs
        && var pc := s.pcs[s.enqs[s.eg + s.n].who]; pc.Linking? && pc.e == s.eg + s.n && pc.inside)
  }

  /** The dequeue guard: it shows the last ticket removed, or that dequeue is still inside. */
  predicate DeqGuardOk(s: Lane) {
    || s.dg + s.n == s.dn
    || (s.dg + 2 * s.n == s.dn && s.dg + s.n in s.deqs && s.deqs[s.dg + s.n] in s.pcs
        && var pc := s.pcs[s.deqs[s.dg + s.n]]; pc.Took? && pc.d == s.dg + s.n && pc.tat.AtExit?)
  }

  predicate Hides(at: HoldAt) { at.AtTail? || at.AtSpin? || at.AtReload? || at.AtStore2? }

  predicate HiddenOk(s: Lane) {
    s.hidden ==>
      && s.cnt < |s.hist| && s.dn in s.deqs && s.deqs[s.dn] in s.pcs
      && var pc := s.pcs[s.deqs[s.dn]]; pc.Holding? && pc.d == s.dn && Hides(pc.hat)
  }

  /** The head shows the first node, unless a dequeue hides it or its enqueue has yet to publish it. */
  predicate HeadOk(s: Lane) {
    if s.hidden || s.cnt >= |s.hist| then s.head == 0
    else s.head == s.hist[s.cnt].addr || (s.head == 0 && Pending(s, s.cnt, 0))
  }

  predicate EnqOk(s: Lane, t: Tid, e: int) { e in s.enqs && s.enqs[e].who == t }
  predicate DeqOk(s: Lane, t: Tid, d: int) { d in s.deqs && s.deqs[d] == t && d !in s.rets }

  predicate SecondSeen(s: Lane, f: Addr, n: Addr) {
    s.cnt + 1 < |s.hist| && n == s.hist[s.cnt + 1].addr && f in s.heap && s.heap[f].next == n
  }

  predicate HoldOk(s: Lane, d: int, at: HoldAt) {
    && s.dg == d - s.n && s.dn == d && s.hidden == Hides(at)
    && (!at.AtHead? ==> s.cnt < |s.hist| && at.f == s.hist[s.cnt].addr)
    && (at.AtNext? || at.AtStore? ==> s.head == at.f)
    && (at.AtStore? && at.n != 0 ==> SecondSeen(s, at.f, at.n))
    && (at.AtSpin? ==> s.cnt + 1 < |s.hist|)
    && (at.AtReload? ==> s.cnt + 1 < |s.hist| && SecondSeen(s, at.f, s.hist[s.cnt + 1].addr))
    && (at.AtStore2? ==> SecondSeen(s, at.f, at.n))
  }

  predicate ThreadOk(s: Lane, t: Tid)
    requires t in s.pcs
  {
    match s.pcs[t]
    case Ready(e, a, entered) =>
      && EnqOk(s, t, e) && a != 0 && a in s.heap
      && s.heap[a] == Node(s.enqs[e].v, 0, Private(t))
      && (entered ==> s.eg == e - s.n && s.en == e)
    case Linking(e, a, last, k, inside) =>
      && EnqOk(s, t, e) && Live(s, k) && s.hist[k] == Rec(e, a)
      && (inside ==> s.eg == e - s.n && s.en == e + s.n)
      && (last == 0 ==> k == s.cnt && s.head == 0 && !s.hidden)
      && (last != 0 ==> k > s.cnt && s.hist[k - 1].addr == last && last in s.heap && s.heap[last].next == 0)
    case Holding(d, at) => DeqOk(s, t, d) && HoldOk(s, d, at)
    case Took(d, f, at) =>
      && DeqOk(s, t, d) && d in s.enqs
      && f != 0 && f in s.heap && s.heap[f].own == Unlinked(t) && s.heap[f].data == s.enqs[d].v
      && (at.AtExit? ==> s.dg == d - s.n && s.dn == d + s.n)
      && (at.AtFree? ==> at.v == s.enqs[d].v)
  }

  predicate GuardsInv(s: Lane) { EnqGuardOk(s) && DeqGuardOk(s) && HiddenOk(s) }

  predicate ListInv(s: Lane) {
    && EndsOk(s) && HeadOk(s)
    && (forall k {:trigger ListedOk(s, k)} :: s.cnt <= k < |s.hist| ==> ListedOk(s, k))
    && (forall k {:trigger LinkOk(s, k)} :: s.cnt < k < |s.hist| ==> LinkOk(s, k))
  }

  predicate ThreadInv(s: Lane) {
    forall t {:trigger ThreadOk(s, t)} :: t in s.pcs ==> ThreadOk(s, t)
  }

  /** A dequeue returned the item of the enqueue with the same ticket. */
  predicate ReturnInv(s: Lane) {
    forall d :: d in s.rets ==> d in s.deqs && d in s.enqs && s.rets[d] == s.enqs[d].v
  }

  /** No enqueue is lost: it is still building its node, or its node is in the history, and if that node has left
      the list then in the hands of the dequeue with the same ticket. */
  predicate PlacedOk(s: Lane, e: int)
    requires e in s.enqs
  {
    || (s.enqs[e].who in s.pcs && s.pcs[s.enqs[e].who].Ready? && s.pcs[s.enqs[e].who].e == e)
    || (e in s.place && s.place[e] < |s.hist| && s.hist[s.place[e]].tk == e && (s.place[e] < s.cnt ==> e in s.deqs))
  }

  predicate PlacedInv(s: Lane) {
    forall e {:trigger PlacedOk(s, e)} :: e in s.enqs ==> PlacedOk(s, e)
  }

  predicate Inv(s: Lane) {
    s.n > 0 && GuardsInv(s) && ListInv(s) && ThreadInv(s) && ReturnInv(s) && PlacedInv(s)
  }

  // ---------------------------------------------------------------- one step

  // What the proofs about one step need of the list, without quantifiers.
  predicate Near(s: Lane) {
    && s.n > 0 && EndsOk(s) && HeadOk(s) && GuardsInv(s)
    && (Live(s, s.cnt) ==> ListedOk(s, s.cnt) && ListedOk(s, |s.hist| - 1))
    && (Live(s, s.cnt + 1) ==> ListedOk(s, s.cnt + 1) && LinkOk(s, s.cnt + 1))
  }

  predicate NearThread(s: Lane, t: Tid) {
    t in s.pcs ==>
      && ThreadOk(s, t)
      && (s.pcs[t].Linking? ==> ListedOk(s, s.pcs[t].k) && (s.pcs[t].last != 0 ==> ListedOk(s, s.pcs[t].k - 1)))
  }

  lemma Landmarks(s: Lane)
    requires Inv(s)
    ensures Near(s)
  {
    if Live(s, s.cnt) { assert ListedOk(s, s.cnt); assert ListedOk(s, |s.hist| - 1); }
    if Live(s, s.cnt + 1) { assert ListedOk(s, s.cnt + 1); assert LinkOk(s, s.cnt + 1); }
  }

  lemma ThreadFacts(s: Lane, t: Tid)
    requires Inv(s)
    ensures NearThread(s, t)
  {
    if t in s.pcs {
      assert ThreadOk(s, t);
      if s.pcs[t].Linking? {
        assert ListedOk(s, s.pcs[t].k);
        if s.pcs[t].last != 0 { assert ListedOk(s, s.pcs[t].k - 1); }
      }
    }
  }

  lemma EnabledIsSafe(s: Lane, st: Step)
    requires Inv(s) && Enabled(s, st)
    ensures Safe(s, st)
  {
    Landmarks(s); ThreadFacts(s, st.t);
  }

  // What the lane and other threads rely on in the program counter of `t`.
  predicate SameDuty(s: Lane, s': Lane, t: Tid) {
    && (t in s.pcs ==> !s.pcs[t].Linking? && !(s.pcs[t].Took? && s.pcs[t].tat.AtExit?))
    && (t in s.pcs && s.pcs[t].Holding? && Hides(s.pcs[t].hat) ==>
          t in s'.pcs && s'.pcs[t].Holding? && s'.pcs[t].d == s.pcs[t].d && Hides(s'.pcs[t].hat))
  }

  ghost predicate SameElse(s: Lane, s': Lane, t: Tid) {
    && (forall u :: u != t ==> (u in s.pcs <==> u in s'.pcs))
    && (forall u :: u != t && u in s.pcs ==> s'.pcs[u] == s.pcs[u])
  }

  lemma QuietFrame(s: Lane, st: Step)
    requires Enabled(s, st) && Safe(s, st) && Quiet(st)
    ensures var s' := ApplyQuiet(s, st);
            && s' == s.(pcs := s'.pcs, deqs := s'.deqs)
            && (forall d :: d in s.deqs ==> d in s'.deqs && s'.deqs[d] == s.deqs[d])
            && SameDuty(s, s', st.t)
  {
  }

  lemma QuietElse(s: Lane, st: Step)
    requires Enabled(s, st) && Safe(s, st) && Quiet(st)
    ensures SameElse(s, ApplyQuiet(s, st), st.t)
  {
  }

  lemma MoveKeepsList(s: Lane, s': Lane, t: Tid)
    requires Inv(s)
    requires s' == s.(pcs := s'.pcs, deqs := s'.deqs)
    requires forall d :: d in s.deqs ==> d in s'.deqs && s'.deqs[d] == s.deqs[d]
    requires SameDuty(s, s', t) && SameElse(s, s', t)
    ensures GuardsInv(s') && ListInv(s') && ReturnInv(s')
  {
    forall k | s.cnt <= k < |s.hist| ensures ListedOk(s', k) { assert ListedOk(s, k); }
    forall k | s.cnt < k < |s.hist| ensures LinkOk(s', k) { assert LinkOk(s, k); }
  }

  lemma MoveKeepsThreads(s: Lane, s': Lane, t: Tid)
    requires Inv(s)
    requires s' == s.(pcs := s'.pcs, deqs := s'.deqs)
    requires forall d :: d in s.deqs ==> d in s'.deqs && s'.deqs[d] == s.deqs[d]
    requires SameElse(s, s', t) && (t in s'.pcs ==> ThreadOk(s', t))
    ensures ThreadInv(s')
  {
    forall u | u in s'.pcs ensures ThreadOk(s', u) { if u != t { assert ThreadOk(s, u); } }
  }

  lemma QuietActor(s: Lane, st: Step)
    requires Near(s) && NearThread(s, st.t) && Enabled(s, st) && Safe(s, st) && Quiet(st)
    requires ReturnInv(s)
    ensures st.t in ApplyQuiet(s, st).pcs ==> ThreadOk(ApplyQuiet(s, st), st.t)
  {
    if st.EEnter? || st.DEnter? || st.DReadData? { EdgeActor(s, st); } else { HolderActor(s, st); }
  }

  lemma EdgeActor(s: Lane, st: Step)
    requires EnqGuardOk(s) && DeqGuardOk(s) && HiddenOk(s) && NearThread(s, st.t) && Enabled(s, st) && Safe(s, st)
    requires ReturnInv(s) && (st.EEnter? || st.DEnter? || st.DReadData?)
    ensures st.t in ApplyQuiet(s, st).pcs ==> ThreadOk(ApplyQuiet(s, st), st.t)
  {
  }

  lemma HolderActor(s: Lane, st: Step)
    requires Near(s) && NearThread(s, st.t) && Enabled(s, st) && Safe(s, st)
    requires st.DLoadHead? || st.DLoadNext? || st.DAwaitNext? || st.DReloadNext?
    ensures st.t in ApplyQuiet(s, st).pcs ==> ThreadOk(ApplyQuiet(s, st), st.t)
  {
  }

  lemma InsertKeepsEnds(s: Lane, st: Step)
    requires Near(s) && NearThread(s, st.t) && Enabled(s, st) && Safe(s, st) && Inserts(st)
    ensures EndsOk(ApplyInsert(s, st)) && HeadOk(ApplyInsert(s, st))
  {
  }

  lemma InsertKeepsActor(s: Lane, st: Step)
    requires Near(s) && NearThread(s, st.t) && Enabled(s, st) && Safe(s, st) && Inserts(st)
    ensures st.t in ApplyInsert(s, st).pcs ==> ThreadOk(ApplyInsert(s, st), st.t)
  {
  }

  lemma InsertKeepsGuards(s: Lane, st: Step)
    requires s.n > 0 && EnqGuardOk(s) && DeqGuardOk(s) && NearThread(s, st.t) && Enabled(s, st) && Safe(s, st) &&
          Inserts(st)
    ensures EnqGuardOk(ApplyInsert(s, st)) && DeqGuardOk(ApplyInsert(s, st))
  {
  }

  lemma InsertKeepsHidden(s: Lane, st: Step)
    requires HiddenOk(s) && NearThread(s, st.t) && Enabled(s, st) && Safe(s, st) && Inserts(st)
    ensures HiddenOk(ApplyInsert(s, st))
  {
  }

  lemma InsertKeepsListed(s: Lane, st: Step, k: nat)
    requires Near(s) && NearThread(s, st.t) && Enabled(s, st) && Safe(s, st) && Inserts(st)
    requires Live(ApplyInsert(s, st), k)
    requires k < |s.hist| ==> ListedOk(s, k)
    ensures ListedOk(ApplyInsert(s, st), k)
  {
  }

  lemma InsertKeepsLink(s: Lane, st: Step, k: nat)
    requires Near(s) && NearThread(s, st.t) && Enabled(s, st) && Safe(s, st) && Inserts(st)
    requires 0 < k && Live(ApplyInsert(s, st), k) && Live(ApplyInsert(s, st), k - 1)
    requires ListedOk(s, k - 1) && (k < |s.hist| ==> LinkOk(s, k))
    ensures LinkOk(ApplyInsert(s, st), k)
  {
  }

  lemma InsertKeepsReady(s: Lane, st: Step, u: Tid)
    requires NearThread(s, st.t) && Enabled(s, st) && Safe(s, st) && Inserts(st)
    requires NearThread(s, u) && u in s.pcs && u != st.t && s.pcs[u].Ready?
    ensures u in ApplyInsert(s, st).pcs && ThreadOk(ApplyInsert(s, st), u)
  {
  }

  lemma InsertKeepsTook(s: Lane, st: Step, u: Tid)
    requires NearThread(s, st.t) && Enabled(s, st) && Safe(s, st) && Inserts(st)
    requires NearThread(s, u) && u in s.pcs && u != st.t && s.pcs[u].Took?
    ensures u in ApplyInsert(s, st).pcs && ThreadOk(ApplyInsert(s, st), u)
  {
  }

  lemma ExchangeKeepsLinking(s: Lane, st: Step, u: Tid)
    requires NearThread(s, st.t) && Enabled(s, st) && Safe(s, st) && Inserts(st) && !st.EPublish?
    requires NearThread(s, u) && u in s.pcs && u != st.t && s.pcs[u].Linking?
    ensures u in ApplyInsert(s, st).pcs && ThreadOk(ApplyInsert(s, st), u)
  {
  }

  lemma PublishKeepsLinking(s: Lane, st: Step, u: Tid)
    requires NearThread(s, st.t) && Enabled(s, st) && Safe(s, st) && Inserts(st) && st.EPublish?
    requires NearThread(s, u) && u in s.pcs && u != st.t && s.pcs[u].Linking?
    ensures u in ApplyInsert(s, st).pcs && ThreadOk(ApplyInsert(s, st), u)
  {
  }

  lemma ExchangeKeepsHolding(s: Lane, st: Step, u: Tid)
    requires Near(s) && NearThread(s, st.t) && Enabled(s, st) && Safe(s, st) && Inserts(st) && !st.EPublish?
    requires NearThread(s, u) && u in s.pcs && u != st.t && s.pcs[u].Holding?
    ensures u in ApplyInsert(s, st).pcs && ThreadOk(ApplyInsert(s, st), u)
  {
  }

  lemma PublishKeepsHolding(s: Lane, st: Step, u: Tid)
    requires Near(s) && NearThread(s, st.t) && Enabled(s, st) && Safe(s, st) && Inserts(st) && st.EPublish?
    requires NearThread(s, u) && u in s.pcs && u != st.t && s.pcs[u].Holding?
    ensures u in ApplyInsert(s, st).pcs && ThreadOk(ApplyInsert(s, st), u)
  {
  }

  lemma UnlinkKeepsEnds(s: Lane, st: Step)
    requires Near(s) && NearThread(s, st.t) && Enabled(s, st) && Safe(s, st) && Unlinks(st)
    ensures EndsOk(ApplyUnlink(s, st)) && HeadOk(ApplyUnlink(s, st))
  {
  }

  lemma UnlinkKeepsActor(s: Lane, st: Step)
    requires Near(s) && NearThread(s, st.t) && Enabled(s, st) && Safe(s, st) && Unlinks(st)
    ensures st.t in ApplyUnlink(s, st).pcs ==> ThreadOk(ApplyUnlink(s, st), st.t)
  {
  }

  lemma UnlinkKeepsGuards(s: Lane, st: Step)
    requires s.n > 0 && GuardsInv(s) && NearThread(s, st.t) && Enabled(s, st) && Safe(s, st) && Unlinks(st)
    ensures GuardsInv(ApplyUnlink(s, st))
  {
  }

  lemma UnlinkKeepsListed(s: Lane, st: Step, k: nat)
    requires Near(s) && NearThread(s, st.t) && Enabled(s, st) && Safe(s, st) && Unlinks(st)
    requires Live(ApplyUnlink(s, st), k)
    requires k < |s.hist| ==> ListedOk(s, k)
    ensures ListedOk(ApplyUnlink(s, st), k)
  {
  }

  lemma UnlinkKeepsLink(s: Lane, st: Step, k: nat)
    requires Near(s) && NearThread(s, st.t) && Enabled(s, st) && Safe(s, st) && Unlinks(st)
    requires 0 < k && Live(ApplyUnlink(s, st), k) && Live(ApplyUnlink(s, st), k - 1)
    requires ListedOk(s, k - 1) && (k < |s.hist| ==> LinkOk(s, k))
    ensures LinkOk(ApplyUnlink(s, st), k)
  {
  }

  lemma UnlinkKeepsReady(s: Lane, st: Step, u: Tid)
    requires s.n > 0 && (Live(s, s.cnt) ==> ListedOk(s, s.cnt)) && NearThread(s, st.t) && Enabled(s, st) &&
          Safe(s, st) && Unlinks(st)
    requires NearThread(s, u) && u in s.pcs && u != st.t && s.pcs[u].Ready?
    ensures u in ApplyUnlink(s, st).pcs && ThreadOk(ApplyUnlink(s, st), u)
  {
  }

  lemma UnlinkKeepsTook(s: Lane, st: Step, u: Tid)
    requires s.n > 0 && (Live(s, s.cnt) ==> ListedOk(s, s.cnt)) && NearThread(s, st.t) && Enabled(s, st) &&
          Safe(s, st) && Unlinks(st)
    requires NearThread(s, u) && u in s.pcs && u != st.t && s.pcs[u].Took?
    ensures u in ApplyUnlink(s, st).pcs && ThreadOk(ApplyUnlink(s, st), u)
  {
  }

  lemma UnlinkKeepsLinking(s: Lane, st: Step, u: Tid)
    requires Near(s) && NearThread(s, st.t) && Enabled(s, st) && Safe(s, st) && Unlinks(st)
    requires NearThread(s, u) && u in s.pcs && u != st.t && s.pcs[u].Linking?
    ensures u in ApplyUnlink(s, st).pcs && ThreadOk(ApplyUnlink(s, st), u)
  {
  }

  lemma TidyKeepsEnds(s: Lane, st: Step)
    requires Near(s) && NearThread(s, st.t) && Enabled(s, st) && Safe(s, st) && Tidies(st)
    ensures EndsOk(ApplyTidy(s, st)) && HeadOk(ApplyTidy(s, st))
  {
  }

  lemma TidyKeepsActor(s: Lane, st: Step)
    requires Near(s) && NearThread(s, st.t) && Enabled(s, st) && Safe(s, st) && Tidies(st)
    ensures st.t in ApplyTidy(s, st).pcs ==> ThreadOk(ApplyTidy(s, st), st.t)
  {
  }

  lemma TidyKeepsGuards(s: Lane, st: Step)
    requires s.n > 0 && GuardsInv(s) && NearThread(s, st.t) && Enabled(s, st) && Safe(s, st) && Tidies(st)
    ensures GuardsInv(ApplyTidy(s, st))
  {
  }

  lemma TidyKeepsListed(s: Lane, st: Step, k: nat)
    requires Near(s) && NearThread(s, st.t) && Enabled(s, st) && Safe(s, st) && Tidies(st)
    requires Live(ApplyTidy(s, st), k)
    requires k < |s.hist| ==> ListedOk(s, k)
    ensures ListedOk(ApplyTidy(s, st), k)
  {
  }

  lemma TidyKeepsLink(s: Lane, st: Step, k: nat)
    requires Near(s) && NearThread(s, st.t) && Enabled(s, st) && Safe(s, st) && Tidies(st)
    requires 0 < k && Live(ApplyTidy(s, st), k) && Live(ApplyTidy(s, st), k - 1)
    requires ListedOk(s, k - 1) && (k < |s.hist| ==> LinkOk(s, k))
    ensures LinkOk(ApplyTidy(s, st), k)
  {
  }

  lemma TidyKeepsOwner(s: Lane, st: Step, u: Tid)
    requires NearThread(s, st.t) && Enabled(s, st) && Safe(s, st) && Tidies(st)
    requires NearThread(s, u) && u in s.pcs && u != st.t && (s.pcs[u].Ready? || s.pcs[u].Took?)
    ensures u in ApplyTidy(s, st).pcs && ThreadOk(ApplyTidy(s, st), u)
  {
  }

  lemma TidyKeepsLinking(s: Lane, st: Step, u: Tid)
    requires NearThread(s, st.t) && Enabled(s, st) && Safe(s, st) && Tidies(st)
    requires NearThread(s, u) && u in s.pcs && u != st.t && s.pcs[u].Linking?
    ensures u in ApplyTidy(s, st).pcs && ThreadOk(ApplyTidy(s, st), u)
  {
  }

  lemma TidyKeepsHolding(s: Lane, st: Step, u: Tid)
    requires Near(s) && NearThread(s, st.t) && Enabled(s, st) && Safe(s, st) && Tidies(st)
    requires NearThread(s, u) && u in s.pcs && u != st.t && s.pcs[u].Holding?
    ensures u in ApplyTidy(s, st).pcs && ThreadOk(ApplyTidy(s, st), u)
  {
  }

  // Inside the dequeue guard, and inside the enqueue guard.
  predicate InDeqGuard(pc: PC) { pc.Holding? || (pc.Took? && pc.tat.AtExit?) }
  predicate InEnqGuard(pc: PC) { (pc.Ready? && pc.entered) || (pc.Linking? && pc.inside) }

  /** Each guard admits one thread at a time, from entering it to the store that releases it. */
  lemma OneInGuard(s: Lane, t: Tid, u: Tid)
    requires Inv(s) && t in s.pcs && u in s.pcs
    ensures InDeqGuard(s.pcs[t]) && InDeqGuard(s.pcs[u]) ==> t == u
    ensures InEnqGuard(s.pcs[t]) && InEnqGuard(s.pcs[u]) ==> t == u
  {
    assert ThreadOk(s, t) && ThreadOk(s, u);
  }

  lemma OtherKept(s: Lane, st: Step, u: Tid)
    requires Inv(s) && Enabled(s, st) && Safe(s, st) && !Quiet(st)
    requires u in s.pcs && u != st.t
    ensures u in Apply(s, st).pcs && ThreadOk(Apply(s, st), u)
  {
    Landmarks(s); ThreadFacts(s, st.t); ThreadFacts(s, u);
    match s.pcs[u]
    case Ready(_, _, _) =>
      if Inserts(st) { InsertKeepsReady(s, st, u); }
      else if Unlinks(st) { UnlinkKeepsReady(s, st, u); }
      else { TidyKeepsOwner(s, st, u); }
    case Linking(_, _, _, _, _) =>
      if st.EPublish? { PublishKeepsLinking(s, st, u); }
      else if Inserts(st) { ExchangeKeepsLinking(s, st, u); }
      else if Unlinks(st) { UnlinkKeepsLinking(s, st, u); }
      else { TidyKeepsLinking(s, st, u); }
    case Holding(_, _) =>
      if st.EPublish? { PublishKeepsHolding(s, st, u); }
      else if Inserts(st) { ExchangeKeepsHolding(s, st, u); }
      else if Unlinks(st) { OneInGuard(s, st.t, u); assert false; }
      else { TidyKeepsHolding(s, st, u); }
    case Took(_, _, _) =>
      if Inserts(st) { InsertKeepsTook(s, st, u); }
      else if Unlinks(st) { UnlinkKeepsTook(s, st, u); }
      else { TidyKeepsOwner(s, st, u); }
  }

  lemma EndsKept(s: Lane, st: Step)
    requires Inv(s) && Enabled(s, st) && Safe(s, st) && !Quiet(st)
    ensures GuardsInv(Apply(s, st)) && EndsOk(Apply(s, st)) && HeadOk(Apply(s, st))
  {
    Landmarks(s); ThreadFacts(s, st.t);
    if Inserts(st) { InsertKeepsEnds(s, st); InsertKeepsGuards(s, st); InsertKeepsHidden(s, st); }
    else if Unlinks(st) { UnlinkKeepsEnds(s, st); UnlinkKeepsGuards(s, st); }
    else { TidyKeepsEnds(s, st); TidyKeepsGuards(s, st); }
  }

  lemma ListedKept(s: Lane, st: Step)
    requires Inv(s) && Enabled(s, st) && Safe(s, st) && !Quiet(st)
    ensures var s' := Apply(s, st); forall k {:trigger ListedOk(s', k)} :: s'.cnt <= k < |s'.hist| ==> ListedOk(s', k)
  {
    var s' := Apply(s, st);
    Landmarks(s); ThreadFacts(s, st.t);
    forall k | s'.cnt <= k < |s'.hist| ensures ListedOk(s', k) {
      if k < |s.hist| { assert ListedOk(s, k); }
      if Inserts(st) { InsertKeepsListed(s, st, k); } else if Unlinks(st) { UnlinkKeepsListed(s, st, k); }
      else { TidyKeepsListed(s, st, k); }
    }
  }

  lemma LinksKept(s: Lane, st: Step)
    requires Inv(s) && Enabled(s, st) && Safe(s, st) && !Quiet(st)
    ensures var s' := Apply(s, st); forall k {:trigger LinkOk(s', k)} :: s'.cnt < k < |s'.hist| ==> LinkOk(s', k)
  {
    var s' := Apply(s, st);
    Landmarks(s); ThreadFacts(s, st.t);
    forall k | s'.cnt < k < |s'.hist| ensures LinkOk(s', k) {
      assert ListedOk(s, k - 1);
      if k < |s.hist| { assert LinkOk(s, k); }
      if Inserts(st) { InsertKeepsLink(s, st, k); } else if Unlinks(st) { UnlinkKeepsLink(s, st, k); }
      else { TidyKeepsLink(s, st, k); }
    }
  }

  lemma ActorKept(s: Lane, st: Step)
    requires Inv(s) && Enabled(s, st) && Safe(s, st) && !Quiet(st)
    ensures st.t in Apply(s, st).pcs ==> ThreadOk(Apply(s, st), st.t)
  {
    Landmarks(s); ThreadFacts(s, st.t);
    if Inserts(st) { InsertKeepsActor(s, st); } else if Unlinks(st) { UnlinkKeepsActor(s, st); }
    else { TidyKeepsActor(s, st); }
  }

  lemma ThreadsKept(s: Lane, st: Step)
    requires Inv(s) && Enabled(s, st) && Safe(s, st) && !Quiet(st)
    ensures ThreadInv(Apply(s, st))
  {
    var s' := Apply(s, st);
    forall u | u in s'.pcs ensures ThreadOk(s', u) {
      if u == st.t {
        ActorKept(s, st);
      } else {
        StepBooks(s, st);
        OtherKept(s, st, u);
      }
    }
  }

  // What a step does to the lane's books: at most its own thread and ticket come in, at most its own return goes down.
  ghost predicate Booked(s: Lane, st: Step, s': Lane) {
    && s'.n == s.n
    && s'.enqs == (if st.EAlloc? then s.enqs[st.e := Enq(st.t, st.v)] else s.enqs)
    && s'.deqs == (if st.DEnter? then s.deqs[st.d := st.t] else s.deqs)
    && (!st.DRelease? ==> s'.rets == s.rets)
    && (forall t :: t in s'.pcs ==> t in s.pcs || ((st.EAlloc? || st.DEnter?) && t == st.t))
  }

  lemma QuietBooks(s: Lane, st: Step)
    requires Enabled(s, st) && Safe(s, st) && Quiet(st)
    ensures Booked(s, st, ApplyQuiet(s, st))
  {
  }

  lemma InsertBooks(s: Lane, st: Step)
    requires Enabled(s, st) && Safe(s, st) && Inserts(st)
    ensures Booked(s, st, ApplyInsert(s, st))
  {
  }

  lemma UnlinkBooks(s: Lane, st: Step)
    requires Enabled(s, st) && Safe(s, st) && Unlinks(st)
    ensures Booked(s, st, ApplyUnlink(s, st))
  {
  }

  lemma TidyBooks(s: Lane, st: Step)
    requires Enabled(s, st) && Safe(s, st) && Tidies(st)
    ensures Booked(s, st, ApplyTidy(s, st))
  {
  }

  lemma StepBooks(s: Lane, st: Step)
    requires Enabled(s, st) && Safe(s, st)
    ensures Booked(s, st, Apply(s, st))
  {
    if Quiet(st) { QuietBooks(s, st); }
    else if Inserts(st) { InsertBooks(s, st); }
    else if Unlinks(st) { UnlinkBooks(s, st); }
    else { TidyBooks(s, st); }
  }

  lemma ReturnKept(s: Lane, st: Step)
    requires NearThread(s, st.t) && ReturnInv(s) && Enabled(s, st) && Safe(s, st) && st.DRelease?
    ensures ReturnInv(Apply(s, st))
  {
  }

  lemma ReturnsKept(s: Lane, st: Step)
    requires Inv(s) && Enabled(s, st) && Safe(s, st)
    ensures ReturnInv(Apply(s, st))
  {
    if st.DRelease? {
      ThreadFacts(s, st.t);
      ReturnKept(s, st);
    } else {
      StepBooks(s, st);
    }
  }

  lemma QuietKeepsPlaced(s: Lane, st: Step, e: int)
    requires NearThread(s, st.t) && Enabled(s, st) && Safe(s, st) && (Quiet(st) || Tidies(st))
    requires e in Apply(s, st).enqs && (e in s.enqs ==> PlacedOk(s, e))
    ensures PlacedOk(Apply(s, st), e)
  {
  }

  lemma InsertKeepsPlaced(s: Lane, st: Step, e: int)
    requires EndsOk(s) && NearThread(s, st.t) && Enabled(s, st) && Safe(s, st) && Inserts(st)
    requires e in s.enqs && PlacedOk(s, e)
    ensures e in ApplyInsert(s, st).enqs ==> PlacedOk(ApplyInsert(s, st), e)
  {
  }

  lemma UnlinkKeepsPlaced(s: Lane, st: Step, e: int)
    requires Near(s) && NearThread(s, st.t) && Enabled(s, st) && Safe(s, st) && Unlinks(st)
    requires e in s.enqs && PlacedOk(s, e)
    ensures e in ApplyUnlink(s, st).enqs ==> PlacedOk(ApplyUnlink(s, st), e)
  {
  }

  lemma PlacedKept(s: Lane, st: Step)
    requires Inv(s) && Enabled(s, st) && Safe(s, st)
    ensures PlacedInv(Apply(s, st))
  {
    var s' := Apply(s, st);
    Landmarks(s); ThreadFacts(s, st.t); StepBooks(s, st);
    forall e | e in s'.enqs ensures PlacedOk(s', e) {
      if e in s.enqs { assert PlacedOk(s, e); }
      if Inserts(st) { InsertKeepsPlaced(s, st, e); } else if Unlinks(st) { UnlinkKeepsPlaced(s, st, e); }
      else { QuietKeepsPlaced(s, st, e); }
    }
  }

  lemma StepKeepsInv(s: Lane, st: Step)
    requires Inv(s) && Enabled(s, st) && Safe(s, st)
    ensures Inv(Apply(s, st))
  {
    PlacedKept(s, st);
    if Quiet(st) {
      Landmarks(s); ThreadFacts(s, st.t);
      QuietActor(s, st);
      QuietFrame(s, st); QuietElse(s, st);
      MoveKeepsList(s, Apply(s, st), st.t); MoveKeepsThreads(s, Apply(s, st), st.t);
    } else {
      EndsKept(s, st); ListedKept(s, st); LinksKept(s, st); ThreadsKept(s, st); ReturnsKept(s, st);
    }
  }

  lemma InitInv(n: nat, i: nat)
    requires n > 0
    ensures Inv(Init(n, i)) && Init(n, i).n == n && Init(n, i).pcs == map[]
  {
  }

  // ---------------------------------------------------------------- tickets of one lane

  /** The enqueues of lane i carry the tickets i, i + n, i + 2n, ...: all those below `en` have exchanged the tail, and
      no other has. */
  ghost predicate EnqTickets(s: Lane, i: int)
    requires s.n > 0
  {
    && 0 <= s.en && s.en % s.n == i
    && (forall e :: e in s.enqs ==> 0 <= e && e % s.n == i)
    && (forall e :: 0 <= e < s.en && e % s.n == i ==> e in s.enqs)
    && (forall k :: 0 <= k < |s.hist| ==> s.hist[k].tk < s.en)
    && (forall t :: t in s.pcs && s.pcs[t].Ready? ==> s.en <= s.pcs[t].e)
  }

  /** The dequeues of lane i come in the order of the tickets i, i + n, i + 2n, ...; the one with ticket `dn` is still
      holding its node in the list, or has yet to come. */
  ghost predicate DeqTickets(s: Lane, i: int)
    requires s.n > 0
  {
    && 0 <= s.dn && s.dn % s.n == i
    && (forall d :: d in s.deqs ==> 0 <= d <= s.dn && d % s.n == i)
    && (forall d :: 0 <= d < s.dn && d % s.n == i ==> d in s.deqs)
    && (s.dn in s.deqs ==> s.deqs[s.dn] in s.pcs && s.pcs[s.deqs[s.dn]].Holding?)
  }

  /** The dequeue with ticket d is still at work, or has returned. */
  predicate ServedOk(s: Lane, d: int)
    requires d in s.deqs
  {
    d in s.rets || (s.deqs[d] in s.pcs && (var pc := s.pcs[s.deqs[d]]; (pc.Holding? || pc.Took?) && pc.d == d))
  }

  /** Every allocated node is in the list or in the hands of the thread that will insert or free it. */
  predicate NodeOk(s: Lane, a: Addr)
    requires a in s.heap
  {
    match s.heap[a].own
    case Private(t) => t in s.pcs && s.pcs[t].Ready? && s.pcs[t].a == a
    case Listed(k) => Live(s, k) && s.hist[k].addr == a
    case Unlinked(t) => t in s.pcs && s.pcs[t].Took? && s.pcs[t].f == a
  }

  ghost predicate TicketInv(s: Lane, i: int)
    requires s.n > 0
  {
    && EnqTickets(s, i) && DeqTickets(s, i)
    && (forall d {:trigger ServedOk(s, d)} :: d in s.deqs ==> ServedOk(s, d))
    && (forall a {:trigger NodeOk(s, a)} :: a in s.heap ==> NodeOk(s, a))
  }

  // A new ticket of the step belongs to lane i.
  predicate Belongs(st: Step, n: nat, i: int)
    requires n > 0
  {
    && (st.EAlloc? ==> 0 <= st.e && st.e % n == i)
    && (st.DEnter? ==> 0 <= st.d && st.d % n == i)
  }

  lemma NextResidue(x: int, n: nat)
    requires n > 0
    ensures (x + n) % n == x % n
  {
    SameResidue(x + n, x, n, 1);
  }

  lemma SameResidue(x: int, y: int, n: nat, k: int)
    requires n > 0 && x == y + k * n
    ensures x % n == y % n
  {
    Bytes.Multiple(x / n - y / n - k, n);
  }

  lemma OneBetween(x: int, y: int, n: nat)
    requires n > 0 && x <= y < x + n && x % n == y % n
    ensures x == y
  {
    Bytes.Multiple(y / n - x / n, n);
  }

  lemma ExchangeKeepsEnqTickets(s: Lane, t: Tid, i: int)
    requires s.n > 0 && EnqTickets(s, i) && ThreadInv(s) && Enabled(s, EExchange(t)) && Safe(s, EExchange(t))
    ensures Apply(s, EExchange(t)).n == s.n && EnqTickets(Apply(s, EExchange(t)), i)
  {
    assert ThreadOk(s, t);
    var e := s.pcs[t].e;
    var s' := ApplyInsert(s, EExchange(t));
    NextResidue(e, s.n);
    forall x | 0 <= x < s'.en && x % s.n == i ensures x in s'.enqs {
      if x >= e { OneBetween(e, x, s.n); }
    }
    forall u | u in s'.pcs && s'.pcs[u].Ready? ensures s'.en <= s'.pcs[u].e {
      assert ThreadOk(s, u);
      if s.pcs[u].e < s'.en { OneBetween(e, s.pcs[u].e, s.n); }
    }
  }

  predicate SameRole(p: PC, q: PC) {
    match p
    case Ready(e, a, _) => q.Ready? && q.e == e && q.a == a
    case Linking(_, _, _, _, _) => q.Linking?
    case Holding(d, _) => q.Holding? && q.d == d
    case Took(d, f, _) => q.Took? && q.d == d && q.f == f
  }

  // Steps other than the exchange and the removals change no thread's role in the lane.
  predicate KeepsRole(s: Lane, s': Lane, st: Step, u: Tid) {
    if u in s.pcs && u in s'.pcs then SameRole(s.pcs[u], s'.pcs[u])
    else if u in s.pcs then u == st.t && (s.pcs[u].Linking? || st.DRelease?)
    else u in s'.pcs ==>
           u == st.t && if st.EAlloc? then s'.pcs[u] == Ready(st.e, st.a, false)
                        else st.DEnter? && s'.pcs[u] == Holding(st.d, AtHead)
  }

  lemma QuietKeepsRole(s: Lane, st: Step, u: Tid)
    requires Enabled(s, st) && Safe(s, st) && Quiet(st)
    ensures KeepsRole(s, ApplyQuiet(s, st), st, u)
  {
  }

  lemma PublishKeepsRole(s: Lane, st: Step, u: Tid)
    requires Enabled(s, st) && Safe(s, st) && Inserts(st) && !st.EExchange?
    ensures KeepsRole(s, ApplyInsert(s, st), st, u)
  {
  }

  lemma TidyKeepsRole(s: Lane, st: Step, u: Tid)
    requires Enabled(s, st) && Safe(s, st) && Tidies(st)
    ensures KeepsRole(s, ApplyTidy(s, st), st, u)
  {
  }

  // The exchange and the removals change the role of their own thread only.
  predicate KeepsOther(s: Lane, s': Lane, st: Step, u: Tid) {
    (u in s.pcs <==> u in s'.pcs) && (u in s.pcs && u != st.t ==> s'.pcs[u] == s.pcs[u])
  }

  lemma ExchangeKeepsOther(s: Lane, st: Step, u: Tid)
    requires Enabled(s, st) && Safe(s, st) && st.EExchange?
    ensures KeepsOther(s, ApplyInsert(s, st), st, u)
  {
  }

  lemma UnlinkKeepsOther(s: Lane, st: Step, u: Tid)
    requires Enabled(s, st) && Safe(s, st) && Unlinks(st)
    ensures KeepsOther(s, ApplyUnlink(s, st), st, u)
  {
  }

  predicate Removes(s: Lane, s': Lane, t: Tid)
    requires t in s.pcs && s.pcs[t].Holding? && !s.pcs[t].hat.AtHead?
  {
    && t in s'.pcs
    && if s'.dn == s.dn then s'.pcs[t].Holding? && s'.pcs[t].d == s.pcs[t].d && s'.cnt == s.cnt
       else s'.dn == s.dn + s.n && s'.pcs[t] == Took(s.pcs[t].d, s.pcs[t].hat.f, AtExit) && s'.cnt == s.cnt + 1
  }

  lemma RemoverRole(s: Lane, st: Step)
    requires s.n > 0 && Enabled(s, st) && Safe(s, st) && Unlinks(st)
    ensures Removes(s, ApplyUnlink(s, st), st.t)
  {
    if st.DStoreHead? { StoreHeadRole(s, st.t); }
    else if st.DZeroTail? { ZeroTailRole(s, st.t); }
    else { StoreNextRole(s, st.t); }
  }

  lemma StoreHeadRole(s: Lane, t: Tid)
    requires s.n > 0 && Enabled(s, DStoreHead(t)) && Safe(s, DStoreHead(t))
    ensures Removes(s, ApplyUnlink(s, DStoreHead(t)), t)
  {
  }

  lemma ZeroTailRole(s: Lane, t: Tid)
    requires s.n > 0 && Enabled(s, DZeroTail(t)) && Safe(s, DZeroTail(t))
    ensures Removes(s, ApplyUnlink(s, DZeroTail(t)), t)
  {
  }

  lemma StoreNextRole(s: Lane, t: Tid)
    requires s.n > 0 && Enabled(s, DStoreNext(t)) && Safe(s, DStoreNext(t))
    ensures Removes(s, ApplyUnlink(s, DStoreNext(t)), t)
  {
  }

  // What a step does to the counters of the lane.
  predicate Counted(s: Lane, st: Step, s': Lane) {
    && s'.n == s.n
    && (!st.EExchange? ==> s'.en == s.en && s'.hist == s.hist)
    && (!Unlinks(st) ==> s'.dn == s.dn && s'.cnt == s.cnt)
  }

  lemma QuietCounts(s: Lane, st: Step)
    requires Enabled(s, st) && Safe(s, st) && Quiet(st)
    ensures Counted(s, st, ApplyQuiet(s, st))
  {
  }

  lemma InsertCounts(s: Lane, st: Step)
    requires Enabled(s, st) && Safe(s, st) && Inserts(st)
    ensures Counted(s, st, ApplyInsert(s, st))
  {
  }

  lemma UnlinkCounts(s: Lane, st: Step)
    requires Enabled(s, st) && Safe(s, st) && Unlinks(st)
    ensures Counted(s, st, ApplyUnlink(s, st))
  {
  }

  lemma TidyCounts(s: Lane, st: Step)
    requires Enabled(s, st) && Safe(s, st) && Tidies(st)
    ensures Counted(s, st, ApplyTidy(s, st))
  {
  }

  lemma StepCounts(s: Lane, st: Step)
    requires Enabled(s, st) && Safe(s, st)
    ensures Counted(s, st, Apply(s, st))
  {
    if Quiet(st) { QuietCounts(s, st); }
    else if Inserts(st) { InsertCounts(s, st); }
    else if Unlinks(st) { UnlinkCounts(s, st); }
    else { TidyCounts(s, st); }
  }

  lemma SameEnqTickets(s: Lane, s': Lane, i: int)
    requires s.n > 0 && EnqTickets(s, i) && s'.n == s.n && s'.en == s.en && s'.hist == s.hist
    requires forall e :: e in s.enqs ==> e in s'.enqs
    requires forall e :: e in s'.enqs && e !in s.enqs ==> 0 <= e && e % s.n == i
    requires forall u :: u in s'.pcs && s'.pcs[u].Ready? ==> s.en <= s'.pcs[u].e
    ensures EnqTickets(s', i)
  {
  }

  // What is known of thread u after the step.
  predicate Follows(s: Lane, s': Lane, st: Step, u: Tid) {
    if Unlinks(st) || st.EExchange? then KeepsOther(s, s', st, u) else KeepsRole(s, s', st, u)
  }

  lemma StepFollows(s: Lane, st: Step, u: Tid)
    requires Enabled(s, st) && Safe(s, st)
    ensures Follows(s, Apply(s, st), st, u)
  {
    if Quiet(st) { QuietKeepsRole(s, st, u); }
    else if st.EExchange? { ExchangeKeepsOther(s, st, u); }
    else if Inserts(st) { PublishKeepsRole(s, st, u); }
    else if Unlinks(st) { UnlinkKeepsOther(s, st, u); }
    else { TidyKeepsRole(s, st, u); }
  }

  lemma ReadyKept(s: Lane, s': Lane, st: Step, i: int, u: Tid)
    requires s.n > 0 && EnqTickets(s, i) && Belongs(st, s.n, i) && !st.EExchange? && Follows(s, s', st, u)
    requires st.EAlloc? ==> st.e !in s.enqs
    requires Unlinks(st) ==> st.t in s'.pcs && !s'.pcs[st.t].Ready?
    requires u in s'.pcs && s'.pcs[u].Ready?
    ensures s.en <= s'.pcs[u].e
  {
  }

  lemma EnqTicketsKept(s: Lane, st: Step, i: int)
    requires Inv(s) && EnqTickets(s, i) && Enabled(s, st) && Safe(s, st) && Belongs(st, s.n, i)
    ensures Apply(s, st).n == s.n && EnqTickets(Apply(s, st), i)
  {
    if st.EExchange? {
      ExchangeKeepsEnqTickets(s, st.t, i);
    } else {
      var s' := Apply(s, st);
      StepBooks(s, st); StepCounts(s, st);
      if Unlinks(st) { RemoverRole(s, st); }
      forall u | u in s'.pcs && s'.pcs[u].Ready? ensures s.en <= s'.pcs[u].e {
        StepFollows(s, st, u);
        ReadyKept(s, s', st, i, u);
      }
      SameEnqTickets(s, s', i);
    }
  }

  lemma EnterKeepsDeqTickets(s: Lane, st: Step, i: int)
    requires s.n > 0 && DeqTickets(s, i) && DeqGuardOk(s) && Enabled(s, st) && Safe(s, st) && st.DEnter? &&
          Belongs(st, s.n, i)
    ensures Apply(s, st).n == s.n && DeqTickets(Apply(s, st), i)
  {
  }

  lemma RemovalKeepsDeqTickets(s: Lane, s': Lane, i: int)
    requires s.n > 0 && DeqTickets(s, i) && s'.n == s.n && s'.dn == s.dn + s.n && s'.deqs == s.deqs && s.dn in s.deqs
    ensures DeqTickets(s', i)
  {
    NextResidue(s.dn, s.n);
    forall x | 0 <= x < s'.dn && x % s.n == i ensures x in s.deqs {
      if x >= s.dn { OneBetween(s.dn, x, s.n); }
    }
  }

  lemma DeqTicketsKept(s: Lane, st: Step, i: int)
    requires Inv(s) && DeqTickets(s, i) && Enabled(s, st) && Safe(s, st) && Belongs(st, s.n, i)
    ensures Apply(s, st).n == s.n && DeqTickets(Apply(s, st), i)
  {
    var s' := Apply(s, st);
    if st.DEnter? {
      EnterKeepsDeqTickets(s, st, i);
    } else {
      StepBooks(s, st); StepCounts(s, st);
      assert st.t in s.pcs ==> ThreadOk(s, st.t);
      if Unlinks(st) { RemoverRole(s, st); }
      if s'.dn != s.dn {
        RemovalKeepsDeqTickets(s, s', i);
      } else if s.dn in s.deqs {
        StepFollows(s, st, s.deqs[s.dn]);
      }
    }
  }

  lemma ServedKept(s: Lane, st: Step, d: int)
    requires s.n > 0 && Enabled(s, st) && Safe(s, st)
    requires d in Apply(s, st).deqs && (d in s.deqs ==> ServedOk(s, d))
    ensures ServedOk(Apply(s, st), d)
  {
    StepBooks(s, st);
    if d !in s.deqs { return; }
    if st.DRelease? { ReleaseKeepsServed(s, st, d); return; }
    StepFollows(s, st, s.deqs[d]);
    if Unlinks(st) { RemoverRole(s, st); }
  }

  lemma ReleaseKeepsServed(s: Lane, st: Step, d: int)
    requires Enabled(s, st) && Safe(s, st) && st.DRelease? && d in s.deqs && ServedOk(s, d)
    ensures d in Apply(s, st).deqs && ServedOk(Apply(s, st), d)
  {
  }

  // Which nodes there are and who owns them changes only where a node is built, inserted, removed or freed.
  predicate KeepsOwner(s: Lane, s': Lane, st: Step, a: Addr) {
    if a in s.heap && a in s'.heap then s'.heap[a].own == s.heap[a].own
    else if a in s.heap then st.DRelease? && st.t in s.pcs && s.pcs[st.t].Took? && a == s.pcs[st.t].f
    else a in s'.heap ==> st.EAlloc? && st.a == a && s'.heap[a].own == Private(st.t) && st.t in s'.pcs &&
                          s'.pcs[st.t] == Ready(st.e, a, false)
  }

  lemma QuietKeepsOwner(s: Lane, st: Step, a: Addr)
    requires Enabled(s, st) && Safe(s, st) && Quiet(st)
    ensures KeepsOwner(s, ApplyQuiet(s, st), st, a)
  {
  }

  lemma PublishKeepsOwner(s: Lane, st: Step, a: Addr)
    requires Enabled(s, st) && Safe(s, st) && Inserts(st) && !st.EExchange?
    ensures KeepsOwner(s, ApplyInsert(s, st), st, a)
  {
  }

  lemma FreeKeepsOwner(s: Lane, st: Step, a: Addr)
    requires Enabled(s, st) && Safe(s, st) && Tidies(st)
    ensures KeepsOwner(s, ApplyTidy(s, st), st, a)
  {
  }

  lemma OwnerKept(s: Lane, st: Step, a: Addr)
    requires Enabled(s, st) && Safe(s, st) && !st.EExchange? && !Unlinks(st)
    ensures KeepsOwner(s, Apply(s, st), st, a)
  {
    if Quiet(st) { QuietKeepsOwner(s, st, a); }
    else if Inserts(st) { PublishKeepsOwner(s, st, a); }
    else { FreeKeepsOwner(s, st, a); }
  }

  lemma ExchangeKeepsNode(s: Lane, t: Tid, a: Addr)
    requires EndsOk(s) && NearThread(s, t) && Enabled(s, EExchange(t)) && Safe(s, EExchange(t)) && a in s.heap &&
          NodeOk(s, a)
    ensures a in ApplyInsert(s, EExchange(t)).heap && NodeOk(ApplyInsert(s, EExchange(t)), a)
  {
  }

  lemma UnlinkKeepsNode(s: Lane, st: Step, a: Addr)
    requires Near(s) && NearThread(s, st.t) && Enabled(s, st) && Safe(s, st) && Unlinks(st)
    requires a in s.heap && NodeOk(s, a)
    ensures a in ApplyUnlink(s, st).heap && NodeOk(ApplyUnlink(s, st), a)
  {
    if st.DStoreHead? { StoreHeadKeepsNode(s, st.t, a); }
    else if st.DZeroTail? { ZeroTailKeepsNode(s, st.t, a); }
    else { StoreNextKeepsNode(s, st.t, a); }
  }

  lemma StoreHeadKeepsNode(s: Lane, t: Tid, a: Addr)
    requires Near(s) && NearThread(s, t) && Enabled(s, DStoreHead(t)) && Safe(s, DStoreHead(t))
    requires a in s.heap && NodeOk(s, a)
    ensures a in ApplyUnlink(s, DStoreHead(t)).heap && NodeOk(ApplyUnlink(s, DStoreHead(t)), a)
  {
  }

  lemma ZeroTailKeepsNode(s: Lane, t: Tid, a: Addr)
    requires Near(s) && NearThread(s, t) && Enabled(s, DZeroTail(t)) && Safe(s, DZeroTail(t))
    requires a in s.heap && NodeOk(s, a)
    ensures a in ApplyUnlink(s, DZeroTail(t)).heap && NodeOk(ApplyUnlink(s, DZeroTail(t)), a)
  {
  }

  lemma StoreNextKeepsNode(s: Lane, t: Tid, a: Addr)
    requires Near(s) && NearThread(s, t) && Enabled(s, DStoreNext(t)) && Safe(s, DStoreNext(t))
    requires a in s.heap && NodeOk(s, a)
    ensures a in ApplyUnlink(s, DStoreNext(t)).heap && NodeOk(ApplyUnlink(s, DStoreNext(t)), a)
  {
  }

  lemma RolesKeepNode(s: Lane, s': Lane, st: Step, a: Addr)
    requires s'.hist == s.hist && s'.cnt == s.cnt && KeepsOwner(s, s', st, a) && a in s'.heap &&
          (a in s.heap ==> NodeOk(s, a))
    requires forall u :: u in s.pcs ==> KeepsRole(s, s', st, u)
    requires st.DRelease? ==> st.t in s.pcs && s.pcs[st.t].Took? && s.pcs[st.t].f != a
    ensures NodeOk(s', a)
  {
  }

  lemma OtherKeepsNode(s: Lane, st: Step, a: Addr)
    requires Enabled(s, st) && Safe(s, st) && !st.EExchange? && !Unlinks(st)
    requires a in Apply(s, st).heap && (a in s.heap ==> NodeOk(s, a))
    ensures NodeOk(Apply(s, st), a)
  {
    StepCounts(s, st); OwnerKept(s, st, a);
    forall u | u in s.pcs ensures KeepsRole(s, Apply(s, st), st, u) { StepFollows(s, st, u); }
    RolesKeepNode(s, Apply(s, st), st, a);
  }

  lemma NodeKept(s: Lane, st: Step, a: Addr)
    requires Near(s) && NearThread(s, st.t) && Enabled(s, st) && Safe(s, st)
    requires a in Apply(s, st).heap && (a in s.heap ==> NodeOk(s, a))
    ensures NodeOk(Apply(s, st), a)
  {
    if !st.EExchange? && !Unlinks(st) {
      OtherKeepsNode(s, st, a);
    } else {
      MoverKeepsNode(s, st, a);
    }
  }

  lemma MoverKeepsNode(s: Lane, st: Step, a: Addr)
    requires Near(s) && NearThread(s, st.t) && Enabled(s, st) && Safe(s, st) && (st.EExchange? || Unlinks(st))
    requires a in Apply(s, st).heap && (a in s.heap ==> NodeOk(s, a))
    ensures NodeOk(Apply(s, st), a)
  {
    if st.EExchange? { ExchangeKeepsNode(s, st.t, a); } else { UnlinkKeepsNode(s, st, a); }
  }

  /** Every step of a thread of lane i, and every arrival of a ticket congruent to i, keeps the lane's tickets in
      order, loses no dequeue and leaks no node. */
  lemma StepKeepsTickets(s: Lane, st: Step, i: int)
    requires Inv(s) && TicketInv(s, i) && Enabled(s, st) && Safe(s, st) && Belongs(st, s.n, i)
    ensures Apply(s, st).n == s.n && TicketInv(Apply(s, st), i)
  {
    var s' := Apply(s, st);
    Landmarks(s); ThreadFacts(s, st.t);
    EnqTicketsKept(s, st, i);
    DeqTicketsKept(s, st, i);
    forall d | d in s'.deqs ensures ServedOk(s', d) {
      if d in s.deqs { assert ServedOk(s, d); }
      ServedKept(s, st, d);
    }
    forall a | a in s'.heap ensures NodeOk(s', a) {
      if a in s.heap { assert NodeOk(s, a); }
      NodeKept(s, st, a);
    }
  }

  lemma InitTickets(n: nat, i: nat)
    requires i < n
    ensures TicketInv(Init(n, i), i)
  {
    forall x | 0 <= x < i && x % n == i ensures false { OneBetween(x, i, n); }
  }

  // ---------------------------------------------------------------- progress

  /** The one step that a thread in the lane takes next. */
  function NextStep(s: Lane, t: Tid): Step
    requires t in s.pcs
  {
    match s.pcs[t]
    case Ready(_, _, entered) => if entered then EExchange(t) else EEnter(t)
    case Linking(_, _, _, _, inside) => if inside then EExit(t) else EPublish(t)
    case Holding(_, at) =>
      (match at
       case AtHead => DLoadHead(t)
       case AtNext(_) => DLoadNext(t)
       case AtStore(_, _) => DStoreHead(t)
       case AtTail(_) => DZeroTail(t)
       case AtSpin(_) => DAwaitNext(t)
       case AtReload(_) => DReloadNext(t)
       case AtStore2(_, _) => DStoreNext(t))
    case Took(_, _, at) => (match at case AtExit => DExit(t) case AtData => DReadData(t) case AtFree(_) => DRelease(t))
  }

  /** A thread in the lane has no other step than its next one. */
  lemma OnlyNextStep(s: Lane, st: Step)
    requires Enabled(s, st) && st.t in s.pcs
    ensures st == NextStep(s, st.t)
  {
  }

  // How many of its own steps a thread is away from the end of its operation at most, waits not counted.
  function Rank(pc: PC): nat {
    match pc
    case Ready(_, _, entered) => if entered then 3 else 4
    case Linking(_, _, _, _, inside) => if inside then 2 else 1
    case Holding(_, at) =>
      (match at
       case AtHead => 10
       case AtNext(_) => 9
       case AtStore(_, _) => 8
       case AtTail(_) => 7
       case AtSpin(_) => 6
       case AtReload(_) => 5
       case AtStore2(_, _) => 4)
    case Took(_, _, at) => (match at case AtExit => 3 case AtData => 2 case AtFree(_) => 1)
  }

  /** The waits inside a lane: for the enqueue guard, for a published head, and for a successor. */
  predicate Waits(s: Lane, t: Tid)
    requires t in s.pcs
  {
    match s.pcs[t]
    case Ready(e, _, entered) => !entered && s.eg != e - s.n
    case Holding(_, at) => (at.AtHead? && s.head == 0) || (at.AtSpin? && at.f in s.heap && s.heap[at.f].next == 0)
    case _ => false
  }

  predicate Advances(s: Lane, t: Tid)
    requires t in s.pcs
  {
    && Enabled(s, NextStep(s, t)) && Safe(s, NextStep(s, t))
    && var s' := Apply(s, NextStep(s, t)); t in s'.pcs ==> Rank(s'.pcs[t]) < Rank(s.pcs[t])
  }

  /** A thread that does not wait comes closer to the end of its operation with every step it takes. */
  lemma StepsAdvance(s: Lane, t: Tid)
    requires Inv(s) && t in s.pcs && !Waits(s, t)
    ensures Advances(s, t)
  {
    EnabledIsSafe(s, NextStep(s, t));
    ThreadFacts(s, t);
    if !s.pcs[t].Holding? { OtherAdvances(s, t); }
    else if Unlinks(NextStep(s, t)) { RemoverAdvances(s, t); }
    else { HolderAdvances(s, t); }
  }

  lemma RemoverAdvances(s: Lane, t: Tid)
    requires t in s.pcs && s.pcs[t].Holding? && Unlinks(NextStep(s, t)) && Safe(s, NextStep(s, t))
    ensures Advances(s, t)
  {
  }

  lemma HolderAdvances(s: Lane, t: Tid)
    requires t in s.pcs && !Waits(s, t) && s.pcs[t].Holding? && !Unlinks(NextStep(s, t)) && Safe(s, NextStep(s, t))
    ensures Advances(s, t)
  {
  }

  lemma OtherAdvances(s: Lane, t: Tid)
    requires t in s.pcs && !Waits(s, t) && !s.pcs[t].Holding? && Safe(s, NextStep(s, t))
    ensures Advances(s, t)
  {
  }

  /** A waiting thread waits for another thread of the lane, or for the enqueue with ticket `en` to come to it. */
  lemma WaitsForSomeone(s: Lane, i: int, t: Tid) returns (u: Tid)
    requires Inv(s) && EnqTickets(s, i) && t in s.pcs && Waits(s, t)
    ensures (u in s.pcs && !Waits(s, u)) ||
            (s.en !in s.enqs && (if s.pcs[t].Ready? then s.en < s.pcs[t].e
                  else s.pcs[t].Holding? && s.pcs[t].d == s.en))
  {
    Landmarks(s); ThreadFacts(s, t);
    u := t;
    if s.pcs[t].Holding? && s.cnt < |s.hist| {
      u := s.enqs[s.hist[if s.pcs[t].hat.AtSpin? then s.cnt + 1 else s.cnt].tk].who;
    } else if s.eg + s.n != s.en {
      u := s.enqs[s.eg + s.n].who;
    } else if s.en in s.enqs {
      assert PlacedOk(s, s.en);
      u := s.enqs[s.en].who;
    }
  }

  // Nobody is between a guard and its release.
  predicate EnqGuardFree(s: Lane) { forall u :: u in s.pcs ==> !InEnqGuard(s.pcs[u]) }
  predicate DeqGuardFree(s: Lane) { forall u :: u in s.pcs ==> !InDeqGuard(s.pcs[u]) }

  /** The enqueue guard admits exactly the enqueue whose ticket is next, once nobody is inside. */
  lemma NextEnqueueEnters(s: Lane, t: Tid)
    requires EnqGuardOk(s) && ThreadInv(s) && t in s.pcs && s.pcs[t].Ready? && !s.pcs[t].entered
    requires s.en <= s.pcs[t].e && s.n > 0
    ensures Enabled(s, EEnter(t)) <==> s.pcs[t].e == s.en && EnqGuardFree(s)
  {
    assert ThreadOk(s, t);
    forall u | u in s.pcs && InEnqGuard(s.pcs[u]) ensures !Enabled(s, EEnter(t)) { assert ThreadOk(s, u); }
  }

  /** The dequeue guard admits exactly the dequeue whose ticket is next, once nobody is inside. */
  lemma NextDequeueEnters(s: Lane, t: Tid, d: int)
    requires DeqGuardOk(s) && ThreadInv(s) && t !in s.pcs && d !in s.deqs && s.n > 0
    ensures Enabled(s, DEnter(t, d)) <==> d == s.dn && DeqGuardFree(s)
  {
    forall u | u in s.pcs && InDeqGuard(s.pcs[u]) ensures !Enabled(s, DEnter(t, d)) { assert ThreadOk(s, u); }
  }
}
