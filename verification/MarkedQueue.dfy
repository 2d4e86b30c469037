/** The marked-head linked queue: one lane of `ev_paqueue`, which is also the
    algorithm of `ev_queue`.

    Producers exchange the tail and then link or publish their node.  A consumer
    claims the first node by setting the mark bit of the head word, unlinks it and
    frees it.  Every atomic operation of the source is one step; any number of threads
    interleave; `malloc` may return an address that was freed before.

    Fields after the comment `// history`, a node's `own` and the `k` of a program counter
    do not exist in the program: no step reads them to decide what to do. */
module MarkedQueue {
  import Runs

  type Tid = nat
  type Addr = nat // 0 is NULL
  type Data = int

  datatype Owner = Private(t: Tid) | Listed(k: nat) | Claimed(t: Tid)
  datatype Node = Node(data: Data, next: Addr, own: Owner)
  datatype Word = Word(addr: Addr, mark: bool)
  datatype Rec = Rec(who: Tid, addr: Addr, data: Data)

  // Program points of a consumer that has claimed nothing yet.
  datatype ScanAt = AtTail | AtHead | AtMark(h: Addr)
  // Program points of a consumer whose marked node is still in the list.
  datatype HeldAt = AtNext | AtCheck(n: Addr) | AtZero | AtSpin | AtSwing(n: Addr)
  // Program points of a consumer whose node has left the list; AtUnmark swings the head to NULL.
  datatype TookAt = AtUnmark | AtRead | AtFree(v: Data)

  datatype PC =
    | Ready(a: Addr, v: Data)              // node built for the argument v, tail not exchanged yet
    | Link(a: Addr, last: Addr, k: nat)    // tail exchanged, old tail known, node not linked yet
    | Scan(sat: ScanAt)
    | Held(h: Addr, k: nat, hat: HeldAt)   // k is the claim number (history)
    | Took(h: Addr, k: nat, tat: TookAt)

  // Where the head word stands relative to the list.
  datatype HeadState = Plain | Marked(t: Tid) | Stale(t: Tid)

  datatype State = State(
    head: Word, tail: Addr, heap: map<Addr, Node>, pcs: map<Tid, PC>,
    // history
    hist: seq<Rec>,          // every node, in the order of the tail exchanges
    cnt: nat,                // how many of them have left the list
    hs: HeadState,
    claims: seq<Tid>,        // the threads that marked the head, in order
    rets: map<nat, Data>)    // claim number -> value returned

  datatype Step =
    | EAlloc(t: Tid, v: Data, a: Addr) | EExchange(t: Tid) | EPublish(t: Tid)
    | DStart(t: Tid) | DLoadTail(t: Tid) | DLoadHead(t: Tid) | DMark(t: Tid)
    | DLoadNext(t: Tid) | DReloadTail(t: Tid) | DZeroTail(t: Tid) | DAwaitNext(t: Tid)
    | DSwingHead(t: Tid) | DUnmark(t: Tid) | DReadData(t: Tid) | DRelease(t: Tid)

  const NULL_WORD := Word(0, false)
  const INIT_STATE := State(NULL_WORD, 0, map[], map[], [], 0, Plain, [], map[])

  predicate Init(s: State) { s == INIT_STATE }

  predicate Enabled(s: State, st: Step) {
    match st
    case EAlloc(t, v, a) => t !in s.pcs && a != 0 && a !in s.heap
    case DStart(t) => t !in s.pcs
    case EExchange(t) => t in s.pcs && s.pcs[t].Ready?
    case EPublish(t) => t in s.pcs && s.pcs[t].Link?
    case DLoadTail(t) => t in s.pcs && s.pcs[t] == Scan(AtTail)
    case DLoadHead(t) => t in s.pcs && s.pcs[t] == Scan(AtHead)
    case DMark(t) => t in s.pcs && s.pcs[t].Scan? && s.pcs[t].sat.AtMark?
    case DLoadNext(t) => t in s.pcs && s.pcs[t].Held? && s.pcs[t].hat.AtNext?
    case DReloadTail(t) => t in s.pcs && s.pcs[t].Held? && s.pcs[t].hat.AtCheck?
    case DZeroTail(t) => t in s.pcs && s.pcs[t].Held? && s.pcs[t].hat.AtZero?
    case DAwaitNext(t) => t in s.pcs && s.pcs[t].Held? && s.pcs[t].hat.AtSpin?
    case DSwingHead(t) => t in s.pcs && s.pcs[t].Held? && s.pcs[t].hat.AtSwing?
    case DUnmark(t) => t in s.pcs && s.pcs[t].Took? && s.pcs[t].tat.AtUnmark?
    case DReadData(t) => t in s.pcs && s.pcs[t].Took? && s.pcs[t].tat.AtRead?
    case DRelease(t) => t in s.pcs && s.pcs[t].Took? && s.pcs[t].tat.AtFree?
  }

  /** Every node the step inserts, reads, writes, unlinks or frees is allocated. */
  predicate Safe(s: State, st: Step)
    requires Enabled(s, st)
  {
    var pc := if st.t in s.pcs then s.pcs[st.t] else Scan(AtTail);
    match pc
    case Ready(a, _) => a in s.heap
    case Link(a, last, k) => a in s.heap && (last == 0 || last in s.heap)
    case Scan(_) => true
    case Held(h, k, at) => h in s.heap
    case Took(h, k, at) => h in s.heap
  }

  function Goto(s: State, t: Tid, pc: PC): State { s.(pcs := s.pcs[t := pc]) }
  function Exit(s: State, t: Tid): State { s.(pcs := s.pcs - {t}) }

  // The first node of the list leaves it in the hands of `t`.
  function Unlist(s: State, t: Tid, h: Addr): State
    requires h in s.heap
  {
    s.(cnt := s.cnt + 1, heap := s.heap[h := s.heap[h].(own := Claimed(t))])
  }

  function Apply(s: State, st: Step): State
    requires Enabled(s, st) && Safe(s, st)
  {
    match st
    case EAlloc(t, v, a) =>
      Goto(s.(heap := s.heap[a := Node(v, 0, Private(t))]), t, Ready(a, v))
    case EExchange(t) =>
      var a := s.pcs[t].a;
      Goto(s.(tail := a,
              hist := s.hist + [Rec(t, a, s.pcs[t].v)],
              heap := s.heap[a := s.heap[a].(own := Listed(|s.hist|))]),
           t, Link(a, s.tail, |s.hist|))
    case EPublish(t) =>
      var pc := s.pcs[t];
      if pc.last == 0
      then Exit(s.(head := Word(pc.a, false), hs := Plain), t)
      else Exit(s.(heap := s.heap[pc.last := s.heap[pc.last].(next := pc.a)]), t)
    case DStart(t) => Goto(s, t, Scan(AtTail))
    case DLoadTail(t) => if s.tail == 0 then Exit(s, t) else Goto(s, t, Scan(AtHead))
    case DLoadHead(t) =>
      Goto(s, t, Scan(if s.head.addr == 0 || s.head.mark then AtTail else AtMark(s.head.addr)))
    case DMark(t) =>
      var h := s.pcs[t].sat.h;
      if s.head == Word(h, false)
      then Goto(s.(head := Word(h, true), hs := Marked(t), claims := s.claims + [t]), t, Held(h, |s.claims|, AtNext))
      else Goto(s, t, Scan(AtTail))
    case DLoadNext(t) =>
      var pc := s.pcs[t];
      Goto(s, t, pc.(hat := AtCheck(s.heap[pc.h].next)))
    case DReloadTail(t) =>
      var pc := s.pcs[t];
      if s.tail == 0 then Exit(s, t)
      else Goto(s, t, pc.(hat := if pc.hat.n == 0 then AtZero else AtSwing(pc.hat.n)))
    case DZeroTail(t) =>
      var pc := s.pcs[t];
      if s.tail == pc.h
      then Goto(Unlist(s, t, pc.h).(tail := 0, hs := Stale(t)), t, Took(pc.h, pc.k, AtUnmark))
      else Goto(s, t, pc.(hat := AtSpin))
    case DAwaitNext(t) =>
      var pc := s.pcs[t];
      var n := s.heap[pc.h].next;
      if n == 0 then s else Goto(s, t, pc.(hat := AtSwing(n)))
    case DSwingHead(t) =>
      var pc := s.pcs[t];
      if s.head == Word(pc.h, true)
      then Goto(Unlist(s, t, pc.h).(head := Word(pc.hat.n, false), hs := Plain), t, Took(pc.h, pc.k, AtRead))
      else Goto(s, t, Took(pc.h, pc.k, AtRead))
    case DUnmark(t) =>
      var pc := s.pcs[t];
      var s1 := if s.head == Word(pc.h, true) then s.(head := NULL_WORD, hs := Plain) else s;
      Goto(s1, t, pc.(tat := AtRead))
    case DReadData(t) =>
      var pc := s.pcs[t];
      Goto(s, t, pc.(tat := AtFree(s.heap[pc.h].data)))
    case DRelease(t) =>
      var pc := s.pcs[t];
      Exit(s.(heap := s.heap - {pc.h}, rets := s.rets[pc.k := pc.tat.v]), t)
  }

  // ---------------------------------------------------------------- invariant

  predicate Live(s: State, k: int) { s.cnt <= k < |s.hist| }

  /** Producer `who` has exchanged the tail for node `k` and still has to link it. */
  predicate Pending(s: State, k: nat, last: Addr)
    requires k < |s.hist|
  {
    var t := s.hist[k].who;
    t in s.pcs && s.pcs[t] == Link(s.hist[k].addr, last, k)
  }

  predicate ListedOk(s: State, k: nat)
    requires k < |s.hist|
  {
    var a := s.hist[k].addr;
    a != 0 && a in s.heap && s.heap[a].own == Listed(k) && s.heap[a].data == s.hist[k].data
  }

  /** Node `k` is reachable from its predecessor, or its producer is about to link it. */
  predicate LinkOk(s: State, k: nat)
    requires 0 < k < |s.hist|
  {
    var p := s.hist[k - 1].addr;
    p in s.heap &&
    (s.heap[p].next == s.hist[k].addr || (s.heap[p].next == 0 && Pending(s, k, p)))
  }

  predicate TailOk(s: State) {
    && s.cnt <= |s.hist|
    && (s.cnt == |s.hist| ==> s.tail == 0)
    && (s.cnt < |s.hist| ==>
          var a := s.hist[|s.hist| - 1].addr; s.tail == a && a in s.heap && s.heap[a].next == 0)
  }

  predicate ListInv(s: State) {
    && TailOk(s)
    && (forall k {:trigger ListedOk(s, k)} :: s.cnt <= k < |s.hist| ==> ListedOk(s, k))
    && (forall k {:trigger LinkOk(s, k)} :: s.cnt < k < |s.hist| ==> LinkOk(s, k))
  }

  /** If there is a first node, the producer that found the list empty is about to publish it. */
  predicate FrontPending(s: State) {
    s.cnt < |s.hist| ==> Pending(s, s.cnt, 0)
  }

  predicate HeadInv(s: State) {
    match s.hs
    case Plain =>
      && |s.claims| == s.cnt
      && !s.head.mark
      && (s.head.addr == 0 ==> FrontPending(s))
      && (s.head.addr != 0 ==> s.cnt < |s.hist| && s.head.addr == s.hist[s.cnt].addr)
    case Marked(t) =>
      && |s.claims| == s.cnt + 1 && s.claims[s.cnt] == t
      && s.cnt < |s.hist|
      && s.head == Word(s.hist[s.cnt].addr, true)
      && t in s.pcs && s.pcs[t].Held?
    case Stale(t) =>
      && |s.claims| == s.cnt
      && t in s.pcs && s.pcs[t].Took? && s.pcs[t].tat.AtUnmark?
      && s.head == Word(s.pcs[t].h, true)
      && s.pcs[t].h in s.heap && s.heap[s.pcs[t].h].own == Claimed(t)
      && s.pcs[t].k + 1 == s.cnt
      && FrontPending(s)
  }

  /** Node `k` was inserted into an empty list and its producer has already stored it in the head. */
  predicate Published(s: State, k: nat) {
    k < |s.hist| && !Pending(s, k, 0)
  }

  predicate ClaimOk(s: State, t: Tid, h: Addr, k: nat) {
    && k < |s.claims| && s.claims[k] == t
    && k < |s.hist| && s.hist[k].addr == h
    && k !in s.rets
  }

  predicate NextSeen(s: State, h: Addr, k: nat, n: Addr) {
    k + 1 < |s.hist| && n == s.hist[k + 1].addr && h in s.heap && s.heap[h].next == n
  }

  predicate ThreadOk(s: State, t: Tid)
    requires t in s.pcs
  {
    match s.pcs[t]
    case Ready(a, v) => a != 0 && a in s.heap && s.heap[a] == Node(v, 0, Private(t))
    case Link(a, last, k) =>
      && Live(s, k) && s.hist[k].who == t && s.hist[k].addr == a
      && (last == 0 ==> k == s.cnt && !s.hs.Marked? && (s.hs.Plain? ==> s.head.addr == 0))
      && (last != 0 ==> k > s.cnt && s.hist[k - 1].addr == last && last in s.heap && s.heap[last].next == 0)
    case Scan(at) => at.AtMark? ==> at.h != 0
    case Held(h, k, at) =>
      && s.hs == Marked(t) && k == s.cnt && ClaimOk(s, t, h, k)
      && (at.AtCheck? && at.n != 0 ==> NextSeen(s, h, k, at.n))
      && (at.AtSwing? ==> at.n != 0 && NextSeen(s, h, k, at.n))
      && (at.AtSpin? ==> k + 1 < |s.hist|)
    case Took(h, k, at) =>
      && ClaimOk(s, t, h, k) && k < s.cnt
      && h != 0 && h in s.heap && s.heap[h].own == Claimed(t) && s.heap[h].data == s.hist[k].data
      && (at.AtUnmark? ==> s.hs == Stale(t) || Published(s, k + 1))
      && (at.AtFree? ==> at.v == s.hist[k].data)
  }

  predicate ThreadInv(s: State) {
    forall t {:trigger ThreadOk(s, t)} :: t in s.pcs ==> ThreadOk(s, t)
  }

  /** What consumers have returned is what was exchanged in at that position. */
  predicate ReturnInv(s: State) {
    forall k :: k in s.rets ==> k < |s.claims| && k < |s.hist| && s.rets[k] == s.hist[k].data
  }

  // Every allocated node is listed or in the hands of its thread.
  predicate NodeOk(s: State, a: Addr)
    requires a in s.heap
  {
    match s.heap[a].own
    case Private(t) => t in s.pcs && s.pcs[t].Ready? && s.pcs[t].a == a
    case Listed(k) => Live(s, k) && s.hist[k].addr == a
    case Claimed(t) => t in s.pcs && s.pcs[t].Took? && s.pcs[t].h == a
  }

  predicate NodeInv(s: State) { forall a {:trigger NodeOk(s, a)} :: a in s.heap ==> NodeOk(s, a) }

  predicate Inv(s: State) {
    ListInv(s) && HeadInv(s) && ThreadInv(s) && ReturnInv(s) && NodeInv(s)
  }

  // What the proofs about one step need of the list, without quantifiers:
  // its first, second and last node.
  predicate Near(s: State) {
    && TailOk(s) && HeadInv(s) && |s.claims| !in s.rets
    && (Live(s, s.cnt) ==> ListedOk(s, s.cnt) && ListedOk(s, |s.hist| - 1))
    && (Live(s, s.cnt + 1) ==> ListedOk(s, s.cnt + 1) && LinkOk(s, s.cnt + 1))
  }

  // What they need of one thread: for a producer, also the neighbour of the node it links.
  predicate NearThread(s: State, t: Tid) {
    t in s.pcs ==>
      && ThreadOk(s, t)
      && (s.pcs[t].Link? ==> ListedOk(s, s.pcs[t].k) && (s.pcs[t].last != 0 ==> ListedOk(s, s.pcs[t].k - 1)))
  }

  predicate ByProducer(st: Step) { st.EAlloc? || st.EExchange? || st.EPublish? }

  lemma Landmarks(s: State)
    requires Inv(s)
    ensures Near(s)
  {
    if Live(s, s.cnt) { assert ListedOk(s, s.cnt); assert ListedOk(s, |s.hist| - 1); }
    if Live(s, s.cnt + 1) { assert ListedOk(s, s.cnt + 1); assert LinkOk(s, s.cnt + 1); }
  }

  lemma ThreadFacts(s: State, t: Tid)
    requires Inv(s)
    ensures NearThread(s, t)
  {
    if t in s.pcs {
      assert ThreadOk(s, t);
      if s.pcs[t].Link? { assert ListedOk(s, s.pcs[t].k); }
      if s.pcs[t].Link? && s.pcs[t].last != 0 { assert ListedOk(s, s.pcs[t].k - 1); }
    }
  }

  lemma EnabledIsSafe(s: State, st: Step)
    requires Inv(s) && Enabled(s, st)
    ensures Safe(s, st)
  {
    Landmarks(s); ThreadFacts(s, st.t);
  }

  lemma ProducerOk(s: State, st: Step)
    requires Near(s) && NearThread(s, st.t) && Enabled(s, st) && Safe(s, st)
    requires ByProducer(st)
    ensures st.t in Apply(s, st).pcs ==> ThreadOk(Apply(s, st), st.t)
  {
  }

  lemma ScannerOk(s: State, st: Step)
    requires Near(s) && NearThread(s, st.t) && Enabled(s, st) && Safe(s, st)
    requires Local(st)
    ensures st.t in Apply(s, st).pcs ==> ThreadOk(Apply(s, st), st.t)
  {
  }

  lemma ConsumerOk(s: State, st: Step)
    requires Near(s) && NearThread(s, st.t) && Enabled(s, st) && Safe(s, st)
    requires !ByProducer(st) && !Local(st)
    ensures st.t in Apply(s, st).pcs ==> ThreadOk(Apply(s, st), st.t)
  {
  }

  lemma ActorOk(s: State, st: Step)
    requires Near(s) && NearThread(s, st.t) && Enabled(s, st) && Safe(s, st)
    ensures st.t in Apply(s, st).pcs ==> ThreadOk(Apply(s, st), st.t)
  {
    if ByProducer(st) { ProducerOk(s, st); } else if Local(st) { ScannerOk(s, st); } else { ConsumerOk(s, st); }
  }

  lemma ProducerHead(s: State, st: Step)
    requires Near(s) && NearThread(s, st.t) && Enabled(s, st) && Safe(s, st)
    requires ByProducer(st)
    ensures HeadInv(Apply(s, st))
  {
  }

  lemma ConsumerHead(s: State, st: Step)
    requires Near(s) && NearThread(s, st.t) && Enabled(s, st) && Safe(s, st)
    requires !ByProducer(st)
    ensures HeadInv(Apply(s, st))
  {
    if Local(st) { ScannerHead(s, st); } else { MoverHead(s, st); }
  }

  lemma ScannerHead(s: State, st: Step)
    requires Near(s) && NearThread(s, st.t) && Enabled(s, st) && Safe(s, st) && Local(st)
    ensures HeadInv(Apply(s, st))
  {
  }

  lemma MoverHead(s: State, st: Step)
    requires Near(s) && NearThread(s, st.t) && Enabled(s, st) && Safe(s, st) && !ByProducer(st) && !Local(st)
    ensures HeadInv(Apply(s, st))
  {
  }

  lemma HeadOk(s: State, st: Step)
    requires Near(s) && NearThread(s, st.t) && Enabled(s, st) && Safe(s, st)
    ensures HeadInv(Apply(s, st))
  {
    if ByProducer(st) { ProducerHead(s, st); } else { ConsumerHead(s, st); }
  }

  lemma TailKept(s: State, st: Step)
    requires Near(s) && NearThread(s, st.t) && Enabled(s, st) && Safe(s, st)
    ensures TailOk(Apply(s, st))
  {
  }

  // The steps that change nothing but the program counter of their thread.
  predicate Local(st: Step) {
    st.DStart? || st.DLoadTail? || st.DLoadHead? || st.DLoadNext? || st.DReloadTail? || st.DAwaitNext? || st.DReadData?
  }

  lemma LocalFrame(s: State, st: Step)
    requires Enabled(s, st) && Safe(s, st) && Local(st)
    ensures Apply(s, st) == s.(pcs := Apply(s, st).pcs)
    ensures forall u :: u != st.t ==> (u in s.pcs <==> u in Apply(s, st).pcs)
    ensures forall u :: u != st.t && u in s.pcs ==> Apply(s, st).pcs[u] == s.pcs[u]
    ensures st.t in s.pcs ==> !s.pcs[st.t].Link?
    ensures st.t in Apply(s, st).pcs ==> !Apply(s, st).pcs[st.t].Link?
  {
  }

  lemma MoveKeepsOther(s: State, t: Tid, s': State, u: Tid)
    requires u in s.pcs && u in s'.pcs && s'.pcs[u] == s.pcs[u] && u != t && ThreadOk(s, u)
    requires s' == s.(pcs := s'.pcs)
    requires forall v :: v != t ==> (v in s.pcs <==> v in s'.pcs)
    requires forall v :: v != t && v in s.pcs ==> s'.pcs[v] == s.pcs[v]
    requires (t in s.pcs ==> !s.pcs[t].Link?) && (t in s'.pcs ==> !s'.pcs[t].Link?)
    ensures ThreadOk(s', u)
  {
  }

  lemma ReadyOk(s: State, st: Step, u: Tid)
    requires Near(s) && NearThread(s, st.t) && NearThread(s, u) && Enabled(s, st) && Safe(s, st) && !Local(st)
    requires u in s.pcs && u != st.t && s.pcs[u].Ready?
    ensures u in Apply(s, st).pcs && ThreadOk(Apply(s, st), u)
  {
  }

  lemma LinkerBesideProducer(s: State, st: Step, u: Tid)
    requires Near(s) && NearThread(s, st.t) && NearThread(s, u) && Enabled(s, st) && Safe(s, st) && !Local(st)
    requires u in s.pcs && u != st.t && s.pcs[u].Link?
    requires ByProducer(st)
    ensures u in Apply(s, st).pcs && ThreadOk(Apply(s, st), u)
  {
  }

  lemma LinkerBesideConsumer(s: State, st: Step, u: Tid)
    requires Near(s) && NearThread(s, st.t) && NearThread(s, u) && Enabled(s, st) && Safe(s, st) && !Local(st)
    requires u in s.pcs && u != st.t && s.pcs[u].Link?
    requires !ByProducer(st)
    ensures u in Apply(s, st).pcs && ThreadOk(Apply(s, st), u)
  {
  }

  lemma LinkerOk(s: State, st: Step, u: Tid)
    requires Near(s) && NearThread(s, st.t) && NearThread(s, u) && Enabled(s, st) && Safe(s, st) && !Local(st)
    requires u in s.pcs && u != st.t && s.pcs[u].Link?
    ensures u in Apply(s, st).pcs && ThreadOk(Apply(s, st), u)
  {
    if ByProducer(st) { LinkerBesideProducer(s, st, u); } else { LinkerBesideConsumer(s, st, u); }
  }

  lemma HolderOk(s: State, st: Step, u: Tid)
    requires Near(s) && NearThread(s, st.t) && NearThread(s, u) && Enabled(s, st) && Safe(s, st) && !Local(st)
    requires u in s.pcs && u != st.t && s.pcs[u].Held?
    ensures u in Apply(s, st).pcs && ThreadOk(Apply(s, st), u)
  {
  }

  lemma TakerBesideProducer(s: State, st: Step, u: Tid)
    requires Near(s) && NearThread(s, st.t) && NearThread(s, u) && Enabled(s, st) && Safe(s, st) && !Local(st)
    requires u in s.pcs && u != st.t && s.pcs[u].Took?
    requires !st.DZeroTail? && !st.DUnmark?
    requires ByProducer(st)
    ensures u in Apply(s, st).pcs && ThreadOk(Apply(s, st), u)
  {
  }

  lemma TakerBesideConsumer(s: State, st: Step, u: Tid)
    requires Near(s) && NearThread(s, st.t) && NearThread(s, u) && Enabled(s, st) && Safe(s, st) && !Local(st)
    requires u in s.pcs && u != st.t && s.pcs[u].Took?
    requires !st.DZeroTail? && !st.DUnmark?
    requires !ByProducer(st)
    ensures u in Apply(s, st).pcs && ThreadOk(Apply(s, st), u)
  {
  }

  lemma TakerOk(s: State, st: Step, u: Tid)
    requires Near(s) && NearThread(s, st.t) && NearThread(s, u) && Enabled(s, st) && Safe(s, st) && !Local(st)
    requires u in s.pcs && u != st.t && s.pcs[u].Took?
    requires !st.DZeroTail? && !st.DUnmark?
    ensures u in Apply(s, st).pcs && ThreadOk(Apply(s, st), u)
  {
    if ByProducer(st) { TakerBesideProducer(s, st, u); } else { TakerBesideConsumer(s, st, u); }
  }

  lemma TakerBesideZero(s: State, st: Step, u: Tid)
    requires Near(s) && NearThread(s, st.t) && NearThread(s, u) && Enabled(s, st) && Safe(s, st)
    requires u in s.pcs && u != st.t && s.pcs[u].Took?
    requires st.DZeroTail?
    ensures u in Apply(s, st).pcs && ThreadOk(Apply(s, st), u)
  {
  }

  lemma TakerBesideUnmark(s: State, st: Step, u: Tid)
    requires Near(s) && NearThread(s, st.t) && NearThread(s, u) && Enabled(s, st) && Safe(s, st)
    requires u in s.pcs && u != st.t && s.pcs[u].Took?
    requires st.DUnmark?
    ensures u in Apply(s, st).pcs && ThreadOk(Apply(s, st), u)
  {
  }

  lemma TakerOkEmptying(s: State, st: Step, u: Tid)
    requires Near(s) && NearThread(s, st.t) && NearThread(s, u) && Enabled(s, st) && Safe(s, st)
    requires u in s.pcs && u != st.t && s.pcs[u].Took?
    requires st.DZeroTail? || st.DUnmark?
    ensures u in Apply(s, st).pcs && ThreadOk(Apply(s, st), u)
  {
    if st.DZeroTail? { TakerBesideZero(s, st, u); } else { TakerBesideUnmark(s, st, u); }
  }

  lemma ListedKept(s: State, st: Step, k: nat)
    requires Near(s) && NearThread(s, st.t) && Enabled(s, st) && Safe(s, st)
    requires Live(Apply(s, st), k)
    requires k < |s.hist| ==> ListedOk(s, k)
    ensures ListedOk(Apply(s, st), k)
  {
  }

  lemma ProducerLinks(s: State, st: Step, k: nat)
    requires Near(s) && NearThread(s, st.t) && Enabled(s, st) && Safe(s, st)
    requires 0 < k && Live(Apply(s, st), k) && Live(Apply(s, st), k - 1)
    requires ListedOk(s, k - 1) && (k < |s.hist| ==> LinkOk(s, k))
    requires ByProducer(st)
    ensures LinkOk(Apply(s, st), k)
  {
  }

  lemma ConsumerLinks(s: State, st: Step, k: nat)
    requires Near(s) && NearThread(s, st.t) && Enabled(s, st) && Safe(s, st)
    requires 0 < k && Live(Apply(s, st), k) && Live(Apply(s, st), k - 1)
    requires ListedOk(s, k - 1) && (k < |s.hist| ==> LinkOk(s, k))
    requires !ByProducer(st)
    ensures LinkOk(Apply(s, st), k)
  {
  }

  lemma LinkKept(s: State, st: Step, k: nat)
    requires Near(s) && NearThread(s, st.t) && Enabled(s, st) && Safe(s, st)
    requires 0 < k && Live(Apply(s, st), k) && Live(Apply(s, st), k - 1)
    requires ListedOk(s, k - 1) && (k < |s.hist| ==> LinkOk(s, k))
    ensures LinkOk(Apply(s, st), k)
  {
    if ByProducer(st) { ProducerLinks(s, st, k); } else { ConsumerLinks(s, st, k); }
  }

  lemma KeepsListInv(s: State, st: Step)
    requires Inv(s) && Enabled(s, st) && Safe(s, st)
    ensures ListInv(Apply(s, st)) && HeadInv(Apply(s, st))
  {
    var s' := Apply(s, st);
    Landmarks(s); ThreadFacts(s, st.t);
    HeadOk(s, st); TailKept(s, st);
    forall k | s'.cnt <= k < |s'.hist| ensures ListedOk(s', k) {
      if k < |s.hist| { assert ListedOk(s, k); }
      ListedKept(s, st, k);
    }
    forall k | s'.cnt < k < |s'.hist| ensures LinkOk(s', k) {
      assert ListedOk(s, k - 1);
      if k < |s.hist| { assert LinkOk(s, k); }
      LinkKept(s, st, k);
    }
  }

  lemma OtherOk(s: State, st: Step, u: Tid)
    requires Inv(s) && Enabled(s, st) && Safe(s, st)
    requires u in s.pcs && u != st.t
    ensures u in Apply(s, st).pcs && ThreadOk(Apply(s, st), u)
  {
    Landmarks(s); ThreadFacts(s, st.t); ThreadFacts(s, u);
    if Local(st) { LocalFrame(s, st); MoveKeepsOther(s, st.t, Apply(s, st), u); }
    else {
      match s.pcs[u]
      case Ready(_, _) => ReadyOk(s, st, u);
      case Link(_, _, _) => LinkerOk(s, st, u);
      case Scan(_) =>
      case Held(_, _, _) => HolderOk(s, st, u);
      case Took(_, _, _) => if st.DZeroTail? || st.DUnmark? { TakerOkEmptying(s, st, u); } else { TakerOk(s, st, u); }
    }
  }

  lemma KeepsThreadInv(s: State, st: Step)
    requires Inv(s) && Enabled(s, st) && Safe(s, st)
    ensures ThreadInv(Apply(s, st))
  {
    var s' := Apply(s, st);
    forall u | u in s'.pcs ensures ThreadOk(s', u) {
      if u == st.t { Landmarks(s); ThreadFacts(s, st.t); ActorOk(s, st); } else { OtherOk(s, st, u); }
    }
  }

  lemma KeepsReturnInv(s: State, st: Step)
    requires Inv(s) && Enabled(s, st) && Safe(s, st)
    ensures ReturnInv(Apply(s, st))
  {
    ThreadFacts(s, st.t);
  }

  lemma ProducerKeepsNode(s: State, st: Step, a: Addr)
    requires NearThread(s, st.t) && Enabled(s, st) && Safe(s, st) && ByProducer(st) && a in Apply(s, st).heap
    requires TailOk(s) && (a in s.heap ==> NodeOk(s, a))
    ensures NodeOk(Apply(s, st), a)
  {
  }

  lemma ConsumerKeepsNode(s: State, st: Step, a: Addr)
    requires Near(s) && NearThread(s, st.t) && Enabled(s, st) && Safe(s, st) && !ByProducer(st)
    requires a in Apply(s, st).heap && a in s.heap && NodeOk(s, a)
    ensures NodeOk(Apply(s, st), a)
  {
    if st.DZeroTail? { EmptyingKeepsNode(s, st.t, a); }
    else if st.DSwingHead? { SwingKeepsNode(s, st.t, a); }
    else { QuietKeepsNode(s, st, a); }
  }

  lemma EmptyingKeepsNode(s: State, t: Tid, a: Addr)
    requires Near(s) && NearThread(s, t) && Enabled(s, DZeroTail(t)) && Safe(s, DZeroTail(t))
    requires a in s.heap && NodeOk(s, a)
    ensures a in Apply(s, DZeroTail(t)).heap && NodeOk(Apply(s, DZeroTail(t)), a)
  {
  }

  lemma SwingKeepsNode(s: State, t: Tid, a: Addr)
    requires Near(s) && NearThread(s, t) && Enabled(s, DSwingHead(t)) && Safe(s, DSwingHead(t))
    requires a in s.heap && NodeOk(s, a)
    ensures a in Apply(s, DSwingHead(t)).heap && NodeOk(Apply(s, DSwingHead(t)), a)
  {
  }

  lemma QuietKeepsNode(s: State, st: Step, a: Addr)
    requires NearThread(s, st.t) && Enabled(s, st) && Safe(s, st) && !ByProducer(st)
    requires !st.DZeroTail? && !st.DSwingHead?
    requires a in Apply(s, st).heap && a in s.heap && NodeOk(s, a)
    ensures NodeOk(Apply(s, st), a)
  {
  }

  lemma NodesKept(s: State, st: Step)
    requires Inv(s) && Enabled(s, st) && Safe(s, st)
    ensures NodeInv(Apply(s, st))
  {
    var s' := Apply(s, st);
    Landmarks(s); ThreadFacts(s, st.t);
    forall a | a in s'.heap ensures NodeOk(s', a) {
      if a in s.heap { assert NodeOk(s, a); }
      if ByProducer(st) { ProducerKeepsNode(s, st, a); } else { ConsumerKeepsNode(s, st, a); }
    }
  }

  lemma StepKeepsInv(s: State, st: Step)
    requires Inv(s) && Enabled(s, st) && Safe(s, st)
    ensures Inv(Apply(s, st))
  {
    KeepsListInv(s, st); KeepsThreadInv(s, st); KeepsReturnInv(s, st); NodesKept(s, st);
  }

  // ---------------------------------------------------------------- results over whole runs

  /** One step of some thread. Only safe steps are applied; NoFreedNodeTouched shows that this excludes none. */
  ghost predicate Next(s: State, s': State) {
    exists st :: Enabled(s, st) && Safe(s, st) && s' == Apply(s, st)
  }

  /** The states that some interleaving reaches. */
  ghost predicate Reachable(s: State) { Runs.Reached(Init, Next, s) }

  lemma NextKeepsInv(s: State, s': State)
    requires Inv(s) && Next(s, s')
    ensures Inv(s')
  {
    var st :| Enabled(s, st) && Safe(s, st) && s' == Apply(s, st);
    StepKeepsInv(s, st);
  }

  lemma ReachableInv(s: State)
    requires Reachable(s)
    ensures Inv(s)
  {
    forall s, s' | Inv(s) && Next(s, s') ensures Inv(s') { NextKeepsInv(s, s'); }
    Runs.Induction(Init, Next, Inv, s);
  }

  lemma ReachStep(s: State, st: Step)
    requires Reachable(s) && Enabled(s, st) && Safe(s, st)
    ensures Reachable(Apply(s, st))
  {
    assert Next(s, Apply(s, st));
    Runs.Extend(Init, Next, s, Apply(s, st));
  }

  /** In every interleaving, whatever any thread does next touches only allocated nodes. */
  lemma NoFreedNodeTouched(s: State, st: Step)
    requires Reachable(s) && Enabled(s, st)
    ensures Safe(s, st)
  {
    ReachableInv(s);
    EnabledIsSafe(s, st);
  }

  /** The abstract queue: the items inserted and not yet claimed by a mark. */
  function Queue(s: State): seq<Data> {
    if |s.claims| <= |s.hist| then Items(s.hist[|s.claims|..]) else []
  }

  function Items(rs: seq<Rec>): (r: seq<Data>)
    ensures |r| == |rs| && forall i :: 0 <= i < |rs| ==> r[i] == rs[i].data
  {
    seq(|rs|, i requires 0 <= i < |rs| => rs[i].data)
  }

  /** The step claims the first item: its head CAS from unmarked to marked succeeds. */
  predicate Claims(s: State, st: Step)
    requires Enabled(s, st)
  {
    st.DMark? && s.head == Word(s.pcs[st.t].sat.h, false)
  }

  /** The histories change only by a tail exchange, a successful mark and a return; a producer keeps its argument. */
  lemma StepHistory(s: State, st: Step)
    requires Enabled(s, st) && Safe(s, st)
    ensures var s' := Apply(s, st);
            && s'.hist == (if st.EExchange?
                           then s.hist + [Rec(st.t, s.pcs[st.t].a, s.pcs[st.t].v)]
                           else s.hist)
            && s'.claims == (if Claims(s, st) then s.claims + [st.t] else s.claims)
            && (st.EAlloc? ==> st.t in s'.pcs && s'.pcs[st.t] == Ready(st.a, st.v))
            && s'.rets == (if st.DRelease? then s.rets[s.pcs[st.t].k := s.pcs[st.t].tat.v] else s.rets)
  {
  }

  /** Each step is a step of one FIFO queue: a tail exchange appends the producer's argument,
      a successful mark removes the first item, nothing else changes the queue, and an empty
      answer is given only when the queue is empty. */
  lemma StepRefinesFifo(s: State, st: Step)
    requires Reachable(s) && Enabled(s, st) && Safe(s, st)
    ensures var s' := Apply(s, st);
            && (st.EExchange? ==> Queue(s') == Queue(s) + [s.pcs[st.t].v])
            && (Claims(s, st) ==> Queue(s) != [] && Queue(s') == Queue(s)[1..])
            && (!st.EExchange? && !Claims(s, st) ==> Queue(s') == Queue(s))
            && (st.DLoadTail? && st.t !in s'.pcs ==> Queue(s) == [])
  {
    ReachableInv(s);
    QueueRefines(s, st);
  }

  lemma QueueRefines(s: State, st: Step)
    requires Inv(s) && Enabled(s, st) && Safe(s, st)
    ensures var s' := Apply(s, st);
            && (st.EExchange? ==> Queue(s') == Queue(s) + [s.pcs[st.t].v])
            && (Claims(s, st) ==> Queue(s) != [] && Queue(s') == Queue(s)[1..])
            && (!st.EExchange? && !Claims(s, st) ==> Queue(s') == Queue(s))
            && (st.DLoadTail? && st.t !in s'.pcs ==> Queue(s) == [])
  {
    ClaimsBounded(s, st);
    QueueStep(s, st);
  }

  lemma QueueStep(s: State, st: Step)
    requires Enabled(s, st) && Safe(s, st) && |s.claims| <= |s.hist| && (Claims(s, st) ==> |s.claims| < |s.hist|)
    requires st.DLoadTail? && s.tail == 0 ==> |s.claims| == |s.hist|
    ensures var s' := Apply(s, st);
            && (st.EExchange? ==> Queue(s') == Queue(s) + [s.pcs[st.t].v])
            && (Claims(s, st) ==> Queue(s) != [] && Queue(s') == Queue(s)[1..])
            && (!st.EExchange? && !Claims(s, st) ==> Queue(s') == Queue(s))
            && (st.DLoadTail? && st.t !in s'.pcs ==> Queue(s) == [])
  {
    StepHistory(s, st);
    if st.EExchange? { ItemsAppend(s.hist, |s.claims|, Rec(st.t, s.pcs[st.t].a, s.pcs[st.t].v)); }
    if Claims(s, st) { ItemsDrop(s.hist, |s.claims|); }
  }

  lemma ItemsAppend(hist: seq<Rec>, c: nat, r: Rec)
    requires c <= |hist|
    ensures Items((hist + [r])[c..]) == Items(hist[c..]) + [r.data]
  {
    assert (hist + [r])[c..] == hist[c..] + [r];
  }

  lemma ItemsDrop(hist: seq<Rec>, c: nat)
    requires c < |hist|
    ensures Items(hist[c..]) != [] && Items(hist[c + 1..]) == Items(hist[c..])[1..]
  {
    assert hist[c..][1..] == hist[c + 1..];
  }

  lemma ClaimsBounded(s: State, st: Step)
    requires Inv(s) && Enabled(s, st)
    ensures |s.claims| <= |s.hist|
    ensures Claims(s, st) ==> |s.claims| < |s.hist|
    ensures st.DLoadTail? && s.tail == 0 ==> |s.claims| == |s.hist|
  {
    Landmarks(s); ThreadFacts(s, st.t);
  }

  /** The value a consumer returns is the item its mark removed: claim number k was made when exactly k
      claims existed, and item number k in tail-exchange order is what is returned, once. */
  lemma ReturnsWhatItClaimed(s: State, t: Tid)
    requires Reachable(s) && Enabled(s, DRelease(t)) && Safe(s, DRelease(t))
    ensures var k := s.pcs[t].k;
            && k < |s.claims| && s.claims[k] == t
            && k < |s.hist| && s.pcs[t].tat.v == s.hist[k].data
            && k !in s.rets
            && Apply(s, DRelease(t)).rets == s.rets[k := s.hist[k].data]
  {
    ReachableInv(s);
    ThreadFacts(s, t);
  }

  lemma StepGrows(s: State, s': State)
    requires Inv(s) && Next(s, s')
    ensures Grown(s, s')
  {
    var st :| Enabled(s, st) && Safe(s, st) && s' == Apply(s, st);
    StepHistory(s, st);
    ThreadFacts(s, st.t);
  }

  ghost predicate Grown(s: State, s': State) {
    && s.hist <= s'.hist && s.claims <= s'.claims
    && forall k :: k in s.rets ==> k in s'.rets && s'.rets[k] == s.rets[k]
  }

  /** Histories only grow, so "number k" means the same item and the same claim for the rest of the run. */
  lemma HistoryGrows(s: State, s': State)
    requires Reachable(s) && Runs.Reached((x: State) => x == s, Next, s')
    ensures Grown(s, s')
  {
    ReachableInv(s);
    forall x, x' | (Inv(x) && Grown(s, x)) && Next(x, x') ensures Inv(x') && Grown(s, x') {
      NextKeepsInv(x, x');
      StepGrows(x, x');
    }
    Runs.Induction((x: State) => x == s, Next, (x: State) => Inv(x) && Grown(s, x), s');
  }

  /** After a mark and until the marker itself empties the list, the tail is not NULL: the NULL exit
      after the second tail load is never taken. */
  lemma TailStaysSetWhileMarked(s: State, t: Tid)
    requires Reachable(s) && t in s.pcs && s.pcs[t].Held?
    ensures s.tail != 0 && s.head == Word(s.pcs[t].h, true)
  {
    ReachableInv(s);
    Landmarks(s);
    ThreadFacts(s, t);
  }

  /** The last head CAS of a consumer. With a successor it always succeeds; after emptying the list it fails
      if and only if a producer has inserted the next node and already published it. */
  lemma LastCasFailsExactlyWhenPublished(s: State, t: Tid)
    requires Reachable(s)
    ensures Enabled(s, DSwingHead(t)) ==> s.head == Word(s.pcs[t].h, true)
    ensures Enabled(s, DUnmark(t)) ==> (s.head != Word(s.pcs[t].h, true) <==> Published(s, s.pcs[t].k + 1))
  {
    ReachableInv(s);
    Landmarks(s);
    ThreadFacts(s, t);
  }

  // ---------------------------------------------------------------- progress

  /** The one step that a thread inside an operation takes next. */
  function NextStep(s: State, t: Tid): Step
    requires t in s.pcs
  {
    match s.pcs[t]
    case Ready(_, _) => EExchange(t)
    case Link(_, _, _) => EPublish(t)
    case Scan(at) => (match at case AtTail => DLoadTail(t) case AtHead => DLoadHead(t) case AtMark(_) => DMark(t))
    case Held(_, _, at) =>
      (match at
       case AtNext => DLoadNext(t)
       case AtCheck(_) => DReloadTail(t)
       case AtZero => DZeroTail(t)
       case AtSpin => DAwaitNext(t)
       case AtSwing(_) => DSwingHead(t))
    case Took(_, _, at) =>
      (match at case AtUnmark => DUnmark(t) case AtRead => DReadData(t) case AtFree(_) => DRelease(t))
  }

  /** A thread inside an operation has no other step than its next one. */
  lemma OnlyNextStep(s: State, st: Step)
    requires Enabled(s, st) && st.t in s.pcs
    ensures st == NextStep(s, st.t)
  {
  }

  // How many of its own steps a thread is away from the end of its operation if nobody else moves.
  function Rank(s: State, pc: PC): nat {
    match pc
    case Ready(_, _) => 1
    case Link(_, _, _) => 0
    case Scan(at) =>
      (match at
       case AtTail => if s.tail == 0 then 0 else 9
       case AtHead => 8
       case AtMark(h) => if s.head == Word(h, false) then 7 else 10)
    case Held(_, _, at) =>
      (match at case AtNext => 6 case AtCheck(_) => 5 case AtZero => 4 case AtSpin => 3 case AtSwing(_) => 2)
    case Took(_, _, at) => (match at case AtUnmark => 2 case AtRead => 1 case AtFree(_) => 0)
  }

  /** The two waits: for a head that is neither NULL nor marked while the queue is not empty, and for the successor. */
  predicate Waits(s: State, t: Tid) {
    && t in s.pcs
    && ((s.pcs[t] == Scan(AtHead) && s.tail != 0 && (s.head.addr == 0 || s.head.mark))
        || (s.pcs[t].Held? && s.pcs[t].hat.AtSpin? && s.pcs[t].h in s.heap && s.heap[s.pcs[t].h].next == 0))
  }

  predicate Advances(s: State, t: Tid)
    requires t in s.pcs
  {
    && Enabled(s, NextStep(s, t)) && Safe(s, NextStep(s, t))
    && var s' := Apply(s, NextStep(s, t)); t !in s'.pcs || Rank(s', s'.pcs[t]) < Rank(s, s.pcs[t])
  }

  /** A thread that does not wait comes closer to the end of its operation with every step it takes. */
  lemma StepsAdvance(s: State, t: Tid)
    requires Reachable(s) && t in s.pcs && !Waits(s, t)
    ensures Advances(s, t)
  {
    ReachableInv(s);
    Landmarks(s); ThreadFacts(s, t);
    match s.pcs[t]
    case Scan(_) => ScanAdvances(s, t);
    case Held(_, _, _) => HolderAdvances(s, t);
    case _ => OtherAdvances(s, t);
  }

  lemma ScanAdvances(s: State, t: Tid)
    requires NearThread(s, t) && t in s.pcs && !Waits(s, t) && s.pcs[t].Scan?
    ensures Advances(s, t)
  {
  }

  lemma HolderAdvances(s: State, t: Tid)
    requires Near(s) && NearThread(s, t) && t in s.pcs && !Waits(s, t) && s.pcs[t].Held?
    ensures Advances(s, t)
  {
  }

  lemma OtherAdvances(s: State, t: Tid)
    requires NearThread(s, t) && t in s.pcs && !s.pcs[t].Scan? && !s.pcs[t].Held?
    ensures Advances(s, t)
  {
  }

  /** No deadlock: while a thread is inside an operation, some thread does not wait. */
  lemma SomeoneAdvances(s: State, t: Tid) returns (u: Tid)
    requires Reachable(s) && t in s.pcs
    ensures u in s.pcs && !Waits(s, u)
  {
    ReachableInv(s);
    Landmarks(s); ThreadFacts(s, t);
    u := t;
    if Waits(s, t) {
      u := match s.hs case Marked(m) => m case Stale(m) => m case Plain => s.hist[s.cnt].who;
      if Waits(s, u) {
        ThreadFacts(s, u);
        assert LinkOk(s, s.cnt + 1);
        u := s.hist[s.cnt + 1].who;
      }
    }
  }

  /** No node is leaked: an empty queue with nobody inside has nothing allocated. */
  lemma QuietMeansFreed(s: State, a: Addr)
    requires Reachable(s) && s.pcs == map[] && a in s.heap
    ensures exists k :: Live(s, k) && s.hist[k].addr == a
  {
    ReachableInv(s);
    assert NodeOk(s, a);
  }

  // ---------------------------------------------------------------- concrete runs

  // One published item; the same, marked by consumer 1; and emptied by consumer 1.
  function OneItem(v: Data): State {
    State(Word(1, false), 1, map[1 := Node(v, 0, Listed(0))], map[], [Rec(2, 1, v)], 0, Plain, [], map[])
  }

  function MarkedItem(v: Data): State {
    OneItem(v).(head := Word(1, true), hs := Marked(1), claims := [1], pcs := map[1 := Held(1, 0, AtNext)])
  }

  function Emptied(v: Data): State {
    State(Word(1, true), 0, map[1 := Node(v, 0, Claimed(1))], map[1 := Took(1, 0, AtUnmark)],
          [Rec(2, 1, v)], 1, Stale(1), [1], map[])
  }

  lemma OneItemIsReachable(v: Data)
    ensures Reachable(OneItem(v))
  {
    Runs.Start(Init, Next, INIT_STATE);
    ReachStep(INIT_STATE, EAlloc(2, v, 1));
    var s1 := Apply(INIT_STATE, EAlloc(2, v, 1));
    ReachStep(s1, EExchange(2));
    var s2 := Apply(s1, EExchange(2));
    ReachStep(s2, EPublish(2));
    assert Apply(s2, EPublish(2)) == OneItem(v);
  }

  lemma MarkedItemIsReachable(v: Data)
    ensures Reachable(MarkedItem(v))
  {
    OneItemIsReachable(v);
    ReachStep(OneItem(v), DStart(1));
    var s4 := Apply(OneItem(v), DStart(1));
    ReachStep(s4, DLoadTail(1));
    var s5 := Apply(s4, DLoadTail(1));
    ReachStep(s5, DLoadHead(1));
    var s6 := Apply(s5, DLoadHead(1));
    ReachStep(s6, DMark(1));
    assert Apply(s6, DMark(1)) == MarkedItem(v);
  }

  lemma EmptiedIsReachable(v: Data)
    ensures Reachable(Emptied(v))
  {
    MarkedItemIsReachable(v);
    ReachStep(MarkedItem(v), DLoadNext(1));
    var s8 := Apply(MarkedItem(v), DLoadNext(1));
    ReachStep(s8, DReloadTail(1));
    var s9 := Apply(s8, DReloadTail(1));
    ReachStep(s9, DZeroTail(1));
    assert Apply(s9, DZeroTail(1)) == Emptied(v);
  }

  /** Enqueue v on an empty queue, then dequeue: v comes back, and nothing stays behind. */
  lemma EnqueueThenDequeue(v: Data)
    ensures Reachable(State(NULL_WORD, 0, map[], map[], [Rec(2, 1, v)], 1, Plain, [1], map[0 := v]))
  {
    EmptiedIsReachable(v);
    ReachStep(Emptied(v), DUnmark(1));
    var s1 := Apply(Emptied(v), DUnmark(1));
    ReachStep(s1, DReadData(1));
    var s2 := Apply(s1, DReadData(1));
    ReachStep(s2, DRelease(1));
    assert Apply(s2, DRelease(1)) == State(NULL_WORD, 0, map[], map[], [Rec(2, 1, v)], 1, Plain, [1], map[0 := v]);
  }

  /** The last head CAS can fail, so the abort of `ev_queue` at this place is reachable: consumer 1 empties the
      list, and producer 2 inserts and publishes a node before consumer 1 swings the head. */
  lemma LastCasCanFail() returns (s: State)
    ensures Reachable(s) && Enabled(s, DUnmark(1)) && s.head != Word(s.pcs[1].h, true)
  {
    EmptiedIsReachable(5);
    ReachStep(Emptied(5), EAlloc(2, 6, 2));
    var s1 := Apply(Emptied(5), EAlloc(2, 6, 2));
    ReachStep(s1, EExchange(2));
    var s2 := Apply(s1, EExchange(2));
    ReachStep(s2, EPublish(2));
    s := Apply(s2, EPublish(2));
  }
}
