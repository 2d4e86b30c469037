/** The chunk list of `memory_buffer_list`: one producer thread appends nodes, one consumer thread
    reads and pops them, without locks.

    The producer exchanges the tail and then links the node behind the old tail, or, when the
    list was empty, re-loads the tail and stores it in the head.  The consumer pops without
    marking: it may zero the tail while the head still shows the popped node.  Every atomic
    operation is one step, and `new` may reuse freed addresses.  Fields after `// history`
    and a node's `own` do not exist in the program. */
module BufferList {
  import Runs

  type Addr = nat // 0 is NULL
  type Chunk = seq<int>

  datatype Owner = Private | Listed(k: nat) | Popped
  datatype Node = Node(chunk: Chunk, next: Addr, own: Owner)
  datatype Rec = Rec(addr: Addr, chunk: Chunk)

  datatype Producer =
    | PIdle
    | PReady(a: Addr, v: Chunk)  // node built for the chunk v
    | PLink(a: Addr, last: Addr) // tail exchanged, old tail not NULL
    | PTail(a: Addr)             // tail exchanged, list was empty: about to re-load the tail
    | PHead(a: Addr, w: Addr)    // about to store the loaded tail in the head

  datatype Consumer =
    | CIdle
    | CTail                      // pop_head: about to load the tail
    | CHead                      // tail was not NULL, waiting for the head
    | CNext(h: Addr)             // about to load h->next
    | CCas(h: Addr)              // next was NULL, about to CAS the tail to NULL
    | CSpin(h: Addr)             // tail CAS failed, waiting for h->next
    | CSwing(h: Addr, n: Addr)   // about to CAS the head from h to n
    | CGot(h: Addr)              // pop_head returned h, about to delete it
    | GTail                      // get_head: about to load the tail
    | GHead                      // tail was not NULL, about to load the head
    | GRetry                     // the head was NULL, about to load it again
    | GTail2(h: Addr)            // re-loaded the head, about to re-load the tail
    | GGot(h: Addr)              // holds a pointer to a listed node

  datatype State = State(
    head: Addr, tail: Addr, heap: map<Addr, Node>, prod: Producer, cons: Consumer,
    // history
    hist: seq<Rec>,   // every node, in the order of the tail exchanges
    cnt: nat,         // how many of them have been popped
    at: nat)          // position of the node that GGot points to

  datatype Step =
    | Add(v: Chunk, a: Addr) | Exchange | Link | LoadTail | StoreHead
    | Pop | PopTail | PopHead | PopNext | PopCas | PopSpin | PopSwing | Delete
    | Get | GetTail | GetHead | GetRetry | GetTail2 | Walk | Done

  const INIT_STATE := State(0, 0, map[], PIdle, CIdle, [], 0, 0)

  predicate Init(s: State) { s == INIT_STATE }

  predicate Enabled(s: State, st: Step) {
    match st
    case Add(v, a) => s.prod.PIdle? && a != 0 && a !in s.heap
    case Exchange => s.prod.PReady?
    case Link => s.prod.PLink?
    case LoadTail => s.prod.PTail?
    case StoreHead => s.prod.PHead?
    case Pop => s.cons.CIdle?
    case PopTail => s.cons.CTail?
    case PopHead => s.cons.CHead?
    case PopNext => s.cons.CNext?
    case PopCas => s.cons.CCas?
    case PopSpin => s.cons.CSpin?
    case PopSwing => s.cons.CSwing?
    case Delete => s.cons.CGot?
    case Get => s.cons.CIdle?
    case GetTail => s.cons.GTail?
    case GetHead => s.cons.GHead?
    case GetRetry => s.cons.GRetry?
    case GetTail2 => s.cons.GTail2?
    case Walk => s.cons.GGot?
    case Done => s.cons.GGot?
  }

  /** Every node the step links, reads, writes or frees is allocated. */
  predicate Safe(s: State, st: Step)
    requires Enabled(s, st)
  {
    match st
    case Exchange => s.prod.a in s.heap
    case Link => s.prod.last in s.heap
    case PopNext => s.cons.h in s.heap
    case PopCas => s.cons.h in s.heap
    case PopSpin => s.cons.h in s.heap
    case PopSwing => s.cons.h in s.heap
    case Delete => s.cons.h in s.heap
    case Walk => s.cons.h in s.heap
    case _ => true
  }

  // The first node leaves the list.
  function Unlist(s: State, h: Addr): State
    requires h in s.heap
  {
    s.(cnt := s.cnt + 1, heap := s.heap[h := s.heap[h].(own := Popped)])
  }

  function Apply(s: State, st: Step): State
    requires Enabled(s, st) && Safe(s, st)
  {
    match st
    case Add(v, a) => s.(heap := s.heap[a := Node(v, 0, Private)], prod := PReady(a, v))
    case Exchange =>
      var a := s.prod.a;
      s.(tail := a, hist := s.hist + [Rec(a, s.prod.v)],
         heap := s.heap[a := s.heap[a].(own := Listed(|s.hist|))],
         prod := if s.tail != 0 then PLink(a, s.tail) else PTail(a))
    case Link => s.(heap := s.heap[s.prod.last := s.heap[s.prod.last].(next := s.prod.a)], prod := PIdle)
    case LoadTail => s.(prod := PHead(s.prod.a, s.tail))
    case StoreHead => s.(head := s.prod.w, prod := PIdle)
    case Pop => s.(cons := CTail)
    case PopTail => s.(cons := if s.tail == 0 then CIdle else CHead)
    case PopHead => if s.head == 0 then s else s.(cons := CNext(s.head))
    case PopNext =>
      var n := s.heap[s.cons.h].next;
      s.(cons := if n == 0 then CCas(s.cons.h) else CSwing(s.cons.h, n))
    case PopCas =>
      if s.tail == s.cons.h then Unlist(s, s.cons.h).(tail := 0, cons := CSwing(s.cons.h, 0))
      else s.(cons := CSpin(s.cons.h))
    case PopSpin =>
      var n := s.heap[s.cons.h].next;
      if n == 0 then s else s.(cons := CSwing(s.cons.h, n))
    case PopSwing =>
      var s1 := if s.cons.n == 0 then s else Unlist(s, s.cons.h);
      s1.(head := if s.head == s.cons.h then s.cons.n else s.head, cons := CGot(s.cons.h))
    case Delete => s.(heap := s.heap - {s.cons.h}, cons := CIdle)
    case Get => s.(cons := GTail)
    case GetTail => s.(cons := if s.tail == 0 then CIdle else GHead)
    case GetHead => s.(cons := if s.head != 0 then GGot(s.head) else GRetry, at := s.cnt)
    case GetRetry => s.(cons := GTail2(s.head))
    case GetTail2 =>
      if s.tail == 0 then s.(cons := CIdle)
      else if s.cons.h != 0 then s.(cons := GGot(s.cons.h), at := s.cnt)
      else s.(cons := GRetry)
    case Walk =>
      var n := s.heap[s.cons.h].next;
      s.(cons := if n == 0 then CIdle else GGot(n), at := s.at + 1)
    case Done => s.(cons := CIdle)
  }

  // ---------------------------------------------------------------- invariant

  predicate Live(s: State, k: int) { s.cnt <= k < |s.hist| }

  predicate ListedOk(s: State, k: nat)
    requires k < |s.hist|
  {
    var a := s.hist[k].addr;
    a != 0 && a in s.heap && s.heap[a].own == Listed(k) && s.heap[a].chunk == s.hist[k].chunk
  }

  // The producer has exchanged the tail for the last node and not linked or published it yet.
  predicate Linking(s: State) { s.prod.PLink? }
  predicate Publishing(s: State) { s.prod.PTail? || s.prod.PHead? }

  predicate LinkOk(s: State, k: nat)
    requires 0 < k < |s.hist|
  {
    var p := s.hist[k - 1].addr;
    p in s.heap && s.heap[p].next == (if k == |s.hist| - 1 && Linking(s) then 0 else s.hist[k].addr)
  }

  predicate EndsOk(s: State) {
    && s.cnt <= |s.hist|
    && (s.cnt == |s.hist| ==> s.tail == 0)
    && (s.cnt < |s.hist| ==>
          var a := s.hist[|s.hist| - 1].addr; s.tail == a && a in s.heap && s.heap[a].next == 0)
  }

  /** The head shows the first node, is NULL while the first node is being published, and shows the
      popped node for a moment after the consumer zeroed the tail. */
  predicate HeadOk(s: State) {
    if s.cnt < |s.hist| && !Publishing(s) then s.head == s.hist[s.cnt].addr
    else if s.cons.CSwing? && s.cons.n == 0 then s.head == s.cons.h
    else s.head == 0
  }

  predicate ProducerOk(s: State) {
    match s.prod
    case PIdle => true
    case PReady(a, v) => a != 0 && a in s.heap && s.heap[a] == Node(v, 0, Private)
    case PLink(a, last) =>
      |s.hist| >= s.cnt + 2 && a == s.hist[|s.hist| - 1].addr && last == s.hist[|s.hist| - 2].addr
    case PTail(a) => |s.hist| == s.cnt + 1 && a == s.hist[s.cnt].addr
    case PHead(a, w) => |s.hist| == s.cnt + 1 && a == s.hist[s.cnt].addr && w == a
  }

  predicate First(s: State, h: Addr) { s.cnt < |s.hist| && h == s.hist[s.cnt].addr && !Publishing(s) }

  predicate ConsumerOk(s: State) {
    match s.cons
    case CHead => s.cnt < |s.hist|
    case CNext(h) => First(s, h)
    case CCas(h) => First(s, h)
    case CSpin(h) => First(s, h) && s.cnt + 1 < |s.hist|
    case CSwing(h, n) =>
      if n == 0
      then h != 0 && h in s.heap && s.heap[h].own == Popped && 0 < s.cnt <= |s.hist| &&
           s.heap[h].chunk == s.hist[s.cnt - 1].chunk
      else First(s, h) && s.cnt + 1 < |s.hist| && n == s.hist[s.cnt + 1].addr && h in s.heap && s.heap[h].next == n
    case CGot(h) => h != 0 && h in s.heap && s.heap[h].own == Popped && 0 < s.cnt <= |s.hist| &&
          s.heap[h].chunk == s.hist[s.cnt - 1].chunk
    case GHead => s.cnt < |s.hist|
    case GRetry => s.cnt < |s.hist|
    case GTail2(h) => s.cnt < |s.hist| && (h != 0 ==> First(s, h))
    case GGot(h) => Live(s, s.at) && h == s.hist[s.at].addr
    case _ => true
  }

  // Every allocated node is listed, or in the hands of the producer or the consumer.
  predicate NodeOk(s: State, a: Addr)
    requires a in s.heap
  {
    match s.heap[a].own
    case Private => s.prod.PReady? && s.prod.a == a
    case Listed(k) => Live(s, k) && s.hist[k].addr == a
    case Popped => (s.cons == CSwing(a, 0)) || s.cons == CGot(a)
  }

  predicate Inv(s: State) {
    && (forall a {:trigger NodeOk(s, a)} :: a in s.heap ==> NodeOk(s, a))
    && EndsOk(s) && HeadOk(s) && ProducerOk(s) && ConsumerOk(s) && s.cnt <= |s.hist|
    && (forall k {:trigger ListedOk(s, k)} :: s.cnt <= k < |s.hist| ==> ListedOk(s, k))
    && (forall k {:trigger LinkOk(s, k)} :: s.cnt < k < |s.hist| ==> LinkOk(s, k))
  }

  predicate Near(s: State) {
    && EndsOk(s) && HeadOk(s) && ProducerOk(s) && ConsumerOk(s)
    && (Live(s, s.cnt) ==> ListedOk(s, s.cnt) && ListedOk(s, |s.hist| - 1))
    && (Live(s, s.cnt + 1) ==>
          ListedOk(s, s.cnt + 1) && LinkOk(s, s.cnt + 1) && ListedOk(s, |s.hist| - 2) && LinkOk(s, |s.hist| - 1))
    && (Live(s, s.at) ==> ListedOk(s, s.at))
    && (Live(s, s.at) && Live(s, s.at + 1) ==> ListedOk(s, s.at + 1) && LinkOk(s, s.at + 1))
  }

  lemma Facts(s: State)
    requires Inv(s)
    ensures Near(s)
  {
    if Live(s, s.cnt) { assert ListedOk(s, s.cnt); assert ListedOk(s, |s.hist| - 1); }
    if Live(s, s.cnt + 1) {
      assert ListedOk(s, s.cnt + 1); assert LinkOk(s, s.cnt + 1); assert ListedOk(s, |s.hist| - 2);
      assert LinkOk(s, |s.hist| - 1);
    }
    if Live(s, s.at) { assert ListedOk(s, s.at); }
    if Live(s, s.at) && Live(s, s.at + 1) { assert ListedOk(s, s.at + 1); assert LinkOk(s, s.at + 1); }
  }

  lemma EnabledIsSafe(s: State, st: Step)
    requires Inv(s) && Enabled(s, st)
    ensures Safe(s, st)
  {
    Facts(s);
  }

  lemma ProducerEnds(s: State, st: Step)
    requires Near(s) && Enabled(s, st) && Safe(s, st)
    requires Produces(st)
    ensures EndsOk(Apply(s, st)) && HeadOk(Apply(s, st))
  {
  }

  lemma ConsumerEnds(s: State, st: Step)
    requires Near(s) && Enabled(s, st) && Safe(s, st)
    requires !Produces(st)
    ensures EndsOk(Apply(s, st)) && HeadOk(Apply(s, st))
  {
  }

  lemma EndsKept(s: State, st: Step)
    requires Near(s) && Enabled(s, st) && Safe(s, st)
    ensures EndsOk(Apply(s, st)) && HeadOk(Apply(s, st))
  {
    if Produces(st) { ProducerEnds(s, st); } else { ConsumerEnds(s, st); }
  }

  predicate Produces(st: Step) { st.Add? || st.Exchange? || st.Link? || st.LoadTail? || st.StoreHead? }

  predicate Pops(st: Step) {
    st.Pop? || st.PopTail? || st.PopHead? || st.PopNext? || st.PopCas? || st.PopSpin? || st.PopSwing? || st.Delete?
  }

  lemma ProducerKeptBySelf(s: State, st: Step)
    requires Near(s) && Enabled(s, st) && Safe(s, st)
    requires Produces(st)
    ensures ProducerOk(Apply(s, st))
  {
  }

  lemma ProducerKeptByConsumer(s: State, st: Step)
    requires Near(s) && Enabled(s, st) && Safe(s, st)
    requires !Produces(st)
    ensures ProducerOk(Apply(s, st))
  {
  }

  lemma ProducerKept(s: State, st: Step)
    requires Near(s) && Enabled(s, st) && Safe(s, st)
    ensures ProducerOk(Apply(s, st))
  {
    if Produces(st) { ProducerKeptBySelf(s, st); } else { ProducerKeptByConsumer(s, st); }
  }

  lemma ConsumerKeptByProducer(s: State, st: Step)
    requires Near(s) && Enabled(s, st) && Safe(s, st) && Produces(st)
    ensures ConsumerOk(Apply(s, st))
  {
  }

  lemma PopperKept(s: State, st: Step)
    requires Near(s) && Enabled(s, st) && Safe(s, st) && !Produces(st)
    requires Pops(st)
    ensures ConsumerOk(Apply(s, st))
  {
  }

  lemma GetterKept(s: State, st: Step)
    requires Near(s) && Enabled(s, st) && Safe(s, st) && !Produces(st)
    requires !Pops(st)
    ensures ConsumerOk(Apply(s, st))
  {
  }

  lemma ConsumerKept(s: State, st: Step)
    requires Near(s) && Enabled(s, st) && Safe(s, st) && !Produces(st)
    ensures ConsumerOk(Apply(s, st))
  {
    if Pops(st) { PopperKept(s, st); } else { GetterKept(s, st); }
  }

  lemma ListedKept(s: State, st: Step, k: nat)
    requires Near(s) && Enabled(s, st) && Safe(s, st) && Live(Apply(s, st), k)
    requires k < |s.hist| ==> ListedOk(s, k)
    ensures ListedOk(Apply(s, st), k)
  {
  }

  lemma ProducerLinks(s: State, st: Step, k: nat)
    requires Near(s) && Enabled(s, st) && Safe(s, st)
    requires 0 < k && Live(Apply(s, st), k) && Live(Apply(s, st), k - 1)
    requires ListedOk(s, k - 1) && (k < |s.hist| ==> LinkOk(s, k) && ListedOk(s, k))
    requires Produces(st)
    ensures LinkOk(Apply(s, st), k)
  {
  }

  lemma ConsumerLinks(s: State, st: Step, k: nat)
    requires Near(s) && Enabled(s, st) && Safe(s, st)
    requires 0 < k && Live(Apply(s, st), k) && Live(Apply(s, st), k - 1)
    requires ListedOk(s, k - 1) && (k < |s.hist| ==> LinkOk(s, k) && ListedOk(s, k))
    requires !Produces(st)
    ensures LinkOk(Apply(s, st), k)
  {
  }

  lemma LinkKept(s: State, st: Step, k: nat)
    requires Near(s) && Enabled(s, st) && Safe(s, st)
    requires 0 < k && Live(Apply(s, st), k) && Live(Apply(s, st), k - 1)
    requires ListedOk(s, k - 1) && (k < |s.hist| ==> LinkOk(s, k) && ListedOk(s, k))
    ensures LinkOk(Apply(s, st), k)
  {
    if Produces(st) { ProducerLinks(s, st, k); } else { ConsumerLinks(s, st, k); }
  }

  lemma NodeKept(s: State, st: Step, a: Addr)
    requires Near(s) && Enabled(s, st) && Safe(s, st) && a in Apply(s, st).heap
    requires a in s.heap ==> NodeOk(s, a)
    ensures NodeOk(Apply(s, st), a)
  {
  }

  lemma StepKeepsInv(s: State, st: Step)
    requires Inv(s) && Enabled(s, st) && Safe(s, st)
    ensures Inv(Apply(s, st))
  {
    var s' := Apply(s, st);
    Facts(s);
    EndsKept(s, st);
    ProducerKept(s, st);
    if Produces(st) { ConsumerKeptByProducer(s, st); } else { ConsumerKept(s, st); }
    forall a | a in s'.heap ensures NodeOk(s', a) {
      if a in s.heap { assert NodeOk(s, a); }
      NodeKept(s, st, a);
    }
    forall k | s'.cnt <= k < |s'.hist| ensures ListedOk(s', k) {
      if k < |s.hist| { assert ListedOk(s, k); }
      ListedKept(s, st, k);
    }
    forall k | s'.cnt < k < |s'.hist| ensures LinkOk(s', k) {
      assert ListedOk(s, k - 1);
      if k < |s.hist| { assert LinkOk(s, k); assert ListedOk(s, k); }
      LinkKept(s, st, k);
    }
  }

  // ---------------------------------------------------------------- results over whole runs

  /** One step of some thread. Only safe steps are applied; NoFreedNodeTouched shows that this excludes none. */
  ghost predicate Next(s: State, s': State) {
    exists st :: Enabled(s, st) && Safe(s, st) && s' == Apply(s, st)
  }

  /** The states that some interleaving reaches. */
  ghost predicate Reachable(s: State) { Runs.Reached(Init, Next, s) }

  lemma NextKeepsInv(s: State, s': State)
    requires Inv(s) && Next(s, s')
    ensures Inv(s')
  {
    var st :| Enabled(s, st) && Safe(s, st) && s' == Apply(s, st);
    StepKeepsInv(s, st);
  }

  lemma ReachableInv(s: State)
    requires Reachable(s)
    ensures Inv(s)
  {
    forall s, s' | Inv(s) && Next(s, s') ensures Inv(s') { NextKeepsInv(s, s'); }
    Runs.Induction(Init, Next, Inv, s);
  }

  /** In every interleaving, whatever either thread does next touches only allocated nodes. */
  lemma NoFreedNodeTouched(s: State, st: Step)
    requires Reachable(s) && Enabled(s, st)
    ensures Safe(s, st)
  {
    ReachableInv(s);
    EnabledIsSafe(s, st);
  }

  /** The abstract chunk sequence: what was appended and not yet popped. */
  function Chunks(s: State): seq<Chunk>
    requires s.cnt <= |s.hist|
  {
    ChunksOf(s.hist[s.cnt..])
  }

  function ChunksOf(rs: seq<Rec>): (r: seq<Chunk>)
    ensures |r| == |rs| && forall i :: 0 <= i < |rs| ==> r[i] == rs[i].chunk
  {
    seq(|rs|, i requires 0 <= i < |rs| => rs[i].chunk)
  }

  /** The step takes the first chunk out: the tail CAS that empties the list, or the head swing. */
  predicate Takes(s: State, st: Step)
    requires Enabled(s, st)
  {
    (st.PopCas? && s.tail == s.cons.h) || (st.PopSwing? && s.cons.n != 0)
  }

  /** Each step is a step of one sequence of chunks: a tail exchange appends the new chunk, a pop removes
      the first, nothing else changes it; NULL is returned only when it is empty. */
  lemma StepRefinesSequence(s: State, st: Step)
    requires Reachable(s) && Enabled(s, st) && Safe(s, st)
    ensures s.cnt <= |s.hist| && Apply(s, st).cnt <= |Apply(s, st).hist|
    ensures st.Exchange? ==> Chunks(Apply(s, st)) == Chunks(s) + [s.prod.v]
    ensures Takes(s, st) ==>
              Chunks(s) != [] && Chunks(Apply(s, st)) == Chunks(s)[1..] && s.heap[s.cons.h].chunk == Chunks(s)[0]
    ensures !st.Exchange? && !Takes(s, st) ==> Chunks(Apply(s, st)) == Chunks(s)
    ensures (st.PopTail? || st.GetTail?) && Apply(s, st).cons.CIdle? ==> Chunks(s) == []
  {
    ReachableInv(s);
    StepHistory(s, st);
    TakesFirst(s, st);
    if st.Exchange? {
      var r := Rec(s.prod.a, s.prod.v);
      assert (s.hist + [r])[s.cnt..] == s.hist[s.cnt..] + [r];
    } else if Takes(s, st) {
      assert s.hist[s.cnt..][1..] == s.hist[s.cnt + 1..];
    }
  }

  lemma StepHistory(s: State, st: Step)
    requires Enabled(s, st) && Safe(s, st)
    ensures var s' := Apply(s, st);
            && s'.hist == (if st.Exchange? then s.hist + [Rec(s.prod.a, s.prod.v)] else s.hist)
            && s'.cnt == (if Takes(s, st) then s.cnt + 1 else s.cnt)
            && (st.Add? ==> s'.prod == PReady(st.a, st.v))
  {
  }

  lemma TakesFirst(s: State, st: Step)
    requires Inv(s) && Enabled(s, st)
    ensures Takes(s, st) ==> s.cnt < |s.hist| && s.cons.h in s.heap && s.heap[s.cons.h].chunk == s.hist[s.cnt].chunk
    ensures (st.PopTail? || st.GetTail?) && s.tail == 0 ==> s.cnt == |s.hist|
  {
    Facts(s);
  }

  /** The node a pop hands out carries the chunk it took, and the re-load in add_node stores the new node:
      the tail cannot have changed since the exchange. */
  lemma PoppedNodeAndPublishedNode(s: State)
    requires Reachable(s)
    ensures s.cons.CGot? ==>
              0 < s.cnt <= |s.hist| && s.cons.h in s.heap && s.heap[s.cons.h].chunk == s.hist[s.cnt - 1].chunk
    ensures s.prod.PTail? ==> s.tail == s.prod.a
    ensures s.prod.PHead? ==> s.prod.w == s.prod.a
  {
    ReachableInv(s);
  }

  /** A pointer the consumer got from get_head and get_next is a node of the list, at its position. */
  lemma WalkStaysInTheList(s: State)
    requires Reachable(s) && s.cons.GGot?
    ensures s.cnt <= s.at < |s.hist| && s.cons.h == s.hist[s.at].addr && s.cons.h in s.heap
    ensures s.heap[s.cons.h].chunk == Chunks(s)[s.at - s.cnt]
  {
    ReachableInv(s);
    Facts(s);
  }

  /** While the consumer waits for the head the list is not empty, so its wait ends with the producer's store;
      and the re-check of the tail in get_head never finds it NULL. */
  lemma WaitsOnlyForThePublisher(s: State)
    requires Reachable(s) && (s.cons.CHead? || s.cons.GHead? || s.cons.GRetry? || s.cons.GTail2?)
    ensures s.tail != 0
    ensures s.head == 0 ==> s.prod.PTail? || s.prod.PHead?
    ensures s.cons.GTail2? && s.cons.h != 0 ==> Apply(s, GetTail2).cons == GGot(s.cons.h)
    ensures s.cons.GTail2? && s.cons.h == 0 ==> Apply(s, GetTail2).cons == GRetry
  {
    ReachableInv(s);
    Facts(s);
  }

  // ---------------------------------------------------------------- progress

  predicate Producing(s: State) { !s.prod.PIdle? }

  // Between a call and its return; after a get the caller holds a pointer.
  predicate Consuming(s: State) { !s.cons.CIdle? && !s.cons.GGot? }

  function ProducerStep(s: State): Step
    requires Producing(s)
  {
    match s.prod
    case PReady(_, _) => Exchange
    case PLink(_, _) => Link
    case PTail(_) => LoadTail
    case PHead(_, _) => StoreHead
  }

  function ConsumerStep(s: State): Step
    requires Consuming(s)
  {
    match s.cons
    case CTail => PopTail
    case CHead => PopHead
    case CNext(_) => PopNext
    case CCas(_) => PopCas
    case CSpin(_) => PopSpin
    case CSwing(_, _) => PopSwing
    case CGot(_) => Delete
    case GTail => GetTail
    case GHead => GetHead
    case GRetry => GetRetry
    case GTail2(_) => GetTail2
  }

  /** Producer and consumer have no other steps: each starts a call when it is idle, and inside one takes the next. */
  lemma OnlyNextStep(s: State, st: Step)
    requires Enabled(s, st)
    ensures if st.Add? then s.prod.PIdle?
            else if st.Pop? || st.Get? then s.cons.CIdle?
            else if st.Walk? || st.Done? then s.cons.GGot?
            else (Producing(s) && st == ProducerStep(s)) || (Consuming(s) && st == ConsumerStep(s))
  {
  }

  function ProducerRank(p: Producer): nat {
    match p case PIdle => 0 case PReady(_, _) => 3 case PLink(_, _) => 1 case PTail(_) => 2 case PHead(_, _) => 1
  }

  function ConsumerRank(c: Consumer): nat {
    match c
    case CIdle => 0
    case CTail => 7
    case CHead => 6
    case CNext(_) => 5
    case CCas(_) => 4
    case CSpin(_) => 3
    case CSwing(_, _) => 2
    case CGot(_) => 1
    case GTail => 6
    case GHead => 5
    case GRetry => 3
    case GTail2(h) => if h == 0 then 4 else 2
    case GGot(_) => 0
  }

  /** The consumer waits for the head, twice, and for the successor. */
  predicate Waits(s: State) {
    || (s.cons.CHead? && s.head == 0)
    || (s.cons.GRetry? && s.head == 0)
    || (s.cons.CSpin? && s.cons.h in s.heap && s.heap[s.cons.h].next == 0)
  }

  /** The producer never waits: every step of add_node brings it closer to its end. */
  lemma ProducerAdvances(s: State)
    requires Reachable(s) && Producing(s)
    ensures var st := ProducerStep(s);
            Enabled(s, st) && Safe(s, st) && ProducerRank(Apply(s, st).prod) < ProducerRank(s.prod)
  {
    ReachableInv(s);
    Facts(s);
  }

  /** While the consumer does not wait, every step of pop_head and get_head brings it closer to its end. */
  lemma ConsumerAdvances(s: State)
    requires Reachable(s) && Consuming(s) && !Waits(s)
    ensures var st := ConsumerStep(s);
            Enabled(s, st) && Safe(s, st) && ConsumerRank(Apply(s, st).cons) < ConsumerRank(s.cons)
  {
    ReachableInv(s);
    Facts(s);
  }

  /** No deadlock: when the consumer waits the producer is on its way to the store that ends the wait. */
  lemma WaitEndsWithProducer(s: State)
    requires Reachable(s) && Waits(s)
    ensures s.prod.PLink? || s.prod.PTail? || s.prod.PHead?
  {
    ReachableInv(s);
    Facts(s);
  }

  /** get_next goes on to the next node of the list; it returns NULL only at the last node, or before a node that the
      producer has not linked yet. */
  lemma WalkGoesOn(s: State)
    requires Reachable(s) && s.cons.GGot? && Safe(s, Walk)
    ensures var last := s.at + 1 >= |s.hist| || (s.at + 2 == |s.hist| && s.prod.PLink?);
            Apply(s, Walk).cons == if last then CIdle else GGot(s.hist[s.at + 1].addr)
  {
    ReachableInv(s);
    Facts(s);
    if Live(s, s.at + 1) { assert LinkOk(s, s.at + 1); assert ListedOk(s, s.at + 1); }
  }

  /** No node is leaked: with nobody inside, every allocated node is in the list. */
  lemma QuietMeansListed(s: State, a: Addr)
    requires Reachable(s) && s.prod.PIdle? && s.cons.CIdle? && a in s.heap
    ensures exists k :: Live(s, k) && s.hist[k].addr == a
  {
    ReachableInv(s);
    assert NodeOk(s, a);
  }

  // ---------------------------------------------------------------- a concrete run

  lemma ReachStep(s: State, st: Step)
    requires Reachable(s) && Enabled(s, st) && Safe(s, st)
    ensures Reachable(Apply(s, st))
  {
    assert Next(s, Apply(s, st));
    Runs.Extend(Init, Next, s, Apply(s, st));
  }

  function OneChunk(v: Chunk): State { State(1, 1, map[1 := Node(v, 0, Listed(0))], PIdle, CIdle, [Rec(1, v)], 0, 0) }

  function Popping(v: Chunk): State {
    State(1, 0, map[1 := Node(v, 0, Popped)], PIdle, CSwing(1, 0), [Rec(1, v)], 1, 0)
  }

  lemma OneChunkIsReachable(v: Chunk)
    ensures Reachable(OneChunk(v))
  {
    Runs.Start(Init, Next, INIT_STATE);
    ReachStep(INIT_STATE, Add(v, 1));
    var s1 := Apply(INIT_STATE, Add(v, 1));
    ReachStep(s1, Exchange);
    var s2 := Apply(s1, Exchange);
    ReachStep(s2, LoadTail);
    var s3 := Apply(s2, LoadTail);
    ReachStep(s3, StoreHead);
    assert Apply(s3, StoreHead) == OneChunk(v);
  }

  lemma PoppingIsReachable(v: Chunk)
    ensures Reachable(Popping(v))
  {
    OneChunkIsReachable(v);
    ReachStep(OneChunk(v), Pop);
    var s1 := Apply(OneChunk(v), Pop);
    ReachStep(s1, PopTail);
    var s2 := Apply(s1, PopTail);
    ReachStep(s2, PopHead);
    var s3 := Apply(s2, PopHead);
    ReachStep(s3, PopNext);
    var s4 := Apply(s3, PopNext);
    ReachStep(s4, PopCas);
    assert Apply(s4, PopCas) == Popping(v);
  }

  /** Add a chunk to an empty list, then pop: the chunk comes back, and deleting its node leaves nothing. */
  lemma AddThenPop(v: Chunk)
    ensures Reachable(State(0, 0, map[1 := Node(v, 0, Popped)], PIdle, CGot(1), [Rec(1, v)], 1, 0))
    ensures Reachable(State(0, 0, map[], PIdle, CIdle, [Rec(1, v)], 1, 0))
  {
    PoppingIsReachable(v);
    ReachStep(Popping(v), PopSwing);
    var s1 := Apply(Popping(v), PopSwing);
    assert s1 == State(0, 0, map[1 := Node(v, 0, Popped)], PIdle, CGot(1), [Rec(1, v)], 1, 0);
    ReachStep(s1, Delete);
    assert Apply(s1, Delete) == State(0, 0, map[], PIdle, CIdle, [Rec(1, v)], 1, 0);
  }

  /** get_head on a list of one chunk returns its node, which get_next finds to be the last; letting go of it changes
      nothing. */
  lemma AddThenLook(v: Chunk)
    ensures Reachable(OneChunk(v).(cons := GGot(1))) && OneChunk(v).heap[1].chunk == v
    ensures Apply(OneChunk(v).(cons := GGot(1)), Done) == OneChunk(v)
    ensures Apply(OneChunk(v).(cons := GGot(1)), Walk).cons == CIdle
  {
    OneChunkIsReachable(v);
    ReachStep(OneChunk(v), Get);
    var s1 := Apply(OneChunk(v), Get);
    ReachStep(s1, GetTail);
    var s2 := Apply(s1, GetTail);
    ReachStep(s2, GetHead);
    assert Apply(s2, GetHead) == OneChunk(v).(cons := GGot(1));
  }
}
