/** The lock-free stack with a mark bit in the head word (`ev_stack`).

    A push prepends with a CAS on the head, clearing any mark it saw.  A pop marks the head,
    reads the first node's `next` and swings the head to it with a second CAS; a push, or a
    second popper that marked the same node, may get in between.  Nodes are never freed by this
    code.  Every atomic operation is one step and any number of threads interleave.  Fields
    after `// history`, a node's `own` and the `k` of `Reading` do not exist in the program. */
module MarkedStack {
  import Runs

  type Tid = nat
  type Addr = nat // 0 is NULL
  type Data = int

  datatype Word = Word(addr: Addr, mark: bool)
  datatype Owner = Private(t: Tid) | Stacked(i: nat) | Popped(k: nat)
  datatype Node = Node(data: Data, next: Word, own: Owner)
  datatype Pop = Pop(who: Tid, addr: Addr, data: Data)

  datatype PC =
    | Pushing(v: Data)             // about to load the head
    | Building(v: Data, was: Word) // head loaded, node not built yet
    | Prepend(a: Addr, v: Data, was: Word)  // node built on top of `was`, about to CAS the head
    | Loading                      // a pop about to load the head
    | Marking(h: Addr)             // about to CAS the head from h to marked h
    | Peeking(h: Addr)             // marked, about to read h->next
    | Swinging(h: Addr, n: Word)   // about to CAS the head from marked h to n
    | Reading(h: Addr, k: nat)     // h is off the stack by pop k, about to read its data and return it

  datatype State = State(
    head: Word, heap: map<Addr, Node>, pcs: map<Tid, PC>,
    // history
    items: seq<Addr>,   // the nodes on the stack, bottom first
    marker: Tid,        // the thread that set the current mark
    pops: seq<Pop>,     // every node removed, in order
    rets: map<nat, Data>)   // pop number -> value returned

  datatype Step =
    | PStart(t: Tid, v: Data) | PLoad(t: Tid) | PBuild(t: Tid, a: Addr) | PCas(t: Tid)
    | QStart(t: Tid) | QLoad(t: Tid) | QMark(t: Tid) | QNext(t: Tid) | QSwing(t: Tid) | QReturn(t: Tid)

  const NULL_WORD := Word(0, false)
  const INIT_STATE := State(NULL_WORD, map[], map[], [], 0, [], map[])

  predicate Init(s: State) { s == INIT_STATE }

  predicate Enabled(s: State, st: Step) {
    && (st.PStart? || st.QStart? || st.t in s.pcs)
    && match st
       case PStart(t, v) => t !in s.pcs
       case PLoad(t) => s.pcs[t].Pushing?
       case PBuild(t, a) => s.pcs[t].Building? && a != 0 && a !in s.heap
       case PCas(t) => s.pcs[t].Prepend?
       case QStart(t) => t !in s.pcs
       case QLoad(t) => s.pcs[t].Loading?
       case QMark(t) => s.pcs[t].Marking?
       case QNext(t) => s.pcs[t].Peeking?
       case QSwing(t) => s.pcs[t].Swinging?
       case QReturn(t) => s.pcs[t].Reading?
  }

  /** Every node the step reads or writes exists. */
  predicate Safe(s: State, st: Step)
    requires Enabled(s, st)
  {
    st.t in s.pcs ==>
      match s.pcs[st.t]
      case Prepend(a, _, _) => a in s.heap
      case Peeking(h) => h in s.heap
      case Swinging(h, _) => h in s.heap
      case Reading(h, _) => h in s.heap
      case _ => true
  }

  function Goto(s: State, t: Tid, pc: PC): State { s.(pcs := s.pcs[t := pc]) }

  function Apply(s: State, st: Step): State
    requires Enabled(s, st) && Safe(s, st)
  {
    match st
    case PStart(t, v) => Goto(s, t, Pushing(v))
    case PLoad(t) => Goto(s, t, Building(s.pcs[t].v, s.head))
    case PBuild(t, a) =>
      var pc := s.pcs[t];
      Goto(s.(heap := s.heap[a := Node(pc.v, Word(pc.was.addr, false), Private(t))]), t, Prepend(a, pc.v, pc.was))
    case PCas(t) =>
      var pc := s.pcs[t];
      if s.head == pc.was
      then s.(head := Word(pc.a, false), items := s.items + [pc.a], pcs := s.pcs - {t},
              heap := s.heap[pc.a := s.heap[pc.a].(own := Stacked(|s.items|))])
      else Goto(s.(heap := s.heap[pc.a := s.heap[pc.a].(next := Word(s.head.addr, false))]), t,
            Prepend(pc.a, pc.v, s.head))
    case QStart(t) => Goto(s, t, Loading)
    case QLoad(t) =>
      if s.head == NULL_WORD then s.(pcs := s.pcs - {t})
      else if s.head.mark then s
      else Goto(s, t, Marking(s.head.addr))
    case QMark(t) =>
      var h := s.pcs[t].h;
      if s.head == Word(h, false)
      then Goto(s.(head := Word(h, true), marker := t), t, Peeking(h))
      else Goto(s, t, Loading)
    case QNext(t) => Goto(s, t, Swinging(s.pcs[t].h, s.heap[s.pcs[t].h].next))
    case QSwing(t) =>
      var pc := s.pcs[t];
      if s.head == Word(pc.h, true)
      then Goto(s.(head := pc.n, items := if s.items == [] then [] else s.items[..|s.items| - 1],
                   pops := s.pops + [Pop(t, pc.h, s.heap[pc.h].data)],
                   heap := s.heap[pc.h := s.heap[pc.h].(own := Popped(|s.pops|))]), t, Reading(pc.h, |s.pops|))
      else Goto(s, t, Loading)
    case QReturn(t) =>
      s.(rets := s.rets[s.pcs[t].k := s.heap[s.pcs[t].h].data], pcs := s.pcs - {t})
  }

  // ---------------------------------------------------------------- invariant

  function Below(s: State, i: int): Word
    requires i <= |s.items|
  {
    if i <= 0 then NULL_WORD else Word(s.items[i - 1], false)
  }

  predicate ItemOk(s: State, i: nat)
    requires i < |s.items|
  {
    var a := s.items[i];
    a != 0 && a in s.heap && s.heap[a].own == Stacked(i) && s.heap[a].next == Below(s, i)
  }

  /** The head shows the top of the stack; a mark on it belongs to a popper between its two CASes. */
  predicate HeadOk(s: State) {
    && s.head.addr == Below(s, |s.items|).addr
    && (s.head.mark ==> s.items != [] && s.marker in s.pcs && Between(s.pcs[s.marker], s.head.addr))
  }

  predicate Between(pc: PC, h: Addr) { (pc.Peeking? || pc.Swinging?) && pc.h == h }

  // A node that has been on the stack.
  predicate Seen(s: State, h: Addr) { h != 0 && h in s.heap && !s.heap[h].own.Private? }

  predicate ThreadOk(s: State, t: Tid)
    requires t in s.pcs
  {
    match s.pcs[t]
    case Prepend(a, v, was) => a != 0 && a in s.heap && s.heap[a] == Node(v, Word(was.addr, false), Private(t))
    case Marking(h) => Seen(s, h)
    case Peeking(h) => Seen(s, h)
    case Swinging(h, n) => Seen(s, h) && n == s.heap[h].next
    case Reading(h, k) =>
      Seen(s, h) && s.heap[h].own == Popped(k) && k < |s.pops| && s.pops[k] == Pop(t, h, s.heap[h].data) && k !in s.rets
    case _ => true
  }

  // The node of pop k is still there and was not popped again.
  predicate PopOk(s: State, k: nat)
    requires k < |s.pops|
  {
    var p := s.pops[k];
    p.addr in s.heap && s.heap[p.addr].own == Popped(k) && s.heap[p.addr].data == p.data
  }

  // No next pointer carries a mark.
  predicate NextsOk(s: State) { forall a :: a in s.heap ==> !s.heap[a].next.mark }

  predicate ReturnsOk(s: State) { forall k :: k in s.rets ==> k < |s.pops| && s.rets[k] == s.pops[k].data }

  predicate Inv(s: State) {
    && HeadOk(s) && NextsOk(s) && ReturnsOk(s)
    && (forall k {:trigger PopOk(s, k)} :: 0 <= k < |s.pops| ==> PopOk(s, k))
    && (forall i {:trigger ItemOk(s, i)} :: 0 <= i < |s.items| ==> ItemOk(s, i))
    && (forall t {:trigger ThreadOk(s, t)} :: t in s.pcs ==> ThreadOk(s, t))
  }

  predicate Near(s: State, t: Tid) {
    && HeadOk(s) && |s.pops| !in s.rets
    && (s.items != [] ==> ItemOk(s, |s.items| - 1))
    && (t in s.pcs ==> ThreadOk(s, t))
  }

  lemma Facts(s: State, t: Tid)
    requires Inv(s)
    ensures Near(s, t)
  {
    if s.items != [] { assert ItemOk(s, |s.items| - 1); }
    assert t in s.pcs ==> ThreadOk(s, t);
  }

  lemma EnabledIsSafe(s: State, st: Step)
    requires Inv(s) && Enabled(s, st)
    ensures Safe(s, st)
  {
    Facts(s, st.t);
  }

  predicate ByPusher(st: Step) { st.PStart? || st.PLoad? || st.PBuild? || st.PCas? }

  lemma HeadKept(s: State, st: Step)
    requires Near(s, st.t) && Enabled(s, st) && Safe(s, st)
    ensures HeadOk(Apply(s, st))
    ensures st.t in Apply(s, st).pcs ==> ThreadOk(Apply(s, st), st.t)
  {
  }

  lemma ItemKept(s: State, st: Step, i: nat)
    requires Near(s, st.t) && Enabled(s, st) && Safe(s, st) && i < |Apply(s, st).items|
    requires i < |s.items| ==> ItemOk(s, i)
    ensures ItemOk(Apply(s, st), i)
  {
  }

  lemma PopKept(s: State, st: Step, k: nat)
    requires Near(s, st.t) && Enabled(s, st) && Safe(s, st) && k < |Apply(s, st).pops|
    requires k < |s.pops| ==> PopOk(s, k)
    ensures PopOk(Apply(s, st), k)
  {
  }

  lemma ReturnsKept(s: State, st: Step)
    requires Near(s, st.t) && NextsOk(s) && ReturnsOk(s) && Enabled(s, st) && Safe(s, st)
    ensures NextsOk(Apply(s, st)) && ReturnsOk(Apply(s, st))
  {
  }

  lemma OtherBesidePusher(s: State, st: Step, u: Tid)
    requires Near(s, st.t) && Near(s, u) && Enabled(s, st) && Safe(s, st) && u in s.pcs && u != st.t
    requires ByPusher(st)
    ensures u in Apply(s, st).pcs && ThreadOk(Apply(s, st), u)
  {
  }

  lemma OtherBesidePopper(s: State, st: Step, u: Tid)
    requires Near(s, st.t) && Near(s, u) && Enabled(s, st) && Safe(s, st) && u in s.pcs && u != st.t
    requires !ByPusher(st)
    ensures u in Apply(s, st).pcs && ThreadOk(Apply(s, st), u)
  {
  }

  lemma OtherKept(s: State, st: Step, u: Tid)
    requires Near(s, st.t) && Near(s, u) && Enabled(s, st) && Safe(s, st) && u in s.pcs && u != st.t
    ensures u in Apply(s, st).pcs && ThreadOk(Apply(s, st), u)
  {
    if ByPusher(st) { OtherBesidePusher(s, st, u); } else { OtherBesidePopper(s, st, u); }
  }

  lemma StepKeepsInv(s: State, st: Step)
    requires Inv(s) && Enabled(s, st) && Safe(s, st)
    ensures Inv(Apply(s, st))
  {
    var s' := Apply(s, st);
    Facts(s, st.t);
    HeadKept(s, st);
    ReturnsKept(s, st);
    forall k | 0 <= k < |s'.pops| ensures PopOk(s', k) {
      if k < |s.pops| { assert PopOk(s, k); }
      PopKept(s, st, k);
    }
    forall i | 0 <= i < |s'.items| ensures ItemOk(s', i) {
      if i < |s.items| { assert ItemOk(s, i); }
      ItemKept(s, st, i);
    }
    forall u | u in s'.pcs ensures ThreadOk(s', u) {
      if u != st.t { Facts(s, u); OtherKept(s, st, u); }
    }
  }

  // ---------------------------------------------------------------- results over whole runs

  /** One step of some thread. Only safe steps are applied; EnabledIsSafe shows that this excludes none. */
  ghost predicate Next(s: State, s': State) {
    exists st :: Enabled(s, st) && Safe(s, st) && s' == Apply(s, st)
  }

  /** The states that some interleaving reaches. */
  ghost predicate Reachable(s: State) { Runs.Reached(Init, Next, s) }

  lemma NextKeepsInv(s: State, s': State)
    requires Inv(s) && Next(s, s')
    ensures Inv(s')
  {
    var st :| Enabled(s, st) && Safe(s, st) && s' == Apply(s, st);
    StepKeepsInv(s, st);
  }

  lemma ReachStep(s: State, st: Step)
    requires Reachable(s) && Enabled(s, st) && Safe(s, st)
    ensures Reachable(Apply(s, st))
  {
    assert Next(s, Apply(s, st));
    Runs.Extend(Init, Next, s, Apply(s, st));
  }

  lemma ReachableInv(s: State)
    requires Reachable(s)
    ensures Inv(s)
  {
    forall s, s' | Inv(s) && Next(s, s') ensures Inv(s') { NextKeepsInv(s, s'); }
    Runs.Induction(Init, Next, Inv, s);
  }

  /** The abstract stack, bottom first. */
  function Contents(s: State): (r: seq<Data>)
    ensures |r| == |s.items|
  {
    seq(|s.items|, i requires 0 <= i < |s.items| => if s.items[i] in s.heap then s.heap[s.items[i]].data else 0)
  }

  predicate Pushes(s: State, st: Step)
    requires Enabled(s, st)
  {
    st.PCas? && s.head == s.pcs[st.t].was
  }

  predicate Pops(s: State, st: Step)
    requires Enabled(s, st)
  {
    st.QSwing? && s.head == Word(s.pcs[st.t].h, true)
  }

  /** Each step is a step of one LIFO stack: a successful push CAS adds its argument on top, a successful
      second pop CAS removes exactly the top, whoever set the mark it consumes; nothing else changes
      the stack, and an empty answer is given only when it is empty. */
  lemma StepRefinesLifo(s: State, st: Step)
    requires Reachable(s) && Enabled(s, st) && Safe(s, st)
    ensures var s' := Apply(s, st);
            && (Pushes(s, st) ==> Contents(s') == Contents(s) + [s.pcs[st.t].v])
            && (Pops(s, st) ==>
                  s.items != [] && s'.pops == s.pops + [Pop(st.t, s.pcs[st.t].h, Contents(s)[|s.items| - 1])])
            && (Pops(s, st) ==> Contents(s) == Contents(s') + [s.heap[s.pcs[st.t].h].data])
            && (!Pushes(s, st) && !Pops(s, st) ==> Contents(s') == Contents(s))
    ensures st.QLoad? && st.t !in Apply(s, st).pcs ==> Contents(s) == []
  {
    ReachableInv(s);
    forall i | 0 <= i < |s.items| ensures s.items[i] in s.heap { assert ItemOk(s, i); }
    DataKept(s, st);
    Facts(s, st.t);
    ItemsStep(s, st);
    SameContents(s, Apply(s, st));
  }

  lemma ItemsStep(s: State, st: Step)
    requires Enabled(s, st) && Safe(s, st) && Near(s, st.t)
    ensures var s' := Apply(s, st);
            && (Pushes(s, st) ==> s'.items == s.items + [s.pcs[st.t].a])
            && (Pops(s, st) ==> s.items == s'.items + [s.pcs[st.t].h])
            && (!Pushes(s, st) && !Pops(s, st) ==> s'.items == s.items)
    ensures st.QLoad? && st.t !in Apply(s, st).pcs ==> s.items == []
  {
  }

  lemma SameContents(s: State, s': State)
    requires forall a :: a in s.heap ==> a in s'.heap && s'.heap[a].data == s.heap[a].data
    requires forall i :: 0 <= i < |s.items| ==> s.items[i] in s.heap
    ensures forall i :: 0 <= i < |s.items| && i < |s'.items| && s'.items[i] == s.items[i] ==>
                          Contents(s')[i] == Contents(s)[i]
  {
  }

  lemma DataKept(s: State, st: Step)
    requires Inv(s) && Enabled(s, st) && Safe(s, st)
    ensures forall a :: a in s.heap ==> a in Apply(s, st).heap && Apply(s, st).heap[a].data == s.heap[a].data
  {
  }

  /** Pop k returns the item its exchange removed, and has not returned before. */
  lemma PopReturnsWhatItRemoved(s: State, t: Tid)
    requires Reachable(s) && Enabled(s, QReturn(t)) && Safe(s, QReturn(t))
    ensures var k, h := s.pcs[t].k, s.pcs[t].h;
            && k < |s.pops| && s.pops[k] == Pop(t, h, s.heap[h].data) && k !in s.rets
            && Apply(s, QReturn(t)).rets == s.rets[k := s.pops[k].data]
  {
    ReachableInv(s);
    Facts(s, t);
  }

  /** Over the whole past no node was removed twice, and whatever was returned is what that pop removed. */
  lemma PopsAreOnce(s: State)
    requires Reachable(s)
    ensures forall i, j :: 0 <= i < j < |s.pops| ==> s.pops[i].addr != s.pops[j].addr
    ensures forall k :: k in s.rets ==> k < |s.pops| && s.rets[k] == s.pops[k].data
  {
    ReachableInv(s);
    forall i, j | 0 <= i < j < |s.pops| ensures s.pops[i].addr != s.pops[j].addr {
      assert PopOk(s, i) && PopOk(s, j);
    }
  }

  ghost predicate Grown(s: State, s': State) {
    && s.pops <= s'.pops
    && forall k :: k in s.rets ==> k in s'.rets && s'.rets[k] == s.rets[k]
  }

  lemma StepGrows(s: State, s': State)
    requires Inv(s) && Next(s, s')
    ensures Grown(s, s')
  {
    var st :| Enabled(s, st) && Safe(s, st) && s' == Apply(s, st);
    Facts(s, st.t);
    StepHistory(s, st);
  }

  lemma StepHistory(s: State, st: Step)
    requires Near(s, st.t) && Enabled(s, st) && Safe(s, st)
    ensures s.pops <= Apply(s, st).pops
    ensures forall k :: k in s.rets ==> k in Apply(s, st).rets && Apply(s, st).rets[k] == s.rets[k]
  {
  }

  /** Pops and returns are never forgotten or changed, so pop number k means the same for the rest of the run. */
  lemma HistoryGrows(s: State, s': State)
    requires Reachable(s) && Runs.Reached((x: State) => x == s, Next, s')
    ensures Grown(s, s')
  {
    ReachableInv(s);
    forall x, x' | (Inv(x) && Grown(s, x)) && Next(x, x') ensures Inv(x') && Grown(s, x') {
      NextKeepsInv(x, x');
      StepGrows(x, x');
    }
    Runs.Induction((x: State) => x == s, Next, (x: State) => Inv(x) && Grown(s, x), s');
  }

  /** No node, private, stacked or popped, ever has a mark in its next pointer, and a marked head always has a
      popper between its two CASes. */
  lemma MarksStayInTheHead(s: State)
    requires Reachable(s)
    ensures forall a :: a in s.heap ==> !s.heap[a].next.mark
    ensures s.head.mark ==> exists t :: t in s.pcs && Between(s.pcs[t], s.head.addr)
  {
    ReachableInv(s);
  }

  /** A push keeps its argument from the call to the CAS that inserts it. */
  lemma ArgumentIsKept(s: State, st: Step)
    requires Enabled(s, st) && Safe(s, st)
    ensures var s' := Apply(s, st);
            && (st.PStart? ==> st.t in s'.pcs && s'.pcs[st.t] == Pushing(st.v))
            && (st.PLoad? || st.PBuild? || (st.PCas? && !Pushes(s, st)) ==>
                  st.t in s'.pcs && (s'.pcs[st.t].Building? || s'.pcs[st.t].Prepend?) &&
                        s'.pcs[st.t].v == s.pcs[st.t].v)
  {
  }

  // ---------------------------------------------------------------- progress

  /** The one step that a thread inside push or pop takes next; `a` is the address that malloc would return. */
  function NextStep(s: State, t: Tid, a: Addr): Step
    requires t in s.pcs
  {
    match s.pcs[t]
    case Pushing(_) => PLoad(t)
    case Building(_, _) => PBuild(t, a)
    case Prepend(_, _, _) => PCas(t)
    case Loading => QLoad(t)
    case Marking(_) => QMark(t)
    case Peeking(_) => QNext(t)
    case Swinging(_, _) => QSwing(t)
    case Reading(_, _) => QReturn(t)
  }

  /** A thread inside an operation has no other step than its next one. */
  lemma OnlyNextStep(s: State, st: Step)
    requires Enabled(s, st) && st.t in s.pcs
    ensures exists a :: st == NextStep(s, st.t, a)
  {
    assert st == NextStep(s, st.t, if st.PBuild? then st.a else 0);
  }

  // How many of its own steps a thread is away from the end of its operation if nobody else moves.
  function Rank(s: State, pc: PC): nat {
    match pc
    case Pushing(_) => 3
    case Building(_, was) => 2
    case Prepend(_, _, was) => if s.head == was then 0 else 1
    case Loading => if s.head == NULL_WORD then 0 else 6
    case Marking(h) => if s.head == Word(h, false) then 5 else 7
    case Peeking(h) => if s.head == Word(h, true) then 4 else 9
    case Swinging(h, _) => if s.head == Word(h, true) then 3 else 8
    case Reading(_, _) => 0
  }

  /** The only wait: a pop that finds the head marked by another. */
  predicate Waits(s: State, t: Tid) { t in s.pcs && s.pcs[t].Loading? && s.head.mark }

  predicate Advances(s: State, t: Tid, a: Addr)
    requires t in s.pcs
  {
    && Enabled(s, NextStep(s, t, a)) && Safe(s, NextStep(s, t, a))
    && var s' := Apply(s, NextStep(s, t, a)); t !in s'.pcs || Rank(s', s'.pcs[t]) < Rank(s, s.pcs[t])
  }

  /** A thread that does not wait comes closer to the end of its operation with every step it takes. */
  lemma StepsAdvance(s: State, t: Tid, a: Addr)
    requires Reachable(s) && t in s.pcs && !Waits(s, t) && a != 0 && a !in s.heap
    ensures Advances(s, t, a)
  {
    ReachableInv(s);
    Facts(s, t);
    if s.pcs[t].Pushing? || s.pcs[t].Building? || s.pcs[t].Prepend? { PusherAdvances(s, t, a); }
    else { PopperAdvances(s, t, a); }
  }

  lemma PusherAdvances(s: State, t: Tid, a: Addr)
    requires Near(s, t) && t in s.pcs && a != 0 && a !in s.heap
    requires s.pcs[t].Pushing? || s.pcs[t].Building? || s.pcs[t].Prepend?
    ensures Advances(s, t, a)
  {
  }

  lemma PopperAdvances(s: State, t: Tid, a: Addr)
    requires Near(s, t) && t in s.pcs && !Waits(s, t)
    requires !s.pcs[t].Pushing? && !s.pcs[t].Building? && !s.pcs[t].Prepend?
    ensures Advances(s, t, a)
  {
  }

  /** No deadlock: while a thread is inside an operation, some thread does not wait. */
  lemma SomeoneAdvances(s: State, t: Tid) returns (u: Tid)
    requires Reachable(s) && t in s.pcs
    ensures u in s.pcs && !Waits(s, u)
  {
    ReachableInv(s);
    u := if Waits(s, t) then s.marker else t;
  }

  // ---------------------------------------------------------------- a concrete run

  function OnStack(v: Data): State {
    State(Word(1, false), map[1 := Node(v, NULL_WORD, Stacked(0))], map[], [1], 0, [], map[])
  }

  function Marked(v: Data): State {
    OnStack(v).(head := Word(1, true), marker := 2, pcs := map[2 := Peeking(1)])
  }

  function Swung(v: Data): State {
    State(NULL_WORD, map[1 := Node(v, NULL_WORD, Popped(0))], map[2 := Reading(1, 0)], [], 2, [Pop(2, 1, v)], map[])
  }

  lemma OnStackIsReachable(v: Data)
    ensures Reachable(OnStack(v))
  {
    Runs.Start(Init, Next, INIT_STATE);
    ReachStep(INIT_STATE, PStart(1, v));
    var s1 := Apply(INIT_STATE, PStart(1, v));
    ReachStep(s1, PLoad(1));
    var s2 := Apply(s1, PLoad(1));
    ReachStep(s2, PBuild(1, 1));
    var s3 := Apply(s2, PBuild(1, 1));
    ReachStep(s3, PCas(1));
    assert Apply(s3, PCas(1)) == OnStack(v);
  }

  lemma MarkedIsReachable(v: Data)
    ensures Reachable(Marked(v))
  {
    OnStackIsReachable(v);
    ReachStep(OnStack(v), QStart(2));
    var s1 := Apply(OnStack(v), QStart(2));
    ReachStep(s1, QLoad(2));
    var s2 := Apply(s1, QLoad(2));
    ReachStep(s2, QMark(2));
    assert Apply(s2, QMark(2)) == Marked(v);
  }

  lemma SwungIsReachable(v: Data)
    ensures Reachable(Swung(v))
  {
    MarkedIsReachable(v);
    ReachStep(Marked(v), QNext(2));
    var s1 := Apply(Marked(v), QNext(2));
    ReachStep(s1, QSwing(2));
    assert Apply(s1, QSwing(2)) == Swung(v);
  }

  /** Push v on an empty stack, then pop: v comes back and the stack is empty. */
  lemma PushThenPop(v: Data)
    ensures Reachable(Swung(v).(pcs := map[], rets := map[0 := v]))
  {
    SwungIsReachable(v);
    ReachStep(Swung(v), QReturn(2));
    assert Apply(Swung(v), QReturn(2)) == Swung(v).(pcs := map[], rets := map[0 := v]);
  }
}
