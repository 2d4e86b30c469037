/** The ticketed multi-lane queue `ev_pqueue`: N lanes (module TicketLane), the two ticket
    counters, and the two element counters `ub_count` and `lb_count` of the emptiness test.

    A thread is "in front" until it reaches its lane: an enqueue with its ticket taken goes to
    lane ticket mod N when it builds its node, a dequeue when it passes the lane's guard. */
module TicketQueue {
  import Runs
  import opened Counting
  import Lane = TicketLane

  type Tid = nat
  type Data = int

  datatype TestAt = AtLoad | AtDec | AtUndo | AtUb

  datatype PC =
    | Begun(v: Data)                             // ub_count raised
    | Numbered(v: Data, e: int, counted: bool)   // ticket taken; counted: lb_count raised
    | Test(at: TestAt)                           // a dequeue in the emptiness test
    | Won                                        // emptiness test passed
    | Drawn(d: int, lowered: bool)               // ticket taken; lowered: ub_count lowered

  datatype State = State(
    n: nat, lanes: seq<Lane.Lane>, enq: int, deq: int, ub: int, lb: int, front: map<Tid, PC>,
    // history
    enqs: seq<Lane.Enq>,   // the enqueue with ticket e
    deqs: seq<Tid>)        // the dequeue with ticket d

  datatype Step =
    | EBegin(t: Tid, v: Data) | ETicket(t: Tid) | ECount(t: Tid) | EJoin(t: Tid, a: Lane.Addr)
    | DBegin(t: Tid) | DLoadLb(t: Tid) | DDecLb(t: Tid) | DUndoLb(t: Tid) | DLoadUb(t: Tid)
    | DTicket(t: Tid) | DLower(t: Tid) | DJoin(t: Tid)
    | InLane(i: nat, lst: Lane.Step)

  ghost predicate Init(s: State) {
    && s.n > 0 && |s.lanes| == s.n
    && (forall i :: 0 <= i < s.n ==> s.lanes[i] == Lane.Init(s.n, i))
    && s.enq == s.deq == s.ub == s.lb == 0
    && s.front == map[] && s.enqs == [] && s.deqs == []
  }

  predicate Idle(s: State, t: Tid) {
    t !in s.front && forall i :: 0 <= i < |s.lanes| ==> t !in s.lanes[i].pcs
  }

  predicate Fresh(s: State, a: Lane.Addr) {
    a != 0 && forall i :: 0 <= i < |s.lanes| ==> a !in s.lanes[i].heap
  }

  predicate Shape(s: State) { s.n > 0 && |s.lanes| == s.n }

  predicate At(s: State, t: Tid, pc: PC) { t in s.front && s.front[t] == pc }

  predicate Enabled(s: State, st: Step) {
    && Shape(s)
    && match st
       case EBegin(t, v) => Idle(s, t)
       case DBegin(t) => Idle(s, t)
       case ETicket(t) => t in s.front && s.front[t].Begun?
       case ECount(t) => t in s.front && s.front[t].Numbered? && !s.front[t].counted
       case EJoin(t, a) => t in s.front && s.front[t].Numbered? && s.front[t].counted && Fresh(s, a)
       case DLoadLb(t) => At(s, t, Test(AtLoad))
       case DDecLb(t) => At(s, t, Test(AtDec))
       case DUndoLb(t) => At(s, t, Test(AtUndo))
       case DLoadUb(t) => At(s, t, Test(AtUb))
       case DTicket(t) => At(s, t, Won)
       case DLower(t) => t in s.front && s.front[t].Drawn? && !s.front[t].lowered
       case DJoin(t) =>
         && t in s.front && s.front[t].Drawn? && s.front[t].lowered
         && s.lanes[s.front[t].d % s.n].dg == s.front[t].d - s.n
       case InLane(i, lst) => i < s.n && !lst.EAlloc? && !lst.DEnter? && Lane.Enabled(s.lanes[i], lst)
  }

  /** The step as the lane sees it. */
  function LaneStep(s: State, st: Step): Lane.Step
    requires Enabled(s, st) && Reaches(st)
  {
    match st
    case EJoin(t, a) => Lane.EAlloc(t, s.front[t].e, s.front[t].v, a)
    case DJoin(t) => Lane.DEnter(t, s.front[t].d)
    case InLane(_, lst) => lst
  }

  function LaneIx(s: State, st: Step): nat
    requires Enabled(s, st) && Reaches(st)
    ensures LaneIx(s, st) < s.n
  {
    match st
    case EJoin(t, _) => s.front[t].e % s.n
    case DJoin(t) => s.front[t].d % s.n
    case InLane(i, _) => i
  }

  /** The step touches only allocated nodes, and a ticket that reaches a lane is new there. */
  predicate Safe(s: State, st: Step)
    requires Enabled(s, st)
  {
    Reaches(st) ==>
      && Lane.Enabled(s.lanes[LaneIx(s, st)], LaneStep(s, st))
      && Lane.Safe(s.lanes[LaneIx(s, st)], LaneStep(s, st))
  }

  function Goto(s: State, t: Tid, pc: PC): State { s.(front := s.front[t := pc]) }

  function Apply(s: State, st: Step): State
    requires Enabled(s, st) && Safe(s, st)
  {
    match st
    case EBegin(t, v) => Goto(s.(ub := s.ub + 1), t, Begun(v))
    case ETicket(t) =>
      Goto(s.(enq := s.enq + 1, enqs := s.enqs + [Lane.Enq(t, s.front[t].v)]), t, Numbered(s.front[t].v, s.enq, false))
    case ECount(t) => Goto(s.(lb := s.lb + 1), t, s.front[t].(counted := true))
    case DBegin(t) => Goto(s, t, Test(AtLoad))
    case DLoadLb(t) => Goto(s, t, Test(if s.lb > 0 then AtDec else AtUb))
    case DDecLb(t) => Goto(s.(lb := s.lb - 1), t, if s.lb <= 0 then Test(AtUndo) else Won)
    case DUndoLb(t) => Goto(s.(lb := s.lb + 1), t, Test(AtUb))
    case DLoadUb(t) => if 0 < s.ub then Goto(s, t, Test(AtLoad)) else s.(front := s.front - {t})
    case DTicket(t) => Goto(s.(deq := s.deq + 1, deqs := s.deqs + [t]), t, Drawn(s.deq, false))
    case DLower(t) => Goto(s.(ub := s.ub - 1), t, s.front[t].(lowered := true))
    case EJoin(t, _) => s.(front := s.front - {t}, lanes := Moved(s, st))
    case DJoin(t) => s.(front := s.front - {t}, lanes := Moved(s, st))
    case InLane(_, _) => s.(lanes := Moved(s, st))
  }

  predicate Reaches(st: Step) { st.EJoin? || st.DJoin? || st.InLane? }

  function Moved(s: State, st: Step): seq<Lane.Lane>
    requires Enabled(s, st) && Safe(s, st) && Reaches(st)
  {
    var i := LaneIx(s, st);
    s.lanes[i := Lane.Apply(s.lanes[i], LaneStep(s, st))]
  }

  // ---------------------------------------------------------------- counters

  // The threads at the program points where a counter is ahead of or behind the tickets.
  ghost function Begins(s: State): nat { Count(s.front, (p: PC) => p.Begun?) }
  ghost function Uncounted(s: State): nat { Count(s.front, (p: PC) => p.Numbered? && !p.counted) }
  ghost function Undoing(s: State): nat { Count(s.front, (p: PC) => p == Test(AtUndo)) }
  ghost function Winners(s: State): nat { Count(s.front, (p: PC) => p.Won?) }
  ghost function Unlowered(s: State): nat { Count(s.front, (p: PC) => p.Drawn? && !p.lowered) }

  ghost predicate CountInv(s: State) {
    && s.enq == |s.enqs| && s.deq == |s.deqs|
    && s.ub == s.enq + Begins(s) - s.deq + Unlowered(s)
    && s.lb == s.enq - Uncounted(s) - s.deq - Winners(s) - Undoing(s)
    && s.lb + Undoing(s) >= 0
  }

  function One(b: bool): int { if b then 1 else 0 }

  lemma PutCounts(s: State, s': State, t: Tid, pc: PC)
    requires s'.front == s.front[t := pc]
    ensures Begins(s') == Begins(s) - One(t in s.front && s.front[t].Begun?) + One(pc.Begun?)
    ensures Uncounted(s') == Uncounted(s) - One(t in s.front && s.front[t].Numbered? && !s.front[t].counted)
                             + One(pc.Numbered? && !pc.counted)
    ensures Undoing(s') == Undoing(s) - One(At(s, t, Test(AtUndo))) + One(pc == Test(AtUndo))
    ensures Winners(s') == Winners(s) - One(At(s, t, Won)) + One(pc.Won?)
    ensures Unlowered(s') == Unlowered(s) - One(t in s.front && s.front[t].Drawn? && !s.front[t].lowered)
                             + One(pc.Drawn? && !pc.lowered)
  {
    CountPut(s.front, t, pc, (p: PC) => p.Begun?);
    CountPut(s.front, t, pc, (p: PC) => p.Numbered? && !p.counted);
    CountPut(s.front, t, pc, (p: PC) => p == Test(AtUndo));
    CountPut(s.front, t, pc, (p: PC) => p.Won?);
    CountPut(s.front, t, pc, (p: PC) => p.Drawn? && !p.lowered);
  }

  lemma DropCounts(s: State, s': State, t: Tid)
    requires s'.front == s.front - {t} && t in s.front
    requires At(s, t, Test(AtUb)) || (s.front[t].Numbered? && s.front[t].counted) ||
          (s.front[t].Drawn? && s.front[t].lowered)
    ensures Begins(s') == Begins(s) && Uncounted(s') == Uncounted(s) && Undoing(s') == Undoing(s)
    ensures Winners(s') == Winners(s) && Unlowered(s') == Unlowered(s)
  {
    CountDrop(s.front, t, (p: PC) => p.Begun?);
    CountDrop(s.front, t, (p: PC) => p.Numbered? && !p.counted);
    CountDrop(s.front, t, (p: PC) => p == Test(AtUndo));
    CountDrop(s.front, t, (p: PC) => p.Won?);
    CountDrop(s.front, t, (p: PC) => p.Drawn? && !p.lowered);
  }

  lemma EnqueueKeepsCounts(s: State, st: Step)
    requires CountInv(s) && Enabled(s, st) && Safe(s, st) && (st.EBegin? || st.ETicket? || st.ECount? || st.EJoin?)
    ensures CountInv(Apply(s, st))
  {
    var s' := Apply(s, st);
    if st.t in s'.front { PutCounts(s, s', st.t, s'.front[st.t]); } else { DropCounts(s, s', st.t); }
  }

  lemma TestKeepsCounts(s: State, st: Step)
    requires CountInv(s) && Enabled(s, st) && Safe(s, st) &&
          (st.DBegin? || st.DLoadLb? || st.DDecLb? || st.DUndoLb? || st.DLoadUb?)
    ensures CountInv(Apply(s, st))
  {
    var s' := Apply(s, st);
    if st.t in s'.front { PutCounts(s, s', st.t, s'.front[st.t]); } else { DropCounts(s, s', st.t); }
  }

  lemma DrawKeepsCounts(s: State, st: Step)
    requires CountInv(s) && Enabled(s, st) && Safe(s, st) && (st.DTicket? || st.DLower? || st.DJoin?)
    ensures CountInv(Apply(s, st))
  {
    var s' := Apply(s, st);
    if st.t in s'.front { PutCounts(s, s', st.t, s'.front[st.t]); } else { DropCounts(s, s', st.t); }
  }

  lemma KeepsCountInv(s: State, st: Step)
    requires CountInv(s) && Enabled(s, st) && Safe(s, st)
    ensures CountInv(Apply(s, st))
  {
    match st
    case InLane(_, _) =>
    case EBegin(_, _) => EnqueueKeepsCounts(s, st);
    case ETicket(_) => EnqueueKeepsCounts(s, st);
    case ECount(_) => EnqueueKeepsCounts(s, st);
    case EJoin(_, _) => EnqueueKeepsCounts(s, st);
    case DTicket(_) => DrawKeepsCounts(s, st);
    case DLower(_) => DrawKeepsCounts(s, st);
    case DJoin(_) => DrawKeepsCounts(s, st);
    case _ => TestKeepsCounts(s, st);
  }

  // ---------------------------------------------------------------- invariant

  predicate LaneOk(s: State, i: nat)
    requires i < |s.lanes|
  {
    Lane.Inv(s.lanes[i])
  }

  /** A lane's tickets are tickets of this queue that have left the front. */
  predicate TicketsOk(s: State, i: nat)
    requires i < |s.lanes|
  {
    var l := s.lanes[i];
    && l.n == s.n
    && (forall e :: e in l.enqs ==> 0 <= e < |s.enqs| && l.enqs[e] == s.enqs[e] && !Fronts(s, e))
    && (forall d :: d in l.deqs ==> 0 <= d < |s.deqs| && l.deqs[d] == s.deqs[d] && !Draws(s, d))
    && (forall t :: t in l.pcs ==> t !in s.front)
  }

  /** Lane i serves the tickets congruent to i, in order. */
  ghost predicate OrderOk(s: State, i: nat)
    requires i < |s.lanes|
  {
    s.lanes[i].n > 0 && Lane.TicketInv(s.lanes[i], i)
  }

  // The enqueue with ticket e, the dequeue with ticket d, is still in front or has come to its lane.
  predicate PlacedOk(s: State, e: int)
    requires Shape(s) && 0 <= e < |s.enqs|
  {
    Fronts(s, e) || e in s.lanes[e % s.n].enqs
  }

  predicate DrawnOk(s: State, d: int)
    requires Shape(s) && 0 <= d < |s.deqs|
  {
    Draws(s, d) || d in s.lanes[d % s.n].deqs
  }

  // The enqueue with ticket e, the dequeue with ticket d, is still in front.
  predicate Fronts(s: State, e: int)
    requires 0 <= e < |s.enqs|
  {
    var t := s.enqs[e].who;
    t in s.front && s.front[t].Numbered? && s.front[t].e == e
  }

  predicate Draws(s: State, d: int)
    requires 0 <= d < |s.deqs|
  {
    var t := s.deqs[d];
    t in s.front && s.front[t].Drawn? && s.front[t].d == d
  }

  predicate FrontOk(s: State, t: Tid)
    requires t in s.front
  {
    match s.front[t]
    case Numbered(v, e, _) => 0 <= e < |s.enqs| && s.enqs[e] == Lane.Enq(t, v)
    case Drawn(d, _) => 0 <= d < |s.deqs| && s.deqs[d] == t
    case _ => true
  }

  ghost predicate Inv(s: State) {
    && Shape(s) && CountInv(s)
    && (forall i {:trigger LaneOk(s, i)} :: 0 <= i < |s.lanes| ==> LaneOk(s, i))
    && (forall i {:trigger TicketsOk(s, i)} :: 0 <= i < |s.lanes| ==> TicketsOk(s, i))
    && (forall t {:trigger FrontOk(s, t)} :: t in s.front ==> FrontOk(s, t))
    && (forall i {:trigger OrderOk(s, i)} :: 0 <= i < |s.lanes| ==> OrderOk(s, i))
    && (forall e {:trigger PlacedOk(s, e)} :: 0 <= e < |s.enqs| ==> PlacedOk(s, e))
    && (forall d {:trigger DrawnOk(s, d)} :: 0 <= d < |s.deqs| ==> DrawnOk(s, d))
  }

  lemma EnabledIsSafe(s: State, st: Step)
    requires Inv(s) && Enabled(s, st)
    ensures Safe(s, st)
  {
    if Reaches(st) {
      var i := LaneIx(s, st);
      assert LaneOk(s, i) && TicketsOk(s, i);
      if !st.InLane? { assert FrontOk(s, st.t); }
      assert Lane.Enabled(s.lanes[i], LaneStep(s, st));
      Lane.EnabledIsSafe(s.lanes[i], LaneStep(s, st));
    }
  }

  lemma FrontStepKeepsTickets(s: State, st: Step, i: nat)
    requires Enabled(s, st) && Safe(s, st) && !Reaches(st)
    requires i < |s.lanes| && TicketsOk(s, i) && CountInv(s) && (st.t in s.front ==> FrontOk(s, st.t))
    ensures TicketsOk(Apply(s, st), i)
  {
  }

  lemma LaneStepKeepsTickets(s: State, st: Step, i: nat)
    requires Enabled(s, st) && Safe(s, st) && Reaches(st)
    requires i < |s.lanes| && TicketsOk(s, i) && (!st.InLane? ==> FrontOk(s, st.t))
    ensures TicketsOk(Apply(s, st), i)
  {
    if i == LaneIx(s, st) {
      Lane.StepBooks(s.lanes[i], LaneStep(s, st));
    }
  }

  lemma LanesKept(s: State, st: Step, i: nat)
    requires Enabled(s, st) && Safe(s, st)
    requires i < |s.lanes| && LaneOk(s, i)
    ensures |Apply(s, st).lanes| == |s.lanes| && LaneOk(Apply(s, st), i)
  {
    if Reaches(st) && i == LaneIx(s, st) { Lane.StepKeepsInv(s.lanes[i], LaneStep(s, st)); }
  }

  lemma FrontKept(s: State, st: Step, t: Tid)
    requires CountInv(s) && Enabled(s, st) && Safe(s, st) && t in Apply(s, st).front
    requires t in s.front ==> FrontOk(s, t)
    ensures FrontOk(Apply(s, st), t)
  {
  }

  lemma OrderKept(s: State, st: Step, i: nat)
    requires Enabled(s, st) && Safe(s, st) && i < |s.lanes| && LaneOk(s, i) && OrderOk(s, i) && s.lanes[i].n == s.n
    requires Reaches(st) && !st.InLane? ==> FrontOk(s, st.t)
    ensures |Apply(s, st).lanes| == |s.lanes| && OrderOk(Apply(s, st), i)
  {
    if Reaches(st) && i == LaneIx(s, st) { Lane.StepKeepsTickets(s.lanes[i], LaneStep(s, st), i); }
  }

  lemma FrontKeepsPlaced(s: State, st: Step, e: int)
    requires CountInv(s) && Enabled(s, st) && Safe(s, st) && !Reaches(st) && 0 <= e < |Apply(s, st).enqs|
    requires e < |s.enqs| ==> PlacedOk(s, e)
    requires st.t in s.front ==> FrontOk(s, st.t)
    ensures PlacedOk(Apply(s, st), e)
  {
  }

  lemma FrontKeepsDrawn(s: State, st: Step, d: int)
    requires CountInv(s) && Enabled(s, st) && Safe(s, st) && !Reaches(st) && 0 <= d < |Apply(s, st).deqs|
    requires d < |s.deqs| ==> DrawnOk(s, d)
    requires st.t in s.front ==> FrontOk(s, st.t)
    ensures DrawnOk(Apply(s, st), d)
  {
  }

  lemma LaneKeepsPlaced(s: State, st: Step, e: int)
    requires Enabled(s, st) && Safe(s, st) && Reaches(st) && 0 <= e < |s.enqs| && PlacedOk(s, e)
    requires !st.InLane? ==> FrontOk(s, st.t)
    ensures PlacedOk(Apply(s, st), e)
  {
    Lane.StepBooks(s.lanes[LaneIx(s, st)], LaneStep(s, st));
  }

  lemma LaneKeepsDrawn(s: State, st: Step, d: int)
    requires Enabled(s, st) && Safe(s, st) && Reaches(st) && 0 <= d < |s.deqs| && DrawnOk(s, d)
    requires !st.InLane? ==> FrontOk(s, st.t)
    ensures DrawnOk(Apply(s, st), d)
  {
    Lane.StepBooks(s.lanes[LaneIx(s, st)], LaneStep(s, st));
  }

  lemma DrawsKept(s: State, st: Step)
    requires Inv(s) && Enabled(s, st) && Safe(s, st)
    ensures var s' := Apply(s, st);
          Shape(s') && forall d {:trigger DrawnOk(s', d)} :: 0 <= d < |s'.deqs| ==> DrawnOk(s', d)
  {
    var s' := Apply(s, st);
    if !st.InLane? && st.t in s.front { assert FrontOk(s, st.t); }
    forall d | 0 <= d < |s'.deqs| ensures DrawnOk(s', d) {
      if d < |s.deqs| { assert DrawnOk(s, d); }
      if Reaches(st) { LaneKeepsDrawn(s, st, d); } else { FrontKeepsDrawn(s, st, d); }
    }
  }

  lemma PlacesKept(s: State, st: Step)
    requires Inv(s) && Enabled(s, st) && Safe(s, st)
    ensures var s' := Apply(s, st);
          Shape(s') && forall e {:trigger PlacedOk(s', e)} :: 0 <= e < |s'.enqs| ==> PlacedOk(s', e)
  {
    var s' := Apply(s, st);
    if !st.InLane? && st.t in s.front { assert FrontOk(s, st.t); }
    forall e | 0 <= e < |s'.enqs| ensures PlacedOk(s', e) {
      if e < |s.enqs| { assert PlacedOk(s, e); }
      if Reaches(st) { LaneKeepsPlaced(s, st, e); } else { FrontKeepsPlaced(s, st, e); }
    }
  }

  lemma StepKeepsInv(s: State, st: Step)
    requires Inv(s) && Enabled(s, st) && Safe(s, st)
    ensures Inv(Apply(s, st))
  {
    PlacesKept(s, st); DrawsKept(s, st);
    var s' := Apply(s, st);
    KeepsCountInv(s, st);
    if !st.InLane? && st.t in s.front { assert FrontOk(s, st.t); }
    forall i | 0 <= i < |s.lanes| ensures LaneOk(s', i) && TicketsOk(s', i) && OrderOk(s', i) {
      assert LaneOk(s, i) && TicketsOk(s, i) && OrderOk(s, i);
      LanesKept(s, st, i); OrderKept(s, st, i);
      if Reaches(st) { LaneStepKeepsTickets(s, st, i); } else { FrontStepKeepsTickets(s, st, i); }
    }
    forall t | t in s'.front ensures FrontOk(s', t) {
      if t in s.front { assert FrontOk(s, t); }
      FrontKept(s, st, t);
    }
  }

  // ---------------------------------------------------------------- results over whole runs

  /** One step of some thread. Only safe steps are applied; NoFreedNodeTouched shows that this excludes none. */
  ghost predicate Next(s: State, s': State) {
    exists st :: Enabled(s, st) && Safe(s, st) && s' == Apply(s, st)
  }

  /** The states that some interleaving reaches. */
  ghost predicate Reachable(s: State) { Runs.Reached(Init, Next, s) }

  lemma InitInv(s: State)
    requires Init(s)
    ensures Inv(s)
  {
    forall i | 0 <= i < |s.lanes| ensures LaneOk(s, i) && TicketsOk(s, i) && OrderOk(s, i) {
      Lane.InitInv(s.n, i); Lane.InitTickets(s.n, i);
    }
  }

  lemma NextKeepsInv(s: State, s': State)
    requires Inv(s) && Next(s, s')
    ensures Inv(s')
  {
    var st :| Enabled(s, st) && Safe(s, st) && s' == Apply(s, st);
    StepKeepsInv(s, st);
  }

  lemma ReachableInv(s: State)
    requires Reachable(s)
    ensures Inv(s)
  {
    forall s | Init(s) ensures Inv(s) { InitInv(s); }
    forall s, s' | Inv(s) && Next(s, s') ensures Inv(s') { NextKeepsInv(s, s'); }
    Runs.Induction(Init, Next, Inv, s);
  }

  /** In every interleaving, whatever any thread does next touches only allocated nodes, and no
      ticket enters a lane twice. */
  lemma NoFreedNodeTouched(s: State, st: Step)
    requires Reachable(s) && Enabled(s, st)
    ensures Safe(s, st)
  {
    ReachableInv(s);
    EnabledIsSafe(s, st);
  }

  /** The N lanes form one FIFO in ticket order: the dequeue with ticket d returns the item of the
      enqueue with ticket d. */
  lemma DequeueReturnsItsTicket(s: State, i: nat, t: Tid)
    requires Reachable(s) && i < |s.lanes| && Lane.Enabled(s.lanes[i], Lane.DRelease(t))
    ensures var pc := s.lanes[i].pcs[t];
            0 <= pc.d < |s.enqs| && pc.d < |s.deqs| && s.deqs[pc.d] == t && pc.tat.v == s.enqs[pc.d].v
  {
    ReachableInv(s);
    assert LaneOk(s, i) && TicketsOk(s, i);
    Lane.ThreadFacts(s.lanes[i], t);
  }

  /** The same over the whole past: every value ever returned under ticket d is the item of enqueue d. */
  lemma ReturnsAreFifo(s: State, i: nat, d: int)
    requires Reachable(s) && i < |s.lanes| && d in s.lanes[i].rets
    ensures 0 <= d < |s.enqs| && d < |s.deqs| && s.lanes[i].rets[d] == s.enqs[d].v
  {
    ReachableInv(s);
    assert LaneOk(s, i) && TicketsOk(s, i);
  }

  /** However far lb_count is driven below its true value for a moment, dequeue tickets never overtake
      enqueue tickets, counting the dequeues that passed the test but have no ticket yet. */
  lemma DequeuesNeverOvertake(s: State)
    requires Reachable(s)
    ensures s.deq + Winners(s) + Uncounted(s) <= s.enq
  {
    ReachableInv(s);
  }

  /** Hence a dequeue ticket always has a begun enqueue with the same ticket. */
  lemma DequeueTicketHasEnqueue(s: State, t: Tid)
    requires Reachable(s) && Enabled(s, DTicket(t))
    ensures s.deq < s.enq == |s.enqs|
  {
    ReachableInv(s);
    CountPositive(s.front, t, (p: PC) => p.Won?);
  }

  /** The emptiness answer is honest: when a dequeue returns NULL, at that instant every begun enqueue
      had its ticket and every enqueue ticket had been claimed by a dequeue. */
  lemma EmptyMeansEveryEnqueueClaimed(s: State, t: Tid)
    requires Reachable(s) && Enabled(s, DLoadUb(t)) && t !in Apply(s, DLoadUb(t)).front
    ensures s.enq == s.deq
    ensures forall u :: u in s.front ==> !s.front[u].Begun?
  {
    ReachableInv(s);
    CountZero(s.front, (p: PC) => p.Begun?);
  }

  /** In every interleaving a lane's guards admit one dequeue and one enqueue at a time. */
  lemma OneInGuard(s: State, i: nat, t: Tid, u: Tid)
    requires Reachable(s) && i < |s.lanes| && t in s.lanes[i].pcs && u in s.lanes[i].pcs
    ensures Lane.InDeqGuard(s.lanes[i].pcs[t]) && Lane.InDeqGuard(s.lanes[i].pcs[u]) ==> t == u
    ensures Lane.InEnqGuard(s.lanes[i].pcs[t]) && Lane.InEnqGuard(s.lanes[i].pcs[u]) ==> t == u
  {
    ReachableInv(s);
    assert LaneOk(s, i);
    Lane.OneInGuard(s.lanes[i], t, u);
  }

  /** No item is lost: an enqueue that has taken ticket e is still on its way to the exchange of the tail, or its
      item sits in an allocated node of lane e mod N at its place in ticket order, or the dequeue with the same
      ticket has taken it. */
  lemma ItemIsNeverLost(s: State, e: int)
    requires Reachable(s) && 0 <= e < s.enq
    ensures Shape(s) && |s.enqs| == s.enq
    ensures var l := s.lanes[e % s.n];
            || Fronts(s, e)
            || (s.enqs[e].who in l.pcs && l.pcs[s.enqs[e].who].Ready? && l.pcs[s.enqs[e].who].e == e)
            || (e in l.place && l.place[e] < |l.hist| && l.hist[l.place[e]].tk == e &&
                if l.place[e] < l.cnt then e < |s.deqs| && e in l.deqs && l.deqs[e] == s.deqs[e]
                else l.hist[l.place[e]].addr in l.heap && l.heap[l.hist[l.place[e]].addr].data == s.enqs[e].v)
  {
    ReachableInv(s);
    var i := e % s.n;
    var l := s.lanes[i];
    assert LaneOk(s, i) && TicketsOk(s, i) && PlacedOk(s, e);
    if e in l.enqs {
      assert Lane.PlacedOk(l, e);
      if e in l.place && l.cnt <= l.place[e] < |l.hist| { assert Lane.ListedOk(l, l.place[e]); }
    }
  }

  // ---------------------------------------------------------------- the right lane

  /** In every interleaving lane i serves exactly the tickets congruent to i modulo N: those are the tickets that come
      to it, and its next ones on either side. */
  lemma LaneServesItsTickets(s: State, i: nat, x: int)
    requires Reachable(s) && i < |s.lanes|
    ensures s.n > 0 && s.lanes[i].en % s.n == i && s.lanes[i].dn % s.n == i
    ensures x in s.lanes[i].enqs || x in s.lanes[i].deqs ==> x % s.n == i
  {
    ReachableInv(s);
    assert OrderOk(s, i) && TicketsOk(s, i);
  }

  lemma LaneIsOk(s: State, i: nat)
    requires Reachable(s) && i < |s.lanes|
    ensures s.n == |s.lanes| && s.lanes[i].n == s.n > 0 && Lane.Inv(s.lanes[i]) && Lane.TicketInv(s.lanes[i], i)
  {
    ReachableInv(s);
    assert LaneOk(s, i) && OrderOk(s, i) && TicketsOk(s, i);
  }

  lemma NextEntersLane(s: State, i: nat, t: Tid)
    requires Reachable(s) && i < |s.lanes| && t in s.lanes[i].pcs
    requires s.lanes[i].pcs[t].Ready? && !s.lanes[i].pcs[t].entered
    ensures s.n == |s.lanes|
    ensures Lane.Enabled(s.lanes[i], Lane.EEnter(t)) <==>
              s.lanes[i].pcs[t].e == s.lanes[i].en && Lane.EnqGuardFree(s.lanes[i])
  {
    LaneIsOk(s, i);
    Lane.NextEnqueueEnters(s.lanes[i], t);
  }

  /** The enqueue that has built its node passes the guard exactly when its ticket is its lane's next and nobody is
      between the guard and its release. */
  lemma NextEnqueueEnters(s: State, i: nat, t: Tid)
    requires Reachable(s) && i < |s.lanes| && t in s.lanes[i].pcs
    requires s.lanes[i].pcs[t].Ready? && !s.lanes[i].pcs[t].entered
    ensures Enabled(s, InLane(i, Lane.EEnter(t))) <==>
              s.lanes[i].pcs[t].e == s.lanes[i].en && Lane.EnqGuardFree(s.lanes[i])
  {
    NextEntersLane(s, i, t);
    InLaneEnabled(s, i, Lane.EEnter(t));
  }

  lemma InLaneEnabled(s: State, i: nat, lst: Lane.Step)
    requires i < s.n == |s.lanes| && !lst.EAlloc? && !lst.DEnter?
    ensures Enabled(s, InLane(i, lst)) <==> Lane.Enabled(s.lanes[i], lst)
  {
  }

  lemma NextJoinsLane(s: State, t: Tid)
    requires Reachable(s) && t in s.front && s.front[t].Drawn?
    ensures s.n == |s.lanes| > 0
    ensures var d, l := s.front[t].d, s.lanes[s.front[t].d % s.n];
            Lane.Enabled(l, Lane.DEnter(t, d)) <==> d == l.dn && Lane.DeqGuardFree(l)
    ensures var d, l := s.front[t].d, s.lanes[s.front[t].d % s.n];
          Lane.Enabled(l, Lane.DEnter(t, d)) <==> l.dg == d - s.n
  {
    ReachableInv(s);
    var d := s.front[t].d;
    var i := d % s.n;
    assert FrontOk(s, t) && TicketsOk(s, i) && LaneOk(s, i);
    Lane.NextDequeueEnters(s.lanes[i], t, d);
  }

  /** The dequeue that has lowered ub_count joins the lane d mod N of its ticket d exactly when d is that lane's next
      and nobody is between the guard and its release. */
  lemma NextDequeueEnters(s: State, t: Tid)
    requires Reachable(s) && t in s.front && s.front[t].Drawn? && s.front[t].lowered
    ensures s.n == |s.lanes| > 0
    ensures var d, l := s.front[t].d, s.lanes[s.front[t].d % s.n];
            Enabled(s, DJoin(t)) <==> d == l.dn && Lane.DeqGuardFree(l)
  {
    NextJoinsLane(s, t);
  }

  // ---------------------------------------------------------------- progress

  /** The one step that a thread in front takes next; a node is allocated at any free address. */
  function NextStep(s: State, t: Tid, a: Lane.Addr): Step
    requires t in s.front
  {
    match s.front[t]
    case Begun(_) => ETicket(t)
    case Numbered(_, _, counted) => if counted then EJoin(t, a) else ECount(t)
    case Test(at) =>
      (match at case AtLoad => DLoadLb(t) case AtDec => DDecLb(t) case AtUndo => DUndoLb(t) case AtUb => DLoadUb(t))
    case Won => DTicket(t)
    case Drawn(_, lowered) => if lowered then DJoin(t) else DLower(t)
  }

  /** A thread in front has no other step than its next one. */
  lemma OnlyNextStep(s: State, st: Step)
    requires Enabled(s, st) && !st.InLane? && st.t in s.front
    ensures exists a :: st == NextStep(s, st.t, a)
  {
    assert st == NextStep(s, st.t, if st.EJoin? then st.a else 0);
  }

  // How many of its own steps a thread is away from the end of its operation at most, if it never waits.
  function Rank(s: State, pc: PC): nat {
    match pc
    case Begun(_) => 7
    case Numbered(_, _, counted) => if counted then 5 else 6
    case Test(at) =>
      (match at
       case AtLoad => 15
       case AtDec => if s.lb > 0 then 14 else 19
       case AtUndo => if s.lb > 0 then 17 else 18
       case AtUb => if s.lb > 0 then 16 else 14)
    case Won => 13
    case Drawn(_, lowered) => if lowered then 11 else 12
  }

  /** The waits before a lane: for the emptiness test to be decided, and for the lane's dequeue guard. */
  predicate Waits(s: State, t: Tid)
    requires Shape(s) && t in s.front
  {
    match s.front[t]
    case Test(at) => at.AtUb? && s.lb <= 0 < s.ub
    case Drawn(d, lowered) => lowered && s.lanes[d % s.n].dg != d - s.n
    case _ => false
  }

  // The thread has gone on: closer to the end in front, into a lane, or home with the answer NULL.
  predicate Advances(s: State, t: Tid, st: Step)
    requires t in s.front
  {
    && Enabled(s, st) && Safe(s, st)
    && var s' := Apply(s, st);
       if t in s'.front then Rank(s', s'.front[t]) < Rank(s, s.front[t])
       else if Reaches(st) then
         var l := Lane.Apply(s.lanes[LaneIx(s, st)], LaneStep(s, st));
         s'.lanes[LaneIx(s, st)] == l && t in l.pcs && Lane.Rank(l.pcs[t]) < Rank(s, s.front[t])
       else s.front[t] == Test(AtUb) && s.ub <= 0
  }

  /** A thread in front that does not wait comes closer to the end of its operation with every step it takes. */
  lemma FrontAdvances(s: State, t: Tid, a: Lane.Addr)
    requires Reachable(s) && t in s.front && Shape(s) && !Waits(s, t) && Fresh(s, a)
    ensures Advances(s, t, NextStep(s, t, a))
  {
    ReachableInv(s);
    EnabledIsSafe(s, NextStep(s, t, a));
    if s.front[t].Test? { TestAdvances(s, t, a); } else { TicketAdvances(s, t, a); }
  }

  lemma TestAdvances(s: State, t: Tid, a: Lane.Addr)
    requires t in s.front && Shape(s) && !Waits(s, t) && s.front[t].Test?
    ensures Advances(s, t, NextStep(s, t, a))
  {
  }

  lemma TicketAdvances(s: State, t: Tid, a: Lane.Addr)
    requires t in s.front && Shape(s) && !Waits(s, t) && Fresh(s, a) && !s.front[t].Test?
    requires Safe(s, NextStep(s, t, a))
    ensures Advances(s, t, NextStep(s, t, a))
  {
  }

  /** So does a thread in a lane. */
  lemma LaneAdvances(s: State, i: nat, t: Tid)
    requires Reachable(s) && i < |s.lanes| && t in s.lanes[i].pcs && !Lane.Waits(s.lanes[i], t)
    ensures var st := InLane(i, Lane.NextStep(s.lanes[i], t));
            && Enabled(s, st) && Safe(s, st)
            && var l := Apply(s, st).lanes[i]; t in l.pcs ==> Lane.Rank(l.pcs[t]) < Lane.Rank(s.lanes[i].pcs[t])
  {
    LaneIsOk(s, i);
    Lane.StepsAdvance(s.lanes[i], t);
    InLaneEnabled(s, i, Lane.NextStep(s.lanes[i], t));
  }

  // Some thread, in front or in a lane, that does not wait.
  predicate Moving(s: State, u: Tid, i: nat) {
    && Shape(s)
    && ((u in s.front && !Waits(s, u)) || (i < |s.lanes| && u in s.lanes[i].pcs && !Lane.Waits(s.lanes[i], u)))
  }

  // The enqueue with ticket e is in front, where it never waits, if it has not come to its lane.
  lemma MissingEnqueueRuns(s: State, e: int) returns (u: Tid)
    requires Inv(s) && 0 <= e < |s.enqs| && e !in s.lanes[e % s.n].enqs
    ensures u in s.front && !Waits(s, u)
  {
    assert PlacedOk(s, e);
    u := s.enqs[e].who;
  }

  // The tickets of a thread in lane i have been drawn.
  lemma LaneTicketDrawn(s: State, i: nat, t: Tid)
    requires Inv(s) && i < |s.lanes| && t in s.lanes[i].pcs
    ensures s.lanes[i].pcs[t].Ready? ==> s.lanes[i].pcs[t].e < |s.enqs|
    ensures s.lanes[i].pcs[t].Holding? ==> s.lanes[i].pcs[t].d < |s.deqs|
  {
    assert LaneOk(s, i) && TicketsOk(s, i);
    assert Lane.ThreadOk(s.lanes[i], t);
  }

  lemma LaneWaitsFor(s: State, i: nat, t: Tid) returns (u: Tid)
    requires Inv(s) && i < |s.lanes| && t in s.lanes[i].pcs && Lane.Waits(s.lanes[i], t) && s.deq <= s.enq
    ensures var l := s.lanes[i];
            (u in l.pcs && !Lane.Waits(l, u)) || (0 <= l.en < |s.enqs| && l.en % s.n == i && l.en !in l.enqs)
  {
    LaneTicketDrawn(s, i, t);
    assert LaneOk(s, i) && OrderOk(s, i) && TicketsOk(s, i);
    u := Lane.WaitsForSomeone(s.lanes[i], i, t);
  }

  lemma LaneWaiterHasRunner(s: State, i: nat, t: Tid) returns (u: Tid)
    requires Inv(s) && i < |s.lanes| && t in s.lanes[i].pcs && s.deq <= s.enq
    ensures Moving(s, u, i)
  {
    u := t;
    if Lane.Waits(s.lanes[i], t) {
      u := LaneWaitsFor(s, i, t);
      if !(u in s.lanes[i].pcs && !Lane.Waits(s.lanes[i], u)) { u := MissingEnqueueRuns(s, s.lanes[i].en); }
    }
  }

  // A dequeue waits in front of lane i for the dequeue with the lane's next ticket, or for one about to leave the lane.
  lemma DrawnWaiterHasRunner(s: State, t: Tid) returns (u: Tid, i: nat)
    requires Inv(s) && t in s.front && s.front[t].Drawn? && Waits(s, t) && s.deq <= s.enq
    ensures Moving(s, u, i)
  {
    i := s.front[t].d % s.n;
    var l := s.lanes[i];
    u := LeavingDequeue(s, t);
    if !(u in l.pcs && !Lane.Waits(l, u)) {
      assert DrawnOk(s, l.dn);
      u := s.deqs[l.dn];
      if !Draws(s, l.dn) {
        NextHolder(s, i);
        u := LaneWaiterHasRunner(s, i, l.deqs[l.dn]);
      }
    }
  }

  lemma LeavingDequeue(s: State, t: Tid) returns (u: Tid)
    requires Inv(s) && t in s.front && s.front[t].Drawn? && Waits(s, t)
    ensures var l := s.lanes[s.front[t].d % s.n];
            (u in l.pcs && !Lane.Waits(l, u)) ||
            (l.dg + s.n == l.dn && 0 <= l.dn < |s.deqs| && l.dn % s.n == s.front[t].d % s.n)
  {
    var d := s.front[t].d;
    var i := d % s.n;
    assert FrontOk(s, t) && TicketsOk(s, i) && OrderOk(s, i) && LaneOk(s, i);
    var l := s.lanes[i];
    assert Lane.DeqGuardOk(l) && Lane.DeqTickets(l, i);
    u := if l.dg + s.n in l.deqs then l.deqs[l.dg + s.n] else t;
  }

  lemma NextHolder(s: State, i: nat)
    requires Inv(s) && i < |s.lanes| && s.lanes[i].dn in s.lanes[i].deqs
    ensures s.lanes[i].deqs[s.lanes[i].dn] in s.lanes[i].pcs
  {
    assert OrderOk(s, i);
  }

  // The emptiness test is undecided only while another thread is between two steps that count.
  lemma TesterHasRunner(s: State, t: Tid) returns (u: Tid)
    requires Inv(s) && t in s.front && s.front[t].Test? && Waits(s, t)
    ensures Moving(s, u, 0)
  {
    if Begins(s) > 0 { u := CountWitness(s.front, (p: PC) => p.Begun?); }
    else if Uncounted(s) > 0 { u := CountWitness(s.front, (p: PC) => p.Numbered? && !p.counted); }
    else if Undoing(s) > 0 { u := CountWitness(s.front, (p: PC) => p == Test(AtUndo)); }
    else if Winners(s) > 0 { u := CountWitness(s.front, (p: PC) => p.Won?); }
    else { u := CountWitness(s.front, (p: PC) => p.Drawn? && !p.lowered); }
  }

  /** No deadlock: while any thread is inside an operation, some thread, in front or in a lane, does not wait. */
  lemma SomeoneAdvances(s: State, t: Tid, j: nat) returns (u: Tid, i: nat)
    requires Reachable(s) && (t in s.front || (j < |s.lanes| && t in s.lanes[j].pcs))
    ensures Moving(s, u, i)
  {
    ReachableInv(s);
    u, i := t, 0;
    if t !in s.front {
      i := j;
      u := LaneWaiterHasRunner(s, j, t);
    } else if Waits(s, t) {
      if s.front[t].Test? { u := TesterHasRunner(s, t); } else { u, i := DrawnWaiterHasRunner(s, t); }
    }
  }

  // ---------------------------------------------------------------- one operation alone

  // Nobody is inside an operation; only t is, in front; only t is, in lane i.
  predicate LanesQuiet(s: State) { forall i :: 0 <= i < |s.lanes| ==> s.lanes[i].pcs == map[] }
  predicate Quiet(s: State) { s.front == map[] && LanesQuiet(s) }
  predicate AloneInFront(s: State, t: Tid) { s.front.Keys == {t} && LanesQuiet(s) }
  predicate AloneInLane(s: State, t: Tid, i: nat) {
    && s.front == map[] && i < |s.lanes|
    && s.lanes[i].pcs.Keys == {t}
    && forall j :: 0 <= j < |s.lanes| && j != i ==> s.lanes[j].pcs == map[]
  }

  // The items that enqueues have brought and no dequeue has claimed, oldest first.
  function Waiting(s: State): seq<Lane.Enq> { if |s.deqs| <= |s.enqs| then s.enqs[|s.deqs|..] else [] }

  /** When nobody is inside, both counters show the number of items waiting, every dequeue that drew ticket d has
      returned the item of enqueue d, and only the items waiting occupy memory. */
  lemma QuietMeansSettled(s: State)
    requires Reachable(s) && Quiet(s)
    ensures s.n == |s.lanes| > 0 && s.ub == s.lb == |Waiting(s)|
    ensures forall d :: 0 <= d < |s.deqs| ==>
              d < |s.enqs| && d in s.lanes[d % s.n].rets && s.lanes[d % s.n].rets[d] == s.enqs[d].v
    ensures forall i, a :: 0 <= i < |s.lanes| && a in s.lanes[i].heap ==>
              exists k :: Lane.Live(s.lanes[i], k) && s.lanes[i].hist[k].addr == a
  {
    ReachableInv(s);
    QuietCounts(s);
    forall d | 0 <= d < |s.deqs|
      ensures d < |s.enqs| && d in s.lanes[d % s.n].rets && s.lanes[d % s.n].rets[d] == s.enqs[d].v
    {
      QuietReturns(s, d);
    }
    forall i, a | 0 <= i < |s.lanes| && a in s.lanes[i].heap
      ensures exists k :: Lane.Live(s.lanes[i], k) && s.lanes[i].hist[k].addr == a
    {
      assert OrderOk(s, i);
      assert Lane.NodeOk(s.lanes[i], a);
    }
  }

  lemma QuietCounts(s: State)
    requires CountInv(s) && s.front == map[]
    ensures s.ub == s.lb == s.enq - s.deq
  {
    CountEmpty((p: PC) => p.Begun?);
    CountEmpty((p: PC) => p.Numbered? && !p.counted);
    CountEmpty((p: PC) => p == Test(AtUndo));
    CountEmpty((p: PC) => p.Won?);
    CountEmpty((p: PC) => p.Drawn? && !p.lowered);
  }

  lemma QuietReturns(s: State, d: int)
    requires Inv(s) && Quiet(s) && 0 <= d < |s.deqs|
    ensures d < |s.enqs| && d in s.lanes[d % s.n].rets && s.lanes[d % s.n].rets[d] == s.enqs[d].v
  {
    var i := d % s.n;
    assert DrawnOk(s, d) && OrderOk(s, i) && LaneOk(s, i) && TicketsOk(s, i);
    assert Lane.ServedOk(s.lanes[i], d);
  }

  lemma ReachStep(s: State, st: Step)
    requires Reachable(s) && Enabled(s, st)
    ensures Safe(s, st) && Reachable(Apply(s, st))
  {
    NoFreedNodeTouched(s, st);
    assert Next(s, Apply(s, st));
    Runs.Extend(Init, Next, s, Apply(s, st));
  }

  // Some address is free in every lane.
  lemma FreeAddress(lanes: seq<Lane.Lane>) returns (a: Lane.Addr)
    ensures a != 0 && forall i :: 0 <= i < |lanes| ==> forall b :: b in lanes[i].heap ==> b < a
  {
    a := 1;
    for i := 0 to |lanes|
      invariant a != 0 && forall j :: 0 <= j < i ==> forall b :: b in lanes[j].heap ==> b < a
    {
      var c := Above(lanes[i].heap.Keys);
      if c > a { a := c; }
    }
  }

  lemma Above(m: set<nat>) returns (a: nat)
    ensures forall b :: b in m ==> b < a
  {
    a := 0;
    if m != {} {
      var b :| b in m;
      a := Above(m - {b});
      if a <= b { a := b + 1; }
      assert m == m - {b} + {b};
    }
  }

  // What a lane thread running alone does, step by step.
  lemma LaneAlone(s: State, t: Tid, i: nat) returns (s': State)
    requires Reachable(s) && AloneInLane(s, t, i)
    ensures Reachable(s') && Quiet(s') && s'.enqs == s.enqs && s'.deqs == s.deqs
    decreases Lane.Rank(s.lanes[i].pcs[t])
  {
    AloneInLaneMoves(s, t, i);
    var st := InLane(i, Lane.NextStep(s.lanes[i], t));
    LaneAdvances(s, i, t);
    ReachStep(s, st);
    s' := Apply(s, st);
    StaysInLane(s, t, i, st);
    if t in s'.lanes[i].pcs { s' := LaneAlone(s', t, i); }
  }

  lemma AloneInLaneMoves(s: State, t: Tid, i: nat)
    requires Reachable(s) && AloneInLane(s, t, i)
    ensures !Lane.Waits(s.lanes[i], t)
  {
    var u, j := SomeoneAdvances(s, t, i);
  }

  lemma StaysInLane(s: State, t: Tid, i: nat, st: Step)
    requires AloneInLane(s, t, i) && Enabled(s, st) && Safe(s, st) && st.InLane? && st.i == i && st.lst.t == t
    ensures var s' := Apply(s, st);
            && s'.enqs == s.enqs && s'.deqs == s.deqs && |s'.lanes| == |s.lanes|
            && if t in s'.lanes[i].pcs then AloneInLane(s', t, i) else Quiet(s')
  {
    Lane.StepBooks(s.lanes[i], st.lst);
    assert forall u :: u in Apply(s, st).lanes[i].pcs ==> u == t;
    if t !in Apply(s, st).lanes[i].pcs { assert Apply(s, st).lanes[i].pcs == map[]; }
  }

  // The tickets drawn once thread t, alone in front, has finished.
  function EnqsAfter(s: State, t: Tid): seq<Lane.Enq>
    requires t in s.front
  {
    if s.front[t].Begun? then s.enqs + [Lane.Enq(t, s.front[t].v)] else s.enqs
  }

  function DeqsAfter(s: State, t: Tid): seq<Tid>
    requires t in s.front
  {
    if s.front[t].Won? || (s.front[t].Test? && |s.deqs| < |s.enqs|) then s.deqs + [t] else s.deqs
  }

  lemma FrontAlone(s: State, t: Tid) returns (s': State)
    requires Reachable(s) && AloneInFront(s, t)
    ensures Reachable(s') && Quiet(s') && s'.enqs == EnqsAfter(s, t) && s'.deqs == DeqsAfter(s, t)
    decreases Rank(s, s.front[t])
  {
    var st := FrontGoesOn(s, t);
    s' := Apply(s, st);
    if Reaches(st) {
      JoinsLane(s, t, st);
      s' := LaneAlone(s', t, LaneIx(s, st));
    } else {
      FrontStays(s, t, st);
      if t in s'.front { s' := FrontAlone(s', t); }
    }
  }

  lemma FrontGoesOn(s: State, t: Tid) returns (st: Step)
    requires Reachable(s) && AloneInFront(s, t)
    ensures t in s.front && Advances(s, t, st) && Reachable(Apply(s, st)) && !st.InLane? && st.t == t
  {
    AloneInFrontMoves(s, t);
    var a := FreeAddress(s.lanes);
    st := NextStep(s, t, a);
    FrontAdvances(s, t, a);
    ReachStep(s, st);
  }

  lemma FrontStays(s: State, t: Tid, st: Step)
    requires Reachable(s) && AloneInFront(s, t) && Enabled(s, st) && Safe(s, st) && !Reaches(st) && st.t == t
    ensures t in s.front
    ensures var s' := Apply(s, st);
            if t in s'.front
            then AloneInFront(s', t) && EnqsAfter(s', t) == EnqsAfter(s, t) && DeqsAfter(s', t) == DeqsAfter(s, t)
            else Quiet(s') && s'.enqs == EnqsAfter(s, t) && s'.deqs == DeqsAfter(s, t)
  {
    ReachableInv(s);
    StaysInFront(s, t, st);
  }

  lemma AloneInFrontMoves(s: State, t: Tid)
    requires Reachable(s) && AloneInFront(s, t)
    ensures Shape(s) && !Waits(s, t)
  {
    var u, j := SomeoneAdvances(s, t, 0);
  }

  lemma JoinsLane(s: State, t: Tid, st: Step)
    requires AloneInFront(s, t) && Enabled(s, st) && Safe(s, st) && (st.EJoin? || st.DJoin?) && st.t == t
    requires t in Apply(s, st).lanes[LaneIx(s, st)].pcs
    ensures var s' := Apply(s, st); s'.enqs == s.enqs && s'.deqs == s.deqs && AloneInLane(s', t, LaneIx(s, st))
    ensures EnqsAfter(s, t) == s.enqs && DeqsAfter(s, t) == s.deqs
  {
    Lane.StepBooks(s.lanes[LaneIx(s, st)], LaneStep(s, st));
  }

  lemma StaysInFront(s: State, t: Tid, st: Step)
    requires CountInv(s) && AloneInFront(s, t) && Enabled(s, st) && Safe(s, st) && !Reaches(st)
    requires st.t == t && t in s.front
    ensures var s' := Apply(s, st);
            if t in s'.front
            then AloneInFront(s', t) && EnqsAfter(s', t) == EnqsAfter(s, t) && DeqsAfter(s', t) == DeqsAfter(s, t)
            else Quiet(s') && s'.enqs == EnqsAfter(s, t) && s'.deqs == DeqsAfter(s, t)
  {
  }

  /** An enqueue running alone ends, with its argument behind all the items waiting. */
  lemma EnqueueAlone(s: State, t: Tid, v: Data) returns (s': State)
    requires Reachable(s) && Quiet(s)
    ensures Enabled(s, EBegin(t, v)) && Reachable(s') && Quiet(s')
    ensures Waiting(s') == Waiting(s) + [Lane.Enq(t, v)] && s'.deqs == s.deqs
  {
    ReachStep(s, EBegin(t, v));
    QuietMeansSettled(s);
    NeverOvertakes(s);
    s' := FrontAlone(Apply(s, EBegin(t, v)), t);
  }

  /** A dequeue running alone ends: it returns the oldest item waiting and removes it, or NULL if there is none. */
  lemma DequeueAlone(s: State, t: Tid) returns (s': State)
    requires Reachable(s) && Quiet(s)
    ensures Enabled(s, DBegin(t)) && Reachable(s') && Quiet(s') && s'.enqs == s.enqs
    ensures if Waiting(s) == [] then s'.deqs == s.deqs
            else var d := |s.deqs|;
                 && Waiting(s') == Waiting(s)[1..] && s'.deqs == s.deqs + [t]
                 && |s'.lanes| == s'.n > 0 && d in s'.lanes[d % s'.n].rets
                 && s'.lanes[d % s'.n].rets[d] == Waiting(s)[0].v
  {
    ReachStep(s, DBegin(t));
    NeverOvertakes(s);
    s' := FrontAlone(Apply(s, DBegin(t)), t);
    NeverOvertakes(s');
    QuietMeansSettled(s');
  }

  lemma NeverOvertakes(s: State)
    requires Reachable(s)
    ensures |s.deqs| <= |s.enqs|
  {
    ReachableInv(s);
  }

  /** Enqueue v on an empty queue of any number of lanes, then dequeue: v comes back, and the queue is empty again. */
  lemma EnqueueThenDequeue(s: State, t: Tid, u: Tid, v: Data) returns (s': State)
    requires Init(s)
    ensures Reachable(s') && Quiet(s') && Waiting(s') == []
    ensures |s'.lanes| > 0 && 0 in s'.lanes[0].rets && s'.lanes[0].rets[0] == v
  {
    Runs.Start(Init, Next, s);
    var s1 := EnqueueAlone(s, t, v);
    s' := DequeueAlone(s1, u);
  }

  /** A caller's argument stays with its thread from the first step of the enqueue to the ticket, becomes the item of
      that ticket, and is what the node of the lane holds; items once numbered never change. */
  lemma ArgumentIsKept(s: State, st: Step, u: Tid)
    requires Reachable(s) && Enabled(s, st)
    ensures Safe(s, st) && s.enqs <= Apply(s, st).enqs
    ensures st.EBegin? ==> At(Apply(s, st), st.t, Begun(st.v))
    ensures u in s.front && s.front[u].Begun? ==>
              if st == ETicket(u) then Apply(s, st).enqs == s.enqs + [Lane.Enq(u, s.front[u].v)]
              else At(Apply(s, st), u, s.front[u])
    ensures u in s.front && s.front[u].Numbered? ==>
              0 <= s.front[u].e < |s.enqs| && s.enqs[s.front[u].e] == Lane.Enq(u, s.front[u].v)
  {
    ReachableInv(s);
    EnabledIsSafe(s, st);
    if u in s.front { assert FrontOk(s, u); }
  }
}
