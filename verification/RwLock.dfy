/** The reader/writer spin lock (`ev_rwlock`).

    A reader counts itself into `rd_lock` tentatively and backs out if a writer is there.  A writer
    takes `wr_lock` from 0 to -1, waits until no reader is counted, and sets it to 1.  Every atomic
    operation is one step and any number of threads interleave.  `writer` is history: the thread
    that took `wr_lock` away from 0. */
module RwLock {
  import Runs
  import opened Counting

  type Tid = nat

  datatype ReadAt = RLoad | RAdd | RCheck | RBack | RHold | RAssert | RSub
  datatype WriteAt = WCas | WWait | WSet | WHold | WAssert | WClear
  datatype PC = Reader(r: ReadAt) | Writer(w: WriteAt)

  datatype State = State(rd: int, wr: int, pcs: map<Tid, PC>, writer: Tid)

  datatype Step =
    | StartRead(t: Tid) | StartWrite(t: Tid) | Move(t: Tid) | StartUnlock(t: Tid)

  const INIT_STATE := State(0, 0, map[], 0)

  predicate Init(s: State) { s == INIT_STATE }

  predicate Enabled(s: State, st: Step) {
    match st
    case StartRead(t) => t !in s.pcs
    case StartWrite(t) => t !in s.pcs
    case StartUnlock(t) => t in s.pcs && (s.pcs[t] == Reader(RHold) || s.pcs[t] == Writer(WHold))
    case Move(t) => t in s.pcs && s.pcs[t] != Reader(RHold) && s.pcs[t] != Writer(WHold)
  }

  /** The assertions of the two unlock functions. */
  predicate Safe(s: State, st: Step)
    requires Enabled(s, st)
  {
    st.Move? ==> (s.pcs[st.t] == Reader(RAssert) ==> s.rd > 0) && (s.pcs[st.t] == Writer(WAssert) ==> s.wr == 1)
  }

  function Goto(s: State, t: Tid, pc: PC): State { s.(pcs := s.pcs[t := pc]) }

  function Apply(s: State, st: Step): State
    requires Enabled(s, st) && Safe(s, st)
  {
    match st
    case StartRead(t) => Goto(s, t, Reader(RLoad))
    case StartWrite(t) => Goto(s, t, Writer(WCas))
    case StartUnlock(t) => Goto(s, t, if s.pcs[t].Reader? then Reader(RAssert) else Writer(WAssert))
    case Move(t) =>
      match s.pcs[t]
      case Reader(RLoad) => if s.wr != 0 then s else Goto(s, t, Reader(RAdd))
      case Reader(RAdd) => Goto(s.(rd := s.rd + 1), t, Reader(RCheck))
      case Reader(RCheck) => Goto(s, t, Reader(if s.wr == 0 then RHold else RBack))
      case Reader(RBack) => Goto(s.(rd := s.rd - 1), t, Reader(RLoad))
      case Reader(RHold) => s
      case Reader(RAssert) => Goto(s, t, Reader(RSub))
      case Reader(RSub) => s.(rd := s.rd - 1, pcs := s.pcs - {t})
      case Writer(WCas) => if s.wr != 0 then s else Goto(s.(wr := -1, writer := t), t, Writer(WWait))
      case Writer(WWait) => if s.rd != 0 then s else Goto(s, t, Writer(WSet))
      case Writer(WSet) => Goto(s.(wr := 1), t, Writer(WHold))
      case Writer(WHold) => s
      case Writer(WAssert) => Goto(s, t, Writer(WClear))
      case Writer(WClear) => s.(wr := 0, pcs := s.pcs - {t})
  }

  // ---------------------------------------------------------------- invariant

  // Readers counted in rd_lock, and among them those that hold the lock.
  predicate Counted(p: PC) { p.Reader? && !p.r.RLoad? && !p.r.RAdd? }
  predicate ReadHeld(p: PC) { p.Reader? && (p.r.RHold? || p.r.RAssert? || p.r.RSub?) }
  // Writers that have taken wr_lock; that have seen no reader; that hold the lock.
  predicate Claimed(p: PC) { p.Writer? && !p.w.WCas? }
  predicate Alone(p: PC) { Claimed(p) && !p.w.WWait? }
  predicate WriteHeld(p: PC) { Alone(p) && !p.w.WSet? }

  ghost predicate WordsOk(s: State) {
    && s.rd == Count(s.pcs, Counted)
    && (s.wr == 0 || s.wr == -1 || s.wr == 1)
    && (s.wr != 0 ==> s.writer in s.pcs && Claimed(s.pcs[s.writer]))
  }

  predicate ThreadOk(s: State, t: Tid)
    requires t in s.pcs
  {
    && (Claimed(s.pcs[t]) ==> t == s.writer && s.wr == (if WriteHeld(s.pcs[t]) then 1 else -1))
    && (ReadHeld(s.pcs[t]) ==> s.wr == 0 || (s.writer in s.pcs && s.pcs[s.writer] == Writer(WWait)))
  }

  ghost predicate Inv(s: State) {
    && WordsOk(s)
    && (forall t {:trigger ThreadOk(s, t)} :: t in s.pcs ==> ThreadOk(s, t))
  }

  lemma EnabledIsSafe(s: State, st: Step)
    requires Inv(s) && Enabled(s, st)
    ensures Safe(s, st)
  {
    if st.t in s.pcs {
      assert ThreadOk(s, st.t);
      if Counted(s.pcs[st.t]) { CountPositive(s.pcs, st.t, Counted); }
    }
  }

  lemma WordsKept(s: State, st: Step)
    requires WordsOk(s) && Enabled(s, st) && Safe(s, st) && (st.t in s.pcs ==> ThreadOk(s, st.t))
    ensures WordsOk(Apply(s, st))
  {
    var s' := Apply(s, st);
    if st.t in s'.pcs { CountPut(s.pcs, st.t, s'.pcs[st.t], Counted); } else { CountDrop(s.pcs, st.t, Counted); }
    assert s'.pcs == if st.t in s'.pcs then s.pcs[st.t := s'.pcs[st.t]] else s.pcs - {st.t};
  }

  lemma ThreadKept(s: State, st: Step, u: Tid)
    requires WordsOk(s) && Enabled(s, st) && Safe(s, st) && u in Apply(s, st).pcs
    requires (st.t in s.pcs ==> ThreadOk(s, st.t)) && (u in s.pcs ==> ThreadOk(s, u))
    requires s.writer in s.pcs ==> ThreadOk(s, s.writer)
    ensures ThreadOk(Apply(s, st), u)
  {
    if u in s.pcs && Counted(s.pcs[u]) { CountPositive(s.pcs, u, Counted); }
  }

  lemma StepKeepsInv(s: State, st: Step)
    requires Inv(s) && Enabled(s, st) && Safe(s, st)
    ensures Inv(Apply(s, st))
  {
    var s' := Apply(s, st);
    assert st.t in s.pcs ==> ThreadOk(s, st.t);
    assert s.writer in s.pcs ==> ThreadOk(s, s.writer);
    WordsKept(s, st);
    forall u | u in s'.pcs ensures ThreadOk(s', u) {
      assert u in s.pcs ==> ThreadOk(s, u);
      ThreadKept(s, st, u);
    }
  }

  // ---------------------------------------------------------------- results over whole runs

  /** One step of some thread. Only safe steps are applied; EnabledIsSafe shows that this excludes none. */
  ghost predicate Next(s: State, s': State) {
    exists st :: Enabled(s, st) && Safe(s, st) && s' == Apply(s, st)
  }

  /** The states that some interleaving reaches. */
  ghost predicate Reachable(s: State) { Runs.Reached(Init, Next, s) }

  lemma NextKeepsInv(s: State, s': State)
    requires Inv(s) && Next(s, s')
    ensures Inv(s')
  {
    var st :| Enabled(s, st) && Safe(s, st) && s' == Apply(s, st);
    StepKeepsInv(s, st);
  }

  lemma ReachableInv(s: State)
    requires Reachable(s)
    ensures Inv(s)
  {
    CountEmpty<PC>(Counted);
    forall s, s' | Inv(s) && Next(s, s') ensures Inv(s') { NextKeepsInv(s, s'); }
    Runs.Induction(Init, Next, Inv, s);
  }

  /** No reader holds the lock alongside a writer, and at most one writer holds it. */
  lemma WritersExclude(s: State, t: Tid, u: Tid)
    requires Reachable(s) && t in s.pcs && WriteHeld(s.pcs[t]) && u in s.pcs && t != u
    ensures !WriteHeld(s.pcs[u]) && !ReadHeld(s.pcs[u])
  {
    ReachableInv(s);
    assert ThreadOk(s, t) && ThreadOk(s, u);
  }

  /** `rd_lock` is the number of readers that hold the lock or are counted tentatively. */
  lemma ReadWordCountsReaders(s: State)
    requires Reachable(s)
    ensures s.rd == Count(s.pcs, Counted)
  {
    ReachableInv(s);
  }

  /** Neither unlock assertion fires for a caller that holds the lock. */
  lemma UnlockAssertionsHold(s: State, st: Step)
    requires Reachable(s) && Enabled(s, st)
    ensures Safe(s, st)
  {
    ReachableInv(s);
    EnabledIsSafe(s, st);
  }

  // ---------------------------------------------------------------- progress

  predicate Held(pc: PC) { pc == Reader(RHold) || pc == Writer(WHold) }

  predicate Unlocking(pc: PC) {
    (pc.Reader? && (pc.r.RAssert? || pc.r.RSub?)) || (pc.Writer? && (pc.w.WAssert? || pc.w.WClear?))
  }

  // How many of its own moves a thread is away from holding the lock, or from having released it, if nobody else moves.
  function Rank(s: State, pc: PC): nat {
    match pc
    case Reader(r) =>
      (match r
       case RLoad => 3
       case RAdd => if s.wr == 0 then 2 else 6
       case RCheck => if s.wr == 0 then 1 else 5
       case RBack => 4
       case RHold => 0
       case RAssert => 2
       case RSub => 1)
    case Writer(w) =>
      (match w
       case WCas => 3
       case WWait => 2
       case WSet => 1
       case WHold => 0
       case WAssert => 2
       case WClear => 1)
  }

  /** The three waits: for no writer, twice, and for no reader. */
  predicate Waits(s: State, t: Tid) {
    && t in s.pcs
    && (((s.pcs[t] == Reader(RLoad) || s.pcs[t] == Writer(WCas)) && s.wr != 0) ||
          (s.pcs[t] == Writer(WWait) && s.rd != 0))
  }

  /** Outside the waits every move brings a thread closer to holding the lock, or to having released it. */
  lemma MovesAdvance(s: State, t: Tid)
    requires Reachable(s) && t in s.pcs && !Held(s.pcs[t]) && !Waits(s, t)
    ensures Enabled(s, Move(t)) && Safe(s, Move(t))
    ensures var s' := Apply(s, Move(t));
            if t in s'.pcs
            then Rank(s', s'.pcs[t]) < Rank(s, s.pcs[t]) && s'.pcs[t].Reader? == s.pcs[t].Reader?
                 && Unlocking(s'.pcs[t]) == Unlocking(s.pcs[t])
            else Unlocking(s.pcs[t])
  {
    ReachableInv(s);
    EnabledIsSafe(s, Move(t));
    assert ThreadOk(s, t);
  }

  /** No deadlock: if a thread waits, another is between its waits, or holds the lock. */
  lemma SomeoneAdvances(s: State, t: Tid) returns (u: Tid)
    requires Reachable(s) && t in s.pcs
    ensures u in s.pcs && !Waits(s, u)
  {
    ReachableInv(s);
    u := t;
    if Waits(s, u) && s.pcs[u] != Writer(WWait) { u := s.writer; }
    if Waits(s, u) { u := CountWitness(s.pcs, Counted); }
  }

  /** A reader that comes to a lock without a writer holds it after three moves, and its unlock takes back what it
      did. */
  lemma ReaderCycle(s: State, t: Tid)
    requires Reachable(s) && t !in s.pcs && s.wr == 0
    ensures var h := Apply(Apply(Apply(Apply(s, StartRead(t)), Move(t)), Move(t)), Move(t));
            && h == s.(rd := s.rd + 1, pcs := s.pcs[t := Reader(RHold)])
            && Safe(Apply(h, StartUnlock(t)), Move(t))
            && Apply(Apply(Apply(h, StartUnlock(t)), Move(t)), Move(t)) == s
  {
    ReachableInv(s);
    assert s.pcs[t := Reader(RHold)] - {t} == s.pcs;
  }

  /** A writer that comes to a free lock holds it after three moves, and its unlock frees it. */
  lemma WriterCycle(s: State, t: Tid)
    requires Reachable(s) && t !in s.pcs && s.wr == 0 && s.rd == 0
    ensures var h := Apply(Apply(Apply(Apply(s, StartWrite(t)), Move(t)), Move(t)), Move(t));
            && h == s.(wr := 1, writer := t, pcs := s.pcs[t := Writer(WHold)])
            && Safe(Apply(h, StartUnlock(t)), Move(t))
            && Apply(Apply(Apply(h, StartUnlock(t)), Move(t)), Move(t)) == s.(writer := t)
  {
    assert s.pcs[t := Writer(WHold)] - {t} == s.pcs;
  }

  /** With nobody inside, both words are 0 again. */
  lemma QuietMeansFree(s: State)
    requires Reachable(s) && s.pcs == map[]
    ensures s.rd == 0 && s.wr == 0
  {
    ReachableInv(s);
    CountEmpty<PC>(Counted);
  }
}
