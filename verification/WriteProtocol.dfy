/** The journey of a byte from `ef_write` to the disk, for one file opened for appending.

    The application thread collects bytes in an accumulator of one page and queues a request
    when it is full; a periodic thread, and the close path, flush the accumulator and queue an
    fsync.  Each queued request is followed by an event to the writer thread, which gathers all
    queued requests into one batch at a time and hands it to a pool worker; the worker carries
    the batch out on the page layer and posts a completion event.  The word `ws` keeps the
    application and the periodic thread apart.  One step is one access to a shared word, queue
    or counter; what a worker does to the file in one request is any outcome that the page
    layer's contract allows.  Runs are considered until the close path sees its writes
    complete.  Fields after `// history` do not exist in the program. */
module WriteProtocol {
  import opened Bytes
  import opened FlatFile
  import Runs

  type Tid = nat

  // What the holder of ws has left to do.
  datatype Job =
    | Fill(rest: seq<byte>)   // ef_write: bytes still to be accepted
    | Flush                   // ef_sync: flush the accumulator
    | SyncFlush               // sync_file_writes: flush the accumulator first
    | SyncMark                // ... then queue an fsync
    | Leave(word: int)        // release ws

  datatype Stage = Count | Queue | Notify   // total count, request queue, writer event

  datatype PPC =
    | Out
    | Want(job: Job)                              // about to take ws
    | In(job: Job)
    | Send(r: Request, stage: Stage, job: Job)    // handing request r over, then job
    | ReadTotal | ReadDone(seen: nat) | Closed    // the close path's wait

  datatype Event = Asked | Finished

  datatype WPC =
    | Await
    | Gather(done: nat)     // dequeuing requests; done = requests of the batch that just finished
    | Dispatch(done: nat)   // about to hand the batch to the pool
    | Tally(done: nat)      // about to add done to the completed count

  // Where the batch is.
  datatype Flight = Nowhere | InPool | Running(w: Tid, k: nat) | Posted

  // The application's and the periodic thread's side.
  datatype Front = Front(live: bool, ws: int, app: PPC, syncer: PPC, closing: bool, accum: seq<byte>, total: nat)

  // The writer thread's and the workers' side.
  datatype Back = Back(
    writer: WPC, batch: seq<Request>, batched: nat, completed: nat,
    pool: nat, workers: map<Tid, nat>,  // tasks in the pool; worker -> next request of the batch
    file: Stored,
    // history
    flight: Flight)

  datatype State = State(
    page: nat, front: Front, queue: seq<Request>, events: seq<Event>, back: Back,
    // history
    orig: seq<byte>, accepted: seq<byte>, log: seq<Request>, mark: int, post: Post)

  // History of the events.
  datatype Post = Post(
    tags: seq<nat>,   // for each event in the queue, the number of its request (of no meaning for a completion)
    late: set<nat>)   // requests whose batch had been reported done when their event was posted

  datatype Who = App | Syncer

  datatype FrontStep =
    | StartWrite(data: seq<byte>) | StartSync | StartClose | StartPeriodic
    | Take(who: Who)        // compare-and-swap on ws
    | Act(who: Who)         // next operation of a holder of ws
    | Release(who: Who)
    | LoadTotal | LoadDone  // the close path compares the counters

  datatype BackStep =
    | NextEvent | GatherOne | HandOver | AddDone
    | Begin(w: Tid) | Carry(w: Tid, file': Stored) | End(w: Tid)

  datatype Step = Ahead(f: FrontStep) | Behind(b: BackStep)

  predicate Init(s: State) {
    && s.page > 0
    && s.front == Front(false, 0, Out, Out, false, [], 0)
    && s.back == Back(Await, [], 0, 0, 0, map[], Stored(s.orig, s.orig), Nowhere)
    && s.queue == [] && s.events == [] && s.accepted == [] && s.log == [] && s.mark == -1
    && s.post == Post([], {})
  }

  // ---------------------------------------------------------------- the producers

  function PC(f: Front, who: Who): PPC { if who.App? then f.app else f.syncer }

  function Go(f: Front, who: Who, pc: PPC): Front {
    if who.App? then f.(app := pc) else f.(syncer := pc)
  }

  // The value a job keeps in ws.
  function Word(job: Job): int {
    match job
    case Fill(_) => -1
    case Flush => -2
    case Leave(word) => word
    case _ => 1
  }

  predicate FrontEnabled(f: Front, st: FrontStep) {
    match st
    case StartWrite(data) => f.app.Out? && data != []
    case StartSync => f.app.Out?
    case StartClose => f.app.Out?
    case StartPeriodic => f.syncer.Out?
    case Take(who) => PC(f, who).Want? && f.ws == 0
    case Act(who) => (PC(f, who).In? && !PC(f, who).job.Leave?) || PC(f, who).Send?
    case Release(who) => PC(f, who).In? && PC(f, who).job.Leave?
    case LoadTotal => f.app.ReadTotal?
    case LoadDone => f.app.ReadDone?
  }

  // The accumulator becomes a request, if it holds anything.
  function Drain(f: Front, who: Who, next: Job): Front {
    if f.live && f.accum != [] then Go(f.(accum := []), who, Send(Write(f.accum), Count, next))
    else Go(f, who, In(next))
  }

  // Copy what fits into the accumulator; a full one becomes a request.
  function FillOnce(page: nat, f: Front, rest: seq<byte>): Front {
    var space := if |f.accum| < page then page - |f.accum| else 0;
    var n := if |rest| > space then space else |rest|;
    var accum := f.accum + rest[..n];
    if |accum| >= page
    then f.(accum := [], app := Send(Write(accum), Count, Fill(rest[n..])))
    else f.(accum := accum, app := In(Fill(rest[n..])))
  }

  function ActIn(page: nat, f: Front, who: Who, job: Job): Front {
    match job
    case Fill(rest) =>
      if !f.live then f.(live := true)
      else if rest == [] then Go(f, who, In(Leave(-1)))
      else FillOnce(page, f, rest)
    case Flush => Drain(f, who, Leave(-2))
    case SyncFlush => Drain(f, who, SyncMark)
    case SyncMark => Go(f, who, if f.live then Send(Sync, Count, Leave(1)) else In(Leave(1)))
    case Leave(_) => f
  }

  function ActSend(f: Front, who: Who, r: Request, stage: Stage, job: Job): Front {
    match stage
    case Count => Go(f.(total := f.total + 1), who, Send(r, Queue, job))
    case Queue => Go(f, who, Send(r, Notify, job))
    case Notify => Go(f, who, In(job))
  }

  function FrontApply(page: nat, f: Front, st: FrontStep, completed: nat): Front
    requires FrontEnabled(f, st)
  {
    match st
    case StartWrite(data) => f.(app := Want(Fill(data)))
    case StartSync => f.(app := Want(Flush))
    case StartClose => f.(app := Want(SyncFlush), closing := true)
    case StartPeriodic => f.(syncer := Want(SyncFlush))
    case Take(who) => Go(f.(ws := Word(PC(f, who).job)), who, In(PC(f, who).job))
    case Act(who) =>
      if PC(f, who).In? then ActIn(page, f, who, PC(f, who).job)
      else ActSend(f, who, PC(f, who).r, PC(f, who).stage, PC(f, who).job)
    case Release(who) =>
      Go(f.(ws := if f.ws == PC(f, who).job.word then 0 else f.ws), who,
         if who.App? && f.closing then ReadTotal else Out)
    case LoadTotal => f.(app := if f.live then ReadDone(f.total) else Closed)
    case LoadDone => f.(app := if completed == f.app.seen then Closed else ReadTotal)
  }

  predicate Queues(f: Front, st: FrontStep) { st.Act? && PC(f, st.who).Send? && PC(f, st.who).stage.Queue? }

  predicate Notifies(f: Front, st: FrontStep) { st.Act? && PC(f, st.who).Send? && PC(f, st.who).stage.Notify? }

  // The number of the request queued last; while its producer is about to post, it is that producer's request.
  function Latest(log: seq<Request>): nat { if log == [] then 0 else |log| - 1 }

  // The batch that holds request k is done and its completion has been posted.
  predicate Reported(b: Back, k: int) { k < Low(b) || (b.flight.Posted? && k < b.batched) }

  function ApplyFront(s: State, st: FrontStep): State
    requires FrontEnabled(s.front, st)
  {
    var f := FrontApply(s.page, s.front, st, s.back.completed);
    if Queues(s.front, st) then
      var r := PC(s.front, st.who).r;
      s.(front := f, queue := s.queue + [r], log := s.log + [r],
         mark := if st.who.App? && s.front.closing && r.Sync? then |s.log| else s.mark)
    else if Notifies(s.front, st) then
      var k := Latest(s.log);
      s.(front := f, events := s.events + [Asked],
         post := Post(s.post.tags + [k], if Reported(s.back, k) then s.post.late + {k} else s.post.late))
    else if st.StartWrite? then s.(front := f, accepted := s.accepted + st.data)
    else s.(front := f)
  }

  // ---------------------------------------------------------------- the writer thread and the workers

  predicate BackEnabled(b: Back, events: seq<Event>, st: BackStep) {
    match st
    case NextEvent => b.writer.Await? && events != []
    case GatherOne => b.writer.Gather?
    case HandOver => b.writer.Dispatch?
    case AddDone => b.writer.Tally?
    case Begin(w) => b.pool > 0 && w !in b.workers
    case Carry(w, file') =>
      && w in b.workers && b.workers[w] < |b.batch|
      && match b.batch[b.workers[w]] {
           case Write(data) => Appended(b.file, data, file')
           case Sync => Synced(b.file, file')
         }
    case End(w) => w in b.workers && b.workers[w] >= |b.batch|
  }

  // A completion frees the batch; a request event is ignored while a batch is out.
  function HandleEvent(b: Back, e: Event): Back {
    match e
    case Finished => b.(batch := [], writer := Gather(|b.batch|), flight := Nowhere)
    case Asked => if b.batched != b.completed then b else b.(writer := Gather(0))
  }

  function ApplyBack(s: State, st: BackStep): State
    requires BackEnabled(s.back, s.events, st)
  {
    var b := s.back;
    match st
    case NextEvent =>
      s.(back := HandleEvent(b, s.events[0]), events := s.events[1..],
         post := s.post.(tags := if s.post.tags == [] then [] else s.post.tags[1..]))
    case GatherOne =>
      if s.queue != []
      then s.(back := b.(batch := b.batch + [s.queue[0]], batched := b.batched + 1), queue := s.queue[1..])
      else s.(back := b.(writer := if b.batch != [] then Dispatch(b.writer.done) else Tally(b.writer.done)))
    case HandOver => s.(back := b.(pool := b.pool + 1, flight := InPool, writer := Tally(b.writer.done)))
    case AddDone => s.(back := b.(completed := b.completed + b.writer.done, writer := Await))
    case Begin(w) => s.(back := b.(pool := b.pool - 1, workers := b.workers[w := 0], flight := Running(w, 0)))
    case Carry(w, file') =>
      s.(back := b.(file := file', workers := b.workers[w := b.workers[w] + 1], flight := Running(w, b.workers[w] + 1)))
    case End(w) =>
      s.(back := b.(workers := b.workers - {w}, flight := Posted), events := s.events + [Finished],
         post := s.post.(tags := s.post.tags + [0]))
  }

  predicate Enabled(s: State, st: Step) {
    && !s.front.app.Closed?
    && if st.Ahead? then FrontEnabled(s.front, st.f) else BackEnabled(s.back, s.events, st.b)
  }

  function Apply(s: State, st: Step): State
    requires Enabled(s, st)
  {
    if st.Ahead? then ApplyFront(s, st.f) else ApplyBack(s, st.b)
  }

  // ---------------------------------------------------------------- invariant of the producers

  predicate Holding(pc: PPC) { pc.In? || pc.Send? }

  predicate SyncJob(job: Job) { job.SyncFlush? || job.SyncMark? || job == Leave(1) }

  predicate Notifying(pc: PPC) { pc.Send? && pc.stage.Notify? }

  // ws says who holds it.
  predicate LockOk(f: Front) {
    && !(Holding(f.app) && Holding(f.syncer))
    && (Holding(f.app) ==> f.ws == Word(f.app.job) != 0)
    && (Holding(f.syncer) ==> f.ws == Word(f.syncer.job) != 0)
    && (!Holding(f.app) && !Holding(f.syncer) ==> f.ws == 0)
  }

  predicate JobOk(f: Front, pc: PPC) {
    && (pc.Want? ==> !pc.job.Leave? && !pc.job.SyncMark?)
    && (pc.Send? ==>
          && f.live && !pc.job.Flush? && !pc.job.SyncFlush?
          && (pc.r.Sync? <==> pc.job == Leave(1)) && (pc.r.Write? ==> pc.r.data != []))
    && (Holding(pc) && (pc.job.SyncMark? || pc.job == Leave(1) || pc.job == Leave(-2)) ==> f.accum == [])
  }

  predicate JobsOk(page: nat, f: Front) {
    && JobOk(f, f.app) && JobOk(f, f.syncer)
    && (f.syncer.Out? || ((f.syncer.Want? || Holding(f.syncer)) && SyncJob(f.syncer.job)))
    && (f.closing ==> !f.app.Out? && (f.app.Want? || Holding(f.app) ==> SyncJob(f.app.job)))
    && (f.app.ReadTotal? || f.app.ReadDone? || f.app.Closed? ==> f.closing)
    && |f.accum| < page && (f.accum != [] ==> f.live)
    && (f.app.ReadDone? ==> f.live)
  }

  function Bumped(pc: PPC): nat { if pc.Send? && pc.stage.Queue? then 1 else 0 }

  predicate TotalOk(f: Front, n: nat) { f.total == n + Bumped(f.app) + Bumped(f.syncer) }

  // Bytes taken from the accumulator and not yet queued.
  function InHand(pc: PPC): seq<byte> { if pc.Send? && !pc.stage.Notify? then BytesOf(pc.r) else [] }

  function Hand(f: Front): seq<byte> { if Holding(f.app) then InHand(f.app) else InHand(f.syncer) }

  // Bytes of the current call still to be accumulated.
  function Rest(pc: PPC): seq<byte> {
    if (pc.Want? || Holding(pc)) && pc.job.Fill? then pc.job.rest else []
  }

  /** Bytes accepted from the caller that are not yet in the request queue. */
  function Pending(f: Front): seq<byte> { Hand(f) + (f.accum + Rest(f.app)) }

  lemma LockKept(page: nat, f: Front, st: FrontStep, completed: nat)
    requires LockOk(f) && JobsOk(page, f) && FrontEnabled(f, st)
    ensures LockOk(FrontApply(page, f, st, completed))
  {
  }

  lemma ControlKeepsJobs(page: nat, f: Front, st: FrontStep, completed: nat)
    requires LockOk(f) && JobsOk(page, f) && FrontEnabled(f, st) && !st.Act?
    ensures JobsOk(page, FrontApply(page, f, st, completed))
  {
  }

  lemma ActKeepsJobs(page: nat, f: Front, st: FrontStep, completed: nat)
    requires LockOk(f) && JobsOk(page, f) && FrontEnabled(f, st) && st.Act?
    ensures JobsOk(page, FrontApply(page, f, st, completed))
  {
  }

  lemma TotalKept(page: nat, f: Front, st: FrontStep, completed: nat, n: nat)
    requires LockOk(f) && JobsOk(page, f) && TotalOk(f, n) && FrontEnabled(f, st)
    ensures TotalOk(FrontApply(page, f, st, completed), if Queues(f, st) then n + 1 else n)
  {
  }

  lemma ControlKeepsPending(page: nat, f: Front, st: FrontStep, completed: nat)
    requires LockOk(f) && JobsOk(page, f) && FrontEnabled(f, st) && !st.Act? && !st.StartWrite?
    ensures var f' := FrontApply(page, f, st, completed);
          Hand(f') == Hand(f) && f'.accum == f.accum && Rest(f'.app) == Rest(f.app)
  {
  }

  lemma StartAddsPending(page: nat, f: Front, st: FrontStep, completed: nat)
    requires FrontEnabled(f, st) && st.StartWrite?
    ensures Pending(FrontApply(page, f, st, completed)) == Pending(f) + st.data
  {
  }

  lemma SendKeepsPending(page: nat, f: Front, st: FrontStep, completed: nat)
    requires LockOk(f) && FrontEnabled(f, st) && st.Act? && PC(f, st.who).Send?
    ensures var f' := FrontApply(page, f, st, completed);
            f'.accum == f.accum && Rest(f'.app) == Rest(f.app) &&
            if Queues(f, st) then Hand(f) == BytesOf(PC(f, st.who).r) && Hand(f') == [] else Hand(f') == Hand(f)
  {
  }

  lemma ActKeepsPending(page: nat, f: Front, st: FrontStep, completed: nat)
    requires LockOk(f) && JobsOk(page, f) && FrontEnabled(f, st) && st.Act? && PC(f, st.who).In?
    ensures Pending(FrontApply(page, f, st, completed)) == Pending(f)
  {
    var job := PC(f, st.who).job;
    if job.Fill? && f.live && job.rest != [] {
      assert st.who.App?;
      FillKeepsPending(page, f, job.rest);
    }
  }

  lemma FillKeepsPending(page: nat, f: Front, rest: seq<byte>)
    requires f.app == In(Fill(rest)) && |f.accum| < page
    ensures Pending(FillOnce(page, f, rest)) == Pending(f)
  {
    var n := if |rest| > page - |f.accum| then page - |f.accum| else |rest|;
    FillParts(page, f, rest, n);
    var f' := FillOnce(page, f, rest);
    Regroup(f.accum, rest, n, Hand(f'), f'.accum);
  }

  lemma FillParts(page: nat, f: Front, rest: seq<byte>, n: nat)
    requires f.app == In(Fill(rest)) && |f.accum| < page
    requires n == if |rest| > page - |f.accum| then page - |f.accum| else |rest|
    ensures Hand(f) == [] && Rest(f.app) == rest
    ensures var f' := FillOnce(page, f, rest);
            Rest(f'.app) == rest[n..] &&
            ((Hand(f') == f.accum + rest[..n] && f'.accum == []) || (Hand(f') == [] && f'.accum == f.accum + rest[..n]))
  {
  }

  lemma Regroup(a: seq<byte>, b: seq<byte>, n: nat, x: seq<byte>, y: seq<byte>)
    requires n <= |b|
    requires (x == a + b[..n] && y == []) || (x == [] && y == a + b[..n])
    ensures x + (y + b[n..]) == [] + (a + b)
  {
    assert b == b[..n] + b[n..];
  }

  // ---------------------------------------------------------------- invariant of the writer side

  function Finishes(events: seq<Event>): nat {
    if events == [] then 0 else Finishes(events[..|events| - 1]) + (if events[|events| - 1].Finished? then 1 else 0)
  }

  lemma FinishesTail(events: seq<Event>, e: Event)
    ensures Finishes(events + [e]) == Finishes(events) + (if e.Finished? then 1 else 0)
  {
    assert (events + [e])[..|events|] == events;
  }

  lemma {:induction false} FinishesHead(events: seq<Event>)
    requires events != []
    ensures Finishes(events) == Finishes(events[1..]) + (if events[0].Finished? then 1 else 0)
  {
    if |events| > 1 {
      FinishesHead(events[..|events| - 1]);
      assert events[..|events| - 1][1..] == events[1..][..|events| - 2];
    }
  }

  // At most one batch is anywhere between the writer thread and its completion event.
  predicate FlightOk(b: Back, finishes: nat) {
    && b.pool == (if b.flight.InPool? then 1 else 0)
    && b.workers == (if b.flight.Running? then map[b.flight.w := b.flight.k] else map[])
    && finishes == (if b.flight.Posted? then 1 else 0)
    && (b.flight.Running? ==> b.flight.k <= |b.batch|)
  }

  // The first request of the current batch, and the first request not yet carried out.
  function Low(b: Back): int { b.batched - |b.batch| }

  function Carried(b: Back): int {
    Low(b) + (if b.flight.Running? then b.flight.k else if b.flight.Posted? then |b.batch| else 0)
  }

  predicate CountsOk(b: Back, n: nat) {
    && b.batched <= n && |b.batch| <= b.batched
    && b.completed + (if b.writer.Await? then 0 else b.writer.done) == Low(b)
    && (b.writer.Await? || b.writer.Tally? ==> (b.batch == [] <==> b.flight.Nowhere?))
    && (b.writer.Gather? || b.writer.Dispatch? ==> b.flight.Nowhere?)
    && (b.writer.Dispatch? ==> b.batch != [])
  }

  predicate QueueOk(b: Back, queue: seq<Request>, log: seq<Request>) {
    && |b.batch| <= b.batched <= |log|
    && queue == log[b.batched..] && b.batch == log[Low(b)..b.batched]
  }

  predicate FileOk(b: Back, log: seq<Request>, orig: seq<byte>) {
    && 0 <= Carried(b) <= |log|
    && b.file.view == orig + DataUpTo(log, Carried(b))
    && b.file.disk <= b.file.view
    && (Carried(b) == 0 ==> b.file.disk == orig)
  }

  /** A queued request always has someone on the way to it. */
  predicate NotStranded(s: State) {
    s.queue != [] ==>
      Asked in s.events || !s.back.flight.Nowhere? || s.back.writer.Gather? || Notifying(s.front.app) ||
            Notifying(s.front.syncer)
  }

  lemma FlightKept(s: State, st: BackStep)
    requires FlightOk(s.back, Finishes(s.events)) && CountsOk(s.back, |s.log|) && BackEnabled(s.back, s.events, st)
    ensures FlightOk(ApplyBack(s, st).back, Finishes(ApplyBack(s, st).events))
  {
    if st.NextEvent? { FinishesHead(s.events); }
    if st.End? { FinishesTail(s.events, Finished); }
  }

  lemma CountsKept(s: State, st: BackStep)
    requires FlightOk(s.back, Finishes(s.events)) && CountsOk(s.back, |s.log|) && QueueOk(s.back, s.queue, s.log)
    requires BackEnabled(s.back, s.events, st)
    ensures CountsOk(ApplyBack(s, st).back, |s.log|)
  {
    if st.NextEvent? { FinishesHead(s.events); }
  }

  lemma QueueKept(s: State, st: BackStep)
    requires CountsOk(s.back, |s.log|) && QueueOk(s.back, s.queue, s.log) && BackEnabled(s.back, s.events, st)
    ensures QueueOk(ApplyBack(s, st).back, ApplyBack(s, st).queue, s.log)
  {
  }

  // Only carrying a request out moves the count of requests carried out.
  lemma CarriedKept(s: State, st: BackStep)
    requires FlightOk(s.back, Finishes(s.events)) && CountsOk(s.back, |s.log|) && BackEnabled(s.back, s.events, st)
    ensures var b := ApplyBack(s, st).back;
          Carried(b) == Carried(s.back) + (if st.Carry? then 1 else 0) && (!st.Carry? ==> b.file == s.back.file)
  {
    if st.NextEvent? { FinishesHead(s.events); }
  }

  // The request a worker carries out next is the next one of the log.
  lemma CarriesInOrder(s: State, st: BackStep)
    requires FlightOk(s.back, Finishes(s.events)) && CountsOk(s.back, |s.log|) && QueueOk(s.back, s.queue, s.log)
    requires BackEnabled(s.back, s.events, st) && st.Carry?
    ensures 0 <= Carried(s.back) < |s.log| && s.back.batch[s.back.workers[st.w]] == s.log[Carried(s.back)]
  {
  }

  lemma FileKept(s: State, st: BackStep)
    requires FlightOk(s.back, Finishes(s.events)) && CountsOk(s.back, |s.log|) && QueueOk(s.back, s.queue, s.log) &&
          FileOk(s.back, s.log, s.orig)
    requires BackEnabled(s.back, s.events, st)
    ensures FileOk(ApplyBack(s, st).back, s.log, s.orig)
  {
    CarriedKept(s, st);
    if st.Carry? {
      CarriesInOrder(s, st);
      FileCarried(s.back.file, st.file', s.log, Carried(s.back), s.orig);
    }
  }

  lemma FileCarried(f: Stored, f': Stored, log: seq<Request>, k: nat, orig: seq<byte>)
    requires k < |log| && f.view == orig + DataUpTo(log, k)
    requires match log[k] { case Write(data) => Appended(f, data, f') case Sync => Synced(f, f') }
    ensures f'.view == orig + DataUpTo(log, k + 1) && f'.disk <= f'.view
  {
    assert orig + DataUpTo(log, k) + BytesOf(log[k]) == orig + (DataUpTo(log, k) + BytesOf(log[k]));
  }

  // ---------------------------------------------------------------- the two sides together

  // The close path has queued its fsync.
  predicate Past(pc: PPC) {
    (Notifying(pc) && pc.r.Sync?) || (pc.In? && pc.job.Leave?) || pc.ReadTotal? || pc.ReadDone? || pc.Closed?
  }

  predicate MarkSet(f: Front) { f.closing && f.live && Past(f.app) }

  // Once the close path has queued its fsync, only fsyncs follow.
  predicate MarkOk(f: Front, mark: int, log: seq<Request>) {
    && (mark >= 0 <==> MarkSet(f))
    && (f.app.ReadDone? ==> mark < f.app.seen)
    && (mark >= 0 ==> mark < |log| && f.accum == [] && Hand(f) == [] && forall i :: mark <= i < |log| ==> log[i].Sync?)
  }

  predicate DurableOk(b: Back, mark: int) {
    0 <= mark < Carried(b) ==> b.file.disk == b.file.view
  }

  predicate BytesOk(s: State) {
    && s.accepted == DataOf(s.log) + Pending(s.front)
    && (!s.front.live ==> s.log == [])
  }

  // An event that is behind the completion of its request's batch, in the queue or already handled, was late.
  predicate EventsOk(p: Post, events: seq<Event>, b: Back) {
    && |p.tags| == |events|
    && (forall i :: 0 <= i < |events| && events[i].Finished? ==> b.flight.Posted?)
    && (forall i, j :: 0 <= i < j < |events| && events[i].Finished? ==> events[j].Asked?)
    && (forall j :: 0 <= j < |events| && events[j].Asked? && p.tags[j] < Low(b) ==> p.tags[j] in p.late)
    && (forall i, j :: 0 <= i < j < |events| && events[i].Finished? && events[j].Asked? && p.tags[j] < b.batched ==>
                         p.tags[j] in p.late)
  }

  // The request of a producer about to post is the latest one, and behind the fsync unless it is the fsync itself.
  predicate PostersOk(f: Front, log: seq<Request>, mark: int) {
    && (Notifying(f.app) ==> log != [] && log[|log| - 1] == f.app.r && (mark >= 0 ==> |log| == mark + 1))
    && (Notifying(f.syncer) ==> log != [] && log[|log| - 1] == f.syncer.r && |log| > mark + 1)
  }

  // Lateness is recorded when the event is posted, not before.
  predicate LateOk(late: set<nat>, f: Front, n: nat) {
    forall k :: k in late ==> k < n && (Notifying(f.app) || Notifying(f.syncer) ==> k < n - 1)
  }

  predicate ClosedOk(f: Front, b: Back, mark: int) { f.app.Closed? && f.live ==> mark < b.completed }

  predicate PostOk(s: State) {
    && EventsOk(s.post, s.events, s.back)
    && PostersOk(s.front, s.log, s.mark)
    && LateOk(s.post.late, s.front, |s.log|)
    && ClosedOk(s.front, s.back, s.mark)
  }

  // The producers' half of the invariant, and the writer's.
  predicate FrontHalf(s: State) {
    match s
    case State(page, front, _, _, _, _, _, log, mark, _) =>
      LockOk(front) && JobsOk(page, front) && TotalOk(front, |log|) && MarkOk(front, mark, log) && BytesOk(s)
  }

  predicate BackHalf(s: State) {
    match s
    case State(_, _, queue, events, back, orig, _, log, mark, _) =>
      && FlightOk(back, Finishes(events)) && CountsOk(back, |log|)
      && QueueOk(back, queue, log) && FileOk(back, log, orig) && DurableOk(back, mark)
  }

  predicate Inv(s: State) { FrontHalf(s) && BackHalf(s) && NotStranded(s) && PostOk(s) }

  lemma MarkKeptQuiet(s: State, st: FrontStep)
    requires LockOk(s.front) && JobsOk(s.page, s.front) && TotalOk(s.front, |s.log|) && MarkOk(s.front, s.mark, s.log)
    requires FrontEnabled(s.front, st) && !st.Act?
    ensures MarkOk(ApplyFront(s, st).front, s.mark, s.log) && ApplyFront(s, st).mark == s.mark &&
          ApplyFront(s, st).log == s.log
  {
  }

  lemma MarkKeptIn(s: State, st: FrontStep)
    requires LockOk(s.front) && JobsOk(s.page, s.front) && MarkOk(s.front, s.mark, s.log) && BytesOk(s)
    requires FrontEnabled(s.front, st) && st.Act? && PC(s.front, st.who).In?
    ensures MarkOk(ApplyFront(s, st).front, s.mark, s.log) && ApplyFront(s, st).mark == s.mark &&
          ApplyFront(s, st).log == s.log
  {
  }

  lemma MarkKeptSend(s: State, st: FrontStep)
    requires LockOk(s.front) && JobsOk(s.page, s.front) && MarkOk(s.front, s.mark, s.log)
    requires FrontEnabled(s.front, st) && st.Act? && PC(s.front, st.who).Send?
    ensures var s' := ApplyFront(s, st); MarkOk(s'.front, s'.mark, s'.log)
  {
  }

  lemma StartKeepsBytes(s: State, st: FrontStep)
    requires BytesOk(s) && FrontEnabled(s.front, st) && st.StartWrite?
    ensures BytesOk(ApplyFront(s, st))
  {
    StartAddsPending(s.page, s.front, st, s.back.completed);
    Assoc(DataOf(s.log), Pending(s.front), st.data);
  }

  lemma Assoc(a: seq<byte>, b: seq<byte>, c: seq<byte>)
    ensures a + b + c == a + (b + c)
  {
  }

  lemma ControlKeepsBytes(s: State, st: FrontStep)
    requires LockOk(s.front) && JobsOk(s.page, s.front) && BytesOk(s) && FrontEnabled(s.front, st)
    requires !st.Act? && !st.StartWrite?
    ensures BytesOk(ApplyFront(s, st))
  {
    ControlKeepsPending(s.page, s.front, st, s.back.completed);
  }

  lemma ActKeepsBytes(s: State, st: FrontStep)
    requires LockOk(s.front) && JobsOk(s.page, s.front) && BytesOk(s) && FrontEnabled(s.front, st) && st.Act?
    ensures BytesOk(ApplyFront(s, st))
  {
    var f, c := s.front, s.back.completed;
    if PC(f, st.who).In? {
      ActKeepsPending(s.page, f, st, c);
    } else {
      SendKeepsPending(s.page, f, st, c);
      if Queues(f, st) { QueuedBytes(s.log, PC(f, st.who).r, f.accum + Rest(f.app), Pending(f)); }
    }
  }

  lemma QueuedBytes(log: seq<Request>, r: Request, rest: seq<byte>, pending: seq<byte>)
    requires pending == BytesOf(r) + rest
    ensures DataOf(log) + pending == DataOf(log + [r]) + rest
  {
    DataStays(log, r, |log|);
  }

  lemma BytesKept(s: State, st: FrontStep)
    requires LockOk(s.front) && JobsOk(s.page, s.front) && BytesOk(s) && FrontEnabled(s.front, st)
    ensures BytesOk(ApplyFront(s, st))
  {
    if st.Act? { ActKeepsBytes(s, st); }
    else if st.StartWrite? { StartKeepsBytes(s, st); }
    else { ControlKeepsBytes(s, st); }
  }

  // A longer log changes nothing for the requests already in it.
  lemma LogGrows(b: Back, queue: seq<Request>, log: seq<Request>, orig: seq<byte>, r: Request)
    requires CountsOk(b, |log|) && QueueOk(b, queue, log) && FileOk(b, log, orig)
    ensures CountsOk(b, |log| + 1) && QueueOk(b, queue + [r], log + [r]) && FileOk(b, log + [r], orig)
  {
    DataStays(log, r, Carried(b));
  }

  lemma DurableKept(s: State, st: BackStep)
    requires FrontHalf(s) && BackHalf(s) && BackEnabled(s.back, s.events, st)
    ensures DurableOk(ApplyBack(s, st).back, s.mark)
  {
    CarriedKept(s, st);
    if st.Carry? { CarriesInOrder(s, st); }
  }

  lemma FrontStrandsNothing(s: State, st: FrontStep)
    requires NotStranded(s) && LockOk(s.front) && FrontEnabled(s.front, st)
    ensures NotStranded(ApplyFront(s, st))
  {
  }

  lemma BackStrandsNothing(s: State, st: BackStep)
    requires NotStranded(s) && CountsOk(s.back, |s.log|) && BackEnabled(s.back, s.events, st)
    ensures NotStranded(ApplyBack(s, st))
  {
  }

  lemma PostersKept(s: State, st: FrontStep)
    requires LockOk(s.front) && JobsOk(s.page, s.front) && MarkOk(s.front, s.mark, s.log) && s.mark < |s.log|
    requires PostersOk(s.front, s.log, s.mark) && FrontEnabled(s.front, st)
    ensures var s' := ApplyFront(s, st); PostersOk(s'.front, s'.log, s'.mark)
  {
  }

  lemma ClosedKept(s: State, st: FrontStep)
    requires JobsOk(s.page, s.front) && MarkOk(s.front, s.mark, s.log) && BytesOk(s)
    requires ClosedOk(s.front, s.back, s.mark) && FrontEnabled(s.front, st)
    ensures var s' := ApplyFront(s, st); ClosedOk(s'.front, s'.back, s'.mark)
  {
  }

  lemma LateKept(s: State, st: FrontStep)
    requires LockOk(s.front) && JobsOk(s.page, s.front) && LateOk(s.post.late, s.front, |s.log|)
    requires PostersOk(s.front, s.log, s.mark) && FrontEnabled(s.front, st)
    ensures var s' := ApplyFront(s, st); LateOk(s'.post.late, s'.front, |s'.log|)
  {
  }

  lemma PostingKeepsEvents(s: State, st: FrontStep)
    requires EventsOk(s.post, s.events, s.back) && FrontEnabled(s.front, st)
    ensures EventsOk(ApplyFront(s, st).post, ApplyFront(s, st).events, s.back)
  {
  }

  lemma NextEventKeepsEvents(s: State, st: BackStep)
    requires FlightOk(s.back, Finishes(s.events)) && CountsOk(s.back, |s.log|) && EventsOk(s.post, s.events, s.back)
    requires BackEnabled(s.back, s.events, st) && st.NextEvent?
    ensures var s' := ApplyBack(s, st); EventsOk(s'.post, s'.events, s'.back)
  {
    assert forall i :: 0 <= i < |s.events| - 1 ==>
                         s.events[1..][i] == s.events[i + 1] && s.post.tags[1..][i] == s.post.tags[i + 1];
  }

  lemma WorkKeepsEvents(s: State, st: BackStep)
    requires FlightOk(s.back, Finishes(s.events)) && CountsOk(s.back, |s.log|) && EventsOk(s.post, s.events, s.back)
    requires BackEnabled(s.back, s.events, st) && !st.NextEvent?
    ensures var s' := ApplyBack(s, st); EventsOk(s'.post, s'.events, s'.back)
  {
  }

  lemma FrontKeepsFront(s: State, st: FrontStep)
    requires FrontHalf(s) && FrontEnabled(s.front, st)
    ensures FrontHalf(ApplyFront(s, st))
  {
    var f, c := s.front, s.back.completed;
    LockKept(s.page, f, st, c); TotalKept(s.page, f, st, c, |s.log|);
    if st.Act? { ActKeepsJobs(s.page, f, st, c); } else { ControlKeepsJobs(s.page, f, st, c); }
    BytesKept(s, st);
    if !st.Act? { MarkKeptQuiet(s, st); } else if PC(f, st.who).In? { MarkKeptIn(s, st); } else { MarkKeptSend(s, st); }
  }

  // The writer's half sees a longer log, or one more request event.
  lemma FrontKeepsBack(s: State, st: FrontStep)
    requires BackHalf(s) && FrontEnabled(s.front, st)
    ensures BackHalf(ApplyFront(s, st))
  {
    if Queues(s.front, st) { QueueingKeepsBack(s, st); }
    else if Notifies(s.front, st) { FinishesTail(s.events, Asked); }
  }

  lemma QueueingKeepsBack(s: State, st: FrontStep)
    requires BackHalf(s) && FrontEnabled(s.front, st) && Queues(s.front, st)
    ensures BackHalf(ApplyFront(s, st))
  {
    LogGrows(s.back, s.queue, s.log, s.orig, PC(s.front, st.who).r);
  }

  lemma FrontKeepsPost(s: State, st: FrontStep)
    requires FrontHalf(s) && PostOk(s) && FrontEnabled(s.front, st)
    ensures PostOk(ApplyFront(s, st))
  {
    PostersKept(s, st); ClosedKept(s, st); LateKept(s, st); PostingKeepsEvents(s, st);
  }

  lemma BackKeepsBack(s: State, st: BackStep)
    requires FrontHalf(s) && BackHalf(s) && BackEnabled(s.back, s.events, st)
    ensures BackHalf(ApplyBack(s, st))
  {
    FlightKept(s, st); CountsKept(s, st); QueueKept(s, st); FileKept(s, st); DurableKept(s, st);
  }

  lemma BackKeepsFront(s: State, st: BackStep)
    requires FrontHalf(s) && BackEnabled(s.back, s.events, st)
    ensures FrontHalf(ApplyBack(s, st))
  {
  }

  lemma BackKeepsPost(s: State, st: BackStep)
    requires BackHalf(s) && PostOk(s) && BackEnabled(s.back, s.events, st)
    ensures PostOk(ApplyBack(s, st))
  {
    if st.NextEvent? { NextEventKeepsEvents(s, st); } else { WorkKeepsEvents(s, st); }
  }

  lemma StepKeepsInv(s: State, st: Step)
    requires Inv(s) && Enabled(s, st)
    ensures Inv(Apply(s, st))
  {
    if st.Ahead? {
      FrontKeepsFront(s, st.f); FrontKeepsBack(s, st.f); FrontStrandsNothing(s, st.f); FrontKeepsPost(s, st.f);
    } else {
      BackKeepsFront(s, st.b); BackKeepsBack(s, st.b); BackStrandsNothing(s, st.b); BackKeepsPost(s, st.b);
    }
  }


  // ---------------------------------------------------------------- results over whole runs

  ghost predicate Next(s: State, s': State) {
    exists st :: Enabled(s, st) && s' == Apply(s, st)
  }

  /** The states that some interleaving reaches. */
  ghost predicate Reachable(s: State) { Runs.Reached(Init, Next, s) }

  lemma StartBack(orig: seq<byte>)
    ensures var b := Back(Await, [], 0, 0, 0, map[], Stored(orig, orig), Nowhere);
            FlightOk(b, Finishes([])) && CountsOk(b, 0) && QueueOk(b, [], []) && FileOk(b, [], orig)
  {
  }

  lemma StartFront()
    ensures Pending(Front(false, 0, Out, Out, false, [], 0)) == DataOf([]) == []
  {
  }

  lemma InitHasFront(s: State)
    requires Init(s)
    ensures FrontHalf(s)
  {
    StartFront();
  }

  lemma InitHasBack(s: State)
    requires Init(s)
    ensures BackHalf(s)
  {
    StartBack(s.orig);
  }

  lemma InitHasPost(s: State)
    requires Init(s)
    ensures PostOk(s)
  {
  }

  lemma InitHasInv(s: State)
    requires Init(s)
    ensures Inv(s)
  {
    InitHasFront(s);
    InitHasBack(s);
    InitHasPost(s);
  }

  lemma NextKeepsInv(s: State, s': State)
    requires Inv(s) && Next(s, s')
    ensures Inv(s')
  {
    var st :| Enabled(s, st) && s' == Apply(s, st);
    StepKeepsInv(s, st);
  }

  lemma ReachableInv(s: State)
    requires Reachable(s)
    ensures Inv(s)
  {
    forall s | Init(s) ensures Inv(s) { InitHasInv(s); }
    forall s, s' | Inv(s) && Next(s, s') ensures Inv(s') { NextKeepsInv(s, s'); }
    Runs.Induction(Init, Next, Inv, s);
  }

  /** While the action is live: at most one batch in flight, and the counters in order. */
  lemma OneBatchInFlight(s: State)
    requires Reachable(s)
    ensures s.back.pool + |s.back.workers| + Finishes(s.events) <= 1
    ensures s.back.completed <= s.back.batched <= s.front.total
    ensures s.front.total == s.back.completed ==> s.queue == [] && s.back.batch == []
  {
    ReachableInv(s);
    OneFlight(s.back, Finishes(s.events));
    CountersInOrder(s.front, s.back, s.queue, s.log);
  }

  lemma OneFlight(b: Back, finishes: nat)
    requires FlightOk(b, finishes)
    ensures b.pool + |b.workers| + finishes == if b.flight.Nowhere? then 0 else 1
  {
  }

  lemma CountersInOrder(f: Front, b: Back, queue: seq<Request>, log: seq<Request>)
    requires TotalOk(f, |log|) && CountsOk(b, |log|) && QueueOk(b, queue, log)
    ensures b.completed <= b.batched <= f.total
    ensures f.total == b.completed ==> queue == [] && b.batch == []
  {
  }

  /** A queued request is never forgotten: an event, a batch in flight, or a producer about to post leads to it. */
  lemma RequestIsNeverStranded(s: State)
    requires Reachable(s) && s.queue != []
    ensures Asked in s.events || !s.back.flight.Nowhere? || s.back.writer.Gather? || Notifying(s.front.app) ||
          Notifying(s.front.syncer)
    ensures !s.back.flight.Nowhere? ==> s.back.pool + |s.back.workers| + Finishes(s.events) == 1
  {
    ReachableInv(s);
    OneFlight(s.back, Finishes(s.events));
  }

  /** No byte is lost, duplicated or moved: the file holds the original content and the requests carried out,
      the other requests of the log are still to come, and the rest is with the producers. */
  lemma BytesAreConserved(s: State)
    requires Reachable(s)
    ensures 0 <= Carried(s.back) <= |s.log|
    ensures s.back.file.view == s.orig + DataUpTo(s.log, Carried(s.back))
    ensures s.accepted == DataOf(s.log) + Pending(s.front)
  {
    ReachableInv(s);
  }

  /** The log not yet completed is the batch followed by the queue. */
  lemma LogIsBatchThenQueue(s: State)
    requires Reachable(s)
    ensures 0 <= Low(s.back) <= s.back.batched <= |s.log|
    ensures s.back.batch == s.log[Low(s.back)..s.back.batched] && s.queue == s.log[s.back.batched..]
    ensures s.front.total - |s.log| == Bumped(s.front.app) + Bumped(s.front.syncer) <= 1
  {
    ReachableInv(s);
  }

  /** Releasing ws finds the value that was put there: neither unlock aborts. */
  lemma UnlockNeverAborts(s: State, who: Who)
    requires Reachable(s) && PC(s.front, who).In? && PC(s.front, who).job.Leave?
    ensures s.front.ws == PC(s.front, who).job.word
  {
    ReachableInv(s);
  }

  // The close path has seen as many requests completed as it counted, its own fsync among them.
  lemma CompleteAtMark(f: Front, b: Back, log: seq<Request>, orig: seq<byte>, mark: int)
    requires FlightOk(b, if b.flight.Posted? then 1 else 0) && CountsOk(b, |log|) && FileOk(b, log, orig) &&
          DurableOk(b, mark) && MarkOk(f, mark, log)
    requires MarkSet(f) && f.app.ReadDone? && f.app.seen == b.completed
    ensures b.file.disk == orig + DataOf(log)
  {
    FsyncsAddNothing(log, mark, Carried(b));
  }

  // Nothing is left with the producers once the close path has queued its fsync.
  lemma NothingPending(page: nat, f: Front, mark: int, log: seq<Request>)
    requires JobsOk(page, f) && MarkOk(f, mark, log) && f.app.ReadDone?
    ensures MarkSet(f) && Pending(f) == []
  {
  }

  /** When the close path sees its writes complete, the disk holds the original content followed by every accepted
      byte. */
  lemma ClosedFileIsComplete(s: State)
    requires Reachable(s) && Enabled(s, Ahead(LoadDone)) && ApplyFront(s, LoadDone).front.app.Closed?
    ensures s.back.file.disk == s.orig + s.accepted
  {
    ReachableInv(s);
    NothingPending(s.page, s.front, s.mark, s.log);
    CompleteAtMark(s.front, s.back, s.log, s.orig, s.mark);
    assert s.accepted == DataOf(s.log);
  }

  /** Closing a file that was never written leaves it as it was. */
  lemma ClosedUntouched(s: State)
    requires Reachable(s) && Enabled(s, Ahead(LoadTotal)) && ApplyFront(s, LoadTotal).front.app.Closed?
    ensures s.accepted == [] && s.back.file.disk == s.orig
  {
    ReachableInv(s);
    NeverWritten(s.page, s.front, s.back, s.orig);
  }

  lemma NeverWritten(page: nat, f: Front, b: Back, orig: seq<byte>)
    requires LockOk(f) && JobsOk(page, f) && FileOk(b, [], orig) && f.app.ReadTotal? && !f.live
    ensures Pending(f) == [] && b.file.disk == orig
  {
  }

  lemma {:induction false} FsyncsAddNothing(log: seq<Request>, mark: nat, n: nat)
    requires mark <= n <= |log| && forall i :: mark <= i < |log| ==> log[i].Sync?
    ensures DataUpTo(log, n) == DataOf(log)
    decreases |log| - n
  {
    if n < |log| { FsyncsAddNothing(log, mark, n + 1); }
  }

  /** When ef_sync is about to return, every byte accepted so far is in a queued request, and the disk holds them all
      exactly when no request with bytes is left to carry out and the page layer keeps no dirty bytes: ef_sync itself
      waits for neither. */
  lemma SyncReturns(s: State)
    requires Reachable(s) && s.front.app == In(Leave(-2))
    ensures s.accepted == DataOf(s.log) && 0 <= Carried(s.back) <= |s.log|
    ensures s.back.file.disk == s.orig + s.accepted <==>
              DataUpTo(s.log, Carried(s.back)) == DataOf(s.log) && s.back.file.disk == s.back.file.view
  {
    ReachableInv(s);
    SyncedBytes(s.page, s.front, s.back, s.log, s.orig, s.accepted);
  }

  lemma SyncedBytes(page: nat, f: Front, b: Back, log: seq<Request>, orig: seq<byte>, accepted: seq<byte>)
    requires LockOk(f) && JobsOk(page, f) && FileOk(b, log, orig) && accepted == DataOf(log) + Pending(f)
    requires f.app == In(Leave(-2))
    ensures accepted == DataOf(log)
    ensures b.file.disk == orig + accepted <==> DataUpTo(log, Carried(b)) == DataOf(log) && b.file.disk == b.file.view
  {
    assert Pending(f) == [];
    DataPrefix(log, Carried(b));
    Longer(orig, DataUpTo(log, Carried(b)), DataOf(log), b.file.disk);
  }

  lemma {:induction false} DataPrefix(log: seq<Request>, k: nat)
    requires k <= |log|
    ensures DataUpTo(log, k) <= DataOf(log)
    decreases |log| - k
  {
    if k < |log| { DataPrefix(log, k + 1); }
  }

  lemma Longer(orig: seq<byte>, part: seq<byte>, all: seq<byte>, disk: seq<byte>)
    requires part <= all && disk <= orig + part
    ensures disk == orig + all <==> part == all && disk == orig + part
  {
    if disk == orig + all { assert |part| == |all|; }
  }

  // ---------------------------------------------------------------- events left at the close

  /** Every event left in the writer's queue when the close path sees its writes complete (the write action is freed
      next) belongs to a request counted after the close path read the total, or to one whose batch had been reported
      done before its event was posted. */
  lemma EventsLeftAtClose(s: State)
    requires Reachable(s) && Enabled(s, Ahead(LoadDone)) && ApplyFront(s, LoadDone).front.app.Closed?
    ensures |s.post.tags| == |s.events|
    ensures forall j :: 0 <= j < |s.events| && s.events[j].Asked? ==>
                          s.post.tags[j] in s.post.late || s.post.tags[j] >= s.front.app.seen
    ensures forall j :: 0 <= j < |s.events| && s.events[j].Finished? ==> Low(s.back) >= s.front.app.seen
  {
    ReachableInv(s);
    LeftEvents(s.front.app.seen, s.back, s.events, s.post, |s.log|);
  }

  lemma LeftEvents(seen: nat, b: Back, events: seq<Event>, p: Post, n: nat)
    requires CountsOk(b, n) && EventsOk(p, events, b) && seen == b.completed
    ensures forall j :: 0 <= j < |events| && events[j].Asked? ==> p.tags[j] in p.late || p.tags[j] >= seen
    ensures forall j :: 0 <= j < |events| && events[j].Finished? ==> Low(b) >= seen
  {
  }

  /** The event of request k is in the queue. */
  ghost predicate Queued(s: State, k: int) {
    |s.post.tags| == |s.events| && exists j :: 0 <= j < |s.events| && s.events[j].Asked? && s.post.tags[j] == k
  }

  ghost predicate Follows(s: State, s': State) { Runs.Reached((x: State) => x == s, Next, s') }

  lemma Stay(s: State)
    ensures Follows(s, s)
  {
    Runs.Start((x: State) => x == s, Next, s);
  }

  lemma Follow(s: State, s': State, st: Step)
    requires Follows(s, s') && Enabled(s', st)
    ensures Follows(s, Apply(s', st))
  {
    assert Next(s', Apply(s', st));
    Runs.Extend((x: State) => x == s, Next, s', Apply(s', st));
  }

  /** The close path is about to post the event of its fsync. */
  predicate ClosePosts(s: State) { s.front.closing && Notifying(s.front.app) && s.front.app.r.Sync? &&
        !s.front.app.Closed? }

  /** Some continuation closes with the event of request k still in the queue. */
  ghost predicate CanCloseWith(s: State, k: int) {
    exists s' :: Follows(s, s') && s'.front.app.Closed? && Queued(s', k)
  }

  /** Once the close path has posted the event of its fsync, that event can still be in the queue at the close exactly
      when the batch with the fsync had been reported done at the moment of posting. */
  lemma OwnEventCanStay(s: State)
    requires Reachable(s) && ClosePosts(s)
    ensures CanCloseWith(Apply(s, Ahead(Act(App))), s.mark) <==> Reported(s.back, s.mark)
  {
    ReachableInv(s);
    StepKeepsInv(s, Ahead(Act(App)));
    var s1 := Apply(s, Ahead(Act(App)));
    if Reported(s.back, s.mark) {
      PostedLast(s);
      Stay(s1);
      var s2 := Settle(s1, s1, s.mark);
      var s3 := CloseNow(s1, s2);
    }
    if CanCloseWith(s1, s.mark) {
      var s' :| Follows(s1, s') && s'.front.app.Closed? && Queued(s', s.mark);
      LatenessIsFinal(s, s1, s');
    }
  }

  // After the posting no step changes whether the fsync's event was late.
  ghost predicate SameLateness(s: State, x: State) {
    && x.mark == s.mark && x.front.closing && x.front.live && !Notifying(x.front.app)
    && (s.mark in x.post.late <==> Reported(s.back, s.mark))
  }

  lemma PostedLast(s: State)
    requires LockOk(s.front) && JobsOk(s.page, s.front) && MarkOk(s.front, s.mark, s.log)
    requires PostersOk(s.front, s.log, s.mark) && ClosePosts(s)
    ensures var s1 := Apply(s, Ahead(Act(App)));
            && s.mark >= 0 && |s.log| == s.mark + 1 && s1.back == s.back && s1.mark == s.mark && s1.log == s.log
            && s1.front == s.front.(app := In(Leave(1)))
            && s1.events == s.events + [Asked] && s1.post.tags == s.post.tags + [s.mark]
            && s1.post.late == (if Reported(s.back, s.mark) then s.post.late + {s.mark} else s.post.late)
  {
  }

  lemma FrontKeepsLateness(s: State, x: State, st: FrontStep)
    requires LockOk(x.front) && JobsOk(x.page, x.front) && MarkOk(x.front, x.mark, x.log)
    requires PostersOk(x.front, x.log, x.mark) && SameLateness(s, x) && FrontEnabled(x.front, st) && s.mark >= 0
    ensures SameLateness(s, ApplyFront(x, st))
  {
  }

  lemma BackKeepsLateness(s: State, x: State, st: BackStep)
    requires SameLateness(s, x) && BackEnabled(x.back, x.events, st)
    ensures SameLateness(s, ApplyBack(x, st))
  {
  }

  lemma NextKeepsLateness(s: State, x: State, x': State)
    requires (Inv(x) && SameLateness(s, x)) && Next(x, x') && s.mark >= 0
    ensures Inv(x') && SameLateness(s, x')
  {
    NextKeepsInv(x, x');
    var st :| Enabled(x, st) && x' == Apply(x, st);
    if st.Ahead? { FrontKeepsLateness(s, x, st.f); } else { BackKeepsLateness(s, x, st.b); }
  }

  lemma LatenessIsFinal(s: State, s1: State, s': State)
    requires Inv(s) && ClosePosts(s) && s1 == Apply(s, Ahead(Act(App))) && Inv(s1)
    requires Follows(s1, s') && s'.front.app.Closed? && Queued(s', s.mark)
    ensures Reported(s.back, s.mark)
  {
    PostedLast(s);
    forall x, x' | (Inv(x) && SameLateness(s, x)) && Next(x, x') ensures Inv(x') && SameLateness(s, x') {
      NextKeepsLateness(s, x, x');
    }
    Runs.Induction((x: State) => x == s1, Next, (x: State) => Inv(x) && SameLateness(s, x), s');
    ClosedIsLate(s');
  }

  lemma ClosedIsLate(s: State)
    requires CountsOk(s.back, |s.log|) && EventsOk(s.post, s.events, s.back) && ClosedOk(s.front, s.back, s.mark)
    requires s.front.app.Closed? && s.front.live && Queued(s, s.mark) && s.mark >= 0
    ensures s.mark in s.post.late
  {
  }

  // ---------------------------------------------------------------- the continuation that leaves the event

  // All requests are batched and done or reported, and the last event is that of the fsync m.
  predicate Settling(s: State, m: int) {
    && s.front.app == In(Leave(1)) && s.front.closing && s.front.live && s.mark == m >= 0 && |s.log| == m + 1
    && Reported(s.back, m)
    && s.events != [] && |s.post.tags| == |s.events|
    && s.events[|s.events| - 1].Asked? && s.post.tags[|s.events| - 1] == m
  }

  function WriterRank(w: WPC): nat {
    match w
    case Await => 0
    case Tally(_) => 1
    case Dispatch(_) => 2
    case Gather(_) => 3
  }

  function WriterMove(s: State): BackStep {
    match s.back.writer
    case Await => NextEvent
    case Gather(_) => GatherOne
    case Dispatch(_) => HandOver
    case Tally(_) => AddDone
  }

  // What is left for the writer: its queue is empty and at most the completion is still to be handled.
  lemma SettlingFacts(s: State, m: int)
    requires Inv(s) && Settling(s, m)
    ensures s.queue == [] && s.back.batched == |s.log| && !s.back.writer.Dispatch?
    ensures s.back.writer.Gather? ==> s.back.batch == []
    ensures s.back.writer.Await? && s.back.completed != |s.log| ==>
              |s.events| > 1 && s.back.flight.Posted? && s.back.batched != s.back.completed
  {
    if |s.events| == 1 { NoCompletion(s.events); }
  }

  lemma NoCompletion(events: seq<Event>)
    requires |events| == 1 && events[0].Asked?
    ensures Finishes(events) == 0
  {
    assert events[..0] == [];
  }

  // The writer's next step keeps the fsync's event last.
  lemma SettleStep(s: State, m: int)
    requires Inv(s) && Settling(s, m) && (s.back.writer.Await? ==> s.back.completed != |s.log|)
    ensures BackEnabled(s.back, s.events, WriterMove(s)) && Settling(ApplyBack(s, WriterMove(s)), m)
    ensures var s' := ApplyBack(s, WriterMove(s));
            s'.front == s.front && (|s'.events| < |s.events| ||
              (s'.events == s.events && WriterRank(s'.back.writer) < WriterRank(s.back.writer)))
  {
    SettlingFacts(s, m);
  }

  // The writer handles the events up to the completion, gathers nothing and counts.
  lemma Settle(o: State, s: State, m: int) returns (s': State)
    requires Follows(o, s) && Inv(s) && Settling(s, m)
    ensures Follows(o, s') && Inv(s') && Settling(s', m) && s'.back.writer.Await? && s'.back.completed == |s'.log|
    decreases |s.events|, WriterRank(s.back.writer)
  {
    if s.back.writer.Await? && s.back.completed == |s.log| {
      s' := s;
    } else {
      SettleStep(s, m);
      var st := Behind(WriterMove(s));
      Follow(o, s, st);
      StepKeepsInv(s, st);
      s' := Settle(o, Apply(s, st), m);
    }
  }

  // The close path releases ws, reads the total and finds it completed.
  lemma CloseNow(o: State, s: State) returns (s': State)
    requires Follows(o, s) && Inv(s) && s.mark >= 0 && Settling(s, s.mark) && s.back.completed == |s.log|
    ensures Follows(o, s') && s'.front.app.Closed? && Queued(s', s.mark)
  {
    assert !Holding(s.front.syncer) && s.front.total == |s.log|;
    Follow(o, s, Ahead(Release(App)));
    var s1 := Apply(s, Ahead(Release(App)));
    Follow(o, s1, Ahead(LoadTotal));
    var s2 := Apply(s1, Ahead(LoadTotal));
    Follow(o, s2, Ahead(LoadDone));
    s' := Apply(s2, Ahead(LoadDone));
    assert s'.events[|s.events| - 1].Asked? && s'.post.tags[|s.events| - 1] == s.mark;
  }

  // ---------------------------------------------------------------- concrete runs

  lemma Reach(s: State, st: Step)
    requires Reachable(s) && Enabled(s, st)
    ensures Reachable(Apply(s, st))
  {
    assert Next(s, Apply(s, st));
    Runs.Extend(Init, Next, s, Apply(s, st));
  }

  const IDLE := Back(Await, [], 0, 0, 0, map[], Stored([], []), Nowhere)
  const BOTH := [Write([7]), Sync]

  // A new file; one byte written; the close begins; it has flushed the byte; its fsync is queued while the writer
  // is gathering.
  const NEW := State(4, Front(false, 0, Out, Out, false, [], 0), [], [], IDLE, [], [], [], -1, Post([], {}))
  const WRITING := NEW.(front := Front(true, -1, In(Fill([7])), Out, false, [], 0), accepted := [7])
  const ONE_BYTE := NEW.(front := Front(true, 0, Out, Out, false, [7], 0), accepted := [7])
  const CLOSING := ONE_BYTE.(front := Front(true, 1, In(SyncFlush), Out, true, [7], 0))
  const DRAINED := CLOSING.(front := Front(true, 1, Send(Write([7]), Queue, SyncMark), Out, true, [], 1))
  const QUEUED := State(4, Front(true, 1, Send(Write([7]), Notify, SyncMark), Out, true, [], 1), [Write([7])], [], IDLE,
                        [], [7], [Write([7])], -1, Post([], {}))
  const FLUSHED := State(4, Front(true, 1, In(SyncMark), Out, true, [], 1), [Write([7])], [Asked], IDLE,
                         [], [7], [Write([7])], -1, Post([0], {}))
  const MARKED := State(4, Front(true, 1, Send(Sync, Notify, Leave(1)), Out, true, [], 2), BOTH, [],
                        IDLE.(writer := Gather(0)), [], [7], BOTH, 1, Post([], {}))
  // Both requests handed to the pool; begun; the first carried out; both; and counted, all before the close path
  // posts its event.
  const HANDED := MARKED.(queue := [], back := Back(Await, BOTH, 2, 0, 1, map[], Stored([], []), InPool))
  const BEGUN := HANDED.(back := Back(Await, BOTH, 2, 0, 0, map[0 := 0], Stored([], []), Running(0, 0)))
  const WRITTEN := HANDED.(back := Back(Await, BOTH, 2, 0, 0, map[0 := 1], Stored([], [7]), Running(0, 1)))
  const WORKED := HANDED.(events := [Finished], post := Post([0], {}),
                          back := Back(Await, BOTH, 2, 0, 0, map[], Stored([7], [7]), Posted))
  const TALLIED := MARKED.(queue := [], back := Back(Await, [], 2, 2, 0, map[], Stored([7], [7]), Nowhere))
  // The close path has posted and read the total; the writer has taken the event.
  const POSTED := TALLIED.(front := Front(true, 1, In(Leave(1)), Out, true, [], 2), events := [Asked],
                           post := Post([1], {1}))
  const TOTALLED := TALLIED.(front := Front(true, 0, ReadDone(2), Out, true, [], 2), events := [Asked],
                             post := Post([1], {1}))
  const TAKEN := TOTALLED.(events := [], post := Post([], {1}))
  // The periodic thread takes ws and is about to count its fsync; it has queued it.
  const PERIODIC := TAKEN.(front := Front(true, 1, ReadDone(2), Send(Sync, Count, Leave(1)), true, [], 2))
  const APPENDED := TAKEN.(front := Front(true, 1, ReadDone(2), Send(Sync, Notify, Leave(1)), true, [], 3),
                           queue := [Sync], log := [Write([7]), Sync, Sync])
  // ef_sync has taken the byte out of the accumulator.
  const SYNCING := ONE_BYTE.(front := Front(true, -2, Send(Write([7]), Count, Leave(-2)), Out, false, [], 0))

  lemma WritingIsReachable()
    ensures Reachable(WRITING)
  {
    Runs.Start(Init, Next, NEW);
    Reach(NEW, Ahead(StartWrite([7])));
    var s1 := Apply(NEW, Ahead(StartWrite([7])));
    Reach(s1, Ahead(Take(App)));
    var s2 := Apply(s1, Ahead(Take(App)));
    Reach(s2, Ahead(Act(App)));
    assert Apply(s2, Ahead(Act(App))) == WRITING;
  }

  lemma OneByteIsReachable()
    ensures Reachable(ONE_BYTE)
  {
    WritingIsReachable();
    var data: seq<byte> := [7];
    assert data[..1] == data && data[1..] == [] && [] + data == data;
    Reach(WRITING, Ahead(Act(App)));
    var s1 := Apply(WRITING, Ahead(Act(App)));
    assert s1.front == Front(true, -1, In(Fill([])), Out, false, [7], 0);
    Reach(s1, Ahead(Act(App)));
    var s2 := Apply(s1, Ahead(Act(App)));
    Reach(s2, Ahead(Release(App)));
    assert Apply(s2, Ahead(Release(App))) == ONE_BYTE;
  }

  lemma ClosingIsReachable()
    ensures Reachable(CLOSING)
  {
    OneByteIsReachable();
    Reach(ONE_BYTE, Ahead(StartClose));
    var s1 := Apply(ONE_BYTE, Ahead(StartClose));
    Reach(s1, Ahead(Take(App)));
    assert Apply(s1, Ahead(Take(App))) == CLOSING;
  }

  lemma DrainedIsReachable()
    ensures Reachable(DRAINED)
  {
    ClosingIsReachable();
    Reach(CLOSING, Ahead(Act(App)));
    var s1 := Apply(CLOSING, Ahead(Act(App)));
    Reach(s1, Ahead(Act(App)));
    assert Apply(s1, Ahead(Act(App))) == DRAINED;
  }

  lemma QueuedIsReachable()
    ensures Reachable(QUEUED)
  {
    DrainedIsReachable();
    Reach(DRAINED, Ahead(Act(App)));
    assert Apply(DRAINED, Ahead(Act(App))) == QUEUED;
  }

  lemma FlushedIsReachable()
    ensures Reachable(FLUSHED)
  {
    QueuedIsReachable();
    Reach(QUEUED, Ahead(Act(App)));
    assert Apply(QUEUED, Ahead(Act(App))) == FLUSHED;
  }

  lemma MarkedIsReachable()
    ensures Reachable(MARKED)
  {
    FlushedIsReachable();
    Reach(FLUSHED, Ahead(Act(App)));
    var s1 := Apply(FLUSHED, Ahead(Act(App)));
    Reach(s1, Ahead(Act(App)));
    var s2 := Apply(s1, Ahead(Act(App)));
    Reach(s2, Behind(NextEvent));
    var s3 := Apply(s2, Behind(NextEvent));
    Reach(s3, Ahead(Act(App)));
    assert Apply(s3, Ahead(Act(App))) == MARKED;
  }

  lemma HandedIsReachable()
    ensures Reachable(HANDED)
  {
    MarkedIsReachable();
    Reach(MARKED, Behind(GatherOne));
    var s1 := Apply(MARKED, Behind(GatherOne));
    Reach(s1, Behind(GatherOne));
    var s2 := Apply(s1, Behind(GatherOne));
    assert s2.back.batch == BOTH && s2.queue == [];
    Reach(s2, Behind(GatherOne));
    var s3 := Apply(s2, Behind(GatherOne));
    Reach(s3, Behind(HandOver));
    var s4 := Apply(s3, Behind(HandOver));
    Reach(s4, Behind(AddDone));
    assert Apply(s4, Behind(AddDone)) == HANDED;
  }

  lemma BegunIsReachable()
    ensures Reachable(BEGUN)
  {
    HandedIsReachable();
    Reach(HANDED, Behind(Begin(0)));
    assert Apply(HANDED, Behind(Begin(0))) == BEGUN;
  }

  lemma WrittenIsReachable()
    ensures Reachable(WRITTEN)
  {
    BegunIsReachable();
    assert Appended(Stored([], []), [7], Stored([], [7])) && BEGUN.back.batch[0] == Write([7]);
    assert map[0 := 0][0 := 1] == map[0 := 1];
    Reach(BEGUN, Behind(Carry(0, Stored([], [7]))));
    assert Apply(BEGUN, Behind(Carry(0, Stored([], [7])))) == WRITTEN;
  }

  lemma WorkedIsReachable()
    ensures Reachable(WORKED)
  {
    WrittenIsReachable();
    Reach(WRITTEN, Behind(Carry(0, Stored([7], [7]))));
    var s1 := Apply(WRITTEN, Behind(Carry(0, Stored([7], [7]))));
    Reach(s1, Behind(End(0)));
    assert Apply(s1, Behind(End(0))) == WORKED;
  }

  lemma TalliedIsReachable()
    ensures Reachable(TALLIED)
  {
    WorkedIsReachable();
    Reach(WORKED, Behind(NextEvent));
    var s1 := Apply(WORKED, Behind(NextEvent));
    Reach(s1, Behind(GatherOne));
    var s2 := Apply(s1, Behind(GatherOne));
    Reach(s2, Behind(AddDone));
    assert Apply(s2, Behind(AddDone)) == TALLIED;
  }

  lemma PostedIsReachable()
    ensures Reachable(POSTED)
  {
    TalliedIsReachable();
    Reach(TALLIED, Ahead(Act(App)));
    assert Apply(TALLIED, Ahead(Act(App))) == POSTED;
  }

  lemma TotalledIsReachable()
    ensures Reachable(TOTALLED)
  {
    PostedIsReachable();
    Reach(POSTED, Ahead(Release(App)));
    var s1 := Apply(POSTED, Ahead(Release(App)));
    Reach(s1, Ahead(LoadTotal));
    assert Apply(s1, Ahead(LoadTotal)) == TOTALLED;
  }

  /** The close can leave its own event behind, which the writer then handles on the freed write action: a writer that
      is already gathering picks the fsync up, and its batch is carried out and counted before the event is posted. */
  lemma CloseCanLeaveItsEvent() returns (s: State)
    ensures Reachable(s) && s.front.app.Closed? && s.events == [Asked] && s.post == Post([1], {1})
  {
    TotalledIsReachable();
    Reach(TOTALLED, Ahead(LoadDone));
    s := Apply(TOTALLED, Ahead(LoadDone));
  }

  lemma TakenIsReachable()
    ensures Reachable(TAKEN)
  {
    TotalledIsReachable();
    Reach(TOTALLED, Behind(NextEvent));
    var s1 := Apply(TOTALLED, Behind(NextEvent));
    Reach(s1, Behind(GatherOne));
    var s2 := Apply(s1, Behind(GatherOne));
    Reach(s2, Behind(AddDone));
    assert Apply(s2, Behind(AddDone)) == TAKEN;
  }

  lemma PeriodicIsReachable()
    ensures Reachable(PERIODIC)
  {
    TakenIsReachable();
    Reach(TAKEN, Ahead(StartPeriodic));
    var s1 := Apply(TAKEN, Ahead(StartPeriodic));
    Reach(s1, Ahead(Take(Syncer)));
    var s2 := Apply(s1, Ahead(Take(Syncer)));
    Reach(s2, Ahead(Act(Syncer)));
    var s3 := Apply(s2, Ahead(Act(Syncer)));
    Reach(s3, Ahead(Act(Syncer)));
    assert Apply(s3, Ahead(Act(Syncer))) == PERIODIC;
  }

  lemma AppendedIsReachable()
    ensures Reachable(APPENDED)
  {
    PeriodicIsReachable();
    Reach(PERIODIC, Ahead(Act(Syncer)));
    var s1 := Apply(PERIODIC, Ahead(Act(Syncer)));
    Reach(s1, Ahead(Act(Syncer)));
    assert Apply(s1, Ahead(Act(Syncer))) == APPENDED;
  }

  /** The close can leave an event of the periodic thread behind: it queues another fsync after the close path has read
      the total. */
  lemma CloseCanLeaveAPeriodicEvent() returns (s: State)
    ensures Reachable(s) && s.front.app.Closed? && s.events == [Asked] && s.queue == [Sync] && s.post == Post([2], {1})
  {
    AppendedIsReachable();
    Reach(APPENDED, Ahead(Act(Syncer)));
    var s1 := Apply(APPENDED, Ahead(Act(Syncer)));
    Reach(s1, Ahead(LoadDone));
    s := Apply(s1, Ahead(LoadDone));
  }

  lemma SyncingIsReachable()
    ensures Reachable(SYNCING)
  {
    OneByteIsReachable();
    Reach(ONE_BYTE, Ahead(StartSync));
    var s1 := Apply(ONE_BYTE, Ahead(StartSync));
    Reach(s1, Ahead(Take(App)));
    var s2 := Apply(s1, Ahead(Take(App)));
    Reach(s2, Ahead(Act(App)));
    assert Apply(s2, Ahead(Act(App))) == SYNCING;
  }

  /** ef_sync can return with nothing on the disk. */
  lemma SyncCanReturnEarly() returns (s: State)
    ensures Reachable(s) && s.front.app == In(Leave(-2)) && s.accepted == [7] && s.back.file.disk == []
  {
    SyncingIsReachable();
    Reach(SYNCING, Ahead(Act(App)));
    var s1 := Apply(SYNCING, Ahead(Act(App)));
    Reach(s1, Ahead(Act(App)));
    var s2 := Apply(s1, Ahead(Act(App)));
    Reach(s2, Ahead(Act(App)));
    s := Apply(s2, Ahead(Act(App)));
  }
}
