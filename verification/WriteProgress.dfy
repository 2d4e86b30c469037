/** The write protocol gets on: the producers wait only for `ws`, the writer thread and the workers use up what they are
    given, and the close path ends with the whole file on the disk. */
module WriteProgress {
  import opened Bytes
  import opened FlatFile
  import opened WriteProtocol
  import Runs

  // ---------------------------------------------------------------- the producers

  // Bounds the operations a job still makes: five for each byte, since a byte may fill the accumulator.
  function JobRank(f: Front, job: Job): nat {
    match job
    case Fill(rest) => 5 * |rest| + (if f.live then 1 else 2)
    case Flush => 4
    case SyncFlush => 8
    case SyncMark => 4
    case Leave(_) => 0
  }

  function StageRank(stage: Stage): nat { match stage case Count => 3 case Queue => 2 case Notify => 1 }

  function PCRank(f: Front, pc: PPC): nat {
    match pc
    case In(job) => JobRank(f, job)
    case Send(_, stage, job) => JobRank(f, job) + StageRank(stage)
    case _ => 0
  }

  /** A holder of ws never waits: each of its operations brings it closer to releasing ws, and the release goes through
      and lets the other producer in. */
  lemma HolderAdvances(s: State, who: Who)
    requires Reachable(s) && !s.front.app.Closed? && Holding(PC(s.front, who))
    ensures var pc := PC(s.front, who);
            if pc.In? && pc.job.Leave?
            then Enabled(s, Ahead(Release(who))) && ApplyFront(s, Release(who)).front.ws == 0 &&
                 !Holding(PC(ApplyFront(s, Release(who)).front, who))
            else Enabled(s, Ahead(Act(who))) &&
                 var f := ApplyFront(s, Act(who)).front;
                 Holding(PC(f, who)) && PCRank(f, PC(f, who)) < PCRank(s.front, pc)
  {
    ReachableInv(s);
    if PC(s.front, who).Send? { SendAdvances(s, who); }
    else if PC(s.front, who).job.Leave? { LeaveReleases(s, who); }
    else { InAdvances(s, who); }
  }

  lemma SendAdvances(s: State, who: Who)
    requires PC(s.front, who).Send?
    ensures var f := ApplyFront(s, Act(who)).front;
            Holding(PC(f, who)) && PCRank(f, PC(f, who)) < PCRank(s.front, PC(s.front, who))
  {
  }

  lemma LeaveReleases(s: State, who: Who)
    requires LockOk(s.front) && PC(s.front, who).In? && PC(s.front, who).job.Leave?
    ensures var f := ApplyFront(s, Release(who)).front; f.ws == 0 && !Holding(PC(f, who))
  {
  }

  lemma InAdvances(s: State, who: Who)
    requires LockOk(s.front) && JobsOk(s.page, s.front) && PC(s.front, who).In? && !PC(s.front, who).job.Leave?
    ensures var f := ApplyFront(s, Act(who)).front;
            Holding(PC(f, who)) && PCRank(f, PC(f, who)) < PCRank(s.front, PC(s.front, who))
  {
  }

  function Other(who: Who): Who { if who.App? then Syncer else App }

  /** A producer that wants ws gets it exactly while the other one does not hold it. */
  lemma WaitsOnlyForHolder(s: State, who: Who)
    requires Reachable(s) && !s.front.app.Closed? && PC(s.front, who).Want?
    ensures Enabled(s, Ahead(Take(who))) <==> !Holding(PC(s.front, Other(who)))
    ensures Enabled(s, Ahead(Take(who))) ==>
              PC(ApplyFront(s, Take(who)).front, who) == In(PC(s.front, who).job) &&
                    ApplyFront(s, Take(who)).front.ws != 0
  {
    ReachableInv(s);
    TakeWaits(s.front, who);
    if FrontEnabled(s.front, Take(who)) { TakeWorks(s.page, s.front, who); }
  }

  lemma TakeWaits(f: Front, who: Who)
    requires LockOk(f) && PC(f, who).Want?
    ensures FrontEnabled(f, Take(who)) <==> !Holding(PC(f, Other(who)))
  {
  }

  lemma TakeWorks(page: nat, f: Front, who: Who)
    requires JobsOk(page, f) && FrontEnabled(f, Take(who))
    ensures var f' := FrontApply(page, f, Take(who), 0); PC(f', who) == In(PC(f, who).job) && f'.ws != 0
  {
  }

  // ---------------------------------------------------------------- the writer thread and the workers

  function WriterRank(w: WPC): nat {
    match w
    case Await => 0
    case Gather(_) => 3
    case Dispatch(_) => 2
    case Tally(_) => 1
  }

  function FlightRank(b: Back): int {
    match b.flight
    case Nowhere => 8 * |b.batch|
    case InPool => 6 + |b.batch|
    case Running(_, k) => 5 + |b.batch| - k
    case Posted => 0
  }

  /** Bounds the steps that the writer thread and the workers can still take if no producer queues or posts anything. */
  function Work(s: State): int { 9 * |s.queue| + 4 * |s.events| + WriterRank(s.back.writer) + FlightRank(s.back) }

  /** Every step of the writer thread and of a worker uses up some of the work, so with no producer moving there are at
      most Work(s) such steps. */
  lemma BackStepsEnd(s: State, st: BackStep)
    requires Reachable(s) && BackEnabled(s.back, s.events, st)
    ensures 0 <= Work(ApplyBack(s, st)) < Work(s)
  {
    ReachableInv(s);
    if st.NextEvent? { FinishesHead(s.events); }
    if st.HandOver? || st.GatherOne? || st.NextEvent? || st.AddDone? { WriterUsesWork(s, st); }
    else { WorkerUsesWork(s, st); }
  }

  lemma WriterUsesWork(s: State, st: BackStep)
    requires FlightOk(s.back, Finishes(s.events)) && CountsOk(s.back, |s.log|) && BackEnabled(s.back, s.events, st)
    requires st.HandOver? || st.GatherOne? || st.NextEvent? || st.AddDone?
    requires st.NextEvent? ==> Finishes(s.events) == Finishes(s.events[1..]) + (if s.events[0].Finished? then 1 else 0)
    ensures 0 <= Work(ApplyBack(s, st)) < Work(s)
  {
  }

  lemma WorkerUsesWork(s: State, st: BackStep)
    requires FlightOk(s.back, Finishes(s.events)) && CountsOk(s.back, |s.log|) && BackEnabled(s.back, s.events, st)
    requires st.Begin? || st.Carry? || st.End?
    ensures 0 <= Work(ApplyBack(s, st)) < Work(s)
  {
  }

  /** While any work is left, the writer thread or a worker can go on, unless all there is are queued requests whose
      producer is just about to post its event. */
  lemma WorkGoesOn(s: State) returns (st: BackStep)
    requires Reachable(s) && Work(s) != 0
    ensures BackEnabled(s.back, s.events, st) || Notifying(s.front.app) || Notifying(s.front.syncer)
  {
    ReachableInv(s);
    st := BackNext(s);
  }

  lemma NoFinishes(events: seq<Event>)
    requires events == []
    ensures Finishes(events) == 0 && Asked !in events
  {
  }

  lemma BackNext(s: State) returns (st: BackStep)
    requires FlightOk(s.back, Finishes(s.events)) && CountsOk(s.back, |s.log|) && NotStranded(s) && Work(s) != 0
    ensures BackEnabled(s.back, s.events, st) || Notifying(s.front.app) || Notifying(s.front.syncer)
  {
    var b := s.back;
    st := NextEvent;
    match b.writer
    case Gather(_) => st := GatherOne;
    case Dispatch(_) => st := HandOver;
    case Tally(_) => st := AddDone;
    case Await =>
      if s.events == [] {
        NoFinishes(s.events);
        if b.flight.InPool? { st := Begin(0); }
        else if b.flight.Running? { st := WorkerNext(b, b.flight.w); }
      }
  }

  // What a worker does to the file in one request always has an outcome.
  lemma WorkerNext(b: Back, w: Tid) returns (st: BackStep)
    requires w in b.workers
    ensures BackEnabled(b, [], st)
  {
    if b.workers[w] >= |b.batch| {
      st := End(w);
    } else {
      match b.batch[b.workers[w]]
      case Write(data) => st := Carry(w, Stored([], b.file.view + data));
      case Sync => st := Carry(w, Stored(b.file.view, b.file.view));
    }
  }

  // ---------------------------------------------------------------- the end of the work

  lemma ReachStep(s: State, st: Step)
    requires Reachable(s) && Enabled(s, st)
    ensures Reachable(Apply(s, st))
  {
    assert Next(s, Apply(s, st));
    Runs.Extend(Init, Next, s, Apply(s, st));
  }

  /** With no producer about to post, the writer thread and the workers alone carry out every queued request: at the
      end the completed count is the number of requests queued, and the file has all their bytes in order. */
  lemma WorkIsDone(s: State) returns (s': State)
    requires Reachable(s) && !s.front.app.Closed? && !Notifying(s.front.app) && !Notifying(s.front.syncer)
    ensures Reachable(s') && s'.front == s.front && s'.log == s.log && s'.mark == s.mark && s'.orig == s.orig
    ensures s'.accepted == s.accepted && s'.queue == [] && s'.events == [] && s'.back.completed == |s.log|
    ensures s'.back.file.view == s.orig + DataOf(s.log)
    decreases WorkLeft(s)
  {
    if Work(s) == 0 {
      s' := s;
      NothingLeft(s);
    } else {
      var st := WorkGoesOn(s);
      BackStepsEnd(s, st);
      ReachStep(s, Behind(st));
      BackFrame(s, st);
      s' := WorkIsDone(Apply(s, Behind(st)));
    }
  }

  function WorkLeft(s: State): nat { if Work(s) < 0 then 0 else Work(s) }

  lemma BackFrame(s: State, st: BackStep)
    requires BackEnabled(s.back, s.events, st)
    ensures var s' := ApplyBack(s, st);
            s'.front == s.front && s'.log == s.log && s'.mark == s.mark && s'.orig == s.orig &&
                  s'.accepted == s.accepted
  {
  }

  lemma NothingLeft(s: State)
    requires Reachable(s) && Work(s) == 0
    ensures s.queue == [] && s.events == [] && s.back.completed == |s.log|
    ensures s.back.file.view == s.orig + DataOf(s.log)
  {
    ReachableInv(s);
    NoWork(s.back, s.queue, s.events, s.log, Finishes(s.events));
  }

  lemma NoWork(b: Back, queue: seq<Request>, events: seq<Event>, log: seq<Request>, finishes: nat)
    requires FlightOk(b, finishes) && CountsOk(b, |log|) && QueueOk(b, queue, log)
    requires finishes == Finishes(events)
    requires 9 * |queue| + 4 * |events| + WriterRank(b.writer) + FlightRank(b) == 0
    ensures queue == [] && events == [] && b.completed == |log| == Carried(b)
  {
    if events == [] { NoFinishes(events); }
  }

  /** Once the close path reads the counters and the periodic thread is out, the close ends: the writer's side finishes,
      the counters agree, and the disk holds the original content followed by every accepted byte. */
  lemma CloseEnds(s: State) returns (s': State)
    requires Reachable(s) && s.front.app.ReadTotal? && s.front.syncer.Out?
    ensures Reachable(s') && s'.front.app.Closed? && s'.accepted == s.accepted
    ensures s'.back.file.disk == s.orig + s.accepted
  {
    var s1 := WorkIsDone(s);
    assert Enabled(s1, Ahead(LoadTotal));
    ReachStep(s1, Ahead(LoadTotal));
    s' := Apply(s1, Ahead(LoadTotal));
    if s.front.live {
      TotalIsLog(s1);
      ReachStep(s', Ahead(LoadDone));
      ClosedFileIsComplete(s');
      s' := Apply(s', Ahead(LoadDone));
    } else {
      ClosedUntouched(s1);
      assert s.orig + [] == s.orig;
    }
  }

  lemma TotalIsLog(s: State)
    requires Reachable(s) && s.front.app.ReadTotal? && s.front.syncer.Out?
    ensures s.front.total == |s.log|
  {
    LogIsBatchThenQueue(s);
  }
}
