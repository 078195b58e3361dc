/** What a coordinator's jobs and answers are, over whole runs: each job is that of the child that was started
    for it, and what callers and clients are told is so. */
module Answers {
  import opened Events
  import opened Readers
  import opened Tracker
  import opened Sessions
  import opened Sums
  import opened System
  import opened Invariant
  import opened LogTheorems
  import opened EndToEnd
  import opened KillTheorems
  import opened Coordinator

  // --------------------------------------------------- what was spawned

  /** The job's streams are the child's, and so are its owner, its start and its conduct. */
  predicate IsOfChild(s: Sys, user: User, id: string, c: Child) {
    && s.stdout.source == c.out && s.stdout.failure == c.outFails
    && s.stderr.source == c.err && s.stderr.failure == c.errFails
    && s.contract == c.contract
    && s.job.id == id && s.job.user == user && s.job.startedAt == c.at
  }

  /** No step changes what a job's child is. */
  lemma StepKeepsChild(s: Sys, a: Action, user: User, id: string, c: Child)
    requires Enabled(s, a) && IsOfChild(s, user, id, c)
    ensures IsOfChild(Apply(s, a), user, id, c)
  {
    StepKeepsOwner(s, a);
    SourcesStay(s, a);
    hide Enabled, Apply;
  }

  lemma SourcesStay(s: Sys, a: Action)
    requires Enabled(s, a)
    ensures var s' := Apply(s, a);
            && s'.stdout.source == s.stdout.source && s'.stdout.failure == s.stdout.failure
            && s'.stderr.source == s.stderr.source && s'.stderr.failure == s.stderr.failure
            && s'.contract == s.contract
  {
    hide ReaderEnabled, ReaderApply, TrackerEnabled, TrackerApply, BroadcasterEnabled, BroadcasterApply, SessionEnabled,
         SessionApply, RequestEnabled, RequestApply, KillEnabled, KillApply;
    match a
    case ReaderStep(k, r) => ReaderKeepsSource(ReaderOf(s, k), r);
    case TrackerStep(t) => TrackerKeepsSources(s, t);
    case BroadcasterStep(b) => BroadcasterKeepsSources(s, b);
    case SessionStep(i, x) =>
    case RequestStep(q) => RequestKeepsSources(s, q);
    case KillStep(x) => KillKeepsSources(s, x);
  }

  lemma ReaderKeepsSource(r: Reader, a: ReaderAction)
    requires ReaderEnabled(r, a)
    ensures ReaderApply(r, a).source == r.source && ReaderApply(r, a).failure == r.failure
  {
  }

  lemma TrackerKeepsSources(s: Sys, t: TrackerAction)
    requires TrackerEnabled(s, t)
    ensures var s' := TrackerApply(s, t);
            && s'.stdout.source == s.stdout.source && s'.stdout.failure == s.stdout.failure
            && s'.stderr.source == s.stderr.source && s'.stderr.failure == s.stderr.failure
            && s'.contract == s.contract
  {
    hide AnswerAll, AbandonAll, SetKill;
  }

  lemma BroadcasterKeepsSources(s: Sys, b: BroadcasterAction)
    requires BroadcasterEnabled(s, b)
    ensures var s' := BroadcasterApply(s, b);
            s'.stdout == s.stdout && s'.stderr == s.stderr && s'.contract == s.contract
  {
    hide FanOut, ReleaseAll, StartSession;
  }

  lemma RequestKeepsSources(s: Sys, q: RequestAction)
    requires RequestEnabled(s, q)
    ensures var s' := RequestApply(s, q);
            s'.stdout == s.stdout && s'.stderr == s.stderr && s'.contract == s.contract
  {
  }

  lemma KillKeepsSources(s: Sys, x: KillAction)
    requires KillEnabled(s, x)
    ensures var s' := KillApply(s, x);
            s'.stdout == s.stdout && s'.stderr == s.stderr && s'.contract == s.contract
  {
  }

  /** The operation that started the job with this id. */
  ghost predicate Starts(op: Op, s: Sys, id: string) {
    op.Spawn? && op.id == id && op.child.Some? && IsOfChild(s, op.user, id, op.child.value)
  }

  /** Every job was started by one of the operations so far, from the child it still has. */
  ghost predicate AllStarted(jobs: Jobs, past: seq<Op>) {
    forall id :: id in jobs ==> exists n :: 0 <= n < |past| && Starts(past[n], jobs[id], id)
  }

  lemma OpKeepsStarted(jobs: Jobs, op: Op, past: seq<Op>)
    requires AllStarted(jobs, past) && OpEnabled(jobs, op)
    ensures AllStarted(Step(jobs, op).0, past + [op])
  {
    hide Apply, Enabled, NewJob, Step, OpEnabled, IsOfChild;
    StepChangesOne(jobs, op);
    var jobs', now := Step(jobs, op).0, past + [op];
    forall id | id in jobs' ensures exists n :: 0 <= n < |now| && Starts(now[n], jobs'[id], id) {
      if id in jobs && jobs'[id] == jobs[id] {
        var n :| 0 <= n < |past| && Starts(past[n], jobs[id], id);
        assert Starts(now[n], jobs'[id], id);
      } else if a :| op.id in jobs && Enabled(jobs[op.id], a) && jobs' == jobs[op.id := Apply(jobs[op.id], a)] {
        var n :| 0 <= n < |past| && Starts(past[n], jobs[id], id);
        StepKeepsChild(jobs[id], a, past[n].user, id, past[n].child.value);
        assert Starts(now[n], jobs'[id], id);
      } else {
        NewJobIsOfChild(op.user, op.id, op.child.value);
        assert Starts(now[|past|], jobs'[id], id);
      }
    }
  }

  lemma NewJobIsOfChild(user: User, id: string, c: Child)
    ensures IsOfChild(NewJob(user, id, c), user, id, c)
  {
  }

  lemma {:induction false} ServedStayStarted(jobs: Jobs, past: seq<Op>, ops: seq<Op>)
    requires AllStarted(jobs, past) && CanServe(jobs, ops)
    ensures AllStarted(Coordinator.Served(jobs, ops), past + ops)
    decreases |ops|
  {
    hide *;
    if |ops| > 0 {
      ServeUnfolds(jobs, ops);
      OpKeepsStarted(jobs, ops[0], past);
      ServedStayStarted(Step(jobs, ops[0]).0, past + [ops[0]], ops[1..]);
      ShiftFirst(past, ops);
    } else {
      assert ops == [] && past + ops == past;
      NothingServed(jobs);
    }
  }

  /** Whatever the users of a coordinator do, each of its jobs was started by one of their operations, and has
      the streams, the owner, the start and the conduct of the child that operation yielded. */
  lemma JobsAreTheirChildren(ops: seq<Op>, id: string) returns (n: nat)
    requires CanServe(map[], ops) && id in Coordinator.Served(map[], ops)
    ensures n < |ops| && Starts(ops[n], Coordinator.Served(map[], ops)[id], id)
  {
    NoneStarted();
    ServedStayStarted(map[], [], ops);
    hide CanServe, Coordinator.Served, Starts;
    assert [] + ops == ops;
    n :| 0 <= n < |ops| && Starts(ops[n], Coordinator.Served(map[], ops)[id], id);
  }

  lemma NoneStarted()
    ensures AllStarted(map[], [])
  {
  }

  // ------------------------------------------------- what the answers mean

  /** What clients are told of a job is what its child did: their bytes of a stream are a prefix of what the
      child that was spawned wrote to it; an ended response without an error item is all of it, and then
      neither stream failed; and a read error in a response or at the end of the log is the child's own
      failure of that stream. */
  lemma ClientsSeeTheChild(ops: seq<Op>, id: string, i: nat) returns (n: nat)
    requires CanServe(map[], ops) && id in Coordinator.Served(map[], ops)
    requires i < |Coordinator.Served(map[], ops)[id].sessions|
    ensures n < |ops| && ops[n].Spawn? && ops[n].id == id && ops[n].child.Some?
    ensures var x, c := Coordinator.Served(map[], ops)[id].sessions[i], ops[n].child.value;
            && StreamBytes(x.got, Stdout) <= c.out && StreamBytes(x.got, Stderr) <= c.err
            && (ResponseComplete(x) && AllOk(x.got) ==>
                  && StreamBytes(x.got, Stdout) == c.out && c.outFails.None?
                  && StreamBytes(x.got, Stderr) == c.err && c.errFails.None?)
            && (forall err :: Err(StreamFailed(ReadOutput(Stdout, err))) in x.got ==> c.outFails == Some(err))
            && (forall err :: Err(StreamFailed(ReadOutput(Stderr, err))) in x.got ==> c.errFails == Some(err))
  {
    n := JobsAreTheirChildren(ops, id);
    hide CanServe, Coordinator.Served, Reachable, StreamBytes, ResponseComplete, AllOk;
    ServedJobsAreReachable(ops);
    var s := Coordinator.Served(map[], ops)[id];
    NothingInvented(s, i, Stdout);
    NothingInvented(s, i, Stderr);
    if ResponseComplete(s.sessions[i]) && AllOk(s.sessions[i].got) {
      CompleteResponseIsWholeOutput(s, i);
    }
    forall err | Err(StreamFailed(ReadOutput(Stdout, err))) in s.sessions[i].got
      ensures s.stdout.failure == Some(err)
    {
      ReceivedErrorIsReal(s, i, Stdout, err);
    }
    forall err | Err(StreamFailed(ReadOutput(Stderr, err))) in s.sessions[i].got
      ensures s.stderr.failure == Some(err)
    {
      ReceivedErrorIsReal(s, i, Stderr, err);
    }
  }

  /** A log that ends with a read error of a stream tells how the spawned child's stream failed. */
  lemma {:induction false} LogErrorIsTheChilds(ops: seq<Op>, id: string) returns (n: nat)
    requires CanServe(map[], ops) && id in Coordinator.Served(map[], ops)
    requires var log := Log(Coordinator.Served(map[], ops)[id]);
             Sealed(log) && Last(log).Error? && Last(log).err.ReadOutput?
    ensures n < |ops| && ops[n].Spawn? && ops[n].id == id && ops[n].child.Some?
    ensures var err, c := Last(Log(Coordinator.Served(map[], ops)[id])).err, ops[n].child.value;
            (if err.kind.Stdout? then c.outFails else c.errFails) == Some(err.io)
  {
    n := JobsAreTheirChildren(ops, id);
    hide CanServe, Coordinator.Served, Reachable, Log, Sealed;
    ServedJobsAreReachable(ops);
    ErrorIsReal(Coordinator.Served(map[], ops)[id]);
  }

  /** When each operation is possible: starting a job under a fresh id, and every request, always; a step of a
      job whenever the job can make it and it is not the filing of a request. */
  lemma OpGuards(jobs: Jobs)
    ensures forall user, id, child :: OpEnabled(jobs, Spawn(user, id, child)) <==> child.None? || id !in jobs
    ensures forall user, id :: OpEnabled(jobs, Logs(user, id)) && OpEnabled(jobs, Ps(user, id))
    ensures forall user, id :: OpEnabled(jobs, Op.Kill(user, id))
    ensures forall id, a :: OpEnabled(jobs, JobStep(id, a)) <==>
              id in jobs && Enabled(jobs[id], a) && a != RequestStep(NewRequest) && !(a.KillStep? && a.x.NewKill?)
  {
    hide Enabled;
  }

  /** What any client has received of any job in a coordinator is a prefix of what that job's child wrote,
      and a response that ended without an error item is all of it, from a job recorded as exited. */
  lemma EveryLogIsGenuine(ops: seq<Op>, id: string, i: nat, k: StreamKind)
    requires CanServe(map[], ops) && id in Coordinator.Served(map[], ops)
    requires i < |Coordinator.Served(map[], ops)[id].sessions|
    ensures var s := Coordinator.Served(map[], ops)[id];
            var x := s.sessions[i];
            && StreamBytes(x.got, k) <= ReaderOf(s, k).source
            && (ResponseComplete(x) && AllOk(x.got) ==>
                  && StreamBytes(x.got, k) == ReaderOf(s, k).source
                  && s.job.id == id && s.job.state.Exited?)
  {
    hide CanServe, Coordinator.Served, Reachable, StreamBytes, ResponseComplete, AllOk;
    ServedJobsAreReachable(ops);
    var s := Coordinator.Served(map[], ops)[id];
    NothingInvented(s, i, k);
    if ResponseComplete(s.sessions[i]) && AllOk(s.sessions[i].got) {
      CompleteResponseIsWholeOutput(s, i);
    }
  }

  /** An answer to a request for the log. A stream is one of the job's own sessions, and nobody else's; the
      log is refused only to a caller who waited too long. */
  lemma LogsAnswerIsOwnSession(jobs: Jobs, op: Op)
    requires AllReachable(jobs) && OpEnabled(jobs, op)
    ensures Step(jobs, op).1.LogStream? ==>
              && op.JobStep? && op.a.RequestStep? && op.a.q.LeaveRequest?
              && var (s, i) := (jobs[op.id], Step(jobs, op).1.session);
                 && i < |s.sessions| && s.sessions[i].received <= Log(s)
                 && forall q :: 0 <= q < |s.reqs| && s.reqs[q].phase == RequestPhase.Served(i) ==> q == op.a.q.r
    ensures Step(jobs, op).1.LogsNotAvailable? ==>
              && op.JobStep? && op.a.RequestStep? && op.a.q.LeaveRequest?
              && jobs[op.id].reqs[op.a.q.r].phase.Queued?
  {
    hide Reachable, Apply, NewJob, Log, TrackerEnabled, BroadcasterEnabled, SessionEnabled, KillEnabled;
    if op.JobStep? && op.a.RequestStep? {
      OwnSession(jobs[op.id], op.a.q);
    }
  }

  /** How a request for the log stands when its caller stops waiting. */
  lemma OwnSession(s: Sys, q: RequestAction)
    requires Reachable(s) && RequestEnabled(s, q)
    ensures !q.RequestRejected?
    ensures q.LeaveRequest? ==>
              match s.reqs[q.r].phase
              case Served(i) =>
                && i < |s.sessions| && s.sessions[i].received <= Log(s)
                && forall r :: 0 <= r < |s.reqs| && s.reqs[r].phase == RequestPhase.Served(i) ==> r == q.r
              case Unsent => true
              case phase => phase.Queued?
  {
    ReachableInv(s);
    RequestsOf(s);
    hide Reachable, Inv, Log, Sum;
    if q.LeaveRequest? && s.reqs[q.r].phase.Served? {
      EachServedHasOwnSession(s, q.r);
      ReceivedPrefix(s, s.reqs[q.r].phase.session);
    }
  }

  /** An answer to a kill. A job that is returned is this job, exited, its end recorded, killed by its owner;
      "not running" and a tracker that quit are said only once the tracker has ended. */
  lemma KillAnswerIsTrue(jobs: Jobs, op: Op)
    requires AllReachable(jobs) && OpEnabled(jobs, op)
    ensures Step(jobs, op).1.KilledJob? ==>
              && op.JobStep?
              && var (s, job) := (jobs[op.id], Step(jobs, op).1.job);
                 && job.id == op.id && SameJob(job, s.job)
                 && job.state.Exited? && job.endedAt.Some?
                 && job.killed.Some? && job.killed.value.user == job.user
                 && (s.contract ==> job == s.job)
    ensures Step(jobs, op).1.JobNotRunning? || Step(jobs, op).1 == KillErred(TrackerQuit) ==>
              op.JobStep? && jobs[op.id].tracker.pc.Stopped?
  {
    hide Reachable, Apply, NewJob, TrackerEnabled, BroadcasterEnabled, SessionEnabled, RequestEnabled, ReaderEnabled;
    if op.JobStep? && op.a.KillStep? && (op.a.x.LeaveKill? || op.a.x.KillRejected?) {
      OwnReply(jobs[op.id], op.a.x);
    }
  }

  lemma OwnReply(s: Sys, x: KillAction)
    requires Reachable(s) && KillEnabled(s, x) && (x.LeaveKill? || x.KillRejected?)
    ensures x.KillRejected? ==> s.tracker.pc.Stopped?
    ensures x.LeaveKill? ==>
              match s.kills[x.k].phase
              case KillAnswered(Killed(job)) =>
                && SameJob(job, s.job) && job.state.Exited? && job.endedAt.Some?
                && job.killed.Some? && job.killed.value.user == s.job.user
                && (s.contract ==> job == s.job)
              case KillAbandoned(_) => s.tracker.pc.Stopped?
              case _ => true
  {
    ReachableInv(s);
    KillsOf(s);
    if x.LeaveKill? && s.kills[x.k].phase.KillAnswered? && s.kills[x.k].phase.reply.Killed? {
      SuccessfulKillIsTruthful(s, x.k);
    }
    hide Reachable, Inv, LineInv, SameJob;
    assert KillInv(s.kills[x.k], s.tracker, s.job, s.contract);
  }
}
