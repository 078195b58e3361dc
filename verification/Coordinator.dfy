/** The coordinator: every user's jobs in one map, reached only through their owner. */
module Coordinator {
  import opened Events
  import opened Readers
  import opened Tracker
  import opened Sessions
  import opened System
  import opened Invariant
  import opened Refinement
  import opened KillTheorems

  type Jobs = map<string, Sys>

  /** What starting a child process yields: its pid, the time, and how its streams will go. */
  datatype Child = Child(pid: nat, at: nat, out: seq<byte>, outFails: Option<IoError>,
                         err: seq<byte>, errFails: Option<IoError>, contract: bool)

  /** Why a kill that was let through failed. */
  datatype KillError = KillReturned(err: IoError) | TrackerQuit | TimedOut

  /** What a caller of the coordinator is answered. Asking for logs and killing a job span several steps: a
      request that is let through first gets a number in the job's own books, and is answered when
      its caller stops waiting (see `Return`). */
  datatype Answer =
    | Spawned(job: Job)
    | SpawnFailed
    | JobNotFound
    | JobIs(job: Job)
    | LogsRequested(r: nat)
    | LogStream(session: nat)    // the receiving end of this session
    | LogsNotAvailable
    | KillRequested(k: nat)
    | KilledJob(job: Job)
    | JobNotRunning
    | KillErred(err: KillError)
    | NoAnswer

  datatype Op =
    | Spawn(user: User, id: string, child: Option<Child>)
    | Logs(user: User, id: string)
    | Ps(user: User, id: string)
    | Kill(user: User, id: string)
    | JobStep(id: string, a: Action)    // one step of a job's own tasks and clients

  /** The job with this id, if it is this user's. */
  function GetTracker(jobs: Jobs, user: User, id: string): Option<Sys> {
    if id !in jobs then None
    else if jobs[id].job.user != user then None
    else Some(jobs[id])
  }

  /** Ids are fresh: a clash would be a panic. */
  predicate OpEnabled(jobs: Jobs, op: Op) {
    match op
    case Spawn(user, id, child) => child.Some? ==> id !in jobs
    case JobStep(id, a) =>
      id in jobs && Enabled(jobs[id], a) && a != RequestStep(NewRequest) && !(a.KillStep? && a.x.NewKill?)
    case _ => true
  }

  function NewJob(user: User, id: string, c: Child): Sys {
    Initial(Started(id, user, c.pid, c.at), c.out, c.outFails, c.err, c.errFails, c.contract)
  }

  /** What a waiting caller is answered when it stops waiting, by the step with which it does: because it has
      been answered, after a second, or because its request could not be sent. A caller that had not
      sent its request yet was cancelled. */
  function Return(s: Sys, a: Action): Answer {
    match a
    case RequestStep(LeaveRequest(r)) => if r < |s.reqs| then LogsOutcome(s.reqs[r].phase) else NoAnswer
    case RequestStep(RequestRejected(r)) => LogsNotAvailable
    case KillStep(LeaveKill(k)) => if k < |s.kills| then KillOutcome(s.kills[k].phase) else NoAnswer
    case KillStep(KillRejected(k)) => JobNotRunning
    case _ => NoAnswer
  }

  function LogsOutcome(phase: RequestPhase): Answer {
    match phase
    case Served(i) => LogStream(i)
    case Unsent => NoAnswer
    case _ => LogsNotAvailable
  }

  function KillOutcome(phase: KillPhase): Answer {
    match phase
    case KillAnswered(Killed(job)) => KilledJob(job)
    case KillAnswered(KillFailed(err)) => KillErred(KillReturned(err))
    case KillAbandoned(_) => KillErred(TrackerQuit)
    case KillPending => KillErred(TimedOut)
    case _ => NoAnswer
  }

  function Step(jobs: Jobs, op: Op): (Jobs, Answer)
    requires OpEnabled(jobs, op)
  {
    match op
    case Spawn(user, id, child) =>
      if child.None? then (jobs, SpawnFailed)
      else
        var s := NewJob(user, id, child.value);
        (jobs[id := s], Spawned(s.job))
    case Logs(user, id) =>
      var s := GetTracker(jobs, user, id);
      if s.None? then (jobs, JobNotFound)
      else (jobs[id := Apply(s.value, RequestStep(NewRequest))], LogsRequested(|s.value.reqs|))
    case Ps(user, id) =>
      var s := GetTracker(jobs, user, id);
      (jobs, if s.None? then JobNotFound else JobIs(s.value.job))
    case Kill(user, id) =>
      var s := GetTracker(jobs, user, id);
      if s.None? then (jobs, JobNotFound)
      else (jobs[id := Apply(s.value, KillStep(NewKill(user)))], KillRequested(|s.value.kills|))
    case JobStep(id, a) => (jobs[id := Apply(jobs[id], a)], Return(jobs[id], a))
  }

  /** The coordinator itself. */
  class MemoryCoordinator {
    var jobs: Jobs

    constructor ()
      ensures jobs == map[]
    {
      jobs := map[];
    }

    /** A job that could be started is filed under its fresh id: running, owned by the caller, with nothing
        read yet. Nobody else's job is touched, and a failed start leaves everything as it was. */
    method SpawnJob(user: User, id: string, child: Option<Child>) returns (answer: Answer)
      requires OpEnabled(jobs, Spawn(user, id, child))
      modifies this
      ensures (jobs, answer) == Step(old(jobs), Spawn(user, id, child))
      ensures child.None? ==> answer == SpawnFailed && jobs == old(jobs)
      ensures child.Some? ==>
                && id !in old(jobs) && jobs.Keys == old(jobs).Keys + {id}
                && (forall other :: other in old(jobs) ==> jobs[other] == old(jobs)[other])
                && Init(jobs[id]) && answer == Spawned(jobs[id].job)
                && jobs[id].job == Job(id, user, None, child.value.at, None, Running(child.value.pid))
                && jobs[id].stdout.rest == child.value.out && jobs[id].stderr.rest == child.value.err
                && jobs[id].stdout.failure == child.value.outFails && jobs[id].stderr.failure == child.value.errFails
                && jobs[id].contract == child.value.contract
    {
      if child.None? {
        return SpawnFailed;
      }
      var s := NewJob(user, id, child.value);
      jobs := jobs[id := s];
      return Spawned(s.job);
    }

    /** Asking for a job's log: only the owner's request gets as far as the job, where it then waits among
        that job's requests. To anybody else the id is unknown. */
    method BeginLogs(user: User, id: string) returns (answer: Answer)
      modifies this
      ensures (jobs, answer) == Step(old(jobs), Logs(user, id))
      ensures answer == JobNotFound <==> !(id in old(jobs) && old(jobs)[id].job.user == user)
      ensures answer == JobNotFound ==> jobs == old(jobs)
      ensures answer != JobNotFound ==>
                && jobs.Keys == old(jobs).Keys
                && (forall other :: other in jobs && other != id ==> jobs[other] == old(jobs)[other])
                && jobs[id].reqs == old(jobs)[id].reqs + [LogRequest(Unsent, true)]
                && answer == LogsRequested(|old(jobs)[id].reqs|)
    {
      var s := GetTracker(jobs, user, id);
      if s.None? {
        return JobNotFound;
      }
      jobs := jobs[id := Apply(s.value, RequestStep(NewRequest))];
      return LogsRequested(|s.value.reqs|);
    }

    /** The caller of a request for the log stops waiting; `sent` says whether its request could be sent at
        all. It has its session if the broadcaster served it, and otherwise is told that the log is not
        available; the log itself is not touched. */
    method EndLogs(id: string, r: nat, sent: bool) returns (answer: Answer)
      requires id in jobs
      requires RequestEnabled(jobs[id], if sent then LeaveRequest(r) else RequestRejected(r))
      modifies this
      ensures (jobs, answer)
           == Step(old(jobs), JobStep(id, RequestStep(if sent then LeaveRequest(r) else RequestRejected(r))))
      ensures !sent ==> answer == LogsNotAvailable
      ensures sent ==> forall i ::
                answer == LogStream(i) <==> old(jobs)[id].reqs[r].phase == RequestPhase.Served(i)
      ensures sent && (old(jobs)[id].reqs[r].phase.Queued? || old(jobs)[id].reqs[r].phase.Refused?) ==>
                answer == LogsNotAvailable
      ensures sent && old(jobs)[id].reqs[r].phase.Unsent? ==> answer == NoAnswer
      ensures jobs.Keys == old(jobs).Keys
      ensures forall other :: other in jobs && other != id ==> jobs[other] == old(jobs)[other]
      ensures jobs[id].sessions == old(jobs)[id].sessions && Log(jobs[id]) == Log(old(jobs)[id])
    {
      var s := jobs[id];
      jobs := jobs[id := Apply(s, RequestStep(if sent then LeaveRequest(r) else RequestRejected(r)))];
      if !sent {
        return LogsNotAvailable;
      }
      match s.reqs[r].phase {
        case Served(i) => answer := LogStream(i);
        case Unsent => answer := NoAnswer;
        case _ => answer := LogsNotAvailable;
      }
    }

    /** The current snapshot of a job, for its owner. */
    method JobStatus(user: User, id: string) returns (answer: Answer)
      ensures (jobs, answer) == Step(old(jobs), Ps(user, id))
      ensures answer == if id in jobs && jobs[id].job.user == user then JobIs(jobs[id].job) else JobNotFound
    {
      var s := GetTracker(jobs, user, id);
      return if s.None? then JobNotFound else JobIs(s.value.job);
    }

    /** Killing a job: only the owner's request gets as far as the job. */
    method BeginKill(user: User, id: string) returns (answer: Answer)
      modifies this
      ensures (jobs, answer) == Step(old(jobs), Op.Kill(user, id))
      ensures answer == JobNotFound <==> !(id in old(jobs) && old(jobs)[id].job.user == user)
      ensures answer == JobNotFound ==> jobs == old(jobs)
      ensures answer != JobNotFound ==>
                && jobs.Keys == old(jobs).Keys
                && (forall other :: other in jobs && other != id ==> jobs[other] == old(jobs)[other])
                && jobs[id].kills == old(jobs)[id].kills + [System.Kill(user, KillUnsent, true)]
                && answer == KillRequested(|old(jobs)[id].kills|)
    {
      var s := GetTracker(jobs, user, id);
      if s.None? {
        return JobNotFound;
      }
      jobs := jobs[id := Apply(s.value, KillStep(NewKill(user)))];
      return KillRequested(|s.value.kills|);
    }

    /** The caller of a kill stops waiting, with the tracker's reply if there is one; `sent` says whether its
        request could be sent at all. A request that could not is answered with "not running". */
    method EndKill(id: string, k: nat, sent: bool) returns (answer: Answer)
      requires id in jobs
      requires KillEnabled(jobs[id], if sent then LeaveKill(k) else KillRejected(k))
      modifies this
      ensures (jobs, answer)
           == Step(old(jobs), JobStep(id, KillStep(if sent then LeaveKill(k) else KillRejected(k))))
      ensures !sent ==> answer == JobNotRunning
      ensures sent ==> forall job ::
                answer == KilledJob(job) <==> old(jobs)[id].kills[k].phase == KillAnswered(Killed(job))
      ensures sent ==> forall err ::
                answer == KillErred(KillReturned(err)) <==>
                old(jobs)[id].kills[k].phase == KillAnswered(KillFailed(err))
      ensures sent && old(jobs)[id].kills[k].phase.KillUnsent? ==> answer == NoAnswer
      ensures sent && old(jobs)[id].kills[k].phase.KillPending? ==> answer == KillErred(TimedOut)
      ensures sent && old(jobs)[id].kills[k].phase.KillAbandoned? ==> answer == KillErred(TrackerQuit)
      ensures jobs.Keys == old(jobs).Keys
      ensures forall other :: other in jobs && other != id ==> jobs[other] == old(jobs)[other]
      ensures jobs[id].job == old(jobs)[id].job && jobs[id].tracker == old(jobs)[id].tracker
    {
      var s := jobs[id];
      jobs := jobs[id := Apply(s, KillStep(if sent then LeaveKill(k) else KillRejected(k)))];
      if !sent {
        return JobNotRunning;
      }
      match s.kills[k].phase {
        case KillAnswered(Killed(job)) => answer := KilledJob(job);
        case KillAnswered(KillFailed(err)) => answer := KillErred(KillReturned(err));
        case KillAbandoned(_) => answer := KillErred(TrackerQuit);
        case KillPending => answer := KillErred(TimedOut);
        case _ => answer := NoAnswer;
      }
    }
  }

  // -------------------------------------------------------- pipelines inside

  /** Every job got where it is by steps of its pipeline from a fresh start, and is filed under its own id. */
  ghost predicate AllReachable(jobs: Jobs) {
    forall id :: id in jobs ==> Reachable(jobs[id]) && jobs[id].job.id == id
  }

  /** What an operation does to the map: nothing, or one job is filed or makes one step. */
  lemma StepChangesOne(jobs: Jobs, op: Op)
    requires OpEnabled(jobs, op)
    ensures var jobs' := Step(jobs, op).0;
            || jobs' == jobs
            || (op.Spawn? && op.child.Some? && jobs' == jobs[op.id := NewJob(op.user, op.id, op.child.value)])
            || (op.id in jobs && exists a :: Enabled(jobs[op.id], a) && jobs' == jobs[op.id := Apply(jobs[op.id], a)])
  {
    hide Apply, Enabled, NewJob;
    match op
    case Spawn(user, id, child) =>
    case Logs(user, id) => if GetTracker(jobs, user, id).Some? { FilingEnabled(jobs[id]); }
    case Ps(user, id) =>
    case Kill(user, id) => if GetTracker(jobs, user, id).Some? { FilingEnabled(jobs[id]); }
    case JobStep(id, a) =>
  }

  /** Every job stays one to which the theorems about reachable pipelines apply. */
  lemma StepKeepsReachable(jobs: Jobs, op: Op)
    requires AllReachable(jobs) && OpEnabled(jobs, op)
    ensures AllReachable(Step(jobs, op).0)
  {
    hide Reachable, Apply, Enabled, NewJob, Step, OpEnabled;
    StepChangesOne(jobs, op);
    var jobs' := Step(jobs, op).0;
    if jobs' != jobs {
      if a :| op.id in jobs && Enabled(jobs[op.id], a) && jobs' == jobs[op.id := Apply(jobs[op.id], a)] {
        StepKeepsOwner(jobs[op.id], a);
        ReachesNext(jobs[op.id], a);
      } else {
        NewJobIsFresh(op.user, op.id, op.child.value);
        ReachesItself(NewJob(op.user, op.id, op.child.value));
      }
    }
  }

  lemma NewJobIsFresh(user: User, id: string, c: Child)
    ensures Init(NewJob(user, id, c))
    ensures NewJob(user, id, c).job.id == id && NewJob(user, id, c).job.user == user
  {
  }

  /** No step changes whose job it is. */
  lemma StepKeepsOwner(s: Sys, a: Action)
    requires Enabled(s, a)
    ensures SameJob(Apply(s, a).job, s.job)
  {
    if a.TrackerStep? {
      hide AnswerAll, AbandonAll, SetKill;
    } else {
      hide Apply, Enabled;
      OthersLeaveJob(s, a);
    }
  }

  /** The steps with which a call files its request are always possible. */
  lemma FilingEnabled(s: Sys)
    ensures Enabled(s, RequestStep(NewRequest)) && Enabled(s, KillStep(NewKill(s.job.user)))
  {
    hide ReaderEnabled, TrackerEnabled, BroadcasterEnabled, SessionEnabled;
  }

  // -------------------------------------------------------------- isolation

  /** One user's part of the map. */
  function Mine(jobs: Jobs, user: User): Jobs {
    map id | id in jobs && jobs[id].job.user == user :: jobs[id]
  }

  /** The operation is the user's, or happens inside one of the user's jobs. */
  predicate Concerns(jobs: Jobs, op: Op, user: User) {
    if op.JobStep? then op.id in jobs && jobs[op.id].job.user == user else op.user == user
  }

  /** A request about a job is let through exactly when the job exists and is the caller's; otherwise
      nothing changes, and a foreign job answers just as an id that does not exist. */
  lemma AnsweredIffOwner(jobs: Jobs, op: Op)
    requires op.Logs? || op.Ps? || op.Kill?
    requires op.id in jobs ==> jobs[op.id].job.id == op.id
    ensures Step(jobs, op).1 == JobNotFound <==> !(op.id in jobs && jobs[op.id].job.user == op.user)
    ensures Step(jobs, op).1 == JobNotFound ==>
              Step(jobs, op).0 == jobs && Step(jobs - {op.id}, op).1 == JobNotFound
    ensures Step(jobs, op).1.JobIs? ==>
              var j := Step(jobs, op).1.job;
              op.Ps? && Step(jobs, op).0 == jobs && j.user == op.user && j.id == op.id
    ensures op.Ps? && op.id in jobs && jobs[op.id].job.user == op.user ==>
              Step(jobs, op) == (jobs, JobIs(jobs[op.id].job))
  {
    hide Apply, NewJob;
  }

  /** A request that is let through is filed with the job, under the caller's name, and changes neither the
      job nor any other. */
  lemma RequestIsFiled(jobs: Jobs, op: Op)
    requires (op.Logs? || op.Kill?) && op.id in jobs && jobs[op.id].job.user == op.user
    ensures var jobs' := Step(jobs, op).0;
            && op.id in jobs' && jobs'.Keys == jobs.Keys
            && (forall other :: other in jobs && other != op.id ==> jobs'[other] == jobs[other])
            && var s, s' := jobs[op.id], jobs'[op.id];
               && s'.job == s.job && Log(s') == Log(s)
               && s'.reqs == s.reqs + (if op.Logs? then [LogRequest(Unsent, true)] else [])
               && s'.kills == s.kills + (if op.Kill? then [System.Kill(op.user, KillUnsent, true)] else [])
  {
    hide NewJob, Log;
    var s := jobs[op.id];
    if op.Logs? {
      RequestKeepsLog(s, NewRequest);
      assert s.kills + [] == s.kills;
    } else {
      KillKeepsLog(s, NewKill(op.user));
      assert s.reqs + [] == s.reqs;
    }
  }

  /** Filing a job changes its owner's part of the map and nobody else's. */
  lemma MineFiled(jobs: Jobs, user: User, id: string, s: Sys)
    requires id in jobs ==> jobs[id].job.user == s.job.user
    ensures Mine(jobs[id := s], user) == if s.job.user == user then Mine(jobs, user)[id := s] else Mine(jobs, user)
  {
  }

  /** An operation of one user behaves as if no other user had jobs. */
  lemma OwnOpSeesOwnJobs(jobs: Jobs, op: Op, user: User)
    requires OpEnabled(jobs, op) && Concerns(jobs, op, user)
    ensures OpEnabled(Mine(jobs, user), op)
    ensures Step(Mine(jobs, user), op) == (Mine(Step(jobs, op).0, user), Step(jobs, op).1)
  {
    OwnIds(jobs, user);
    hide Apply, Enabled, NewJob, Mine;
    match op
    case Spawn(user, id, child) =>
      if child.Some? {
        NewJobIsFresh(user, id, child.value);
        MineFiled(jobs, user, id, NewJob(user, id, child.value));
      }
    case Logs(user, id) =>
      if GetTracker(jobs, user, id).Some? {
        FilingEnabled(jobs[id]);
        StepKeepsOwner(jobs[id], RequestStep(NewRequest));
        MineFiled(jobs, user, id, Apply(jobs[id], RequestStep(NewRequest)));
      }
    case Ps(user, id) =>
    case Kill(user, id) =>
      if GetTracker(jobs, user, id).Some? {
        FilingEnabled(jobs[id]);
        StepKeepsOwner(jobs[id], KillStep(NewKill(user)));
        MineFiled(jobs, user, id, Apply(jobs[id], KillStep(NewKill(user))));
      }
    case JobStep(id, a) =>
      StepKeepsOwner(jobs[id], a);
      MineFiled(jobs, user, id, Apply(jobs[id], a));
  }

  lemma OwnIds(jobs: Jobs, user: User)
    ensures forall id :: id in Mine(jobs, user) <==> id in jobs && jobs[id].job.user == user
    ensures forall id :: id in Mine(jobs, user) ==> Mine(jobs, user)[id] == jobs[id]
  {
  }

  /** An operation of another user, or inside another user's job, leaves this user's jobs as they are. */
  lemma ForeignOpLeavesOwnJobs(jobs: Jobs, op: Op, user: User)
    requires OpEnabled(jobs, op) && !Concerns(jobs, op, user)
    ensures Mine(Step(jobs, op).0, user) == Mine(jobs, user)
  {
    hide Apply, Enabled, NewJob, Mine;
    match op
    case Spawn(other, id, child) =>
      if child.Some? {
        NewJobIsFresh(other, id, child.value);
        MineFiled(jobs, user, id, NewJob(other, id, child.value));
      }
    case Logs(other, id) =>
      if GetTracker(jobs, other, id).Some? {
        FilingEnabled(jobs[id]);
        StepKeepsOwner(jobs[id], RequestStep(NewRequest));
        MineFiled(jobs, user, id, Apply(jobs[id], RequestStep(NewRequest)));
      }
    case Ps(other, id) =>
    case Kill(other, id) =>
      if GetTracker(jobs, other, id).Some? {
        FilingEnabled(jobs[id]);
        StepKeepsOwner(jobs[id], KillStep(NewKill(other)));
        MineFiled(jobs, user, id, Apply(jobs[id], KillStep(NewKill(other))));
      }
    case JobStep(id, a) =>
      StepKeepsOwner(jobs[id], a);
      MineFiled(jobs, user, id, Apply(jobs[id], a));
  }

  predicate CanServe(jobs: Jobs, ops: seq<Op>)
    decreases |ops|
  {
    |ops| == 0 || (OpEnabled(jobs, ops[0]) && CanServe(Step(jobs, ops[0]).0, ops[1..]))
  }

  function Served(jobs: Jobs, ops: seq<Op>): Jobs
    requires CanServe(jobs, ops)
    decreases |ops|
  {
    if |ops| == 0 then jobs else Served(Step(jobs, ops[0]).0, ops[1..])
  }

  lemma ServeUnfolds(jobs: Jobs, ops: seq<Op>)
    requires |ops| > 0 && CanServe(jobs, ops)
    ensures OpEnabled(jobs, ops[0]) && CanServe(Step(jobs, ops[0]).0, ops[1..])
    ensures Served(jobs, ops) == Served(Step(jobs, ops[0]).0, ops[1..])
  {
    hide OpEnabled, Step;
  }

  lemma NothingServed(jobs: Jobs)
    ensures CanServe(jobs, []) && Served(jobs, []) == jobs
  {
  }

  lemma {:induction false} ServedStayReachable(jobs: Jobs, ops: seq<Op>)
    requires AllReachable(jobs) && CanServe(jobs, ops)
    ensures AllReachable(Served(jobs, ops))
    decreases |ops|
  {
    hide *;
    if |ops| > 0 {
      ServeUnfolds(jobs, ops);
      StepKeepsReachable(jobs, ops[0]);
      ServedStayReachable(Step(jobs, ops[0]).0, ops[1..]);
    } else {
      assert ops == [];
      NothingServed(jobs);
    }
  }

  /** Whatever the users of a coordinator do, each of its jobs is in a state its pipeline can reach, so that
      every theorem about one job holds of all of them. */
  lemma ServedJobsAreReachable(ops: seq<Op>)
    requires CanServe(map[], ops)
    ensures AllReachable(Served(map[], ops))
  {
    ServedStayReachable(map[], ops);
  }

  /** The operations of a run that concern a user, ... */
  function OpsOf(jobs: Jobs, ops: seq<Op>, user: User): seq<Op>
    requires CanServe(jobs, ops)
    decreases |ops|
  {
    if |ops| == 0 then []
    else
      (if Concerns(jobs, ops[0], user) then [ops[0]] else []) + OpsOf(Step(jobs, ops[0]).0, ops[1..], user)
  }

  /** ... and the answers to them. */
  function AnswersTo(jobs: Jobs, ops: seq<Op>, user: User): seq<Answer>
    requires CanServe(jobs, ops)
    decreases |ops|
  {
    if |ops| == 0 then []
    else
      (if Concerns(jobs, ops[0], user) then [Step(jobs, ops[0]).1] else [])
      + AnswersTo(Step(jobs, ops[0]).0, ops[1..], user)
  }

  /** Putting an operation in front of a run. */
  lemma FirstOp(jobs: Jobs, op: Op, ops: seq<Op>, user: User)
    requires OpEnabled(jobs, op) && CanServe(Step(jobs, op).0, ops)
    ensures var jobs', all := Step(jobs, op).0, [op] + ops;
            && CanServe(jobs, all) && Served(jobs, all) == Served(jobs', ops)
            && AnswersTo(jobs, all, user)
               == (if Concerns(jobs, op, user) then [Step(jobs, op).1] else []) + AnswersTo(jobs', ops, user)
            && OpsOf(jobs, all, user)
               == (if Concerns(jobs, op, user) then [op] else []) + OpsOf(jobs', ops, user)
  {
    hide OpEnabled, Step, Concerns;
    assert ([op] + ops)[0] == op && ([op] + ops)[1..] == ops;
  }

  /** The user's operations alone, on the user's jobs alone, can be served, get the same answers, and lead
      to the same jobs. */
  ghost predicate Isolated(jobs: Jobs, ops: seq<Op>, user: User)
    requires CanServe(jobs, ops)
  {
    var mine, own := Mine(jobs, user), OpsOf(jobs, ops, user);
    && CanServe(mine, own)
    && AnswersTo(mine, own, user) == AnswersTo(jobs, ops, user)
    && Served(mine, own) == Mine(Served(jobs, ops), user)
  }

  lemma IsolatedFromFirst(jobs: Jobs, op: Op, rest: seq<Op>, user: User)
    requires OpEnabled(jobs, op)
    requires CanServe(Step(jobs, op).0, rest) && Isolated(Step(jobs, op).0, rest, user)
    ensures CanServe(jobs, [op] + rest) && Isolated(jobs, [op] + rest, user)
  {
    hide OpEnabled, Step, Mine, Concerns, CanServe, AnswersTo, OpsOf, Served;
    FirstOp(jobs, op, rest, user);
    if Concerns(jobs, op, user) {
      OwnOpSeesOwnJobs(jobs, op, user);
      OwnConcerns(jobs, op, user);
      FirstOp(Mine(jobs, user), op, OpsOf(Step(jobs, op).0, rest, user), user);
    } else {
      ForeignOpLeavesOwnJobs(jobs, op, user);
      assert OpsOf(jobs, [op] + rest, user) == OpsOf(Step(jobs, op).0, rest, user);
      assert AnswersTo(jobs, [op] + rest, user) == AnswersTo(Step(jobs, op).0, rest, user);
    }
  }

  lemma IsolatedFromRest(jobs: Jobs, ops: seq<Op>, user: User)
    requires |ops| > 0 && CanServe(jobs, ops)
    requires Isolated(Step(jobs, ops[0]).0, ops[1..], user)
    ensures Isolated(jobs, ops, user)
  {
    hide OpEnabled, Step, Isolated;
    var op, rest := ops[0], ops[1..];
    IsolatedFromFirst(jobs, op, rest, user);
    assert [op] + rest == ops;
  }

  /** User isolation over whole runs: deleting all other users, their jobs and everything they do from a
      run leaves a run in which this user's operations get the same answers and this user's jobs, with
      their logs, end up the same. */
  lemma {:induction false} UsersAreIsolated(jobs: Jobs, ops: seq<Op>, user: User)
    requires CanServe(jobs, ops)
    ensures Isolated(jobs, ops, user)
    decreases |ops|
  {
    hide *;
    if |ops| > 0 {
      ServeUnfolds(jobs, ops);
      UsersAreIsolated(Step(jobs, ops[0]).0, ops[1..], user);
      IsolatedFromRest(jobs, ops, user);
    } else {
      assert ops == [];
      NothingIsolated(jobs, user);
    }
  }

  lemma OwnConcerns(jobs: Jobs, op: Op, user: User)
    requires Concerns(jobs, op, user)
    ensures Concerns(Mine(jobs, user), op, user)
  {
  }

  lemma NothingIsolated(jobs: Jobs, user: User)
    ensures CanServe(jobs, []) && Isolated(jobs, [], user)
  {
    hide Mine;
  }
}
