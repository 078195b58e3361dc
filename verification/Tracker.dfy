/** The control loop of one job: it merges both output streams, kill requests and the child's exit,
    and keeps the job snapshot. */
module Tracker {
  import opened Events
  import opened Readers

  datatype User = User(id: string)

  datatype ExitStatus = ExitStatus(code: Option<int>)

  datatype JobState = Running(pid: nat) | Exited(status: ExitStatus)

  /** When a job was killed and by whom. Times are readings of a clock the model does not constrain. */
  datatype JobKilled = JobKilled(at: nat, user: User)

  datatype Job = Job(
    id: string,
    user: User,
    killed: Option<JobKilled>,
    startedAt: nat,
    endedAt: Option<nat>,
    state: JobState)
  {
    function KilledBy(at: nat, u: User): Job {
      this.(killed := Some(JobKilled(at, u)))
    }

    function Ended(at: nat, status: ExitStatus): Job {
      this.(endedAt := Some(at), state := Exited(status))
    }
  }

  function Started(id: string, user: User, pid: nat, at: nat): Job {
    Job(id, user, None, at, None, Running(pid))
  }

  datatype KillReply = Killed(job: Job) | KillFailed(err: IoError)

  datatype WaitResult = ExitedWith(status: ExitStatus) | WaitFails(err: IoError)

  /** Where the tracker is suspended. A kill request is named by its number. */
  datatype TrackerPc =
    | Select                         // in the select, or about to enter it
    | SendFrame(ev: FrameEvent)      // awaiting room in the broadcaster's channel
    | Killing(req: nat)              // awaiting the child's kill
    | MarkKilled(req: nat)           // awaiting the job's lock to note the kill
    | RecordExit(status: ExitStatus) // awaiting the job's lock to note the exit
    | SendFinal(ev: FrameEvent)      // after the loop: awaiting room for the terminal event
    | StoreResult                    // awaiting the job's lock to store the result
    | Stopped

  datatype Outcome = Succeeded | FailedWith(err: TrackerError)

  datatype Tracker = Tracker(
    stdoutOk: bool,
    stderrOk: bool,
    killOk: bool,
    childOk: bool,
    loopErr: Option<TrackerError>,
    killReqs: seq<nat>,
    pc: TrackerPc,
    res: Option<Outcome>)
  {
    predicate Listening(k: StreamKind) {
      if k.Stdout? then stdoutOk else stderrOk
    }

    /** After the loop: the terminal event is chosen. */
    predicate Finishing() {
      pc.SendFinal? || pc.StoreResult? || pc.Stopped?
    }

    /** The head of the loop: leave it once the child has exited and both streams have closed. */
    function LoopHead(): Tracker {
      if !childOk && !stdoutOk && !stderrOk then this.(pc := SendFinal(EOF)) else this.(pc := Select)
    }

    function Break(err: TrackerError): Tracker {
      this.(loopErr := Some(err), pc := SendFinal(Error(err)))
    }

    function TakeMessage(m: Message): Tracker {
      match m
      case Good(frame) => this.(pc := SendFrame(Data(frame)))
      case Bad(err) => Break(err)
    }

    function StreamClosed(k: StreamKind): Tracker {
      (if k.Stdout? then this.(stdoutOk := false) else this.(stderrOk := false)).LoopHead()
    }

    function FrameSent(): Tracker {
      LoopHead()
    }

    function FrameRejected(): Tracker {
      Break(BroadcasterDisappeared)
    }

    function TakeKill(req: nat): Tracker {
      this.(pc := Killing(req))
    }

    function KillsClosed(): Tracker {
      this.(killOk := false).LoopHead()
    }

    function KillErred(): Tracker {
      LoopHead()
    }

    function KillWorked(): Tracker
      requires pc.Killing?
    {
      this.(pc := MarkKilled(pc.req))
    }

    function KillMarked(): Tracker
      requires pc.MarkKilled?
    {
      this.(killReqs := killReqs + [pc.req]).LoopHead()
    }

    function ChildWaited(res: WaitResult): Tracker {
      match res
      case ExitedWith(status) => this.(childOk := false, pc := RecordExit(status))
      case WaitFails(err) => this.(childOk := false).Break(WaitChild(err))
    }

    function ExitRecorded(): Tracker {
      this.(killReqs := []).LoopHead()
    }

    function FinalSent(): Tracker {
      this.(pc := StoreResult)
    }

    function Stop(): Tracker {
      this.(res := Some(if loopErr.Some? then FailedWith(loopErr.value) else Succeeded),
            killReqs := [],
            pc := Stopped)
    }
  }

  const NEW_TRACKER := Tracker(true, true, true, true, None, [], Select, None)

  /** What the tracker keeps about itself and the job. `contract` says that the child honours its
      contract: killing it fails once waiting for it has returned. */
  ghost predicate TrackerInv(t: Tracker, job: Job, contract: bool) {
    && t.killOk
    && (t.pc.SendFrame? ==> t.pc.ev.Data? && t.Listening(t.pc.ev.frame.kind))
    && (t.pc.Select? || t.pc.Killing? || t.pc.MarkKilled? ==> t.childOk || t.stdoutOk || t.stderrOk)
    && (t.pc.SendFinal? ==> t.pc.ev == (if t.loopErr.Some? then Error(t.loopErr.value) else EOF))
    && (!t.Finishing() ==> t.loopErr.None?)
    && t.loopErr != Some(BroadcasterDisappeared)
    && (t.Finishing() && t.loopErr.None? ==> !t.childOk && !t.stdoutOk && !t.stderrOk)
    && (t.res.Some? <==> t.pc.Stopped?)
    && (t.pc.Stopped? ==> t.res == Some(if t.loopErr.Some? then FailedWith(t.loopErr.value) else Succeeded))
    && (t.pc.RecordExit? ==> !t.childOk)
    && (t.loopErr.Some? && t.loopErr.value.WaitChild? ==> !t.childOk)
    && (job.state.Exited? <==> job.endedAt.Some?)
    && (job.state.Exited? <==>
          !t.childOk && !t.pc.RecordExit? && !(t.loopErr.Some? && t.loopErr.value.WaitChild?))
    && (job.killed.Some? ==> job.killed.value.user == job.user)
    && (|t.killReqs| > 0 ==> job.killed.Some?)
    && (contract ==>
          && (t.pc.MarkKilled? ==> t.childOk)
          && (|t.killReqs| > 0 ==>
                t.childOk || t.pc.RecordExit? || (t.loopErr.Some? && t.loopErr.value.WaitChild?)))
  }

  /** One request to kill the job. The tracker answers it at most once: `JobTracker.Valid` says that
      nobody it still holds has been answered. */
  class KillRequest {
    const id: nat
    const user: User
    var reply: Option<KillReply>

    constructor (id: nat, user: User)
      ensures this.id == id && this.user == user && reply == None
    {
      this.id, this.user, reply := id, user, None;
    }
  }

  /** The tracker's local variables and the job snapshot, updated in place. Each method is the code
      from one suspension to the next, and is proved to make the step of `Tracker` that the whole
      system is built from. */
  class JobTracker {
    var stdoutOk: bool
    var stderrOk: bool
    var killOk: bool
    var childOk: bool
    var loopErr: Option<TrackerError>
    var killReqs: seq<KillRequest>
    var inHand: Option<KillRequest>
    var pc: TrackerPc
    var res: Option<Outcome>
    var job: Job

    /** The requests it retains and the one in hand are all different and all unanswered. */
    ghost predicate Valid()
      reads this, killReqs, if inHand.Some? then {inHand.value} else {}
    {
      && (forall i, j :: 0 <= i < j < |killReqs| ==> killReqs[i] != killReqs[j])
      && (forall r :: r in killReqs ==> r.reply.None?)
      && (pc.Killing? || pc.MarkKilled? ==>
            inHand.Some? && inHand.value.id == pc.req && inHand.value !in killReqs && inHand.value.reply.None?)
    }

    ghost function View(): Tracker
      reads this
    {
      Tracker(stdoutOk, stderrOk, killOk, childOk, loopErr,
              seq(|killReqs|, i requires 0 <= i < |killReqs| reads this => killReqs[i].id), pc, res)
    }

    constructor (job: Job)
      ensures Valid() && View() == NEW_TRACKER && this.job == job
    {
      stdoutOk, stderrOk, killOk, childOk := true, true, true, true;
      loopErr, killReqs, inHand, pc, res := None, [], None, Select, None;
      this.job := job;
    }

    method LoopHead()
      modifies this`pc
      ensures View() == old(View()).LoopHead()
      ensures pc == if childOk || stdoutOk || stderrOk then Select else SendFinal(EOF)
    {
      if !childOk && !stdoutOk && !stderrOk {
        pc := SendFinal(EOF);
      } else {
        pc := Select;
      }
    }

    method Break(err: TrackerError)
      modifies this`loopErr, this`pc
      ensures View() == old(View()).Break(err)
      ensures loopErr == Some(err) && pc == SendFinal(Error(err))
    {
      loopErr := Some(err);
      pc := SendFinal(Error(err));
    }

    /** The arms that receive from one of the output streams. */
    method OnOutput(k: StreamKind, received: Option<Message>)
      requires Valid() && pc.Select? && View().Listening(k)
      modifies this
      ensures Valid() && job == old(job) && killReqs == old(killReqs)
      ensures received.Some? ==> View() == old(View()).TakeMessage(received.value)
      ensures received.None? ==> View() == old(View()).StreamClosed(k)
      ensures received.Some? && received.value.Good? ==>
                pc == SendFrame(Data(received.value.frame)) && loopErr == old(loopErr)
      ensures received.Some? && received.value.Bad? ==>
                loopErr == Some(received.value.err) && pc == SendFinal(Error(received.value.err))
      ensures received.None? ==> pc == if childOk || stdoutOk || stderrOk then Select else SendFinal(EOF)
      ensures stdoutOk == (old(stdoutOk) && !(received.None? && k.Stdout?))
      ensures stderrOk == (old(stderrOk) && !(received.None? && k.Stderr?))
      ensures killOk == old(killOk) && childOk == old(childOk)
    {
      match received {
        case None =>
          if k.Stdout? { stdoutOk := false; } else { stderrOk := false; }
          LoopHead();
        case Some(Good(frame)) =>
          pc := SendFrame(Data(frame));
        case Some(Bad(err)) =>
          Break(err);
      }
    }

    /** The send to the broadcaster has returned. */
    method OnFrameSent(ok: bool)
      requires Valid() && pc.SendFrame?
      modifies this
      ensures Valid() && job == old(job) && killReqs == old(killReqs)
      ensures View() == if ok then old(View()).FrameSent() else old(View()).FrameRejected()
      ensures ok ==> loopErr == old(loopErr) && pc == if childOk || stdoutOk || stderrOk then Select else SendFinal(EOF)
      ensures !ok ==> loopErr == Some(BroadcasterDisappeared) && pc == SendFinal(Error(BroadcasterDisappeared))
    {
      if ok { LoopHead(); } else { Break(BroadcasterDisappeared); }
    }

    /** The arm that receives kill requests. */
    method OnKillRequest(received: Option<KillRequest>)
      requires Valid() && pc.Select? && killOk
      requires received.Some? ==> received.value !in killReqs && received.value.reply.None?
      modifies this
      ensures Valid() && job == old(job) && killReqs == old(killReqs)
      ensures received.Some? ==> inHand == received && View() == old(View()).TakeKill(received.value.id)
      ensures received.None? ==> View() == old(View()).KillsClosed()
      ensures received.Some? ==> pc == Killing(received.value.id) && killOk
      ensures received.None? ==> !killOk && pc == if childOk || stdoutOk || stderrOk then Select else SendFinal(EOF)
    {
      match received {
        case None =>
          killOk := false;
          LoopHead();
        case Some(req) =>
          inHand := received;
          pc := Killing(req.id);
      }
    }

    /** The child's kill has returned: on an error the requester is told at once. */
    method OnKilled(err: Option<IoError>)
      requires Valid() && pc.Killing?
      modifies this, (if inHand.Some? then {inHand.value} else {})
      ensures Valid() && job == old(job) && killReqs == old(killReqs) && inHand == old(inHand)
      ensures err.Some? ==>
                old(inHand.value.reply).None? && inHand.value.reply == Some(KillFailed(err.value))
                && View() == old(View()).KillErred()
      ensures err.None? ==> inHand.value.reply == old(inHand.value.reply) && View() == old(View()).KillWorked()
      ensures err.Some? ==> pc == if childOk || stdoutOk || stderrOk then Select else SendFinal(EOF)
      ensures err.None? ==> pc == MarkKilled(inHand.value.id)
    {
      if err.Some? {
        inHand.value.reply := Some(KillFailed(err.value));
        LoopHead();
      } else {
        pc := MarkKilled(pc.req);
      }
    }

    /** The job's lock is held: note who killed the job and keep the request for later. */
    method OnMarkKilled(at: nat)
      requires Valid() && pc.MarkKilled?
      modifies this
      ensures Valid() && View() == old(View()).KillMarked()
      ensures job == old(job.KilledBy(at, inHand.value.user))
      ensures job.killed == Some(JobKilled(at, old(inHand).value.user))
      ensures job.state == old(job).state && job.endedAt == old(job).endedAt
      ensures killReqs == old(killReqs) + [old(inHand).value] && old(inHand).value.reply.None?
    {
      job := job.(killed := Some(JobKilled(at, inHand.value.user)));
      killReqs := killReqs + [inHand.value];
      LoopHead();
    }

    /** The arm that waits for the child. */
    method OnChildWaited(result: WaitResult)
      requires Valid() && pc.Select? && childOk
      modifies this
      ensures Valid() && job == old(job) && killReqs == old(killReqs)
      ensures View() == old(View()).ChildWaited(result)
      ensures !childOk
      ensures result.ExitedWith? ==> pc == RecordExit(result.status) && loopErr == old(loopErr)
      ensures result.WaitFails? ==>
                loopErr == Some(WaitChild(result.err)) && pc == SendFinal(Error(WaitChild(result.err)))
    {
      childOk := false;
      match result {
        case ExitedWith(status) => pc := RecordExit(status);
        case WaitFails(err) => Break(WaitChild(err));
      }
    }

    /** The job's lock is held: note the exit, then answer every retained kill request with the
        resulting snapshot. */
    method OnRecordExit(at: nat)
      requires Valid() && pc.RecordExit?
      modifies this, killReqs
      ensures Valid() && View() == old(View()).ExitRecorded()
      ensures job == old(job).Ended(at, old(pc).status)
      ensures job.endedAt == Some(at) && job.state == Exited(old(pc).status) && job.killed == old(job).killed
      ensures forall r :: r in old(killReqs) ==> old(r.reply).None? && r.reply == Some(Killed(job))
    {
      job := job.(endedAt := Some(at), state := Exited(pc.status));
      var snapshot := job;
      var i := 0;
      while i < |killReqs|
        invariant 0 <= i <= |killReqs| && killReqs == old(killReqs)
        invariant job == snapshot && View() == old(View())
        invariant forall j :: 0 <= j < i ==> killReqs[j].reply == Some(Killed(snapshot))
        modifies killReqs
      {
        killReqs[i].reply := Some(Killed(snapshot));
        i := i + 1;
      }
      killReqs := [];
      LoopHead();
    }

    /** After the loop. A failed send of the terminal event is only logged. */
    method OnFinalSent()
      requires Valid() && pc.SendFinal?
      modifies this
      ensures Valid() && job == old(job) && View() == old(View()).FinalSent()
    {
      pc := StoreResult;
    }

    method OnStoreResult()
      requires Valid() && pc.StoreResult?
      modifies this
      ensures Valid() && job == old(job) && View() == old(View()).Stop()
      ensures res == Some(if loopErr.Some? then FailedWith(loopErr.value) else Succeeded) && killReqs == []
      ensures loopErr == old(loopErr) && pc.Stopped?
    {
      res := Some(if loopErr.Some? then FailedWith(loopErr.value) else Succeeded);
      killReqs := [];
      pc := Stopped;
    }
  }
}
