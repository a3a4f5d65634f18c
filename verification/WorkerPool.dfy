/** Job submission and execution in internal/dispatcher/worker_pool.go: any
    number of submitters and workers, each lock section or channel operation one
    atomic step, with the persistent dedup store in front.
 */
module WorkerPool {
  import DedupStore
  type Jobs = DedupStore.Jobs

  const QUEUE_SIZE := 128

  /** payloadExecutionID is the execution_id inside the payload, "" when absent. */
  datatype JobRequest = JobRequest(
    jobType: string, jobID: string, stepID: string, executionID: string, payloadExecutionID: string)

  // ---- Validation and execution of one request ------------------------------

  /** What SubmitJobWithMeta checks before it looks at any shared state. */
  predicate WellFormed(req: JobRequest) {
    && req.jobID != ""
    && (req.executionID == "" ==> req.jobType == "scan_dataset" || req.jobType == "merge_dataset")
    && req.jobType != ""
  }

  datatype Lease = NoClient | LeaseError | LeaseInvalid | LeaseValid

  /** Which counter executeJobSafe raises for a request. */
  datatype Outcome = Processed | Failed

  function ExecuteJobSafe(req: JobRequest, lease: Lease, handlerSucceeds: bool): Outcome {
    if lease != NoClient && req.jobID != "" && (lease == LeaseError || lease == LeaseInvalid) then Failed
    else
      var executionID := if req.payloadExecutionID != "" then req.payloadExecutionID else req.executionID;
      if executionID == "" && req.jobType != "scan_dataset" then Failed
      else if !handlerSucceeds then Failed
      else Processed
  }

  /** A submission that is accepted can succeed in some execution exactly when it
      is not a merge_dataset job without any execution ID: submission lets that
      one pass, execution always fails it. */
  lemma AcceptedCanSucceedIff(req: JobRequest)
    requires WellFormed(req)
    ensures (exists lease, ok :: ExecuteJobSafe(req, lease, ok) == Processed) <==>
            !(req.jobType == "merge_dataset" && req.executionID == "" && req.payloadExecutionID == "")
  {
    if !(req.jobType == "merge_dataset" && req.executionID == "" && req.payloadExecutionID == "") {
      assert ExecuteJobSafe(req, LeaseValid, true) == Processed;
    }
  }

  /** A job is processed exactly when its lease is confirmed, or there is nobody to ask, some
      execution ID is there or it is a scan, and its handler succeeds; an unconfirmed lease
      counts as a failure, like any other. */
  lemma ProcessedIff(req: JobRequest, lease: Lease, handlerSucceeds: bool)
    ensures ExecuteJobSafe(req, lease, handlerSucceeds) == Processed <==>
            && (lease == LeaseValid || lease == NoClient || req.jobID == "")
            && (req.payloadExecutionID != "" || req.executionID != "" || req.jobType == "scan_dataset")
            && handlerSucceeds
  {
  }

  // ---- The protocol as a state machine ---------------------------------------

  /** Where a request stands. The first row and the drop row belong to its
      submitter, the rest to a worker. */
  datatype Phase =
    | Admitted | JobReserved | StepConflict | Reserved
    | DroppingStep | DroppingJob | Uncounted
    | Queued | Executing | Finished | StepReleased
    | Rejected | Dropped | Done

  /** `noted`: the submitter has entered the job in the dedup store. */
  datatype Tracked = Tracked(req: JobRequest, phase: Phase, noted: bool)

  /** jobOwner.Keys is runningJobs and stepOwner.Keys is activeJobs; the owners,
      the enqueue log and the evictions, each a job that had an unexpired entry and the
      moment it lost it, are history. */
  datatype State = State(
    ttl: nat, now: int,
    jobOwner: map<string, nat>, stepOwner: map<string, nat>,
    queue: seq<nat>, requests: map<nat, Tracked>,
    processed: nat, failed: nat,
    seen: Jobs, log: seq<(string, int)>, evicted: set<(string, int)>)

  datatype Event =
    | Submit(id: nat, req: JobRequest)
    | ReserveJob(id: nat)
    | ReserveStep(id: nat)
    | RollbackJob(id: nat)
    | Enqueue(id: nat)
    | NoteDedup(id: nat)
    | DropStep(id: nat)
    | DropJob(id: nat)
    | CountDrop(id: nat)
    | Dequeue
    | Finish(id: nat, outcome: Outcome)
    | ReleaseStep(id: nat)
    | ReleaseJob(id: nat)
    | Tick(elapsed: nat)
    | CleanupSeen(gone: set<string>)

  predicate HoldsJob(p: Phase) {
    || p.JobReserved? || p.StepConflict? || p.Reserved? || p.DroppingStep? || p.DroppingJob?
    || p.Queued? || p.Executing? || p.Finished? || p.StepReleased?
  }

  predicate HoldsStep(p: Phase) {
    p.Reserved? || p.DroppingStep? || p.Queued? || p.Executing? || p.Finished?
  }

  predicate Enqueued(p: Phase) {
    p.Queued? || p.Executing? || p.Finished? || p.StepReleased? || p.Done?
  }

  predicate Counted(p: Phase) {
    p.Finished? || p.StepReleased? || p.Done? || p.Dropped?
  }

  predicate At(s: State, id: nat, p: Phase) {
    id in s.requests && s.requests[id].phase == p
  }

  /** The request an event acts on, if it acts on one. */
  function Subject(s: State, e: Event): nat {
    match e
    case Dequeue => if s.queue == [] then 0 else s.queue[0]
    case Tick(_) => 0
    case CleanupSeen(_) => 0
    case _ => e.id
  }

  /** Whether the step can be taken. Submit stands for a submission that passes
      validation and the dedup store; one that does not leaves no trace. */
  predicate Enabled(s: State, e: Event) {
    match e
    case Submit(id, req) => id !in s.requests && WellFormed(req) && !DedupStore.Seen(s.seen, req.jobID, s.now)
    case ReserveJob(id) => At(s, id, Admitted)
    case ReserveStep(id) => At(s, id, JobReserved)
    case RollbackJob(id) => At(s, id, StepConflict)
    case Enqueue(id) => At(s, id, Reserved)
    case NoteDedup(id) => id in s.requests && Enqueued(s.requests[id].phase) && !s.requests[id].noted
    case DropStep(id) => At(s, id, DroppingStep)
    case DropJob(id) => At(s, id, DroppingJob)
    case CountDrop(id) => At(s, id, Uncounted)
    case Dequeue => s.queue != [] && s.queue[0] in s.requests
    case Finish(id, _) => At(s, id, Executing)
    case ReleaseStep(id) => At(s, id, Finished)
    case ReleaseJob(id) => At(s, id, StepReleased)
    case Tick(_) => true
    case CleanupSeen(_) => true
  }

  /** The subject's phase after an enabled step. */
  function PhaseAfter(s: State, e: Event): Phase
    requires Enabled(s, e) && !e.Tick? && !e.CleanupSeen?
  {
    match e
    case Submit(_, _) => Admitted
    case ReserveJob(id) => if s.requests[id].req.jobID in s.jobOwner then Rejected else JobReserved
    case ReserveStep(id) =>
      var step := s.requests[id].req.stepID;
      if step != "" && step in s.stepOwner then StepConflict else Reserved
    case RollbackJob(_) => Rejected
    case Enqueue(_) => if |s.queue| < QUEUE_SIZE then Queued else DroppingStep
    case NoteDedup(id) => s.requests[id].phase
    case DropStep(_) => DroppingJob
    case DropJob(_) => Uncounted
    case CountDrop(_) => Dropped
    case Dequeue => Executing
    case Finish(_, _) => Finished
    case ReleaseStep(_) => StepReleased
    case ReleaseJob(_) => Done
  }

  function RequestsAfter(s: State, e: Event): map<nat, Tracked>
    requires Enabled(s, e)
  {
    if e.Tick? || e.CleanupSeen? then s.requests
    else if e.Submit? then s.requests[e.id := Tracked(e.req, Admitted, false)]
    else
      var id := Subject(s, e);
      var r := s.requests[id];
      s.requests[id := Tracked(r.req, PhaseAfter(s, e), r.noted || e.NoteDedup?)]
  }

  /** runningJobs */
  function JobsAfter(s: State, e: Event): map<string, nat>
    requires Enabled(s, e)
  {
    match e
    case ReserveJob(id) =>
      var job := s.requests[id].req.jobID;
      if job in s.jobOwner then s.jobOwner else s.jobOwner[job := id]
    case RollbackJob(id) => s.jobOwner - {s.requests[id].req.jobID}
    case DropJob(id) => s.jobOwner - {s.requests[id].req.jobID}
    case ReleaseJob(id) => s.jobOwner - {s.requests[id].req.jobID}
    case _ => s.jobOwner
  }

  /** activeJobs; a request without a step ID neither takes nor frees one. */
  function StepsAfter(s: State, e: Event): map<string, nat>
    requires Enabled(s, e)
  {
    match e
    case ReserveStep(id) =>
      var step := s.requests[id].req.stepID;
      if step == "" || step in s.stepOwner then s.stepOwner else s.stepOwner[step := id]
    case DropStep(id) => StepFreed(s, id)
    case ReleaseStep(id) => StepFreed(s, id)
    case _ => s.stepOwner
  }

  function StepFreed(s: State, id: nat): map<string, nat>
    requires id in s.requests
  {
    var step := s.requests[id].req.stepID;
    if step != "" then s.stepOwner - {step} else s.stepOwner
  }

  function QueueAfter(s: State, e: Event): seq<nat>
    requires Enabled(s, e)
  {
    if e.Enqueue? && |s.queue| < QUEUE_SIZE then s.queue + [e.id]
    else if e.Dequeue? then s.queue[1..]
    else s.queue
  }

  function LogAfter(s: State, e: Event): seq<(string, int)>
    requires Enabled(s, e)
  {
    if e.Enqueue? && |s.queue| < QUEUE_SIZE then s.log + [(s.requests[e.id].req.jobID, s.now)] else s.log
  }

  function SeenAfter(s: State, e: Event): Jobs
    requires Enabled(s, e)
  {
    if e.NoteDedup? then s.seen[s.requests[e.id].req.jobID := s.now + s.ttl]
    else if e.CleanupSeen? then DedupStore.Swept(s.seen, s.now) - e.gone
    else s.seen
  }

  /** The unexpired entries among those removed for capacity now. */
  function Losses(seen: Jobs, now: int, gone: set<string>): set<(string, int)> {
    set j | j in gone && DedupStore.Seen(seen, j, now) :: (j, now)
  }

  /** One atomic step; an event that is not enabled changes nothing. */
  function Next(s: State, e: Event): State {
    if !Enabled(s, e) then s
    else State(
           s.ttl, if e.Tick? then s.now + e.elapsed else s.now,
           JobsAfter(s, e), StepsAfter(s, e), QueueAfter(s, e), RequestsAfter(s, e),
           s.processed + (if e.Finish? && e.outcome == Processed then 1 else 0),
           s.failed + (if e.CountDrop? || (e.Finish? && e.outcome == Failed) then 1 else 0),
           SeenAfter(s, e), LogAfter(s, e),
           if e.CleanupSeen? then s.evicted + Losses(s.seen, s.now, e.gone) else s.evicted)
  }

  function Run(s: State, events: seq<Event>): State {
    if events == [] then s else Next(Run(s, events[..|events| - 1]), events[|events| - 1])
  }

  function Initial(ttl: nat, now: int, seen: Jobs): State {
    State(ttl, now, map[], map[], [], map[], 0, 0, seen, [], {})
  }

  // ---- What each step does, at a glance -----------------------------------------

  function Moved(s: State, id: nat, p: Phase): State
    requires id in s.requests
  {
    s.(requests := s.requests[id := s.requests[id].(phase := p)])
  }

  lemma ReserveJobIs(s: State, id: nat)
    requires At(s, id, Admitted)
    ensures Next(s, ReserveJob(id)) ==
            var job := s.requests[id].req.jobID;
            if job in s.jobOwner then Moved(s, id, Rejected)
            else Moved(s, id, JobReserved).(jobOwner := s.jobOwner[job := id])
  {
  }

  lemma ReserveStepIs(s: State, id: nat)
    requires At(s, id, JobReserved)
    ensures Next(s, ReserveStep(id)) ==
            var step := s.requests[id].req.stepID;
            if step == "" then Moved(s, id, Reserved)
            else if step in s.stepOwner then Moved(s, id, StepConflict)
            else Moved(s, id, Reserved).(stepOwner := s.stepOwner[step := id])
  {
  }

  lemma FreeJobIs(s: State, id: nat, e: Event)
    requires (e == RollbackJob(id) || e == DropJob(id) || e == ReleaseJob(id)) && Enabled(s, e)
    ensures Next(s, e) == Moved(s, id, PhaseAfter(s, e)).(jobOwner := s.jobOwner - {s.requests[id].req.jobID})
  {
  }

  lemma FreeStepIs(s: State, id: nat, e: Event)
    requires (e == DropStep(id) || e == ReleaseStep(id)) && Enabled(s, e)
    ensures Next(s, e) == Moved(s, id, PhaseAfter(s, e)).(stepOwner := StepFreed(s, id))
  {
  }

  lemma EnqueueIs(s: State, id: nat)
    requires At(s, id, Reserved)
    ensures Next(s, Enqueue(id)) ==
            if |s.queue| < QUEUE_SIZE then
              Moved(s, id, Queued).(queue := s.queue + [id], log := s.log + [(s.requests[id].req.jobID, s.now)])
            else Moved(s, id, DroppingStep)
  {
  }

  lemma DequeueIs(s: State)
    requires s.queue != [] && s.queue[0] in s.requests
    ensures Next(s, Dequeue) == Moved(s, s.queue[0], Executing).(queue := s.queue[1..])
  {
  }

  lemma FinishIs(s: State, id: nat, outcome: Outcome)
    requires At(s, id, Executing)
    ensures Next(s, Finish(id, outcome)) ==
            if outcome == Processed then Moved(s, id, Finished).(processed := s.processed + 1)
            else Moved(s, id, Finished).(failed := s.failed + 1)
  {
  }

  lemma CountDropIs(s: State, id: nat)
    requires At(s, id, Uncounted)
    ensures Next(s, CountDrop(id)) == Moved(s, id, Dropped).(failed := s.failed + 1)
  {
  }

  // ---- Reservations are exact and owned ---------------------------------------

  datatype Kind = Job | Step

  function Key(kind: Kind, r: Tracked): string {
    if kind == Job then r.req.jobID else r.req.stepID
  }

  predicate Holds(kind: Kind, r: Tracked) {
    if kind == Job then HoldsJob(r.phase) else HoldsStep(r.phase) && r.req.stepID != ""
  }

  function Owner(kind: Kind, s: State): map<string, nat> {
    if kind == Job then s.jobOwner else s.stepOwner
  }

  /** Each key in use is owned by one request that holds it, and the other way round. */
  ghost predicate Owned(kind: Kind, requests: map<nat, Tracked>, owner: map<string, nat>) {
    && (forall id | id in requests && Holds(kind, requests[id]) ::
          Key(kind, requests[id]) in owner && owner[Key(kind, requests[id])] == id)
    && (forall k | k in owner ::
          owner[k] in requests && Holds(kind, requests[owner[k]]) && Key(kind, requests[owner[k]]) == k)
  }

  ghost predicate QueueExact(s: State) {
    && |s.queue| <= QUEUE_SIZE
    && (forall i | 0 <= i < |s.queue| :: At(s, s.queue[i], Queued))
    && (forall i, j | 0 <= i < j < |s.queue| :: s.queue[i] != s.queue[j])
    && (forall id | At(s, id, Queued) :: id in s.queue)
  }

  ghost function CountedIDs(s: State): set<nat> {
    set id | id in s.requests && Counted(s.requests[id].phase)
  }

  ghost predicate CountersExact(s: State) {
    s.processed + s.failed == |CountedIDs(s)|
  }

  ghost predicate Sound(s: State) {
    Owned(Job, s.requests, s.jobOwner) && Owned(Step, s.requests, s.stepOwner) && QueueExact(s) && CountersExact(s)
  }

  /** How a step may change one table of keys: not at all, taking a free key, or
      giving up its own. */
  predicate Exchange(kind: Kind, s: State, id: nat, after: Tracked, owner: map<string, nat>) {
    var held := id in s.requests && Holds(kind, s.requests[id]);
    && (id in s.requests ==> s.requests[id].req == after.req)
    && (if held == Holds(kind, after) then owner == Owner(kind, s)
        else if held then owner == Owner(kind, s) - {Key(kind, after)}
        else Key(kind, after) !in Owner(kind, s) && owner == Owner(kind, s)[Key(kind, after) := id])
  }

  predicate Acts(s: State, e: Event) {
    Enabled(s, e) && !e.Tick? && !e.CleanupSeen? && (s.queue != [] ==> At(s, s.queue[0], Queued))
  }

  lemma OnlySubjectMoves(s: State, e: Event)
    requires Acts(s, e)
    ensures var id, after := Subject(s, e), RequestsAfter(s, e);
            && id in after && after == s.requests[id := after[id]]
            && (id in s.requests ==> after[id].req == s.requests[id].req)
            && after[id].phase == PhaseAfter(s, e)
  {
  }

  lemma JobsExchange(s: State, e: Event)
    requires Acts(s, e)
    ensures var id := Subject(s, e);
            id in RequestsAfter(s, e) && Exchange(Job, s, id, RequestsAfter(s, e)[id], JobsAfter(s, e))
  {
    hide StepsAfter, QueueAfter, SeenAfter, LogAfter;
    OnlySubjectMoves(s, e);
  }

  lemma StepsExchange(s: State, e: Event)
    requires Acts(s, e)
    ensures var id := Subject(s, e);
            id in RequestsAfter(s, e) && Exchange(Step, s, id, RequestsAfter(s, e)[id], StepsAfter(s, e))
  {
    hide JobsAfter, QueueAfter, SeenAfter, LogAfter;
    OnlySubjectMoves(s, e);
  }

  lemma ExchangeKeepsOwned(kind: Kind, s: State, id: nat, after: Tracked, owner: map<string, nat>)
    requires Owned(kind, s.requests, Owner(kind, s)) && Exchange(kind, s, id, after, owner)
    ensures Owned(kind, s.requests[id := after], owner)
  {
  }

  lemma StaysOwned(s: State, e: Event)
    requires Owned(Job, s.requests, s.jobOwner) && Owned(Step, s.requests, s.stepOwner) && QueueExact(s)
    ensures Owned(Job, Next(s, e).requests, Next(s, e).jobOwner)
    ensures Owned(Step, Next(s, e).requests, Next(s, e).stepOwner)
  {
    if Acts(s, e) {
      hide Owned, Exchange, JobsAfter, StepsAfter, RequestsAfter, Subject;
      JobsExchange(s, e);
      StepsExchange(s, e);
      OnlySubjectMoves(s, e);
      var id := Subject(s, e);
      ExchangeKeepsOwned(Job, s, id, RequestsAfter(s, e)[id], JobsAfter(s, e));
      ExchangeKeepsOwned(Step, s, id, RequestsAfter(s, e)[id], StepsAfter(s, e));
    } else {
      NoActor(s, e);
    }
  }

  lemma NoActor(s: State, e: Event)
    requires e.Tick? || e.CleanupSeen? || !Enabled(s, e)
    ensures var t := Next(s, e);
            t.requests == s.requests && t.jobOwner == s.jobOwner && t.stepOwner == s.stepOwner && t.queue == s.queue
  {
  }

  /** Which steps enter or leave the queued phase, and which ones are counted. */
  lemma PhaseFacts(s: State, e: Event)
    requires Acts(s, e)
    ensures var id := Subject(s, e);
            && (PhaseAfter(s, e) == Queued <==>
                  (e.Enqueue? && |s.queue| < QUEUE_SIZE) || (e.NoteDedup? && At(s, id, Queued)))
            && (At(s, id, Queued) <==> e.Dequeue? || (e.NoteDedup? && At(s, id, Queued)))
            && (Counted(PhaseAfter(s, e)) <==>
                  e.Finish? || e.CountDrop? || (id in s.requests && Counted(s.requests[id].phase)))
            && (e.Finish? || e.CountDrop? ==> id in s.requests && !Counted(s.requests[id].phase))
  {
  }

  lemma AllInQueueQueued(s: State, e: Event)
    requires QueueExact(s) && Acts(s, e)
    ensures var t := Next(s, e);
            && |t.queue| <= QUEUE_SIZE && (forall i | 0 <= i < |t.queue| :: At(t, t.queue[i], Queued))
            && (forall i, j | 0 <= i < j < |t.queue| :: t.queue[i] != t.queue[j])
  {
    var t, id := Next(s, e), Subject(s, e);
    PhaseFacts(s, e);
    OnlySubjectMoves(s, e);
    hide JobsAfter, StepsAfter, RequestsAfter, LogAfter, SeenAfter, PhaseAfter, Counted;
    forall i | 0 <= i < |t.queue|
      ensures At(t, t.queue[i], Queued)
    {
      if e.Dequeue? { assert t.queue[i] == s.queue[i + 1] != s.queue[0]; }
    }
  }

  lemma AllQueuedInQueue(s: State, e: Event, k: nat)
    requires QueueExact(s) && Acts(s, e) && At(Next(s, e), k, Queued)
    ensures k in Next(s, e).queue
  {
    var id := Subject(s, e);
    PhaseFacts(s, e);
    OnlySubjectMoves(s, e);
    hide JobsAfter, StepsAfter, RequestsAfter, LogAfter, SeenAfter, PhaseAfter, Counted;
    assert e.Dequeue? ==> s.queue == [s.queue[0]] + s.queue[1..];
    if k != id { assert At(s, k, Queued); }
  }

  lemma QueueAfterExact(s: State, e: Event)
    requires QueueExact(s) && Acts(s, e)
    ensures QueueExact(Next(s, e))
  {
    hide Next, At;
    AllInQueueQueued(s, e);
    forall k | At(Next(s, e), k, Queued)
      ensures k in Next(s, e).queue
    {
      AllQueuedInQueue(s, e, k);
    }
  }

  lemma QueueStaysExact(s: State, e: Event)
    requires QueueExact(s)
    ensures QueueExact(Next(s, e))
  {
    if Acts(s, e) { QueueAfterExact(s, e); } else { NoActor(s, e); }
  }

  lemma CountAfterExact(s: State, e: Event)
    requires CountersExact(s) && Acts(s, e)
    ensures CountersExact(Next(s, e))
  {
    var t, id := Next(s, e), Subject(s, e);
    PhaseFacts(s, e);
    OnlySubjectMoves(s, e);
    hide JobsAfter, StepsAfter, RequestsAfter, LogAfter, SeenAfter, QueueAfter, PhaseAfter, Counted, Enabled;
    if e.Finish? || e.CountDrop? {
      assert CountedIDs(t) == CountedIDs(s) + {id};
    } else {
      assert CountedIDs(t) == CountedIDs(s);
    }
  }

  lemma CountersStayExact(s: State, e: Event)
    requires CountersExact(s) && QueueExact(s)
    ensures CountersExact(Next(s, e))
  {
    if Acts(s, e) {
      CountAfterExact(s, e);
    } else {
      NoActor(s, e);
      assert CountedIDs(Next(s, e)) == CountedIDs(s);
    }
  }

  lemma {:induction false} RunSound(s: State, events: seq<Event>)
    requires Sound(s)
    ensures Sound(Run(s, events))
  {
    hide Owned, QueueExact, CountersExact, Next;
    if events != [] {
      var before, e := Run(s, events[..|events| - 1]), events[|events| - 1];
      RunSound(s, events[..|events| - 1]);
      StaysOwned(before, e);
      QueueStaysExact(before, e);
      CountersStayExact(before, e);
    }
  }

  /** The two sets hold exactly the IDs of the requests between reservation and
      release, no two of which share one, and nothing when nobody is in flight. */
  ghost predicate ReservationsExact(s: State) {
    && s.jobOwner.Keys == (set id | id in s.requests && HoldsJob(s.requests[id].phase) :: s.requests[id].req.jobID)
    && s.stepOwner.Keys ==
       (set id | id in s.requests && HoldsStep(s.requests[id].phase) && s.requests[id].req.stepID != ""
          :: s.requests[id].req.stepID)
    && (forall a, b | a in s.requests && b in s.requests && a != b ::
          && (HoldsJob(s.requests[a].phase) && HoldsJob(s.requests[b].phase) ==>
                s.requests[a].req.jobID != s.requests[b].req.jobID)
          && (HoldsStep(s.requests[a].phase) && HoldsStep(s.requests[b].phase) && s.requests[a].req.stepID != "" ==>
                s.requests[a].req.stepID != s.requests[b].req.stepID))
    && ((forall id | id in s.requests :: !HoldsJob(s.requests[id].phase)) ==>
          s.jobOwner == map[] && s.stepOwner == map[])
  }

  /** Over every interleaving of submitters and workers; and the counters add up
      to the requests finished plus those dropped on a full queue. */
  lemma EveryInterleaving(ttl: nat, now: int, seen: Jobs, events: seq<Event>)
    ensures var s := Run(Initial(ttl, now, seen), events);
            ReservationsExact(s) && s.processed + s.failed == |CountedIDs(s)|
  {
    assert CountedIDs(Initial(ttl, now, seen)) == {};
    RunSound(Initial(ttl, now, seen), events);
    OwnedIsExact(Run(Initial(ttl, now, seen), events));
  }

  lemma OwnedIsExact(s: State)
    requires Owned(Job, s.requests, s.jobOwner) && Owned(Step, s.requests, s.stepOwner)
    ensures ReservationsExact(s)
  {
    JobsExact(s);
    StepsExact(s);
    hide Owned;
  }

  lemma JobsExact(s: State)
    requires Owned(Job, s.requests, s.jobOwner)
    ensures s.jobOwner.Keys == (set id | id in s.requests && HoldsJob(s.requests[id].phase) :: s.requests[id].req.jobID)
    ensures forall a, b | a in s.requests && b in s.requests && a != b ::
      HoldsJob(s.requests[a].phase) && HoldsJob(s.requests[b].phase) ==>
        s.requests[a].req.jobID != s.requests[b].req.jobID
    ensures (forall id | id in s.requests :: !HoldsJob(s.requests[id].phase)) ==> s.jobOwner == map[]
  {
    forall id | id in s.requests ensures Holds(Job, s.requests[id]) <==> HoldsJob(s.requests[id].phase) {
    }
    assert forall j | j in s.jobOwner :: Holds(Job, s.requests[s.jobOwner[j]]);
    hide HoldsJob, Holds;
  }

  lemma StepsExact(s: State)
    requires Owned(Step, s.requests, s.stepOwner)
    ensures s.stepOwner.Keys ==
            (set id | id in s.requests && HoldsStep(s.requests[id].phase) && s.requests[id].req.stepID != ""
               :: s.requests[id].req.stepID)
    ensures forall a, b | a in s.requests && b in s.requests && a != b ::
      HoldsStep(s.requests[a].phase) && HoldsStep(s.requests[b].phase) && s.requests[a].req.stepID != "" ==>
        s.requests[a].req.stepID != s.requests[b].req.stepID
    ensures (forall id | id in s.requests :: !HoldsStep(s.requests[id].phase)) ==> s.stepOwner == map[]
  {
    forall id | id in s.requests
      ensures Holds(Step, s.requests[id]) <==> HoldsStep(s.requests[id].phase) && s.requests[id].req.stepID != ""
    {
    }
    assert forall p | p in s.stepOwner :: Holds(Step, s.requests[s.stepOwner[p]]);
    hide HoldsStep, Holds;
  }

  /** No rollback, drop or cleanup removes what another request holds. */
  lemma NoForeignRelease(s: State, e: Event, other: nat)
    requires Sound(s) && other in s.requests && (Enabled(s, e) ==> other != Subject(s, e) || e.Tick? || e.CleanupSeen?)
    ensures var t := Next(s, e);
            && other in t.requests && t.requests[other] == s.requests[other]
            && (HoldsJob(s.requests[other].phase) ==>
                  s.requests[other].req.jobID in t.jobOwner && t.jobOwner[s.requests[other].req.jobID] == other)
            && (HoldsStep(s.requests[other].phase) && s.requests[other].req.stepID != "" ==>
                  s.requests[other].req.stepID in t.stepOwner && t.stepOwner[s.requests[other].req.stepID] == other)
  {
    StaysOwned(s, e);
    var t := Next(s, e);
    if Acts(s, e) { OnlySubjectMoves(s, e); } else { NoActor(s, e); }
    assert t.requests[other] == s.requests[other];
    assert Holds(Job, t.requests[other]) <==> HoldsJob(s.requests[other].phase);
    assert Holds(Step, t.requests[other]) <==> HoldsStep(s.requests[other].phase) && s.requests[other].req.stepID != "";
  }

  // ---- Submissions of a job one at a time and the dedup store -------------------

  predicate BeforeEnqueue(p: Phase) {
    p.Admitted? || p.JobReserved? || p.Reserved?
  }

  /** SubmitJobWithMeta has not returned yet. */
  predicate Submitting(r: Tracked) {
    || BeforeEnqueue(r.phase) || r.phase.StepConflict?
    || r.phase.DroppingStep? || r.phase.DroppingJob? || r.phase.Uncounted?
    || (Enqueued(r.phase) && !r.noted)
  }

  /** Of the submissions under way no two are for the same job. */
  ghost predicate OneSubmitter(s: State) {
    forall a, b | a in s.requests && b in s.requests && Submitting(s.requests[a]) && Submitting(s.requests[b])
                  && s.requests[a].req.jobID == s.requests[b].req.jobID :: a == b
  }

  ghost predicate InTurn(s: State, e: Event) {
    e.Submit? ==> forall a | a in s.requests && Submitting(s.requests[a]) :: s.requests[a].req.jobID != e.req.jobID
  }

  /** Every submission of a job starts after the one before it of that job has
      returned; submissions of different jobs may overlap. */
  ghost predicate OneAtATime(s: State, events: seq<Event>) {
    events == [] ||
    (OneAtATime(s, events[..|events| - 1]) && InTurn(Run(s, events[..|events| - 1]), events[|events| - 1]))
  }

  /** The job lost an unexpired entry for capacity within this span. */
  predicate EvictedBetween(s: State, jobID: string, from: int, to: int) {
    exists loss | loss in s.evicted :: loss.0 == jobID && from <= loss.1 <= to
  }

  /** This enqueue can no longer be repeated within the TTL, unless evicted since. */
  predicate Settled(s: State, entry: (string, int)) {
    || EvictedBetween(s, entry.0, entry.1, s.now)
    || s.now > entry.1 + s.ttl
    || (entry.0 in s.seen && s.seen[entry.0] >= entry.1 + s.ttl)
  }

  /** The submitter of this job has enqueued it and has yet to note it. */
  predicate AwaitsNote(s: State, id: nat, jobID: string) {
    id in s.requests && s.requests[id].req.jobID == jobID && Enqueued(s.requests[id].phase) && !s.requests[id].noted
  }

  ghost predicate LogSettled(s: State) {
    forall k | 0 <= k < |s.log| ::
      s.log[k].1 <= s.now && (Settled(s, s.log[k]) || exists id :: AwaitsNote(s, id, s.log[k].0))
  }

  predicate Elapsed(s: State, entry: (string, int)) {
    EvictedBetween(s, entry.0, entry.1, s.now) || s.now > entry.1 + s.ttl
  }

  ghost predicate Fresh(s: State, id: nat)
    requires id in s.requests
  {
    && !s.requests[id].noted
    && !DedupStore.Seen(s.seen, s.requests[id].req.jobID, s.now)
    && forall k | 0 <= k < |s.log| && s.log[k].0 == s.requests[id].req.jobID :: Elapsed(s, s.log[k])
  }

  ghost predicate FreshSubmission(s: State) {
    forall id | id in s.requests && BeforeEnqueue(s.requests[id].phase) :: Fresh(s, id)
  }

  ghost predicate Spaced(s: State) {
    forall k, l | 0 <= k < l < |s.log| && s.log[k].0 == s.log[l].0 ::
      EvictedBetween(s, s.log[k].0, s.log[k].1, s.log[l].1) || s.log[l].1 > s.log[k].1 + s.ttl
  }

  ghost predicate DedupSound(s: State) {
    QueueExact(s) && OneSubmitter(s) && LogSettled(s) && FreshSubmission(s) && Spaced(s)
  }

  lemma OneSubmitterStays(s: State, e: Event)
    requires QueueExact(s) && OneSubmitter(s) && InTurn(s, e)
    ensures OneSubmitter(Next(s, e))
  {
    if Acts(s, e) {
      OnlySubjectMoves(s, e);
      SubmittingOnlyEnds(s, e);
    } else {
      NoActor(s, e);
    }
  }

  lemma SubmittingOnlyEnds(s: State, e: Event)
    requires Acts(s, e)
    ensures var id := Subject(s, e);
            && id in RequestsAfter(s, e)
            && (Submitting(RequestsAfter(s, e)[id]) ==> e.Submit? || (id in s.requests && Submitting(s.requests[id])))
            && (BeforeEnqueue(RequestsAfter(s, e)[id].phase) ==>
                  e.Submit? || (id in s.requests && BeforeEnqueue(s.requests[id].phase)))
            && (id in s.requests && Enqueued(s.requests[id].phase) ==> Enqueued(RequestsAfter(s, e)[id].phase))
            && (!e.NoteDedup? && id in s.requests ==> RequestsAfter(s, e)[id].noted == s.requests[id].noted)
  {
  }

  lemma SettledStays(s: State, e: Event, entry: (string, int))
    requires Settled(s, entry) && entry.1 <= s.now
    ensures Settled(Next(s, e), entry)
  {
    hide JobsAfter, StepsAfter, RequestsAfter, QueueAfter, LogAfter;
  }

  lemma AwaitsNoteStays(s: State, e: Event, id: nat, jobID: string)
    requires AwaitsNote(s, id, jobID) && QueueExact(s)
    ensures e == NoteDedup(id) || AwaitsNote(Next(s, e), id, jobID)
  {
    if Acts(s, e) {
      OnlySubjectMoves(s, e);
      SubmittingOnlyEnds(s, e);
    } else {
      NoActor(s, e);
    }
  }

  lemma LogEntryStays(s: State, e: Event, k: nat)
    requires QueueExact(s) && OneSubmitter(s) && LogSettled(s) && k < |s.log|
    ensures var t := Next(s, e);
            s.log[k].1 <= t.now && (Settled(t, s.log[k]) || exists id :: AwaitsNote(t, id, s.log[k].0))
  {
    if Settled(s, s.log[k]) {
      SettledStays(s, e, s.log[k]);
    } else {
      var id :| AwaitsNote(s, id, s.log[k].0);
      AwaitsNoteStays(s, e, id, s.log[k].0);
    }
  }

  lemma LogStaysSettled(s: State, e: Event)
    requires QueueExact(s) && OneSubmitter(s) && LogSettled(s) && FreshSubmission(s)
    ensures LogSettled(Next(s, e))
  {
    var t := Next(s, e);
    forall k | 0 <= k < |t.log|
      ensures t.log[k].1 <= t.now && (Settled(t, t.log[k]) || exists id :: AwaitsNote(t, id, t.log[k].0))
    {
      if k < |s.log| {
        LogEntryStays(s, e, k);
      } else {
        FreshEntryAwaitsNote(s, e);
      }
    }
  }

  lemma FreshEntryAwaitsNote(s: State, e: Event)
    requires |Next(s, e).log| > |s.log|
    ensures e.Enqueue? && At(s, e.id, Reserved) && Next(s, e).log == s.log + [(s.requests[e.id].req.jobID, s.now)]
    ensures !s.requests[e.id].noted ==> AwaitsNote(Next(s, e), e.id, s.requests[e.id].req.jobID)
    ensures Next(s, e).now == s.now
  {
    hide JobsAfter, StepsAfter, SeenAfter;
  }

  /** A request that begins now finds every earlier enqueue of its job elapsed. */
  lemma BeginsFresh(s: State, e: Event)
    requires LogSettled(s) && InTurn(s, e) && e.Submit? && Enabled(s, e)
    ensures forall k | 0 <= k < |s.log| && s.log[k].0 == e.req.jobID :: Elapsed(s, s.log[k])
  {
  }

  /** A step that enqueues or notes the job of a submission under way is its own. */
  lemma SubmitterActs(s: State, e: Event, id: nat)
    requires OneSubmitter(s) && id in s.requests && Submitting(s.requests[id])
    requires Enabled(s, e) && (e.Enqueue? || e.NoteDedup?) && s.requests[e.id].req.jobID == s.requests[id].req.jobID
    ensures e.id == id
  {
    assert Submitting(s.requests[e.id]);
  }

  /** The step enqueues or notes this job. */
  predicate Touches(s: State, e: Event, jobID: string) {
    Enabled(s, e) && (e.Enqueue? || e.NoteDedup?) && s.requests[e.id].req.jobID == jobID
  }

  lemma NeitherEnqueuesNorNotes(s: State, e: Event, id: nat)
    requires OneSubmitter(s) && id in s.requests && BeforeEnqueue(s.requests[id].phase)
    requires id in Next(s, e).requests && BeforeEnqueue(Next(s, e).requests[id].phase)
    ensures !Touches(s, e, s.requests[id].req.jobID)
  {
    if Touches(s, e, s.requests[id].req.jobID) {
      SubmitterActs(s, e, id);
      hide OneSubmitter, JobsAfter, StepsAfter, LogAfter, SeenAfter, QueueAfter;
    }
  }

  lemma WaitsUnchanged(s: State, e: Event, id: nat)
    requires QueueExact(s) && id in s.requests && !Touches(s, e, s.requests[id].req.jobID)
    ensures
      var t := Next(s, e);
      id in t.requests && t.requests[id].noted == s.requests[id].noted && t.requests[id].req == s.requests[id].req
  {
    hide JobsAfter, StepsAfter, LogAfter, SeenAfter, QueueAfter;
  }

  lemma SeenStays(s: State, e: Event, jobID: string)
    requires !DedupStore.Seen(s.seen, jobID, s.now) && !Touches(s, e, jobID)
    ensures !DedupStore.Seen(Next(s, e).seen, jobID, Next(s, e).now)
  {
    hide JobsAfter, StepsAfter, RequestsAfter, QueueAfter, LogAfter;
  }

  lemma LogStays(s: State, e: Event, jobID: string)
    requires !Touches(s, e, jobID)
    ensures
      var t := Next(s, e);
      && |s.log| <= |t.log| && t.log[..|s.log|] == s.log
      && forall k | |s.log| <= k < |t.log| :: t.log[k].0 != jobID
  {
    hide JobsAfter, StepsAfter, RequestsAfter, QueueAfter, SeenAfter;
  }

  /** While a submission is under way, nobody else touches its job's entries. */
  lemma StaysFresh(s: State, e: Event, id: nat)
    requires DedupSound(s) && InTurn(s, e) && id in s.requests && BeforeEnqueue(s.requests[id].phase)
    requires id in Next(s, e).requests && BeforeEnqueue(Next(s, e).requests[id].phase)
    ensures var t := Next(s, e);
            && |s.log| <= |t.log| && t.log[..|s.log|] == s.log
            && (forall k | |s.log| <= k < |t.log| :: t.log[k].0 != s.requests[id].req.jobID)
            && !DedupStore.Seen(t.seen, s.requests[id].req.jobID, t.now)
            && !t.requests[id].noted && t.requests[id].req == s.requests[id].req
  {
    hide LogSettled, Spaced, Submitting, OneSubmitter, Next, SeenAfter, LogAfter, Touches;
    NeitherEnqueuesNorNotes(s, e, id);
    WaitsUnchanged(s, e, id);
    LogStays(s, e, s.requests[id].req.jobID);
    SeenStays(s, e, s.requests[id].req.jobID);
  }

  lemma ElapsedStays(s: State, e: Event, entry: (string, int))
    requires Elapsed(s, entry)
    ensures Elapsed(Next(s, e), entry)
  {
    hide JobsAfter, StepsAfter, RequestsAfter, QueueAfter, LogAfter, SeenAfter;
  }

  lemma OldSubmissionFresh(s: State, e: Event, id: nat)
    requires DedupSound(s) && InTurn(s, e) && id in s.requests && BeforeEnqueue(s.requests[id].phase)
    requires id in Next(s, e).requests && BeforeEnqueue(Next(s, e).requests[id].phase)
    ensures Fresh(Next(s, e), id)
  {
    assert Fresh(s, id);
    StaysFresh(s, e, id);
    hide Next, Elapsed, DedupSound, InTurn;
    var t := Next(s, e);
    forall k | 0 <= k < |t.log| && t.log[k].0 == t.requests[id].req.jobID
      ensures Elapsed(t, t.log[k])
    {
      assert k < |s.log| && t.log[k] == s.log[k];
      ElapsedStays(s, e, s.log[k]);
    }
  }

  lemma NewSubmissionFresh(s: State, e: Event)
    requires LogSettled(s) && InTurn(s, e) && e.Submit? && Enabled(s, e)
    ensures e.id in Next(s, e).requests && Fresh(Next(s, e), e.id)
  {
    BeginsFresh(s, e);
  }

  lemma BeforeEnqueueBefore(s: State, e: Event, id: nat)
    requires QueueExact(s) && id in Next(s, e).requests && BeforeEnqueue(Next(s, e).requests[id].phase)
    requires !(e.Submit? && e.id == id && Enabled(s, e))
    ensures id in s.requests && BeforeEnqueue(s.requests[id].phase)
  {
    if Acts(s, e) { OnlySubjectMoves(s, e); SubmittingOnlyEnds(s, e); } else { NoActor(s, e); }
  }

  lemma SubmissionsStayFresh(s: State, e: Event)
    requires DedupSound(s) && InTurn(s, e)
    ensures FreshSubmission(Next(s, e))
  {
    hide Next, Fresh, BeforeEnqueue, LogSettled, OneSubmitter, Spaced, QueueExact, InTurn, Enabled;
    forall id | id in Next(s, e).requests && BeforeEnqueue(Next(s, e).requests[id].phase)
      ensures Fresh(Next(s, e), id)
    {
      if e.Submit? && e.id == id && Enabled(s, e) {
        NewSubmissionFresh(s, e);
      } else {
        BeforeEnqueueBefore(s, e, id);
        OldSubmissionFresh(s, e, id);
      }
    }
  }

  lemma LogStaysSpaced(s: State, e: Event)
    requires Spaced(s) && FreshSubmission(s)
    ensures Spaced(Next(s, e))
  {
    var t := Next(s, e);
    assert s.evicted <= t.evicted;
    if |t.log| > |s.log| { FreshEntryAwaitsNote(s, e); }
  }

  lemma {:induction false} SerialRunSound(ttl: nat, now: int, seen: Jobs, events: seq<Event>)
    requires OneAtATime(Initial(ttl, now, seen), events)
    ensures DedupSound(Run(Initial(ttl, now, seen), events))
  {
    hide Next, QueueExact, LogSettled, FreshSubmission, Spaced, OneSubmitter;
    var s0 := Initial(ttl, now, seen);
    if events == [] {
      InitialDedupSound(ttl, now, seen);
    } else {
      var before, e := Run(s0, events[..|events| - 1]), events[|events| - 1];
      SerialRunSound(ttl, now, seen, events[..|events| - 1]);
      QueueStaysExact(before, e);
      OneSubmitterStays(before, e);
      LogStaysSettled(before, e);
      SubmissionsStayFresh(before, e);
      LogStaysSpaced(before, e);
    }
  }

  lemma InitialDedupSound(ttl: nat, now: int, seen: Jobs)
    ensures DedupSound(Initial(ttl, now, seen))
  {
  }

  /** With no two submissions of one job under way at once, a job ID is enqueued twice
      only more than the TTL apart, unless between the two its unexpired dedup entry was
      evicted for capacity. */
  lemma EnqueuedOncePerTTL(ttl: nat, now: int, seen: Jobs, events: seq<Event>, k: nat, l: nat)
    requires OneAtATime(Initial(ttl, now, seen), events)
    requires var log := Run(Initial(ttl, now, seen), events).log; k < l < |log| && log[k].0 == log[l].0
    ensures var s := Run(Initial(ttl, now, seen), events);
            EvictedBetween(s, s.log[k].0, s.log[k].1, s.log[l].1) || s.log[l].1 > s.log[k].1 + ttl
  {
    SerialRunSound(ttl, now, seen, events);
    TTLIsFixed(Initial(ttl, now, seen), events);
  }

  /** Every cleanup evicts as the store does, and finds at most its capacity unexpired. */
  ghost predicate NoPressure(s: State, events: seq<Event>) {
    events == [] ||
    (var t, e := Run(s, events[..|events| - 1]), events[|events| - 1];
     && NoPressure(s, events[..|events| - 1])
     && (e.CleanupSeen? ==>
           var swept := DedupStore.Swept(t.seen, t.now);
           DedupStore.LegalEviction(swept, e.gone) && |swept| <= DedupStore.MAX_JOBS))
  }

  lemma {:induction false} NothingEvicted(s: State, events: seq<Event>)
    requires NoPressure(s, events)
    ensures Run(s, events).evicted == s.evicted
  {
    if events != [] {
      NothingEvicted(s, events[..|events| - 1]);
      if events[|events| - 1].CleanupSeen? { assert |events[|events| - 1].gone| == 0; }
    }
  }

  /** So without pressure on the store's capacity there is no exemption. */
  lemma EnqueuedOncePerTTLBelowCapacity(ttl: nat, now: int, seen: Jobs, events: seq<Event>, k: nat, l: nat)
    requires OneAtATime(Initial(ttl, now, seen), events) && NoPressure(Initial(ttl, now, seen), events)
    requires var log := Run(Initial(ttl, now, seen), events).log; k < l < |log| && log[k].0 == log[l].0
    ensures var log := Run(Initial(ttl, now, seen), events).log; log[l].1 > log[k].1 + ttl
  {
    hide Run, OneAtATime, NoPressure;
    EnqueuedOncePerTTL(ttl, now, seen, events, k, l);
    NothingEvicted(Initial(ttl, now, seen), events);
  }

  lemma {:induction false} TTLIsFixed(s: State, events: seq<Event>)
    ensures Run(s, events).ttl == s.ttl
  {
    if events != [] { TTLIsFixed(s, events[..|events| - 1]); }
  }

  lemma RunAppend(s: State, events: seq<Event>, e: Event)
    ensures Run(s, events + [e]) == Next(Run(s, events), e)
  {
    assert (events + [e])[..|events|] == events;
  }

  /** Two submitters at once: both pass the dedup store before either has noted
      the job, and the first is done before the second reserves. */
  function OverlappingSubmissions(req: JobRequest): seq<Event> {
    [Submit(0, req), Submit(1, req), ReserveJob(0), ReserveStep(0), Enqueue(0), Dequeue, Finish(0, Processed),
     ReleaseStep(0), ReleaseJob(0), ReserveJob(1), ReserveStep(1), Enqueue(1)]
  }

  lemma {:induction false} RunCons(s: State, e: Event, rest: seq<Event>)
    ensures Run(s, [e] + rest) == Run(Next(s, e), rest)
    decreases |rest|
  {
    if rest == [] {
      assert ([e] + rest)[..0] == [] && Run(s, []) == s;
      assert [e] + rest == [e];
    } else {
      var init, last := rest[..|rest| - 1], rest[|rest| - 1];
      RunCons(s, e, init);
      assert ([e] + rest)[..|rest|] == [e] + init;
    }
  }

  /** Reserve, enqueue and execute one request while nobody else moves. */
  lemma Alone(s: State, id: nat)
    requires At(s, id, Admitted) && s.queue == []
    requires s.requests[id].req.jobID !in s.jobOwner && s.requests[id].req.stepID !in s.stepOwner
    ensures var r := s.requests[id];
            var t := Next(Next(Next(s, ReserveJob(id)), ReserveStep(id)), Enqueue(id));
            t == s.(jobOwner := s.jobOwner[r.req.jobID := id],
                    stepOwner := if r.req.stepID == "" then s.stepOwner else s.stepOwner[r.req.stepID := id],
                    queue := [id], log := s.log + [(r.req.jobID, s.now)],
                    requests := s.requests[id := r.(phase := Queued)])
  {
    hide Next;
    var r := s.requests[id];
    ReserveJobIs(s, id);
    var t1 := Next(s, ReserveJob(id));
    ReserveStepIs(t1, id);
    var t2 := Next(t1, ReserveStep(id));
    EnqueueIs(t2, id);
    Overwritten(s.requests, id, r.(phase := JobReserved), r.(phase := Reserved), r.(phase := Queued));
  }

  lemma Overwritten(requests: map<nat, Tracked>, id: nat, a: Tracked, b: Tracked, c: Tracked)
    ensures requests[id := a][id := b] == requests[id := b]
    ensures requests[id := b][id := c] == requests[id := c]
  {
  }

  lemma AloneExecuted(s: State, id: nat)
    requires At(s, id, Queued) && s.queue == [id]
    ensures var r := s.requests[id];
            var t := Next(Next(Next(Next(s, Dequeue), Finish(id, Processed)), ReleaseStep(id)), ReleaseJob(id));
            t == s.(jobOwner := s.jobOwner - {r.req.jobID}, stepOwner := StepFreed(s, id), queue := [],
                    processed := s.processed + 1, requests := s.requests[id := r.(phase := Done)])
  {
    hide Next;
    var r := s.requests[id];
    DequeueIs(s);
    var t1 := Next(s, Dequeue);
    FinishIs(t1, id, Processed);
    var t2 := Next(t1, Finish(id, Processed));
    Overwritten(s.requests, id, r.(phase := Executing), r.(phase := Finished), r.(phase := StepReleased));
    FreeStepIs(t2, id, ReleaseStep(id));
    var t3 := Next(t2, ReleaseStep(id));
    FreeJobIs(t3, id, ReleaseJob(id));
    Overwritten(s.requests, id, r.(phase := Finished), r.(phase := StepReleased), r.(phase := Done));
  }

  /** Without the one-at-a-time discipline the guarantee fails. */
  lemma OverlapEnqueuesTwice(ttl: nat, now: int, req: JobRequest)
    requires WellFormed(req)
    ensures var s := Run(Initial(ttl, now, map[]), OverlappingSubmissions(req));
            s.log == [(req.jobID, now), (req.jobID, now)] && s.evicted == {}
  {
    hide Run, Next;
    var s0 := Initial(ttl, now, map[]);
    var ev := OverlappingSubmissions(req);
    var s2 := Next(Next(s0, ev[0]), ev[1]);
    BothAdmitted(s0, req);
    var s5 := Next(Next(Next(s2, ev[2]), ev[3]), ev[4]);
    Alone(s2, 0);
    var s9 := Next(Next(Next(Next(s5, ev[5]), ev[6]), ev[7]), ev[8]);
    AloneExecuted(s5, 0);
    assert s9.jobOwner == map[] && s9.stepOwner == map[];
    Alone(s9, 1);
    RunsThrough(s0, ev);
  }

  lemma BothAdmitted(s: State, req: JobRequest)
    requires WellFormed(req) && s.requests == map[] && s.seen == map[]
    ensures Next(Next(s, Submit(0, req)), Submit(1, req)) ==
            s.(requests := map[0 := Tracked(req, Admitted, false), 1 := Tracked(req, Admitted, false)])
  {
    var t := Next(s, Submit(0, req));
    assert t == s.(requests := map[0 := Tracked(req, Admitted, false)]);
  }

  lemma RunsThrough(s: State, ev: seq<Event>)
    requires |ev| == 12
    ensures Run(s, ev) ==
            Next(Next(Next(Next(Next(Next(Next(Next(Next(Next(Next(Next(s,
              ev[0]), ev[1]), ev[2]), ev[3]), ev[4]), ev[5]), ev[6]), ev[7]), ev[8]), ev[9]), ev[10]), ev[11])
  {
    hide Next;
    assert forall k, l | 0 <= k <= l <= 12 :: ev[..l][..k] == ev[..k];
    assert ev[..12] == ev && Run(s, ev[..0]) == s;
    assert forall k | 0 <= k < 12 :: Run(s, ev[..k + 1]) == Next(Run(s, ev[..k]), ev[k]);
  }

  function AfterDrop(s: State, id: nat): State {
    Next(Next(Next(Next(s, Enqueue(id)), DropStep(id)), DropJob(id)), CountDrop(id))
  }

  lemma DropUndoesReservations(s: State, id: nat)
    requires At(s, id, Reserved) && |s.queue| >= QUEUE_SIZE
    ensures AfterDrop(s, id) ==
            s.(requests := s.requests[id := s.requests[id].(phase := Dropped)], failed := s.failed + 1,
               jobOwner := s.jobOwner - {s.requests[id].req.jobID}, stepOwner := StepFreed(s, id))
  {
    hide Next;
    var r := s.requests[id];
    EnqueueIs(s, id);
    var t1 := Next(s, Enqueue(id));
    FreeStepIs(t1, id, DropStep(id));
    var t2 := Next(t1, DropStep(id));
    Overwritten(s.requests, id, r.(phase := DroppingStep), r.(phase := DroppingJob), r.(phase := Uncounted));
    FreeJobIs(t2, id, DropJob(id));
    var t3 := Next(t2, DropJob(id));
    CountDropIs(t3, id);
    Overwritten(s.requests, id, r.(phase := DroppingJob), r.(phase := Uncounted), r.(phase := Dropped));
  }

  lemma FreeKeysAreReserved(s: State, again: nat, req: JobRequest)
    requires again !in s.requests && WellFormed(req) && !DedupStore.Seen(s.seen, req.jobID, s.now)
    requires req.jobID !in s.jobOwner && req.stepID !in s.stepOwner
    ensures At(Next(Next(Next(s, Submit(again, req)), ReserveJob(again)), ReserveStep(again)), again, Reserved)
  {
    var t1 := Next(s, Submit(again, req));
    assert t1 == s.(requests := s.requests[again := Tracked(req, Admitted, false)]);
    hide Next;
    ReserveJobIs(t1, again);
    ReserveStepIs(Next(t1, ReserveJob(again)), again);
  }

  lemma {:induction false} RequestsWellFormed(ttl: nat, now: int, seen: Jobs, events: seq<Event>, id: nat)
    ensures var s := Run(Initial(ttl, now, seen), events); id in s.requests ==> WellFormed(s.requests[id].req)
  {
    if events != [] {
      var s, e := Run(Initial(ttl, now, seen), events[..|events| - 1]), events[|events| - 1];
      RequestsWellFormed(ttl, now, seen, events[..|events| - 1], id);
      hide Run, WellFormed, JobsAfter, StepsAfter, QueueAfter, SeenAfter, LogAfter;
    }
  }

  /** A job dropped on a full queue leaves no reservation and no dedup entry, so in every
      run with no two submissions of one job under way at once the same request is
      admitted and reserved again at once. */
  lemma DroppedCanBeResubmitted(ttl: nat, now: int, seen: Jobs, events: seq<Event>, id: nat, again: nat)
    requires OneAtATime(Initial(ttl, now, seen), events)
    requires var s := Run(Initial(ttl, now, seen), events);
             At(s, id, Reserved) && |s.queue| == QUEUE_SIZE && again !in s.requests
    ensures var s := Run(Initial(ttl, now, seen), events);
            var req, dropped := s.requests[id].req, AfterDrop(s, id);
            && At(dropped, id, Dropped) && dropped.seen == s.seen && dropped.log == s.log && dropped.queue == s.queue
            && At(Next(Next(Next(dropped, Submit(again, req)), ReserveJob(again)), ReserveStep(again)), again, Reserved)
  {
    var s := Run(Initial(ttl, now, seen), events);
    SerialRunSound(ttl, now, seen, events);
    RequestsWellFormed(ttl, now, seen, events, id);
    InitialSound(ttl, now, seen);
    RunSound(Initial(ttl, now, seen), events);
    hide Run, Next, QueueExact, LogSettled, Spaced, OneAtATime, CountersExact, OneSubmitter, WellFormed;
    var r := s.requests[id];
    assert r.req.stepID == "" ==> r.req.stepID !in s.stepOwner;
    DropUndoesReservations(s, id);
    FreeKeysAreReserved(AfterDrop(s, id), again, r.req);
  }

  lemma InitialSound(ttl: nat, now: int, seen: Jobs)
    ensures Sound(Initial(ttl, now, seen))
  {
    assert CountedIDs(Initial(ttl, now, seen)) == {};
  }

  // ---- What decides a submission --------------------------------------------------

  /** A submission is refused before it looks at any reservation. */
  predicate Refused(s: State, req: JobRequest) {
    || req.jobID == "" || req.jobType == ""
    || (req.executionID == "" && req.jobType != "scan_dataset" && req.jobType != "merge_dataset")
    || (req.jobID in s.seen && s.now <= s.seen[req.jobID])
  }

  /** The steps of a submission, with anything by others in its gaps: it is refused by its
      own values or an unexpired dedup entry, then by a reserved job ID, then by a reserved
      step ID, then by a full queue, each at the moment it looks; otherwise it is accepted. */
  ghost predicate Course(
      s: State, id: nat, req: JobRequest, others: seq<seq<Event>>, accepted: bool, trace: seq<Event>)
    requires |others| == 6
  {
    var one := [Submit(id, req)] + others[0];
    var two := one + [ReserveJob(id)] + others[1];
    var three := two + [ReserveStep(id)] + others[2];
    if Refused(s, req) then !accepted && trace == [Submit(id, req)]
    else if req.jobID in Run(s, one).jobOwner then !accepted && trace == one + [ReserveJob(id)]
    else if req.stepID != "" && req.stepID in Run(s, two).stepOwner then
      !accepted && trace == three + [RollbackJob(id)]
    else if |Run(s, three).queue| >= 128 then
      && !accepted
      && trace == three + [Enqueue(id)] + others[3] + [DropStep(id)] + others[4] + [DropJob(id)] + others[5]
                  + [CountDrop(id)]
    else accepted && trace == three + [Enqueue(id)] + others[3] + [NoteDedup(id)]
  }

  predicate ReservedAlready(s: State, req: JobRequest) {
    req.jobID in s.jobOwner || (req.stepID != "" && req.stepID in s.stepOwner)
  }

  /** What an undisturbed submission leaves; one that finds the queue full counts as failed. */
  predicate Submitted(s: State, t: State, id: nat, req: JobRequest, accepted: bool) {
    && t.queue == s.queue + (if accepted then [id] else [])
    && t.jobOwner.Keys == s.jobOwner.Keys + (if accepted then {req.jobID} else {})
    && t.stepOwner.Keys == s.stepOwner.Keys + (if accepted && req.stepID != "" then {req.stepID} else {})
    && t.seen == (if accepted then s.seen[req.jobID := s.now + s.ttl] else s.seen)
    && t.processed == s.processed
    && t.failed == s.failed + (if accepted || Refused(s, req) || ReservedAlready(s, req) then 0 else 1)
  }

  lemma SubmitIs(s: State, id: nat, req: JobRequest)
    requires id !in s.requests
    ensures Next(s, Submit(id, req)) ==
            if WellFormed(req) && !DedupStore.Seen(s.seen, req.jobID, s.now) then
              s.(requests := s.requests[id := Tracked(req, Admitted, false)])
            else s
  {
  }

  lemma NoteIs(s: State, id: nat)
    requires At(s, id, Queued) && !s.requests[id].noted
    ensures Next(s, NoteDedup(id)).seen == s.seen[s.requests[id].req.jobID := s.now + s.ttl]
    ensures Next(s, NoteDedup(id)) ==
            s.(seen := Next(s, NoteDedup(id)).seen, requests := s.requests[id := s.requests[id].(noted := true)])
  {
  }

  /** Undisturbed reservations that find both keys free, and what can follow. */
  lemma ReservedAlone(s: State, id: nat)
    requires At(s, id, Admitted) && !s.requests[id].noted
    requires !Refused(s, s.requests[id].req) && !ReservedAlready(s, s.requests[id].req)
    ensures
      var r := s.requests[id];
      var t := Next(Next(s, ReserveJob(id)), ReserveStep(id));
      && t == s.(jobOwner := s.jobOwner[r.req.jobID := id],
                 stepOwner := if r.req.stepID == "" then s.stepOwner else s.stepOwner[r.req.stepID := id],
                 requests := s.requests[id := r.(phase := Reserved)])
      && Submitted(s, if |s.queue| < QUEUE_SIZE then Next(Next(t, Enqueue(id)), NoteDedup(id)) else AfterDrop(t, id),
                   id, r.req, |s.queue| < QUEUE_SIZE)
  {
    hide Next, AfterDrop;
    var r := s.requests[id];
    ReserveJobIs(s, id);
    var t1 := Next(s, ReserveJob(id));
    ReserveStepIs(t1, id);
    var t := Next(t1, ReserveStep(id));
    Overwritten(s.requests, id, r.(phase := JobReserved), r.(phase := Reserved), r.(phase := Queued));
    if |s.queue| < QUEUE_SIZE {
      EnqueueIs(t, id);
      NoteIs(Next(t, Enqueue(id)), id);
    } else {
      DroppedAlone(s, t, id);
    }
  }

  lemma DroppedAlone(s: State, t: State, id: nat)
    requires At(t, id, Reserved) && |t.queue| >= QUEUE_SIZE && t.queue == s.queue && t.seen == s.seen
    requires t.processed == s.processed && t.failed == s.failed
    requires
      var req := t.requests[id].req;
      && req.jobID !in s.jobOwner && t.jobOwner == s.jobOwner[req.jobID := id]
      && if req.stepID == "" then t.stepOwner == s.stepOwner
         else req.stepID !in s.stepOwner && t.stepOwner == s.stepOwner[req.stepID := id]
    requires !Refused(s, t.requests[id].req)
    ensures Submitted(s, AfterDrop(t, id), id, t.requests[id].req, false)
  {
    DropUndoesReservations(t, id);
    hide AfterDrop;
  }

  lemma ConflictAlone(s: State, id: nat)
    requires At(s, id, Admitted)
    requires var req := s.requests[id].req;
             req.jobID !in s.jobOwner && req.stepID != "" && req.stepID in s.stepOwner
    ensures Submitted(s, Next(Next(Next(s, ReserveJob(id)), ReserveStep(id)), RollbackJob(id)), id,
                      s.requests[id].req, false)
  {
    hide Next;
    ReserveJobIs(s, id);
    var t1 := Next(s, ReserveJob(id));
    ReserveStepIs(t1, id);
    var t2 := Next(t1, ReserveStep(id));
    FreeJobIs(t2, id, RollbackJob(id));
  }

  lemma SentAlone(s: State, id: nat, trace: seq<Event>, others: seq<seq<Event>>)
    requires |others| == 6 && forall k | 0 <= k < 6 :: others[k] == []
    ensures Run(s, trace + [Enqueue(id)] + others[3] + [NoteDedup(id)]) ==
            Next(Next(Run(s, trace), Enqueue(id)), NoteDedup(id))
    ensures Run(s, trace + [Enqueue(id)] + others[3] + [DropStep(id)] + others[4] + [DropJob(id)] + others[5]
                   + [CountDrop(id)]) == AfterDrop(Run(s, trace), id)
  {
    hide Run, Next;
    var sent := trace + [Enqueue(id)];
    assert sent + others[3] == sent;
    RunAppend(s, trace, Enqueue(id));
    RunAppend(s, sent, NoteDedup(id));
    RunAppend(s, sent, DropStep(id));
    var dropped := sent + [DropStep(id)];
    assert dropped + others[4] == dropped;
    RunAppend(s, dropped, DropJob(id));
    var freed := dropped + [DropJob(id)];
    assert freed + others[5] == freed;
    RunAppend(s, freed, CountDrop(id));
  }

  /** The first three steps of an undisturbed submission. */
  lemma FirstSteps(s: State, id: nat, req: JobRequest)
    requires id !in s.requests
    ensures
      var a := Next(s, Submit(id, req));
      var one := [Submit(id, req)];
      var two := one + [ReserveJob(id)];
      && Run(s, one) == a && Run(s, two) == Next(a, ReserveJob(id))
      && Run(s, two + [ReserveStep(id)]) == Next(Next(a, ReserveJob(id)), ReserveStep(id))
      && a == if Refused(s, req) then s else s.(requests := s.requests[id := Tracked(req, Admitted, false)])
  {
    SubmitIs(s, id, req);
    var one := [Submit(id, req)];
    RunOne(s, Submit(id, req));
    RunAppend(s, one, ReserveJob(id));
    RunAppend(s, one + [ReserveJob(id)], ReserveStep(id));
  }

  lemma RefusedAlone(s: State, id: nat, req: JobRequest)
    requires id !in s.requests && !Refused(s, req) && req.jobID in s.jobOwner
    ensures Submitted(s, Run(s, [Submit(id, req)] + [ReserveJob(id)]), id, req, false)
  {
    hide Run, Next, Refused;
    FirstSteps(s, id, req);
    ReserveJobIs(Next(s, Submit(id, req)), id);
  }

  /** Nobody interferes: when exactly a submission is accepted, and all it changes. */
  lemma Undisturbed(s: State, id: nat, req: JobRequest, others: seq<seq<Event>>, accepted: bool, trace: seq<Event>)
    requires id !in s.requests && |others| == 6 && Course(s, id, req, others, accepted, trace)
    requires forall k | 0 <= k < 6 :: others[k] == []
    ensures Submitted(s, Run(s, trace), id, req, accepted)
    ensures accepted <==>
            && req.jobID != "" && req.jobType != ""
            && (req.executionID != "" || req.jobType == "scan_dataset" || req.jobType == "merge_dataset")
            && !(req.jobID in s.seen && s.now <= s.seen[req.jobID])
            && req.jobID !in s.jobOwner && (req.stepID == "" || req.stepID !in s.stepOwner)
            && |s.queue| < 128
  {
    var one := [Submit(id, req)];
    var two := one + [ReserveJob(id)];
    var three := two + [ReserveStep(id)];
    assert one + others[0] == one && two + others[1] == two && three + others[2] == three;
    FirstSteps(s, id, req);
    hide Run, Next, AfterDrop, Submitted;
    var a := Next(s, Submit(id, req));
    if Refused(s, req) {
      assert Submitted(s, s, id, req, false) by { NothingSubmitted(s, id, req); }
    } else if req.jobID in s.jobOwner {
      RefusedAlone(s, id, req);
    } else {
      ReserveJobIs(a, id);
      if req.stepID != "" && req.stepID in s.stepOwner {
        ConflictAlone(a, id);
        RunAppend(s, three, RollbackJob(id));
      } else {
        ReservedAlone(a, id);
        SentAlone(s, id, three, others);
      }
      SameShared(s, a, Run(s, trace), id, req, accepted);
    }
  }

  lemma NothingSubmitted(s: State, id: nat, req: JobRequest)
    requires Refused(s, req)
    ensures Submitted(s, s, id, req, false)
  {
  }

  lemma SameShared(s: State, a: State, t: State, id: nat, req: JobRequest, accepted: bool)
    requires a.queue == s.queue && a.jobOwner == s.jobOwner && a.stepOwner == s.stepOwner && a.seen == s.seen
    requires a.now == s.now && a.ttl == s.ttl && a.processed == s.processed && a.failed == s.failed
    ensures Submitted(a, t, id, req, accepted) <==> Submitted(s, t, id, req, accepted)
  {
  }

  // ---- The dispatcher object ----------------------------------------------------

  class Dispatcher {
    const ttl: nat
    var now: int
    var runningJobs: set<string>
    var activeJobs: set<string>
    var jobQueue: seq<nat>
    var totalProcessed: nat
    var totalFailed: nat
    /** The dedup store's entries. */
    var seen: Jobs
    /** Where each submission and each worker's job stands. */
    var requests: map<nat, Tracked>
    ghost var jobOwner: map<string, nat>
    ghost var stepOwner: map<string, nat>
    ghost var log: seq<(string, int)>
    ghost var evicted: set<(string, int)>

    ghost function Model(): State
      reads this
    {
      State(ttl, now, jobOwner, stepOwner, jobQueue, requests, totalProcessed, totalFailed, seen, log, evicted)
    }

    ghost predicate Valid()
      reads this
    {
      runningJobs == jobOwner.Keys && activeJobs == stepOwner.Keys && Sound(Model())
    }

    constructor (ttl: nat, now: int, seen: Jobs)
      ensures Valid() && Model() == Initial(ttl, now, seen)
    {
      this.ttl, this.now, this.seen := ttl, now, seen;
      runningJobs, activeJobs, jobQueue, requests := {}, {}, [], map[];
      totalProcessed, totalFailed := 0, 0;
      jobOwner, stepOwner, log, evicted := map[], map[], [], {};
      new;
      assert CountedIDs(Model()) == {};
    }

    method SetPhase(id: nat, p: Phase)
      requires id in requests
      modifies this`requests
      ensures requests == old(requests)[id := old(requests)[id].(phase := p)]
    {
      requests := requests[id := requests[id].(phase := p)];
    }

    /** First lock section: reserve the job ID or reject. */
    method ReserveJobID(id: nat)
      requires Valid() && At(Model(), id, Admitted)
      modifies this
      ensures Valid() && Model() == Next(old(Model()), ReserveJob(id))
      ensures
        var r := old(requests[id]);
        var taken := r.req.jobID in old(runningJobs);
        && runningJobs == old(runningJobs) + {r.req.jobID} && activeJobs == old(activeJobs)
        && requests == old(requests)[id := r.(phase := if taken then Rejected else JobReserved)]
        && jobQueue == old(jobQueue) && seen == old(seen)
    {
      hide Sound, Next;
      StepSound(Model(), ReserveJob(id));
      ReserveJobIs(Model(), id);
      var job := requests[id].req.jobID;
      if job in runningJobs {
        SetPhase(id, Rejected);
      } else {
        runningJobs := runningJobs + {job};
        jobOwner := jobOwner[job := id];
        SetPhase(id, JobReserved);
      }
    }

    /** Second lock section: reserve the execution step; on a conflict the job is
        released again in a section of its own. */
    method ReserveStepID(id: nat)
      requires Valid() && At(Model(), id, JobReserved)
      modifies this
      ensures Valid() && Model() == Next(old(Model()), ReserveStep(id))
      ensures
        var r := old(requests[id]);
        var step := r.req.stepID;
        var taken := step != "" && step in old(activeJobs);
        && activeJobs == old(activeJobs) + (if step == "" then {} else {step}) && runningJobs == old(runningJobs)
        && requests == old(requests)[id := r.(phase := if taken then StepConflict else Reserved)]
        && jobQueue == old(jobQueue) && seen == old(seen)
    {
      hide Sound, Next;
      StepSound(Model(), ReserveStep(id));
      ReserveStepIs(Model(), id);
      var step := requests[id].req.stepID;
      if step != "" {
        if step in activeJobs {
          SetPhase(id, StepConflict);
          return;
        }
        activeJobs := activeJobs + {step};
        stepOwner := stepOwner[step := id];
      }
      SetPhase(id, Reserved);
    }

    /** delete(runningJobs, jobID): the rollback of a step conflict, the drop on a
        full queue and the worker's cleanup differ only in what comes next. */
    method FreeJobID(id: nat, e: Event, next: Phase)
      requires Valid() && e in {RollbackJob(id), DropJob(id), ReleaseJob(id)} && Enabled(Model(), e)
      requires next == PhaseAfter(Model(), e)
      modifies this
      ensures Valid() && Model() == Next(old(Model()), e)
      ensures runningJobs == old(runningJobs) - {old(requests[id].req.jobID)} && activeJobs == old(activeJobs)
      ensures requests == old(requests)[id := old(requests[id]).(phase := next)]
      ensures jobQueue == old(jobQueue) && seen == old(seen)
    {
      hide Sound, Next, PhaseAfter;
      StepSound(Model(), e);
      FreeJobIs(Model(), id, e);
      var job := requests[id].req.jobID;
      runningJobs := runningJobs - {job};
      jobOwner := jobOwner - {job};
      SetPhase(id, next);
    }

    /** delete(activeJobs, stepID), on a drop and in the worker's cleanup. */
    method FreeStepID(id: nat, e: Event, next: Phase)
      requires Valid() && e in {DropStep(id), ReleaseStep(id)} && Enabled(Model(), e)
      requires next == PhaseAfter(Model(), e)
      modifies this
      ensures Valid() && Model() == Next(old(Model()), e)
      ensures
        var step := old(requests[id].req.stepID);
        activeJobs == if step == "" then old(activeJobs) else old(activeJobs) - {step}
      ensures runningJobs == old(runningJobs) && jobQueue == old(jobQueue) && seen == old(seen)
      ensures requests == old(requests)[id := old(requests[id]).(phase := next)]
    {
      hide Sound, Next, PhaseAfter;
      StepSound(Model(), e);
      FreeStepIs(Model(), id, e);
      var step := requests[id].req.stepID;
      if step != "" {
        activeJobs := activeJobs - {step};
        stepOwner := stepOwner - {step};
      }
      SetPhase(id, next);
    }

    /** The non-blocking send on jobQueue. */
    method TrySend(id: nat)
      requires Valid() && At(Model(), id, Reserved)
      modifies this
      ensures Valid() && Model() == Next(old(Model()), Enqueue(id))
      ensures
        var room := |old(jobQueue)| < 128;
        && jobQueue == old(jobQueue) + (if room then [id] else [])
        && requests == old(requests)[id := old(requests[id]).(phase := if room then Queued else DroppingStep)]
        && runningJobs == old(runningJobs) && activeJobs == old(activeJobs) && seen == old(seen)
    {
      hide Sound, Next;
      StepSound(Model(), Enqueue(id));
      EnqueueIs(Model(), id);
      if |jobQueue| < QUEUE_SIZE {
        jobQueue := jobQueue + [id];
        log := log + [(requests[id].req.jobID, now)];
        SetPhase(id, Queued);
      } else {
        SetPhase(id, DroppingStep);
      }
    }

    method NoteInDedup(id: nat)
      requires Valid() && Enabled(Model(), NoteDedup(id))
      modifies this
      ensures Valid() && Model() == Next(old(Model()), NoteDedup(id))
      ensures seen == old(seen)[old(requests[id].req.jobID) := now + ttl] && now == old(now)
      ensures runningJobs == old(runningJobs) && activeJobs == old(activeJobs) && jobQueue == old(jobQueue)
    {
      hide Sound;
      StepSound(Model(), NoteDedup(id));
      seen := seen[requests[id].req.jobID := now + ttl];
      requests := requests[id := requests[id].(noted := true)];
    }

    method CountFailure(id: nat)
      requires Valid() && At(Model(), id, Uncounted)
      modifies this
      ensures Valid() && Model() == Next(old(Model()), CountDrop(id))
      ensures totalFailed == old(totalFailed) + 1 && totalProcessed == old(totalProcessed)
    {
      hide Sound, Next;
      StepSound(Model(), CountDrop(id));
      CountDropIs(Model(), id);
      totalFailed := totalFailed + 1;
      SetPhase(id, Dropped);
    }

    method Admit(id: nat, req: JobRequest) returns (admitted: bool)
      requires Valid() && id !in requests
      modifies this
      ensures Valid() && Model() == Next(old(Model()), Submit(id, req))
      ensures admitted <==> id in requests
      ensures admitted <==> !Refused(old(Model()), req)
      ensures requests == if admitted then old(requests)[id := Tracked(req, Admitted, false)] else old(requests)
      ensures runningJobs == old(runningJobs) && activeJobs == old(activeJobs) && jobQueue == old(jobQueue)
    {
      hide Sound;
      StepSound(Model(), Submit(id, req));
      if req.jobID == "" {
        return false;
      }
      if req.executionID == "" && req.jobType != "scan_dataset" && req.jobType != "merge_dataset" {
        return false;
      }
      if req.jobType == "" {
        return false;
      }
      if req.jobID in seen && now <= seen[req.jobID] {
        return false;
      }
      requests := requests[id := Tracked(req, Admitted, false)];
      return true;
    }

    /** A worker's receive from jobQueue. */
    method Receive() returns (id: nat)
      requires Valid() && jobQueue != []
      modifies this
      ensures Valid() && Model() == Next(old(Model()), Dequeue)
      ensures jobQueue == old(jobQueue[1..])
      ensures id == old(jobQueue[0]) && At(Model(), id, Executing)
    {
      hide Sound, Next, CountedIDs;
      QueueHead(Model());
      StepSound(Model(), Dequeue);
      DequeueIs(Model());
      hide Enabled, PhaseAfter;
      id := jobQueue[0];
      jobQueue := jobQueue[1..];
      SetPhase(id, Executing);
    }

    method Count(id: nat, outcome: Outcome)
      requires Valid() && At(Model(), id, Executing)
      modifies this
      ensures Valid() && Model() == Next(old(Model()), Finish(id, outcome))
      ensures totalProcessed == old(totalProcessed) + (if outcome == Processed then 1 else 0)
      ensures totalFailed == old(totalFailed) + (if outcome == Failed then 1 else 0)
    {
      hide Sound, Next;
      StepSound(Model(), Finish(id, outcome));
      FinishIs(Model(), id, outcome);
      if outcome == Processed {
        totalProcessed := totalProcessed + 1;
      } else {
        totalFailed := totalFailed + 1;
      }
      SetPhase(id, Finished);
    }

    method PassTime(elapsed: nat)
      requires Valid()
      modifies this
      ensures Valid() && Model() == Next(old(Model()), Tick(elapsed))
    {
      hide Sound;
      StepSound(Model(), Tick(elapsed));
      now := now + elapsed;
    }

    method CleanSeen(gone: set<string>)
      requires Valid()
      modifies this
      ensures Valid() && Model() == Next(old(Model()), CleanupSeen(gone))
    {
      hide Sound;
      StepSound(Model(), CleanupSeen(gone));
      evicted := evicted + Losses(seen, now, gone);
      seen := DedupStore.Swept(seen, now) - gone;
    }

    /** Whichever step somebody else takes; a step that is not enabled is not taken. */
    method Perform(e: Event)
      requires Valid()
      modifies this
      ensures Valid() && Model() == Next(old(Model()), e)
    {
      hide Sound, JobsAfter, StepsAfter, QueueAfter, RequestsAfter, SeenAfter, LogAfter;
      match e
      case Submit(id, req) => if id !in requests { var _ := Admit(id, req); }
      case ReserveJob(id) => if id in requests && requests[id].phase == Admitted { ReserveJobID(id); }
      case ReserveStep(id) => if id in requests && requests[id].phase == JobReserved { ReserveStepID(id); }
      case RollbackJob(id) => if id in requests && requests[id].phase == StepConflict { FreeJobID(id, e, Rejected); }
      case Enqueue(id) => if id in requests && requests[id].phase == Reserved { TrySend(id); }
      case NoteDedup(id) =>
        if id in requests && Enqueued(requests[id].phase) && !requests[id].noted { NoteInDedup(id); }
      case DropStep(id) => if id in requests && requests[id].phase == DroppingStep { FreeStepID(id, e, DroppingJob); }
      case DropJob(id) => if id in requests && requests[id].phase == DroppingJob { FreeJobID(id, e, Uncounted); }
      case CountDrop(id) => if id in requests && requests[id].phase == Uncounted { CountFailure(id); }
      case Dequeue => if jobQueue != [] { var _ := Receive(); }
      case Finish(id, outcome) => if id in requests && requests[id].phase == Executing { Count(id, outcome); }
      case ReleaseStep(id) => if id in requests && requests[id].phase == Finished { FreeStepID(id, e, StepReleased); }
      case ReleaseJob(id) => if id in requests && requests[id].phase == StepReleased { FreeJobID(id, e, Done); }
      case Tick(elapsed) => PassTime(elapsed);
      case CleanupSeen(gone) => CleanSeen(gone);
    }

    method PerformAll(events: seq<Event>)
      requires Valid()
      modifies this
      ensures Valid() && Model() == Run(old(Model()), events)
    {
      hide Sound, Next;
      for i := 0 to |events|
        invariant Valid() && Model() == Run(old(Model()), events[..i])
      {
        Perform(events[i]);
        assert events[..i + 1] == events[..i] + [events[i]];
        RunAppend(old(Model()), events[..i], events[i]);
      }
      assert events[..|events|] == events;
    }

    /** What others do between two steps of request `id`. */
    method Gap(id: nat, events: seq<Event>)
      requires Valid() && id in requests && Foreign(events, id)
      modifies this
      ensures Valid() && Model() == Run(old(Model()), events)
      ensures id in requests && requests[id].req == old(requests[id].req)
      ensures id in requests && requests[id].noted == old(requests[id].noted)
      ensures BySubmitter(old(requests[id].phase)) ==> requests[id] == old(requests[id])
      ensures Enqueued(old(requests[id].phase)) ==> Enqueued(requests[id].phase)
    {
      hide Sound, Next, Run, Enqueued, BySubmitter;
      ForeignRun(Model(), events, id);
      PerformAll(events);
    }

    /** The drop on a full queue: both releases and the failure count, each a section of
        its own; `first` and `second` run in the gaps. */
    method DropQuietly(id: nat, first: seq<Event>, second: seq<Event>) returns (ghost trace: seq<Event>)
      requires Valid() && At(Model(), id, DroppingStep) && Foreign(first, id) && Foreign(second, id)
      modifies this
      ensures Valid() && Model() == Run(old(Model()), trace) && At(Model(), id, Dropped)
      ensures trace == [DropStep(id)] + first + [DropJob(id)] + second + [CountDrop(id)]
    {
      ghost var m0 := Model();
      hide Sound, Run, Next, Foreign, Enabled, PhaseAfter, Enqueued;
      AfterDropStep(Model(), id);
      FreeStepID(id, DropStep(id), DroppingJob);
      RunOne(m0, DropStep(id));
      trace := [DropStep(id)];
      Gap(id, first);
      RunConcat(m0, trace, first);
      trace := trace + first;
      AfterDropJob(Model(), id);
      FreeJobID(id, DropJob(id), Uncounted);
      RunAppend(m0, trace, DropJob(id));
      trace := trace + [DropJob(id)];
      Gap(id, second);
      RunConcat(m0, trace, second);
      trace := trace + second;
      AfterCountDrop(Model(), id);
      CountFailure(id);
      RunAppend(m0, trace, CountDrop(id));
      trace := trace + [CountDrop(id)];
    }

    /** Both reservations, or a rejection; `first` runs between them, `second` after. */
    method Reserve(id: nat, first: seq<Event>, second: seq<Event>) returns (reserved: bool, ghost trace: seq<Event>)
      requires Valid() && At(Model(), id, Admitted) && !requests[id].noted && Foreign(first, id) && Foreign(second, id)
      modifies this
      ensures Valid() && Model() == Run(old(Model()), trace)
      ensures if reserved then At(Model(), id, Reserved) && !requests[id].noted else At(Model(), id, Rejected)
      ensures
        var one := [ReserveJob(id)] + first;
        var two := one + [ReserveStep(id)] + second;
        var req := old(requests[id].req);
        if req.jobID in old(runningJobs) then !reserved && trace == [ReserveJob(id)]
        else if req.stepID != "" && req.stepID in Run(old(Model()), one).stepOwner then
          !reserved && trace == two + [RollbackJob(id)]
        else reserved && trace == two
    {
      ghost var m0 := Model();
      hide Sound, Run, Next, Foreign, Enabled, PhaseAfter, Enqueued;
      AfterReserveJob(Model(), id);
      ReserveJobID(id);
      RunOne(m0, ReserveJob(id));
      trace := [ReserveJob(id)];
      if requests[id].phase == Rejected {
        return false, trace;
      }
      Gap(id, first);
      RunConcat(m0, trace, first);
      trace := trace + first;

      AfterReserveStep(Model(), id);
      ReserveStepID(id);
      RunAppend(m0, trace, ReserveStep(id));
      trace := trace + [ReserveStep(id)];
      ghost var conflict := requests[id].phase == StepConflict;
      Gap(id, second);
      assert conflict <==> requests[id].phase == StepConflict;
      RunConcat(m0, trace, second);
      trace := trace + second;
      if requests[id].phase == StepConflict {
        AfterRollback(Model(), id);
        FreeJobID(id, RollbackJob(id), Rejected);
        RunAppend(m0, trace, RollbackJob(id));
        return false, trace + [RollbackJob(id)];
      }
      return true, trace;
    }

    /** The end of a submission: enqueue and note, or drop. `others` runs in the gaps. */
    method SendOrDrop(id: nat, others: seq<seq<Event>>) returns (accepted: bool, ghost trace: seq<Event>)
      requires Valid() && At(Model(), id, Reserved) && !requests[id].noted
      requires |others| == 3 && forall k | 0 <= k < 3 :: Foreign(others[k], id)
      modifies this
      ensures Valid() && Model() == Run(old(Model()), trace)
      ensures accepted ==> id in requests && Enqueued(requests[id].phase) && requests[id].noted
      ensures !accepted ==> At(Model(), id, Dropped)
      ensures accepted <==> |old(jobQueue)| < 128
      ensures trace ==
        if accepted then [Enqueue(id)] + others[0] + [NoteDedup(id)]
        else [Enqueue(id)] + others[0] + [DropStep(id)] + others[1] + [DropJob(id)] + others[2] + [CountDrop(id)]
    {
      ghost var m0 := Model();
      hide Sound, Run, Next, PhaseAfter;
      AfterEnqueue(Model(), id);
      TrySend(id);
      RunOne(m0, Enqueue(id));
      trace := [Enqueue(id)];
      Gap(id, others[0]);
      RunConcat(m0, trace, others[0]);
      trace := trace + others[0];
      if requests[id].phase == DroppingStep {
        ghost var rest := DropQuietly(id, others[1], others[2]);
        RunConcat(m0, trace, rest);
        return false, trace + rest;
      }
      AfterNote(Model(), id);
      NoteInDedup(id);
      RunAppend(m0, trace, NoteDedup(id));
      return true, trace + [NoteDedup(id)];
    }

    /** SubmitJobWithMeta. `others` is what other submitters and the workers do
        in the gaps between this submission's atomic steps. Whatever that is, the
        call is a run of the state machine, and it ends with the request enqueued
        and noted, or rejected or dropped. */
    method SubmitJobWithMeta(id: nat, req: JobRequest, others: seq<seq<Event>>)
      returns (accepted: bool, ghost trace: seq<Event>)
      requires Valid() && id !in requests
      requires |others| == 6 && forall k | 0 <= k < 6 :: Foreign(others[k], id)
      modifies this
      ensures Valid() && Model() == Run(old(Model()), trace)
      ensures accepted ==> id in requests && Enqueued(requests[id].phase) && requests[id].noted
      ensures !accepted ==> id !in requests || requests[id].phase == Rejected || requests[id].phase == Dropped
      ensures Course(old(Model()), id, req, others, accepted, trace)
      ensures (forall k | 0 <= k < 6 :: others[k] == []) ==>
        && (accepted <==>
            && req.jobID != "" && req.jobType != ""
            && (req.executionID != "" || req.jobType == "scan_dataset" || req.jobType == "merge_dataset")
            && !(req.jobID in old(seen) && old(now) <= old(seen)[req.jobID])
            && req.jobID !in old(runningJobs) && (req.stepID == "" || req.stepID !in old(activeJobs))
            && |old(jobQueue)| < 128)
        && Submitted(old(Model()), Model(), id, req, accepted)
    {
      ghost var m0 := Model();
      hide Sound, Run, Next, Submitted, Refused, Course, Enqueued, Foreign;
      var admitted := Admit(id, req);
      trace := [Submit(id, req)];
      RunOne(m0, Submit(id, req));
      AfterSubmit(m0, id, req);
      RefusedIff(m0, id, req);
      if !admitted {
        RefusedCourse(m0, id, req, others);
        if forall k | 0 <= k < 6 :: others[k] == [] { Undisturbed(m0, id, req, others, false, trace); }
        return false, trace;
      }
      Gap(id, others[0]);
      RunConcat(m0, trace, others[0]);
      ghost var one := trace + others[0];
      ghost var rest;
      var reserved;
      reserved, rest := Reserve(id, others[1], others[2]);
      RunConcat(m0, one, rest);
      trace := one + rest;
      ReservedCourse(m0, id, req, others, reserved, rest);
      if !reserved {
        if forall k | 0 <= k < 6 :: others[k] == [] { Undisturbed(m0, id, req, others, false, trace); }
        return false, trace;
      }
      ghost var three := trace;
      accepted, rest := SendOrDrop(id, others[3..]);
      RunConcat(m0, three, rest);
      trace := three + rest;
      SentCourse(m0, id, req, others, accepted, rest);
      if forall k | 0 <= k < 6 :: others[k] == [] { Undisturbed(m0, id, req, others, accepted, trace); }
    }
  }

  lemma RefusedIff(s: State, id: nat, req: JobRequest)
    requires id !in s.requests
    ensures id in Next(s, Submit(id, req)).requests <==> !Refused(s, req)
  {
    SubmitIs(s, id, req);
  }

  lemma RefusedCourse(s: State, id: nat, req: JobRequest, others: seq<seq<Event>>)
    requires |others| == 6 && Refused(s, req)
    ensures Course(s, id, req, others, false, [Submit(id, req)])
  {
    hide Refused;
  }

  /** What Reserve reports is the middle of the course. */
  lemma ReservedCourse(
      s: State, id: nat, req: JobRequest, others: seq<seq<Event>>, reserved: bool, rest: seq<Event>)
    requires |others| == 6 && !Refused(s, req)
    requires
      var t := Run(s, [Submit(id, req)] + others[0]);
      var one := [ReserveJob(id)] + others[1];
      var two := one + [ReserveStep(id)] + others[2];
      if req.jobID in t.jobOwner then !reserved && rest == [ReserveJob(id)]
      else if req.stepID != "" && req.stepID in Run(t, one).stepOwner then !reserved && rest == two + [RollbackJob(id)]
      else reserved && rest == two
    ensures !reserved ==> Course(s, id, req, others, false, [Submit(id, req)] + others[0] + rest)
    ensures reserved ==>
      var one := [Submit(id, req)] + others[0];
      var two := one + [ReserveJob(id)] + others[1];
      && one + rest == two + [ReserveStep(id)] + others[2] && req.jobID !in Run(s, one).jobOwner
      && !(req.stepID != "" && req.stepID in Run(s, two).stepOwner)
  {
    hide Run, Refused;
    var one := [Submit(id, req)] + others[0];
    var two := one + [ReserveJob(id)] + others[1];
    RunConcat(s, one, [ReserveJob(id)] + others[1]);
    assert one + ([ReserveJob(id)] + others[1]) == two;
    assert one + ([ReserveJob(id)] + others[1] + [ReserveStep(id)] + others[2]) == two + [ReserveStep(id)] + others[2];
    assert one + ([ReserveJob(id)] + others[1] + [ReserveStep(id)] + others[2] + [RollbackJob(id)]) ==
           two + [ReserveStep(id)] + others[2] + [RollbackJob(id)];
  }

  lemma SentCourse(s: State, id: nat, req: JobRequest, others: seq<seq<Event>>, accepted: bool, rest: seq<Event>)
    requires |others| == 6 && !Refused(s, req)
    requires
      var one := [Submit(id, req)] + others[0];
      var two := one + [ReserveJob(id)] + others[1];
      && req.jobID !in Run(s, one).jobOwner && !(req.stepID != "" && req.stepID in Run(s, two).stepOwner)
      && (accepted <==> |Run(s, two + [ReserveStep(id)] + others[2]).queue| < 128)
    requires rest ==
      if accepted then [Enqueue(id)] + others[3] + [NoteDedup(id)]
      else [Enqueue(id)] + others[3] + [DropStep(id)] + others[4] + [DropJob(id)] + others[5] + [CountDrop(id)]
    ensures
      var three := [Submit(id, req)] + others[0] + [ReserveJob(id)] + others[1] + [ReserveStep(id)] + others[2];
      Course(s, id, req, others, accepted, three + rest)
  {
    hide Run, Refused;
    var three := [Submit(id, req)] + others[0] + [ReserveJob(id)] + others[1] + [ReserveStep(id)] + others[2];
    hide Course;
    AppendThree(three, [Enqueue(id)], others[3], [NoteDedup(id)]);
    AppendThree(three, [Enqueue(id)], others[3], [DropStep(id)]);
    var dropping := [Enqueue(id)] + others[3] + [DropStep(id)];
    AppendThree(three, dropping, others[4], [DropJob(id)]);
    AppendThree(three, dropping + others[4] + [DropJob(id)], others[5], [CountDrop(id)]);
    LastOfCourse(s, id, req, others, accepted, three + rest);
  }

  lemma AppendThree(p: seq<Event>, a: seq<Event>, b: seq<Event>, c: seq<Event>)
    ensures p + (a + b + c) == p + a + b + c
  {
  }

  lemma LastOfCourse(s: State, id: nat, req: JobRequest, others: seq<seq<Event>>, accepted: bool, trace: seq<Event>)
    requires |others| == 6 && !Refused(s, req)
    requires
      var one := [Submit(id, req)] + others[0];
      var two := one + [ReserveJob(id)] + others[1];
      var three := two + [ReserveStep(id)] + others[2];
      && req.jobID !in Run(s, one).jobOwner && !(req.stepID != "" && req.stepID in Run(s, two).stepOwner)
      && (accepted <==> |Run(s, three).queue| < 128)
      && trace ==
         if accepted then three + [Enqueue(id)] + others[3] + [NoteDedup(id)]
         else three + [Enqueue(id)] + others[3] + [DropStep(id)] + others[4] + [DropJob(id)] + others[5]
              + [CountDrop(id)]
    ensures Course(s, id, req, others, accepted, trace)
  {
    hide Run, Refused;
  }

  lemma StepSound(s: State, e: Event)
    requires Sound(s)
    ensures Sound(Next(s, e))
  {
    hide Owned, QueueExact, CountersExact, Next;
    StaysOwned(s, e);
    QueueStaysExact(s, e);
    CountersStayExact(s, e);
  }

  lemma QueueHead(s: State)
    requires Sound(s) && s.queue != []
    ensures At(s, s.queue[0], Queued)
  {
  }

  /** Not an action of the submitter of `id`. */
  predicate ForeignEvent(e: Event, id: nat) {
    match e
    case Dequeue => true
    case Tick(_) => true
    case CleanupSeen(_) => true
    case Finish(_, _) => true
    case ReleaseStep(_) => true
    case ReleaseJob(_) => true
    case _ => e.id != id
  }

  ghost predicate Foreign(events: seq<Event>, id: nat) {
    forall e | e in events :: ForeignEvent(e, id)
  }

  /** Phases that only the submitter's own steps leave. */
  predicate BySubmitter(p: Phase) {
    !p.Queued? && !p.Executing? && !p.Finished? && !p.StepReleased?
  }

  lemma ForeignStep(s: State, e: Event, id: nat)
    requires Sound(s) && id in s.requests && ForeignEvent(e, id)
    ensures var t := Next(s, e);
            && id in t.requests && t.requests[id].req == s.requests[id].req
            && t.requests[id].noted == s.requests[id].noted
            && (BySubmitter(s.requests[id].phase) ==> t.requests[id] == s.requests[id])
            && (Enqueued(s.requests[id].phase) ==> Enqueued(t.requests[id].phase))
  {
    if Acts(s, e) {
      OnlySubjectMoves(s, e);
      SubmittingOnlyEnds(s, e);
    } else {
      NoActor(s, e);
    }
  }

  lemma {:induction false} ForeignRun(s: State, events: seq<Event>, id: nat)
    requires Sound(s) && id in s.requests && Foreign(events, id)
    ensures var t := Run(s, events);
            && id in t.requests && t.requests[id].req == s.requests[id].req
            && t.requests[id].noted == s.requests[id].noted
            && (BySubmitter(s.requests[id].phase) ==> t.requests[id] == s.requests[id])
            && (Enqueued(s.requests[id].phase) ==> Enqueued(t.requests[id].phase))
  {
    hide Sound, Next, Enqueued, BySubmitter;
    if events != [] {
      ForeignRun(s, events[..|events| - 1], id);
      RunSound(s, events[..|events| - 1]);
      ForeignStep(Run(s, events[..|events| - 1]), events[|events| - 1], id);
    }
  }

  lemma RunOne(s: State, e: Event)
    ensures Run(s, [e]) == Next(s, e)
  {
    assert [e][..0] == [];
  }

  lemma {:induction false} RunConcat(s: State, a: seq<Event>, b: seq<Event>)
    ensures Run(s, a + b) == Run(Run(s, a), b)
  {
    hide Next;
    if b == [] {
      assert a + b == a;
    } else {
      RunConcat(s, a, b[..|b| - 1]);
      assert (a + b)[..|a + b| - 1] == a + b[..|b| - 1];
    }
  }

  lemma AfterSubmit(s: State, id: nat, req: JobRequest)
    requires id !in s.requests
    ensures var t := Next(s, Submit(id, req)); id in t.requests ==> t.requests[id] == Tracked(req, Admitted, false)
  {
  }

  lemma AfterEnqueue(s: State, id: nat)
    requires At(s, id, Reserved)
    ensures At(Next(s, Enqueue(id)), id, if |s.queue| < 128 then Queued else DroppingStep)
    ensures Next(s, Enqueue(id)).requests[id].noted == s.requests[id].noted
  {
  }

  lemma AfterNote(s: State, id: nat)
    requires Enabled(s, NoteDedup(id))
    ensures id in Next(s, NoteDedup(id)).requests
    ensures Next(s, NoteDedup(id)).requests[id] == s.requests[id].(noted := true)
  {
  }

  lemma AfterReserveJob(s: State, id: nat)
    requires At(s, id, Admitted)
    ensures var t := Next(s, ReserveJob(id));
            && (At(t, id, JobReserved) || At(t, id, Rejected)) && t.requests[id].noted == s.requests[id].noted
            && (At(t, id, Rejected) <==> s.requests[id].req.jobID in s.jobOwner)
            && t.requests[id].req == s.requests[id].req
  {
  }

  lemma AfterReserveStep(s: State, id: nat)
    requires At(s, id, JobReserved)
    ensures var t := Next(s, ReserveStep(id));
            && (At(t, id, Reserved) || At(t, id, StepConflict)) && t.requests[id].noted == s.requests[id].noted
            && t.requests[id].req == s.requests[id].req
            && (At(t, id, StepConflict) <==>
                s.requests[id].req.stepID != "" && s.requests[id].req.stepID in s.stepOwner)
  {
  }

  lemma AfterRollback(s: State, id: nat)
    requires At(s, id, StepConflict)
    ensures Enabled(s, RollbackJob(id)) && PhaseAfter(s, RollbackJob(id)) == Rejected
    ensures At(Next(s, RollbackJob(id)), id, Rejected)
  {
  }

  lemma AfterDropStep(s: State, id: nat)
    requires At(s, id, DroppingStep)
    ensures Enabled(s, DropStep(id)) && PhaseAfter(s, DropStep(id)) == DroppingJob
    ensures At(Next(s, DropStep(id)), id, DroppingJob)
  {
  }

  lemma AfterDropJob(s: State, id: nat)
    requires At(s, id, DroppingJob)
    ensures Enabled(s, DropJob(id)) && PhaseAfter(s, DropJob(id)) == Uncounted
    ensures At(Next(s, DropJob(id)), id, Uncounted)
  {
  }

  lemma AfterCountDrop(s: State, id: nat)
    requires At(s, id, Uncounted)
    ensures At(Next(s, CountDrop(id)), id, Dropped)
  {
  }
}
