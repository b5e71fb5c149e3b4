/**
 Deploy jobs: the worker's handler with its outcome branches, the retry decision, and the
 queue that delivers the job again, over all attempts of one deployment.
 */
module DeploymentJob {
  import opened Wrappers

  datatype DeploymentStatus =
    | PENDING | PREFLIGHT | AWAITING_PREFLIGHT | PREFLIGHT_BLOCKED | BUILDING | DEPLOYING | CLONING | UPLOADING
    | EXTRACTING | RUNNING | PAUSED | SUCCESS | FAILED | STOPPED | DELETING | ROLLED_BACK | DELETED
    | CANCELLED | CANCELING | CANCELED

  datatype JobStatus = JobQueued | JobRunning | JobSuccess | JobFailed | JobCanceled | JobBlocked | JobWaitingApproval
  datatype WaitReason = NO_REASON | PROJECT_BUSY | VPS_BUSY | BLOCKED_BY_PREFLIGHT | APPROVAL

  datatype Scope = ProjectSlot | VpsSlot

  /** What the handler can catch; a property an error does not have is the empty string. */
  datatype Error =
    | SlotBusy(scope: Scope)
    | Preflight(blocked: bool)
    | Cancellation
    | Other(errorCode: string, code: string, message: string)

  // ---------------------------------------------------------------- classification

  predicate IsBlank(c: char) { c in {' ', '\t', '\n', '\r', '\U{0B}', '\U{0C}'} }

  function TrimStart(s: string): string {
    if s != "" && IsBlank(s[0]) then TrimStart(s[1..]) else s
  }

  function TrimEnd(s: string): string {
    if s != "" && IsBlank(s[|s| - 1]) then TrimEnd(s[..|s| - 1]) else s
  }

  function UpperChar(c: char): char { if 'a' <= c <= 'z' then (c as int - 32) as char else c }

  function Mapped(s: string, f: char -> char): string { seq(|s|, i requires 0 <= i < |s| => f(s[i])) }

  predicate Includes(s: string, part: string) {
    part <= s || (s != "" && Includes(s[1..], part))
  }

  function NormalizedCode(e: Error): string
    requires e.Other?
  {
    var raw := if e.errorCode != "" then e.errorCode
               else if e.code != "" then e.code
               else "DEPLOYMENT_OPERATION_FAILED";
    Mapped(TrimEnd(TrimStart(raw)), UpperChar)
  }

  const RETRYABLE_CODES := {
    "SSH_TIMEOUT", "HOST_UNREACHABLE", "CONNECTION_RESET", "SSH_COMMAND_FAILED", "SSH_CONNECTION_FAILED",
    "VPS_CAPACITY_BUSY", "VPS_CAPACITY_UNAVAILABLE"}
  const RETRYABLE_SYSTEM_CODES := {"ETIMEDOUT", "ECONNRESET", "EAI_AGAIN", "EHOSTUNREACH", "ENETUNREACH"}

  predicate MentionsBusySlot(message: string) {
    || Includes(Mapped(message, LowerChar), "another deployment for this project is already running")
    || Includes(Mapped(message, LowerChar), "vps build slot is currently busy")
  }

  /** Codes that a later attempt may cure. */
  predicate Cured(code: string) { code in RETRYABLE_CODES || code in RETRYABLE_SYSTEM_CODES }

  predicate Retryable(e: Error)
    requires e.Other?
  {
    Cured(NormalizedCode(e)) || MentionsBusySlot(e.message)
  }

  /** The codes an SSH connection fails with. */
  datatype SshCode =
    | SSH_TIMEOUT | INVALID_CREDENTIALS | HOST_UNREACHABLE | CONNECTION_RESET | PORT_BLOCKED
    | SSH_COMMAND_FAILED | SSH_CONNECTION_FAILED

  function Text(c: SshCode): string {
    match c
    case SSH_TIMEOUT => "SSH_TIMEOUT"
    case INVALID_CREDENTIALS => "INVALID_CREDENTIALS"
    case HOST_UNREACHABLE => "HOST_UNREACHABLE"
    case CONNECTION_RESET => "CONNECTION_RESET"
    case PORT_BLOCKED => "PORT_BLOCKED"
    case SSH_COMMAND_FAILED => "SSH_COMMAND_FAILED"
    case SSH_CONNECTION_FAILED => "SSH_CONNECTION_FAILED"
  }

  /** A code that is written in capitals is its own normal form. */
  lemma NormalFormOf(code: string, message: string)
    requires code != "" && !IsBlank(code[0]) && !IsBlank(code[|code| - 1])
    requires forall i :: 0 <= i < |code| ==> !('a' <= code[i] <= 'z')
    ensures NormalizedCode(Other("", code, message)) == code
  {
    assert TrimStart(code) == code && TrimEnd(code) == code;
    assert Mapped(code, UpperChar) == code;
  }

  lemma PermanentCodes()
    ensures "INVALID_CREDENTIALS" !in RETRYABLE_CODES + RETRYABLE_SYSTEM_CODES
    ensures "PORT_BLOCKED" !in RETRYABLE_CODES + RETRYABLE_SYSTEM_CODES
  {
    assert forall code :: code in RETRYABLE_CODES + RETRYABLE_SYSTEM_CODES ==>
        |code| > 0 && code[0] != 'I' && code[0] != 'P';
  }

  lemma TransientCodes(c: SshCode)
    requires !c.INVALID_CREDENTIALS? && !c.PORT_BLOCKED?
    ensures Text(c) in RETRYABLE_CODES
  {
  }

  lemma TextIsNormal(c: SshCode, message: string)
    ensures NormalizedCode(Other("", Text(c), message)) == Text(c)
  {
    NormalFormOf(Text(c), message);
  }

  lemma CuredExactly(c: SshCode)
    ensures Cured(Text(c)) <==> !c.INVALID_CREDENTIALS? && !c.PORT_BLOCKED?
  {
    if c.INVALID_CREDENTIALS? || c.PORT_BLOCKED? {
      PermanentCodes();
    } else {
      TransientCodes(c);
    }
  }

  /** Every SSH failure is retried except wrong credentials and a blocked port, which no later
      attempt would cure. */
  lemma SshFailuresAreRetried(c: SshCode, message: string)
    requires !MentionsBusySlot(message)
    ensures Retryable(Other("", Text(c), message)) <==> !c.INVALID_CREDENTIALS? && !c.PORT_BLOCKED?
  {
    TextIsNormal(c, message);
    CuredExactly(c);
  }

  /** The network errors of the system, and the VPS's refusals that pass. */
  datatype PassingCode =
    | ETIMEDOUT | ECONNRESET | EAI_AGAIN | EHOSTUNREACH | ENETUNREACH | VPS_CAPACITY_BUSY | VPS_CAPACITY_UNAVAILABLE

  function PassingText(c: PassingCode): string {
    match c
    case ETIMEDOUT => "ETIMEDOUT"
    case ECONNRESET => "ECONNRESET"
    case EAI_AGAIN => "EAI_AGAIN"
    case EHOSTUNREACH => "EHOSTUNREACH"
    case ENETUNREACH => "ENETUNREACH"
    case VPS_CAPACITY_BUSY => "VPS_CAPACITY_BUSY"
    case VPS_CAPACITY_UNAVAILABLE => "VPS_CAPACITY_UNAVAILABLE"
  }

  /** They are retried, and together with the SSH failures they are all the codes that are. */
  lemma CodesAreCuredExactly(code: string)
    ensures Cured(code) <==>
              || (exists c :: code == PassingText(c))
              || (exists c: SshCode :: code == Text(c) && !c.INVALID_CREDENTIALS? && !c.PORT_BLOCKED?)
  {
    if Cured(code) {
      assert || code == Text(SSH_TIMEOUT) || code == Text(HOST_UNREACHABLE) || code == Text(CONNECTION_RESET)
             || code == Text(SSH_COMMAND_FAILED) || code == Text(SSH_CONNECTION_FAILED)
             || code == PassingText(VPS_CAPACITY_BUSY) || code == PassingText(VPS_CAPACITY_UNAVAILABLE)
             || code == PassingText(ETIMEDOUT) || code == PassingText(ECONNRESET) || code == PassingText(EAI_AGAIN)
             || code == PassingText(EHOSTUNREACH) || code == PassingText(ENETUNREACH);
    }
    forall c: SshCode | code == Text(c) ensures Cured(code) <==> !c.INVALID_CREDENTIALS? && !c.PORT_BLOCKED? {
      CuredExactly(c);
    }
  }

  predicate Blank(s: string) {
    forall i :: 0 <= i < |s| ==> s[i] == ' ' || 9 <= s[i] as int <= 13
  }

  /** The same text in any mixture of capitals and small letters. */
  predicate SpelledLike(s: string, t: string) {
    |s| == |t| && forall i :: 0 <= i < |s| ==> SameLetter(s[i], t[i])
  }

  lemma {:induction false} TrimStartDrops(before: string, s: string)
    requires Blank(before) && s != "" && !IsBlank(s[0])
    ensures TrimStart(before + s) == s
  {
    if before == "" {
      assert before + s == s;
    } else {
      assert IsBlank(before[0]) && (before + s)[1..] == before[1..] + s;
      TrimStartDrops(before[1..], s);
    }
  }

  lemma {:induction false} TrimEndDrops(s: string, after: string)
    requires Blank(after) && s != "" && !IsBlank(s[|s| - 1])
    ensures TrimEnd(s + after) == s
  {
    if after == "" {
      assert s + after == s;
    } else {
      var n := |after| - 1;
      assert IsBlank(after[n]) && (s + after)[..|s| + n] == s + after[..n];
      TrimEndDrops(s, after[..n]);
    }
  }

  /** Blanks around a code and its spelling in small letters do not matter to the decision. */
  lemma SpellingIsIgnored(before: string, code: string, after: string, capitals: string, message: string)
    requires Blank(before) && Blank(after) && SpelledLike(code, capitals)
    requires capitals != "" && forall i :: 0 <= i < |capitals| ==> !('a' <= capitals[i] <= 'z')
    requires !IsBlank(capitals[0]) && !IsBlank(capitals[|capitals| - 1])
    ensures NormalizedCode(Other("", before + code + after, message)) == capitals
    ensures Retryable(Other("", before + code + after, message)) <==> Cured(capitals) || MentionsBusySlot(message)
  {
    assert before + code + after == before + (code + after);
    TrimStartDrops(before, code + after);
    TrimEndDrops(code, after);
    forall i | 0 <= i < |code| ensures UpperChar(code[i]) == capitals[i] {
      assert SameLetter(code[i], capitals[i]);
    }
    assert Mapped(code, UpperChar) == capitals;
  }

  predicate StandsAt(s: string, part: string, i: nat) { i <= |s| && part <= s[i..] }

  lemma {:induction false} IncludesExactly(s: string, part: string)
    ensures Includes(s, part) <==> exists i: nat :: StandsAt(s, part, i)
  {
    if part <= s {
      assert s[0..] == s && StandsAt(s, part, 0);
    } else {
      assert s[0..] == s && !StandsAt(s, part, 0);
      if s != "" {
        IncludesExactly(s[1..], part);
        if i: nat :| StandsAt(s[1..], part, i) {
          assert s[1..][i..] == s[i + 1..] && StandsAt(s, part, i + 1);
        }
        if i: nat :| StandsAt(s, part, i) {
          assert s[1..][i - 1..] == s[i..] && StandsAt(s[1..], part, i - 1);
        }
      }
    }
  }

  /** A message mentions a busy slot exactly when, in small letters, it has one of the two phrases
      somewhere. */
  lemma BusySlotExactly(message: string)
    ensures MentionsBusySlot(message) <==>
              exists i: nat :: || StandsAt(Mapped(message, LowerChar),
                                           "another deployment for this project is already running", i)
                               || StandsAt(Mapped(message, LowerChar), "vps build slot is currently busy", i)
  {
    IncludesExactly(Mapped(message, LowerChar), "another deployment for this project is already running");
    IncludesExactly(Mapped(message, LowerChar), "vps build slot is currently busy");
  }

  lemma NoCode(message: string)
    ensures NormalizedCode(Other("", "", message)) == "DEPLOYMENT_OPERATION_FAILED"
    ensures !Cured("DEPLOYMENT_OPERATION_FAILED")
  {
    NormalFormOf("DEPLOYMENT_OPERATION_FAILED", message);
    assert forall code :: Cured(code) ==> |code| > 0 && code[0] != 'D';
  }

  /** The error code comes first, then the system's code; without either the failure has no code that
      is retried. */
  lemma CodeOfError(errorCode: string, code: string, message: string)
    ensures var e := Other(errorCode, code, message);
            if errorCode != "" then NormalizedCode(e) == NormalizedCode(Other("", errorCode, message))
            else code == "" ==> !Cured(NormalizedCode(e))
  {
    NoCode(message);
  }

  predicate IsCancellation(e: Error) {
    e.Cancellation? || (e.Other? && (e.code == "DEPLOYMENT_CANCELED" || e.errorCode == "DEPLOYMENT_CANCELED"))
  }

  // ---------------------------------------------------------------- the retry decision

  datatype Decision = Decision(retryable: bool, attempt: int, maxAttempts: int, shouldRetry: bool)

  /** `Number(job.opts.attempts || 1)` */
  function Attempts(configured: int): int { if configured == 0 then 1 else configured }

  function RetryDecision(e: Error, attemptsMade: int, configured: int): Decision
    requires e.Other?
  {
    var attempt, attempts := Max(0, attemptsMade) + 1, Max(1, Attempts(configured));
    Decision(Retryable(e), attempt, attempts, Retryable(e) && attempt < attempts)
  }

  // ---------------------------------------------------------------- rows and deliveries

  datatype Job = Job(status: JobStatus, waitReason: WaitReason, retryCount: int)
  datatype Deployment = Deployment(status: DeploymentStatus, domain: Option<string>)
  datatype Rows = Rows(job: Job, deployment: Deployment, reserved: bool)

  /** How the handler ends: it returns, asks to be delayed, or throws. */
  datatype Delivery = Returned | Delayed | Thrown(unrecoverable: bool)

  /** The queue's rule: a delayed job comes back and costs no attempt; one that threw comes back
      while attempts are left, unless the error says otherwise. */
  predicate Redelivers(d: Delivery, attemptsMade: int, configured: int) {
    d.Delayed? || (d.Thrown? && !d.unrecoverable && attemptsMade + 1 < configured)
  }

  /** The operation under the locks.  `Early` fails before `executeDeployment` has begun its
      work; `Executed` ran it, to its end or into its catch block; after `LeaseLost` the work is
      done, but the locks were lost meanwhile. */
  datatype Operation =
    | NoSlot(scope: Scope)
    | Early(error: Error)
    | Executed(failure: Option<Error>, domain: string)
    | LeaseLost(domain: string)

  /** One invocation: the operation; an error while its success is recorded; whether the
      handler's update of the deployment is written, and the reservation given back, both of
      whose errors are ignored; whether its update of the job row is written, whose error ends the
      handler; and whether a reservation is held when the handler ends. */
  datatype Plan = Plan(op: Operation, unsaved: Option<Error>, written: bool, saved: bool, freed: bool, holds: bool)

  predicate Possible(plan: Plan) {
    && (plan.op.Early? ==> plan.op.error.Other?)
    && (plan.op.Executed? && plan.op.failure.Some? ==> !plan.op.failure.value.SlotBusy?)
    && (plan.unsaved.Some? ==> plan.unsaved.value.Other?)
  }

  const LEASE_LOST := Other("", "", "Deployment lock lease was lost; refusing to finalize this release")

  /** What reaches the handler's catch block. */
  function Caught(plan: Plan): Option<Error> {
    match plan.op
    case NoSlot(scope) => Some(SlotBusy(scope))
    case Early(e) => Some(e)
    case LeaseLost(_) => Some(LEASE_LOST)
    case Executed(failure, _) => if failure.Some? then failure else plan.unsaved
  }

  // ---------------------------------------------------------------- one invocation

  /** What `executeDeployment` leaves behind. */
  function AfterExecution(d: Deployment, failure: Option<Error>, domain: string): Deployment {
    if failure.None? then Deployment(RUNNING, Some(domain))
    else if failure.value.Preflight? then
      d.(status := if failure.value.blocked then PREFLIGHT_BLOCKED else AWAITING_PREFLIGHT)
    else if IsCancellation(failure.value) then Deployment(CANCELED, None)
    else Deployment(DeploymentStatus.FAILED, None)
  }

  function AfterOperation(d: Deployment, op: Operation): Deployment {
    match op
    case NoSlot(_) | Early(_) => d
    case Executed(failure, domain) => AfterExecution(d, failure, domain)
    case LeaseLost(domain) => AfterExecution(d, None, domain)
  }

  /** The job row before the handler's own update: marked as running under the locks. */
  function JobAfterOperation(job: Job, op: Operation, attemptsMade: nat): Job {
    if op.NoSlot? then job.(retryCount := attemptsMade) else Job(JobRunning, NO_REASON, attemptsMade)
  }

  /** The handler by what it caught. */
  function Handle(s: Rows, plan: Plan, attemptsMade: nat, configured: int): (r: (Rows, Delivery))
    requires Possible(plan)
  {
    var d, j := AfterOperation(s.deployment, plan.op), JobAfterOperation(s.job, plan.op, attemptsMade);
    var kept := plan.holds && !plan.freed;
    match Caught(plan)
    case None => (Rows(Job(JobSuccess, NO_REASON, attemptsMade), d, kept), Returned)
    case Some(e) =>
      if IsCancellation(e) then
        if !plan.saved then (Rows(j, d, kept), Thrown(false))
        else
          (Rows(Job(JobCanceled, NO_REASON, attemptsMade),
                if plan.written then d.(status := CANCELED) else d, kept), Returned)
      else
        match e
        case Preflight(blocked) =>
          if !plan.saved then (Rows(j, d, kept), Thrown(false))
          else
            var job := if blocked then Job(JobBlocked, BLOCKED_BY_PREFLIGHT, attemptsMade)
                       else Job(JobWaitingApproval, APPROVAL, attemptsMade);
            (Rows(job, d, kept), Returned)
        case SlotBusy(scope) =>
          if !plan.saved then (Rows(j, d, plan.holds), Thrown(false))
          else
            (Rows(Job(JobQueued, if scope.VpsSlot? then VPS_BUSY else PROJECT_BUSY, attemptsMade),
                  if plan.written then Deployment(PENDING, s.deployment.domain) else d, plan.holds), Delayed)
        case Other(_, _, _) =>
          var decision := RetryDecision(e, attemptsMade, configured);
          var row := if !plan.written then d
                     else if decision.shouldRetry then Deployment(PENDING, s.deployment.domain)
                     else d.(status := DeploymentStatus.FAILED);
          var job := if !plan.saved then j
                     else Job(if decision.shouldRetry then JobQueued else JobFailed, NO_REASON, decision.attempt);
          (Rows(job, row, if decision.shouldRetry then plan.holds else kept), Thrown(plan.saved && !decision.retryable))
  }

  class DeploymentWorker {
    var job: Job
    var deployment: Deployment
    var reserved: bool

    constructor (domain: Option<string>, reserved: bool)
      ensures View() == Rows(Job(JobQueued, NO_REASON, 0), Deployment(PENDING, domain), reserved)
    {
      job, deployment, this.reserved := Job(JobQueued, NO_REASON, 0), Deployment(PENDING, domain), reserved;
    }

    ghost function View(): Rows
      reads this
    {
      Rows(job, deployment, reserved)
    }

    /** The last step of `executeDeployment`, or its catch block. */
    method FinishExecution(failure: Option<Error>, domain: string)
      modifies this`deployment
      ensures deployment == AfterExecution(old(deployment), failure, domain)
    {
      if failure.None? {
        deployment := Deployment(RUNNING, Some(domain));
      } else if failure.value.Preflight? {
        deployment := deployment.(status := if failure.value.blocked then PREFLIGHT_BLOCKED else AWAITING_PREFLIGHT);
      } else if IsCancellation(failure.value) {
        deployment := Deployment(CANCELED, None);
      } else {
        deployment := Deployment(DeploymentStatus.FAILED, None);
      }
    }

    /** The operation under the locks: what it throws, if anything. */
    method RunOperation(op: Operation, attemptsMade: nat) returns (thrown: Option<Error>)
      modifies this`job, this`deployment
      ensures deployment == AfterOperation(old(deployment), op)
      ensures job == if op.NoSlot? then old(job) else Job(JobRunning, NO_REASON, attemptsMade)
      ensures thrown == Caught(Plan(op, None, true, true, true, false))
    {
      if op.NoSlot? {
        return Some(SlotBusy(op.scope));
      }
      job := Job(JobRunning, NO_REASON, attemptsMade);
      match op
      case Early(e) =>
        thrown := Some(e);
      case Executed(failure, domain) =>
        FinishExecution(failure, domain);
        thrown := failure;
      case LeaseLost(domain) =>
        FinishExecution(None, domain);
        thrown := Some(LEASE_LOST);
    }

    /** The handler's catch block.  An error of its job-row update leaves it at once. */
    method Recover(caught: Error, domain: Option<string>, plan: Plan, attemptsMade: nat, configured: int, ghost s: Rows)
      returns (retain: bool, delivery: Delivery)
      requires Possible(plan) && Caught(plan) == Some(caught) && s.deployment.domain == domain
      requires deployment == AfterOperation(s.deployment, plan.op)
      requires job == JobAfterOperation(s.job, plan.op, attemptsMade)
      modifies this`job, this`deployment
      ensures (Rows(job, deployment, plan.holds && (retain || !plan.freed)), delivery)
              == Handle(s, plan, attemptsMade, configured)
    {
      retain, delivery := caught.SlotBusy?, Thrown(false);
      if IsCancellation(caught) {
        if plan.saved {
          job, delivery := Job(JobCanceled, NO_REASON, attemptsMade), Returned;
          if plan.written {
            deployment := deployment.(status := CANCELED);
          }
        }
      } else if caught.Preflight? {
        if plan.saved {
          job := if caught.blocked then Job(JobBlocked, BLOCKED_BY_PREFLIGHT, attemptsMade)
                 else Job(JobWaitingApproval, APPROVAL, attemptsMade);
          delivery := Returned;
        }
      } else if caught.SlotBusy? {
        if plan.saved {
          job := Job(JobQueued, if caught.scope.VpsSlot? then VPS_BUSY else PROJECT_BUSY, attemptsMade);
          if plan.written {
            deployment := Deployment(PENDING, domain);
          }
          delivery := Delayed;
        }
      } else {
        var decision := RetryDecision(caught, attemptsMade, configured);
        retain := decision.shouldRetry;
        if decision.shouldRetry && plan.written {
          deployment := Deployment(PENDING, domain);
        } else if plan.written {
          deployment := deployment.(status := DeploymentStatus.FAILED);
        }
        if plan.saved {
          job := Job(if decision.shouldRetry then JobQueued else JobFailed, NO_REASON, decision.attempt);
          delivery := Thrown(!decision.retryable);
        }
      }
    }

    /** The job handler for operation `deploy`. */
    method Process(plan: Plan, attemptsMade: nat, configured: int) returns (delivery: Delivery)
      requires Possible(plan)
      modifies this
      ensures (View(), delivery) == Handle(old(View()), plan, attemptsMade, configured)
    {
      var domain := deployment.domain;
      job := job.(retryCount := attemptsMade);
      var retainReservationForRetry := false;
      var err := RunOperation(plan.op, attemptsMade);
      if err.None? && plan.unsaved.None? {
        job := Job(JobSuccess, NO_REASON, attemptsMade);
        delivery := Returned;
      } else {
        var caught := if err.Some? then err.value else plan.unsaved.value;
        retainReservationForRetry, delivery := Recover(caught, domain, plan, attemptsMade, configured, old(View()));
      }
      reserved := plan.holds && (retainReservationForRetry || !plan.freed);
    }
  }

  // ---------------------------------------------------------------- what one invocation guarantees

  predicate Agree(job: JobStatus, deployment: DeploymentStatus) {
    match job
    case JobSuccess => deployment == RUNNING
    case JobQueued => deployment == PENDING
    case JobFailed => deployment == DeploymentStatus.FAILED
    case JobCanceled => deployment == CANCELED
    case JobBlocked => deployment == PREFLIGHT_BLOCKED
    case JobWaitingApproval => deployment == AWAITING_PREFLIGHT
    case JobRunning => false
  }

  /** After every invocation whose two row updates are written, the job row and the deployment
      row tell the same story. */
  lemma RowsAgree(s: Rows, plan: Plan, attemptsMade: nat, configured: int)
    requires Possible(plan) && plan.written && plan.saved
    ensures var t := Handle(s, plan, attemptsMade, configured).0; Agree(t.job.status, t.deployment.status)
  {
  }

  /** The job row says QUEUED exactly when the queue delivers the job again, if its update was
      written; otherwise exactly when the old row happened to say so. */
  lemma QueuedIffRedelivered(s: Rows, plan: Plan, attemptsMade: nat, configured: int)
    requires Possible(plan)
    ensures var (t, delivery) := Handle(s, plan, attemptsMade, configured);
            var before := JobAfterOperation(s.job, plan.op, attemptsMade);
            (t.job.status.JobQueued? <==> Redelivers(delivery, attemptsMade, configured))
            <==> plan.saved || Caught(plan).None?
                 || (before.status.JobQueued? <==> attemptsMade + 1 < configured)
  {
  }

  /** What the job row tells when it is written: how the invocation ended, what is waited for, and how
      many attempts have been used. */
  lemma JobRowTells(s: Rows, plan: Plan, attemptsMade: nat, configured: int)
    requires Possible(plan) && plan.saved
    ensures var job, caught := Handle(s, plan, attemptsMade, configured).0.job, Caught(plan);
            if caught.None? then job.waitReason == NO_REASON && job.retryCount == attemptsMade
            else if IsCancellation(caught.value) then job.waitReason == NO_REASON && job.retryCount == attemptsMade
            else match caught.value
                 case SlotBusy(ProjectSlot) => job.waitReason == PROJECT_BUSY && job.retryCount == attemptsMade
                 case SlotBusy(VpsSlot) => job.waitReason == VPS_BUSY && job.retryCount == attemptsMade
                 case Preflight(blocked) =>
                   && job.waitReason == (if blocked then BLOCKED_BY_PREFLIGHT else APPROVAL)
                   && job.retryCount == attemptsMade
                 case _ => job.waitReason == NO_REASON && job.retryCount == attemptsMade + 1
    ensures var job, caught := Handle(s, plan, attemptsMade, configured).0.job, Caught(plan);
            && (job.status.JobSuccess? <==> caught.None?)
            && (job.status.JobCanceled? <==> caught.Some? && IsCancellation(caught.value))
            && (job.status.JobBlocked? <==> caught == Some(Preflight(true)))
            && (job.status.JobWaitingApproval? <==> caught == Some(Preflight(false)))
  {
  }

  /** How the domain of the deployment row comes out when the handler's update is written: kept by a
      repeated attempt, set by a success, and taken away by work that failed or was cancelled for good. */
  lemma DomainTells(s: Rows, plan: Plan, attemptsMade: nat, configured: int)
    requires Possible(plan) && plan.written && plan.saved && plan.op.Executed? && plan.unsaved.None?
    ensures var d := Handle(s, plan, attemptsMade, configured).0.deployment;
            if plan.op.failure.None? then d.domain == Some(plan.op.domain)
            else if plan.op.failure.value.Preflight? || KeepsForRetry(plan, attemptsMade, configured)
            then d.domain == s.deployment.domain
            else d.domain.None?
  {
  }

  /** An attempt is repeated exactly for a failure that may pass and while attempts are left. */
  lemma RetriedExactly(e: Error, attemptsMade: nat, configured: int)
    requires e.Other?
    ensures var decision := RetryDecision(e, attemptsMade, configured);
            && (decision.shouldRetry <==> Retryable(e) && attemptsMade + 1 < configured)
            && decision.attempt == attemptsMade + 1
  {
  }

  /** The handler means to keep the reservation for another attempt. */
  predicate KeepsForRetry(plan: Plan, attemptsMade: nat, configured: int)
    requires Possible(plan)
  {
    var caught := Caught(plan);
    && caught.Some? && !IsCancellation(caught.value)
    && (|| caught.value.SlotBusy?
        || (caught.value.Other? && RetryDecision(caught.value, attemptsMade, configured).shouldRetry))
  }

  /** A reservation that is still held is one kept for another attempt, or one whose giving back
      failed; and it is kept exactly while the job is queued, as far as the row was written. */
  lemma ReservedOnlyWhileQueued(s: Rows, plan: Plan, attemptsMade: nat, configured: int)
    requires Possible(plan)
    ensures var t := Handle(s, plan, attemptsMade, configured).0;
            t.reserved <==> plan.holds && (KeepsForRetry(plan, attemptsMade, configured) || !plan.freed)
    ensures plan.saved ==>
              (KeepsForRetry(plan, attemptsMade, configured)
               <==> Handle(s, plan, attemptsMade, configured).0.job.status.JobQueued?)
  {
  }

  /** The handler writes the row back for another attempt. */
  predicate WritesBack(plan: Plan, attemptsMade: nat, configured: int)
    requires Possible(plan)
  {
    plan.written && KeepsForRetry(plan, attemptsMade, configured) && (Caught(plan).value.SlotBusy? ==> plan.saved)
  }

  /** The handler marks the row as failed for good. */
  predicate MarksFailed(plan: Plan, attemptsMade: nat, configured: int)
    requires Possible(plan)
  {
    && plan.written && Caught(plan).Some? && Caught(plan).value.Other? && !IsCancellation(Caught(plan).value)
    && !KeepsForRetry(plan, attemptsMade, configured)
  }

  /** A repeated attempt starts from the row the first one started from exactly when the handler's
      update, whose error is ignored, was written, or nothing at all had been done to the row. */
  lemma NextAttemptStartsAlike(s: Rows, plan: Plan, attemptsMade: nat, configured: int)
    requires Possible(plan) && Redelivers(Handle(s, plan, attemptsMade, configured).1, attemptsMade, configured)
    ensures Handle(s, plan, attemptsMade, configured).0.deployment == Deployment(PENDING, s.deployment.domain)
            <==> || WritesBack(plan, attemptsMade, configured)
                 || (s.deployment.status.PENDING? && (plan.op.NoSlot? || plan.op.Early?)
                     && !MarksFailed(plan, attemptsMade, configured))
  {
  }

  /** The work of the deployment ran to its end. */
  predicate WorkDone(plan: Plan) { plan.op.LeaseLost? || (plan.op.Executed? && plan.op.failure.None?) }

  /** It is reported as a success exactly when no lease was lost meanwhile and recording it did
      not fail: both stand inside the same try block as the work. */
  lemma SuccessIsKeptExactly(s: Rows, plan: Plan, attemptsMade: nat, configured: int)
    requires Possible(plan) && WorkDone(plan)
    ensures AfterOperation(s.deployment, plan.op).status == RUNNING
    ensures Handle(s, plan, attemptsMade, configured).0.job.status.JobSuccess?
            <==> !plan.op.LeaseLost? && plan.unsaved.None?
  {
  }

  // ---------------------------------------------------------------- all attempts

  /** The queue's view of a job: attempts that failed so far, and whether it comes again. */
  datatype Run = Run(rows: Rows, attemptsMade: nat, failures: nat, live: bool)

  function Deliver(r: Run, plan: Plan, configured: int): Run
    requires r.live && Possible(plan)
  {
    var (rows, delivery) := Handle(r.rows, plan, r.attemptsMade, configured);
    var failed := if delivery.Thrown? then 1 else 0;
    Run(rows, r.attemptsMade + failed, r.failures + failed, Redelivers(delivery, r.attemptsMade, configured))
  }

  ghost predicate IsRun(rs: seq<Run>, plans: seq<Plan>, configured: int) {
    && |rs| == |plans| + 1
    && forall i {:trigger plans[i]} :: 0 <= i < |plans| ==>
        rs[i].live && Possible(plans[i]) && rs[i + 1] == Deliver(rs[i], plans[i], configured)
  }

  predicate Written(plan: Plan) { plan.written && plan.saved && plan.freed }

  ghost predicate RunOk(r: Run, domain: Option<string>, configured: int) {
    && r.failures == r.attemptsMade
    && r.failures <= Max(1, Attempts(configured))
    && Agree(r.rows.job.status, r.rows.deployment.status)
    && (r.live <==> r.rows.job.status.JobQueued?)
    && (r.live ==> r.failures < Max(1, Attempts(configured)) && r.rows.deployment == Deployment(PENDING, domain))
    && (!r.live ==> !r.rows.reserved)
  }

  lemma DeliverKeepsOk(r: Run, plan: Plan, domain: Option<string>, configured: int)
    requires RunOk(r, domain, configured) && r.live && Possible(plan) && Written(plan)
    ensures RunOk(Deliver(r, plan, configured), domain, configured)
  {
    RowsAgree(r.rows, plan, r.attemptsMade, configured);
    QueuedIffRedelivered(r.rows, plan, r.attemptsMade, configured);
    ReservedOnlyWhileQueued(r.rows, plan, r.attemptsMade, configured);
    if Deliver(r, plan, configured).live {
      NextAttemptStartsAlike(r.rows, plan, r.attemptsMade, configured);
    }
  }

  /** Whatever happens in each attempt: every attempt starts from PENDING and the original domain,
      failures never exceed the configured attempts, the rows agree after every invocation, and
      once the job is over nothing stays reserved. */
  lemma {:induction false} EveryAttemptStartsAlike(rs: seq<Run>, plans: seq<Plan>, configured: int,
          domain: Option<string>, i: nat)
    requires IsRun(rs, plans, configured) && i < |rs| && forall k :: 0 <= k < |plans| ==> Written(plans[k])
    requires rs[0].live && rs[0].failures == rs[0].attemptsMade == 0 && rs[0].rows.job.status.JobQueued?
    requires rs[0].rows.deployment == Deployment(PENDING, domain)
    ensures RunOk(rs[i], domain, configured)
  {
    if i > 0 {
      EveryAttemptStartsAlike(rs, plans, configured, domain, i - 1);
      DeliverKeepsOk(rs[i - 1], plans[i - 1], domain, configured);
    }
  }

  /** The delivery found no slot, and says so in the job row. */
  predicate Waits(plan: Plan) { plan.op.NoSlot? && plan.saved }

  /** How many of the first `n` deliveries did. */
  function SlotWaits(plans: seq<Plan>, n: nat): nat
    requires n <= |plans|
  {
    if n == 0 then 0 else SlotWaits(plans, n - 1) + if Waits(plans[n - 1]) then 1 else 0
  }

  lemma DeliveryCounts(r: Run, plan: Plan, configured: int)
    requires r.live && Possible(plan)
    ensures var t := Deliver(r, plan, configured);
            && r.failures <= t.failures <= r.failures + 1
            && (Waits(plan) ==> t.live && t.failures == r.failures)
            && (!Waits(plan) && t.live ==> t.failures == r.failures + 1)
  {
  }

  /** Waiting for a slot costs no attempt: as long as the job comes again, every delivery was
      such a wait or a failure. */
  lemma {:induction false} WaitsAreFree(rs: seq<Run>, plans: seq<Plan>, configured: int, n: nat)
    requires IsRun(rs, plans, configured) && rs[0].failures == 0 && n <= |plans|
    ensures rs[n].live ==> n == SlotWaits(plans, n) + rs[n].failures
  {
    if n > 0 {
      WaitsAreFree(rs, plans, configured, n - 1);
      DeliveryCounts(rs[n - 1], plans[n - 1], configured);
    }
  }

  lemma {:induction false} AttemptsAreLeft(rs: seq<Run>, plans: seq<Plan>, configured: int, domain: Option<string>,
          i: nat)
    requires IsRun(rs, plans, configured) && i < |plans| && forall k :: 0 <= k < |plans| ==> Written(plans[k])
    requires rs[0].live && rs[0].failures == rs[0].attemptsMade == 0 && rs[0].rows.job.status.JobQueued?
    requires rs[0].rows.deployment == Deployment(PENDING, domain)
    ensures rs[i].live && rs[i].failures < Max(1, Attempts(configured))
  {
    EveryAttemptStartsAlike(rs, plans, configured, domain, i);
    assert Written(plans[i]);
  }

  /** A job is executed at most as often as it has attempts, however long it waits for slots. */
  lemma {:induction false} ExecutedAtMostAttemptsTimes(rs: seq<Run>, plans: seq<Plan>, configured: int,
          domain: Option<string>)
    requires IsRun(rs, plans, configured) && forall k :: 0 <= k < |plans| ==> Written(plans[k])
    requires rs[0].live && rs[0].failures == rs[0].attemptsMade == 0 && rs[0].rows.job.status.JobQueued?
    requires rs[0].rows.deployment == Deployment(PENDING, domain)
    ensures |plans| <= SlotWaits(plans, |plans|) + Max(1, Attempts(configured))
  {
    if plans != [] {
      AttemptsAreLeft(rs, plans, configured, domain, |plans| - 1);
      WaitsAreFree(rs, plans, configured, |plans| - 1);
    }
  }
}
