// The step workflow run by the process detail page
// (src/pages/DetalheProcessoPage.tsx): forwarding a process to the next
// assignee, commenting on the current step, and setting the final status.
//
// The page keeps `process: Process | null` as component state. Its handlers
// copy the record shallowly and then edit the shared `steps` list in place
// (`steps[currentStep] = …`, `steps.push(…)`, `comments.push(…)`,
// `currentStep += 1`); `DetailPage` below does the same edits on its state,
// and the functions `Advanced`, `Commented` and `StatusUpdated` state what
// each handler computes.

module Workflow {
  import opened Types
  import opened Text

  /** The statuses `handleUpdateStatus` accepts: 'completed' | 'cancelled'. */
  type FinalStatus = s: ProcessStatus | s == Completed || s == Cancelled witness Completed

  /** Why a handler could not finish. */
  datatype WorkflowError =
    /** `steps[currentStep]` is undefined, so reading `.comments` throws. */
    NoCurrentStep

  /** `users.find(user => user.id === id)`: the first user with that id. */
  function FindUser(users: seq<User>, id: string): (r: Option<User>)
    ensures r.Some? ==> r.value.id == id
    ensures r.Some? ==>
      exists i :: 0 <= i < |users| && users[i] == r.value && forall j :: 0 <= j < i ==> users[j].id != id
    ensures r.None? <==> forall i :: 0 <= i < |users| ==> users[i].id != id
    decreases |users|
  {
    if users == [] then None
    else if users[0].id == id then Some(users[0])
    else
      var r := FindUser(users[1..], id);
      assert forall i :: 1 <= i < |users| ==> users[i] == users[1..][i - 1];
      r
  }

  /** The new assignee: the user with `id`, or `users[0]` when nobody has it. */
  function ResolveAssignee(users: seq<User>, id: string): (u: User)
    requires |users| > 0
    ensures u in users
    ensures (exists i :: 0 <= i < |users| && users[i].id == id) ==> u.id == id
    ensures (forall i :: 0 <= i < |users| ==> users[i].id != id) ==> u == users[0]
    ensures FindUser(users, id).Some? ==> u == FindUser(users, id).value
  {
    match FindUser(users, id)
    case Some(u) => u
    case None => users[0]
  }

  /** The identifier of the `n`-th step, `step-${n}`. */
  function StepId(n: nat): string
  {
    "step-" + NatToString(n)
  }

  lemma StepIdInjective(m: nat, n: nat)
    ensures StepId(m) == StepId(n) ==> m == n
  {
    PrefixedInjective("step-", m, n);
  }

  /** The step appended when the process is forwarded. */
  function NewStep(users: seq<User>, nextUserId: string, instructions: string, stepCount: nat, now: nat): (r: ProcessStep)
    requires |users| > 0
    ensures r.id == StepId(stepCount + 1)
    ensures r.title == "Nova etapa" && r.description == instructions
    ensures r.assignedTo == ResolveAssignee(users, nextUserId) && r.assignedTo in users
    ensures r.status == Pending && r.completedAt == None && r.startedAt == Some(now)
    ensures r.documents == [] && r.comments == []
  {
    ProcessStep(
      StepId(stepCount + 1), "Nova etapa", instructions, ResolveAssignee(users, nextUserId),
      Pending, [], [], Some(now), None)
  }

  /** The current step, marked completed at `now`. */
  function Closed(step: ProcessStep, now: nat): (r: ProcessStep)
    ensures r.status == StepCompleted && r.completedAt == Some(now)
    ensures r.(status := step.status, completedAt := step.completedAt) == step
  {
    step.(status := StepCompleted, completedAt := Some(now))
  }

  /** What `handleMoveToNextStep` turns a loaded process into. */
  function Advanced(p: Process, users: seq<User>, nextUserId: string, instructions: string, now: nat): (r: Process)
    requires |users| > 0
    ensures |r.steps| == |p.steps| + 1
    ensures r.currentStep == p.currentStep + 1
    ensures r.(steps := p.steps, currentStep := p.currentStep) == p
    ensures forall i :: 0 <= i < |p.steps| && i != p.currentStep ==> r.steps[i] == p.steps[i]
    ensures p.currentStep < |p.steps| ==>
      r.steps[p.currentStep] == p.steps[p.currentStep].(status := StepCompleted, completedAt := Some(now))
    ensures r.steps[|p.steps|] == NewStep(users, nextUserId, instructions, |p.steps|, now)
  {
    var closed := if p.currentStep < |p.steps| then p.steps[p.currentStep := Closed(p.steps[p.currentStep], now)]
                  else p.steps;
    p.(steps := closed + [NewStep(users, nextUserId, instructions, |p.steps|, now)],
       currentStep := p.currentStep + 1)
  }

  /** The comment `handleAddComment` creates; its id is `comment-${Date.now()}`. */
  function NewComment(text: string, author: User, now: nat): (r: Comment)
    ensures r.text == text && r.createdBy == author && r.createdAt == now
  {
    Comment("comment-" + NatToString(now), text, now, author)
  }

  /** Comments created at different clock readings get different ids. */
  lemma NewCommentIdsDistinct(text1: string, author1: User, m: nat, text2: string, author2: User, n: nat)
    ensures NewComment(text1, author1, m).id == NewComment(text2, author2, n).id ==> m == n
  {
    PrefixedInjective("comment-", m, n);
  }

  /** What `handleAddComment` turns a loaded process into, or the error it throws. */
  function Commented(p: Process, text: string, author: User, now: nat): (r: Result<Process, WorkflowError>)
    ensures r.Err? <==> p.currentStep >= |p.steps|
    ensures r.Ok? ==>
      && r.value.(steps := p.steps) == p
      && |r.value.steps| == |p.steps|
      && (forall i :: 0 <= i < |p.steps| && i != p.currentStep ==> r.value.steps[i] == p.steps[i])
      && r.value.steps[p.currentStep].(comments := p.steps[p.currentStep].comments) == p.steps[p.currentStep]
      && r.value.steps[p.currentStep].comments == p.steps[p.currentStep].comments + [NewComment(text, author, now)]
  {
    if p.currentStep < |p.steps| then
      var step := p.steps[p.currentStep];
      Ok(p.(steps := p.steps[p.currentStep := step.(comments := step.comments + [NewComment(text, author, now)])]))
    else
      Err(NoCurrentStep)
  }

  /** What `handleUpdateStatus` turns a loaded process into: only the status changes. */
  function StatusUpdated(p: Process, status: FinalStatus): (r: Process)
    ensures r.status == status
    ensures r.(status := p.status) == p
  {
    p.(status := status)
  }

  // Properties of the workflow.

  /**
   * Steps before the current one are closed (completed or rejected) and the
   * current index never passes the end of the list.
   */
  ghost predicate PastStepsClosed(p: Process)
  {
    && p.currentStep <= |p.steps|
    && forall i :: 0 <= i < p.currentStep ==> p.steps[i].status in {StepCompleted, Rejected}
  }

  /** Forwarding from a process that has a current step keeps past steps closed. */
  lemma AdvanceKeepsPastStepsClosed(p: Process, users: seq<User>, nextUserId: string, instructions: string, now: nat)
    requires |users| > 0
    requires PastStepsClosed(p) && p.currentStep < |p.steps|
    ensures PastStepsClosed(Advanced(p, users, nextUserId, instructions, now))
  {
    var r := Advanced(p, users, nextUserId, instructions, now);
    forall i | 0 <= i < r.currentStep
      ensures r.steps[i].status in {StepCompleted, Rejected}
    {
      if i < p.currentStep {
        assert r.steps[i] == p.steps[i];
      }
    }
  }

  /**
   * Forwarding a process that has no current step appends a pending step
   * that is already behind the current index: the page never guards against
   * it, the detail view does (the forward panel needs a current step).
   */
  lemma AdvanceWhenFinalizedLeavesPendingPastStep(p: Process, users: seq<User>, nextUserId: string, instructions: string, now: nat)
    requires |users| > 0
    requires p.currentStep >= |p.steps|
    ensures !PastStepsClosed(Advanced(p, users, nextUserId, instructions, now))
  {
    var r := Advanced(p, users, nextUserId, instructions, now);
    assert r.steps[|p.steps|].status == Pending;
  }

  /** The current step is the last one, as in a process created with one step. */
  predicate AtLastStep(p: Process)
  {
    p.currentStep + 1 == |p.steps|
  }

  /**
   * With steps already planned after the current one, forwarding makes the
   * next planned step current; the chosen user's step waits at the end.
   */
  lemma AdvanceWithPlannedStepSkipsAssignee(p: Process, users: seq<User>, nextUserId: string, instructions: string, now: nat)
    requires |users| > 0
    requires p.currentStep + 1 < |p.steps|
    ensures var r := Advanced(p, users, nextUserId, instructions, now);
      && r.steps[r.currentStep] == p.steps[p.currentStep + 1]
      && r.steps[|r.steps| - 1] == NewStep(users, nextUserId, instructions, |p.steps|, now)
      && r.currentStep < |r.steps| - 1
  {
  }

  /**
   * When the current step is the last one, forwarding hands the process to
   * the resolved assignee: the new current step is the appended one.
   */
  lemma AdvanceForwardsToAssignee(p: Process, users: seq<User>, nextUserId: string, instructions: string, now: nat)
    requires |users| > 0
    requires AtLastStep(p)
    ensures var r := Advanced(p, users, nextUserId, instructions, now);
      && AtLastStep(r)
      && r.steps[r.currentStep].assignedTo == ResolveAssignee(users, nextUserId)
      && r.steps[r.currentStep].status == Pending
      && r.steps[p.currentStep].status == StepCompleted
  {
  }

  /** Step `i` (counting from 0) is called `step-{i+1}`. */
  ghost predicate StepsNumbered(p: Process)
  {
    forall i :: 0 <= i < |p.steps| ==> p.steps[i].id == StepId(i + 1)
  }

  lemma {:induction false} AdvanceKeepsStepsNumbered(p: Process, users: seq<User>, nextUserId: string, instructions: string, now: nat)
    requires |users| > 0
    requires StepsNumbered(p)
    ensures StepsNumbered(Advanced(p, users, nextUserId, instructions, now))
  {
    var r := Advanced(p, users, nextUserId, instructions, now);
    forall i | 0 <= i < |r.steps| ensures r.steps[i].id == StepId(i + 1) {
      if i < |p.steps| && i != p.currentStep {
        assert r.steps[i] == p.steps[i];
      }
    }
  }

  /** In a numbered process no two steps share an identifier. */
  lemma NumberedStepIdsDistinct(p: Process, i: int, j: int)
    requires StepsNumbered(p)
    requires 0 <= i < j < |p.steps|
    ensures p.steps[i].id != p.steps[j].id
  {
    StepIdInjective(i + 1, j + 1);
  }

  /** Commenting neither moves the current step nor changes any step status. */
  lemma CommentKeepsPastStepsClosed(p: Process, text: string, author: User, now: nat)
    requires PastStepsClosed(p)
    ensures Commented(p, text, author, now).Ok? ==> PastStepsClosed(Commented(p, text, author, now).value)
  {
    var r := Commented(p, text, author, now);
    if r.Ok? {
      forall i | 0 <= i < p.currentStep ensures r.value.steps[i].status in {StepCompleted, Rejected} {
        assert r.value.steps[i] == p.steps[i];
      }
    }
  }

  /** The status update does not look at the previous status: the last call wins. */
  lemma StatusUpdateLastWins(p: Process, first: FinalStatus, second: FinalStatus)
    ensures StatusUpdated(StatusUpdated(p, first), second) == StatusUpdated(p, second)
  {
  }

  /** The component state of the detail page. */
  class DetailPage {
    var process: Option<Process>
    /** The page's fixed user list; the simulated login is its first entry. */
    const users: seq<User>
    const currentUser: User

    ghost predicate Valid()
      reads this
    {
      |users| > 0 && currentUser == users[0]
    }

    /** The page starts with nothing loaded. */
    constructor (users: seq<User>)
      requires |users| > 0
      ensures Valid() && this.users == users && process == None
    {
      this.users := users;
      this.currentUser := users[0];
      this.process := None;
    }

    /** The (simulated) load that fills the page. */
    method Load(p: Process)
      modifies this
      ensures process == Some(p)
    {
      process := Some(p);
    }

    method MoveToNextStep(nextUserId: string, instructions: string, files: seq<File>, now: nat)
      requires Valid()
      modifies this
      ensures old(process).None? ==> process == None
      ensures old(process).Some? ==> process == Some(Advanced(old(process).value, users, nextUserId, instructions, now))
    {
      if process.Some? {
        var updated := process.value;
        var newStep := NewStep(users, nextUserId, instructions, |updated.steps|, now);
        if updated.currentStep < |updated.steps| {
          var current := updated.steps[updated.currentStep];
          updated := updated.(steps := updated.steps[updated.currentStep := current.(status := StepCompleted, completedAt := Some(now))]);
        }
        updated := updated.(steps := updated.steps + [newStep]);
        updated := updated.(currentStep := updated.currentStep + 1);
        process := Some(updated);
      }
    }

    /** `thrown` reports the TypeError raised when there is no current step. */
    method AddComment(text: string, files: seq<File>, now: nat) returns (thrown: bool)
      requires Valid()
      modifies this
      ensures thrown <==> old(process).Some? && old(process).value.currentStep >= |old(process).value.steps|
      ensures old(process).None? || thrown ==> process == old(process)
      ensures old(process).Some? && !thrown ==>
        process == Some(Commented(old(process).value, text, currentUser, now).value)
    {
      thrown := false;
      if process.Some? {
        var updated := process.value;
        var newComment := Comment("comment-" + NatToString(now), text, now, currentUser);
        if updated.currentStep >= |updated.steps| {
          thrown := true;
          return;
        }
        var step := updated.steps[updated.currentStep];
        step := step.(comments := step.comments + [newComment]);
        updated := updated.(steps := updated.steps[updated.currentStep := step]);
        process := Some(updated);
      }
    }

    method UpdateStatus(status: FinalStatus)
      modifies this
      ensures old(process).None? ==> process == None
      ensures old(process).Some? ==> process == Some(StatusUpdated(old(process).value, status))
    {
      if process.Some? {
        process := Some(process.value.(status := status));
      }
    }
  }
}
