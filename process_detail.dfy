// The process detail view (src/components/Processos/ProcessDetail.tsx): what
// it derives from a process (who holds the current step, which actions it
// offers, how each step and each document is shown) and the input state it
// keeps before handing a comment or a forward request to the page.

module ProcessDetail {
  import opened Types
  import opened Text
  import opened FileLists
  import opened Workflow

  /** `isCurrentStepAssignedToMe`. */
  predicate IsCurrentStepAssignedToMe(p: Process, me: User)
  {
    p.currentStep < |p.steps| && p.steps[p.currentStep].assignedTo.id == me.id
  }

  /** `isProcessActive`. */
  predicate IsProcessActive(p: Process)
  {
    p.status == Ongoing
  }

  /** The buttons and panels the view renders for the current user. */
  datatype Actions = Actions(complete: bool, cancel: bool, forward: bool, comment: bool)

  function AvailableActions(p: Process, me: User): (a: Actions)
    ensures a.complete <==> p.status == Ongoing && p.currentStep < |p.steps| && p.steps[p.currentStep].assignedTo.id == me.id
    ensures a.forward <==> a.complete
    ensures a.cancel <==> p.status == Ongoing
    ensures a.comment
  {
    var active := IsProcessActive(p);
    var mine := IsCurrentStepAssignedToMe(p, me);
    Actions(active && mine, active, active && mine, true)
  }

  /** Whoever may complete the process may also cancel it. */
  lemma CompleteImpliesCancel(p: Process, me: User)
    ensures AvailableActions(p, me).complete ==> AvailableActions(p, me).cancel
  {
  }

  /**
   * When the current step is the last one and the forward panel is shown,
   * forwarding keeps past steps closed and the current step assigned to the
   * resolved user; the panel stays visible to the forwarder only when that
   * user is the forwarder.
   */
  lemma ForwardFromPanel(p: Process, me: User, users: seq<User>, nextUserId: string, instructions: string, now: nat)
    requires |users| > 0
    requires AvailableActions(p, me).forward
    requires AtLastStep(p) && PastStepsClosed(p)
    ensures var r := Advanced(p, users, nextUserId, instructions, now);
      && PastStepsClosed(r)
      && AtLastStep(r)
      && (AvailableActions(r, me).forward <==> ResolveAssignee(users, nextUserId).id == me.id)
  {
    AdvanceKeepsPastStepsClosed(p, users, nextUserId, instructions, now);
    AdvanceForwardsToAssignee(p, users, nextUserId, instructions, now);
  }

  /**
   * The comment box is offered whatever the status, also when there is no
   * current step; the page's comment handler then throws.
   */
  lemma CommentOfferedWithoutCurrentStep(p: Process, me: User, text: string, now: nat)
    requires p.currentStep >= |p.steps|
    ensures AvailableActions(p, me).comment
    ensures Commented(p, text, me, now) == Err(NoCurrentStep)
  {
  }

  /** Who the sidebar shows as the current assignee; `None` reads "finalized". */
  function CurrentAssignee(p: Process): (r: Option<User>)
    ensures r.Some? <==> p.currentStep < |p.steps|
    ensures r.Some? ==> r.value == p.steps[p.currentStep].assignedTo
  {
    if p.currentStep < |p.steps| then Some(p.steps[p.currentStep].assignedTo) else None
  }

  /** How a step of the timeline is drawn relative to the current step. */
  datatype StepPhase = Past | Current | Future

  function Phase(index: nat, currentStep: nat): (r: StepPhase)
    ensures r == Past <==> index < currentStep
    ensures r == Current <==> index == currentStep
    ensures r == Future <==> index > currentStep
  {
    var isCurrentStep := index == currentStep;
    var isPastStep := index < currentStep;
    if isCurrentStep then Current else if isPastStep then Past else Future
  }

  /** In a process whose past steps are closed, no step drawn as past is pending. */
  lemma PastPhaseStepsClosed(p: Process, i: nat)
    requires PastStepsClosed(p)
    requires i < |p.steps| && Phase(i, p.currentStep) == Past
    ensures p.steps[i].status != Pending && p.steps[i].status != InProgress
  {
  }

  /** The icon shown beside a document. */
  datatype Icon = ImageIcon | TextIcon

  const ImageTypes: seq<string> := ["jpg", "jpeg", "png", "gif", "bmp", "svg"]

  function DocumentIcon(fileType: string): (r: Icon)
    ensures r == ImageIcon <==> Lower(fileType) in ImageTypes
  {
    if Lower(fileType) in ImageTypes then ImageIcon else TextIcon
  }

  /** The choice of icon ignores letter case. */
  lemma DocumentIconIgnoresCase(fileType: string)
    ensures DocumentIcon(Lower(fileType)) == DocumentIcon(fileType)
  {
    LowerIdempotent(fileType);
  }

  /** Two types that differ only in letter case get the same icon. */
  lemma DocumentIconSameForSameLowerCase(a: string, b: string)
    requires Lower(a) == Lower(b)
    ensures DocumentIcon(a) == DocumentIcon(b)
  {
  }

  /** Nothing to send: blank text (after trimming) and no attached file. */
  predicate IsEmptyComment(text: string, files: seq<File>)
  {
    Trim(text) == "" && |files| == 0
  }

  /** A comment is refused exactly when its text is whitespace and it has no file. */
  lemma EmptyCommentIsWhitespaceOnly(text: string, files: seq<File>)
    ensures IsEmptyComment(text, files) <==> AllSpace(text) && files == []
  {
    TrimEmpty(text);
  }

  /** The arguments passed to `onAddComment`. */
  datatype CommentRequest = CommentRequest(text: string, files: seq<File>)

  /** The arguments passed to `onMoveToNextStep`. */
  datatype ForwardRequest = ForwardRequest(nextUserId: string, instructions: string, files: seq<File>)

  /** A snapshot of the view's input state. */
  datatype PanelState = PanelState(
    commentText: string,
    nextStepText: string,
    nextUserId: string,
    uploadedFiles: seq<File>,
    nextStepFiles: seq<File>,
    showCompleteDialog: bool)

  /** The input state of the detail view. */
  class DetailPanel {
    var commentText: string
    var nextStepText: string
    var nextUserId: string
    var uploadedFiles: seq<File>
    var nextStepFiles: seq<File>
    var showCompleteDialog: bool

    function State(): PanelState
      reads this
    {
      PanelState(commentText, nextStepText, nextUserId, uploadedFiles, nextStepFiles, showCompleteDialog)
    }

    constructor ()
      ensures State() == PanelState("", "", "", [], [], false)
    {
      commentText, nextStepText, nextUserId := "", "", "";
      uploadedFiles, nextStepFiles := [], [];
      showCompleteDialog := false;
    }

    method SetCommentText(text: string)
      modifies this
      ensures State() == old(State()).(commentText := text)
    {
      commentText := text;
    }

    method SetNextStepText(text: string)
      modifies this
      ensures State() == old(State()).(nextStepText := text)
    {
      nextStepText := text;
    }

    method SelectNextUser(id: string)
      modifies this
      ensures State() == old(State()).(nextUserId := id)
    {
      nextUserId := id;
    }

    /** `handleFileChange`: `picked` is `e.target.files`, which may be null. */
    method HandleFileChange(picked: Option<seq<File>>, isNextStep: bool)
      modifies this
      ensures picked.None? ==> State() == old(State())
      ensures picked.Some? && isNextStep ==> State() == old(State()).(nextStepFiles := old(nextStepFiles) + picked.value)
      ensures picked.Some? && !isNextStep ==> State() == old(State()).(uploadedFiles := old(uploadedFiles) + picked.value)
    {
      if picked.Some? {
        if isNextStep {
          nextStepFiles := nextStepFiles + picked.value;
        } else {
          uploadedFiles := uploadedFiles + picked.value;
        }
      }
    }

    method RemoveFile(index: int, isNextStep: bool)
      modifies this
      ensures isNextStep ==> State() == old(State()).(nextStepFiles := RemoveAt(old(nextStepFiles), index))
      ensures !isNextStep ==> State() == old(State()).(uploadedFiles := RemoveAt(old(uploadedFiles), index))
    {
      if isNextStep {
        nextStepFiles := RemoveAt(nextStepFiles, index);
      } else {
        uploadedFiles := RemoveAt(uploadedFiles, index);
      }
    }

    /**
     * `handleAddComment`: `sent` is what `onAddComment` receives, if it is
     * called; `callbackOk` says whether `onAddComment` returned without
     * throwing. The inputs are cleared only after it returns.
     */
    method HandleAddComment(callbackOk: bool) returns (sent: Option<CommentRequest>)
      modifies this
      ensures IsEmptyComment(old(commentText), old(uploadedFiles)) ==> sent == None && State() == old(State())
      ensures !IsEmptyComment(old(commentText), old(uploadedFiles)) ==>
        && sent == Some(CommentRequest(old(commentText), old(uploadedFiles)))
        && (callbackOk ==> State() == old(State()).(commentText := "", uploadedFiles := []))
        && (!callbackOk ==> State() == old(State()))
    {
      if Trim(commentText) == "" && |uploadedFiles| == 0 {
        return None;
      }
      sent := Some(CommentRequest(commentText, uploadedFiles));
      if callbackOk {
        commentText := "";
        uploadedFiles := [];
      }
    }

    /** `handleMoveToNextStep`: `sent` is what `onMoveToNextStep` receives, if it is called. */
    method HandleMoveToNextStep() returns (sent: Option<ForwardRequest>)
      modifies this
      ensures old(nextUserId) == "" ==> sent == None && State() == old(State())
      ensures old(nextUserId) != "" ==>
        && sent == Some(ForwardRequest(old(nextUserId), old(nextStepText), old(nextStepFiles)))
        && State() == old(State()).(nextStepText := "", nextUserId := "", nextStepFiles := [])
    {
      if nextUserId == "" {
        return None;
      }
      sent := Some(ForwardRequest(nextUserId, nextStepText, nextStepFiles));
      nextStepText := "";
      nextUserId := "";
      nextStepFiles := [];
    }

    /** The "complete" button opens a confirmation dialog first. */
    method OpenCompleteDialog()
      modifies this
      ensures State() == old(State()).(showCompleteDialog := true)
    {
      showCompleteDialog := true;
    }

    /** Dismissing the confirmation dialog without completing. */
    method CloseCompleteDialog()
      modifies this
      ensures State() == old(State()).(showCompleteDialog := false)
    {
      showCompleteDialog := false;
    }

    /** `handleCompleteProcess`: returns the status passed to `onUpdateStatus`. */
    method HandleCompleteProcess() returns (status: FinalStatus)
      modifies this
      ensures status == Completed
      ensures State() == old(State()).(showCompleteDialog := false)
    {
      status := Completed;
      showCompleteDialog := false;
    }

    /** `handleCancelProcess`: returns the status passed to `onUpdateStatus`. */
    method HandleCancelProcess() returns (status: FinalStatus)
      ensures status == Cancelled
    {
      status := Cancelled;
    }
  }

  /**
   * The comment button wired to the page: the view calls the page's
   * `handleAddComment`, which throws when the process has no current step;
   * the view then never reaches its clears, so the text and files stay.
   */
  method SubmitComment(panel: DetailPanel, page: DetailPage, now: nat) returns (thrown: bool)
    requires page.Valid()
    modifies panel, page
    ensures IsEmptyComment(old(panel.commentText), old(panel.uploadedFiles)) ==>
      !thrown && panel.State() == old(panel.State()) && page.process == old(page.process)
    ensures thrown <==>
      && !IsEmptyComment(old(panel.commentText), old(panel.uploadedFiles))
      && old(page.process).Some?
      && old(page.process).value.currentStep >= |old(page.process).value.steps|
    ensures thrown ==> panel.State() == old(panel.State()) && page.process == old(page.process)
    ensures !IsEmptyComment(old(panel.commentText), old(panel.uploadedFiles)) && !thrown ==>
      && panel.State() == old(panel.State()).(commentText := "", uploadedFiles := [])
      && (old(page.process).None? ==> page.process == None)
      && (old(page.process).Some? ==>
            page.process == Some(Commented(old(page.process).value, old(panel.commentText), page.currentUser, now).value))
  {
    // Whether the page's handler will throw, read before the view calls it.
    var pageThrows := page.process.Some? && page.process.value.currentStep >= |page.process.value.steps|;
    var sent := panel.HandleAddComment(!pageThrows);
    thrown := false;
    if sent.Some? {
      thrown := page.AddComment(sent.value.text, sent.value.files, now);
    }
  }

  /**
   * Completing a process keeps its current step, so the comment box (which
   * ignores the status) still adds comments to it, although the
   * confirmation dialog announces that a completed process takes none.
   */
  lemma CompletedProcessStillTakesComments(p: Process, text: string, author: User, now: nat)
    requires p.currentStep < |p.steps|
    ensures AvailableActions(StatusUpdated(p, Completed), author).comment
    ensures Commented(StatusUpdated(p, Completed), text, author, now).Ok?
  {
  }
}
