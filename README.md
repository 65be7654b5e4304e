# Approval-workflow dashboard: a Dafny model

This project models the core of a React dashboard for internal approval
processes ("processos"). A process is a record with a title, a type
(purchase, hiring or other), a status (draft, ongoing, completed or cancelled),
a priority and an ordered list of steps. Each step has an assignee, a status,
documents and comments. `currentStep` is the index of the step that is open,
and a value equal to the number of steps means the process is finalized.

The model covers:

- **Types** (`types.dfy`): the records and closed string unions of
  `src/types/index.ts`. Each union is a datatype. The status, type and
  priority unions also have their literal spelling and a parser, because the
  filter selects and the new-process form hold them as plain strings.
- **Workflow** (`workflow.dfy`): the detail page's three handlers.
  - Forwarding closes the current step, appends a new step and moves the index.
  - Commenting appends a comment to the current step.
  - Setting the status records `completed` or `cancelled`.

  Each handler is a method of class `DetailPage` that edits the page's state.
  It is proved equal to a function of the old state (`Advanced`, `Commented`,
  `StatusUpdated`), and invariants of the step list are proved about those
  functions.
- **ProcessDetail** (`process_detail.dfy`): what the detail view derives from
  a process:
  - which actions it offers the current user;
  - how each step and document is drawn;
  - the view's input state (comment text, forward panel, attached files,
    confirmation dialog) and what it hands to the page.
- **ProcessTable** (`process_table.dfy`): the process list.
  - The search/status/type filter.
  - The column sort. It is proved to return a sorted permutation of the
    filtered list, with the sort order spelled out for the priority and date
    columns.
  - The header-click sort toggle.
- **Layout** (`layout.dfy`): the notification bell. This covers the unread
  count, marking one entry read and marking all entries read.
- **ProcessForm** and **ProfileForm** (`process_form.dfy`, `profile_form.dfy`):
  - field-by-field editing;
  - the file list;
  - the submit checks;
  - the state after `onSubmit` / `onSave` returns or throws.
- **Text** and **FileLists**: the ASCII string operations and the index
  filter used above.

Dates are integer timestamps. "Now" and `Date.now()` are explicit parameters.
A `File` from the browser is an opaque record.

## Model

| member | source | states |
|---|---|---|
| Types.ParseProcessStatus | src/types/index.ts:44 | a parsed process status spells exactly the input literal; only draft/ongoing/completed/cancelled parse |
| Types.ParseProcessType | src/types/index.ts:43 | a parsed process type spells exactly the input literal; only purchase/hiring/other parse |
| Types.ParsePriority | src/types/index.ts:45 | a parsed priority spells exactly the input literal; only low/medium/high parse |
| Types.ProcessStatusRoundTrip | src/types/index.ts:44 | every process status parses back from its literal |
| Types.ProcessTypeRoundTrip | src/types/index.ts:43 | every process type parses back from its literal |
| Types.PriorityRoundTrip | src/types/index.ts:45 | every priority parses back from its literal |
| Text.NatToString | src/pages/DetalheProcessoPage.tsx:228 | the decimal rendering used in `step-${n}` is non-empty, all digits, and has no leading zero |
| Text.ParseNatToString | src/pages/DetalheProcessoPage.tsx:228 | reading the digits back gives the number: the rendering loses nothing |
| Text.PrefixedInjective | src/pages/DetalheProcessoPage.tsx:228 | two identifiers with the same prefix and different numbers differ |
| Text.Lower | src/components/Processos/ProcessTable.tsx:57-58 | `toLowerCase` keeps the length and maps each character to its lower-case form, position by position |
| Text.LowerIdempotent | src/components/Processos/ProcessTable.tsx:57-58 | lower-casing twice is lower-casing once |
| Text.Includes | src/components/Processos/ProcessTable.tsx:57-58 | definition: `includes`, as a prefix test at each position (its meaning is stated by `IncludesAt`) |
| Text.IncludesAt | src/components/Processos/ProcessTable.tsx:57-58 | `includes` holds exactly when the needle occurs at some position of the haystack |
| Text.Trim | src/components/Processos/ProcessDetail.tsx:91 | `trim()` never lengthens the text, and its result neither starts nor ends with whitespace |
| Text.TrimIsSlice | src/components/Processos/ProcessDetail.tsx:91 | `trim()` returns a contiguous part of the text, and what it cuts off on either side is whitespace only |
| Text.TrimEmpty | src/components/Processos/ProcessDetail.tsx:91 | `trim()` gives the empty string exactly when every character is whitespace |
| FileLists.RemoveAt | src/components/Processos/ProcessDetail.tsx:82-88 | the index filter drops exactly the element at an index inside the list and leaves the list unchanged for any other index |
| FileLists.RemoveAtShifts | src/components/Processos/ProcessForm.tsx:83-85 | removal shortens the list by one and shifts every later file down one place |
| Workflow.FindUser | src/pages/DetalheProcessoPage.tsx:231 | `users.find` returns the first user with the id, and returns nothing exactly when no user has it |
| Workflow.ResolveAssignee | src/pages/DetalheProcessoPage.tsx:231 | the new assignee is a listed user: the first one with the chosen id, as `find` returns, or `users[0]` when nobody has it |
| Workflow.StepId | src/pages/DetalheProcessoPage.tsx:228 | definition: `step-${n}` (its meaning is stated by `StepIdInjective`) |
| Workflow.StepIdInjective | src/pages/DetalheProcessoPage.tsx:228 | distinct step counts give distinct step ids |
| Workflow.NewStep | src/pages/DetalheProcessoPage.tsx:227-236 | the appended step is numbered `step-{count+1}`, is titled "Nova etapa", carries the instructions as its description, is held by the resolved assignee (a listed user), is pending and not completed, started at `now`, and has no documents or comments |
| Workflow.Closed | src/pages/DetalheProcessoPage.tsx:240-244 | closing a step marks it completed at `now` and changes no other field |
| Workflow.Advanced | src/pages/DetalheProcessoPage.tsx:219-249 | forwarding appends one step and moves the index by one. The current step, if any, becomes completed at `now`. No other step and no other field changes. The appended step is the pending "Nova etapa" for the resolved user |
| Workflow.NewComment | src/pages/DetalheProcessoPage.tsx:266-271 | the new comment carries the given text, the current user as author and the clock reading as its date |
| Workflow.NewCommentIdsDistinct | src/pages/DetalheProcessoPage.tsx:267 | comment ids `comment-${Date.now()}` taken at different clock readings differ |
| Workflow.Commented | src/pages/DetalheProcessoPage.tsx:259-275 | commenting fails exactly when there is no current step. Otherwise only the current step's comment list changes, and it gains exactly one comment by the current user at its end |
| Workflow.StatusUpdated | src/pages/DetalheProcessoPage.tsx:279-286 | only the status changes, to the requested final status |
| Workflow.AdvanceKeepsPastStepsClosed | src/pages/DetalheProcessoPage.tsx:238-248 | forwarding from a current step keeps every step before the index completed or rejected, and the index within bounds |
| Workflow.AdvanceWhenFinalizedLeavesPendingPastStep | src/pages/DetalheProcessoPage.tsx:239-248 | forwarding a finalized process breaks that invariant: it leaves a pending step behind the index |
| Workflow.AdvanceWithPlannedStepSkipsAssignee | src/pages/DetalheProcessoPage.tsx:247-248 | when steps are planned after the current one, forwarding makes the next planned step current and leaves the chosen user's new step waiting at the end |
| Workflow.AdvanceForwardsToAssignee | src/pages/DetalheProcessoPage.tsx:227-248 | from the last step, the new current step is the appended pending step held by the resolved user, and the old one is completed |
| Workflow.AdvanceKeepsStepsNumbered | src/pages/DetalheProcessoPage.tsx:228 | if step i is called `step-{i+1}` before forwarding, this holds after it too |
| Workflow.NumberedStepIdsDistinct | src/pages/DetalheProcessoPage.tsx:228 | in a numbered process no two steps share an id |
| Workflow.CommentKeepsPastStepsClosed | src/pages/DetalheProcessoPage.tsx:273 | commenting never reopens a past step nor moves the index |
| Workflow.StatusUpdateLastWins | src/pages/DetalheProcessoPage.tsx:284 | the previous status is never consulted: two updates equal the last one alone |
| Workflow.DetailPage.constructor | src/pages/DetalheProcessoPage.tsx:16-69 | the page starts with no process, a fixed user list and the first user as the logged-in user |
| Workflow.DetailPage.Load | src/pages/DetalheProcessoPage.tsx:214 | the simulated load stores the process |
| Workflow.DetailPage.MoveToNextStep | src/pages/DetalheProcessoPage.tsx:219-257 | the step-by-step edits leave the page holding `Advanced` of the old process, and do nothing when none is loaded |
| Workflow.DetailPage.AddComment | src/pages/DetalheProcessoPage.tsx:259-277 | the page throws exactly when a loaded process has no current step, and its state is then unchanged. Otherwise it holds `Commented` of the old process |
| Workflow.DetailPage.UpdateStatus | src/pages/DetalheProcessoPage.tsx:279-300 | the page holds `StatusUpdated` of the old process, and does nothing when none is loaded |
| ProcessDetail.IsCurrentStepAssignedToMe | src/components/Processos/ProcessDetail.tsx:66-67 | definition: a current step exists and its assignee's id is the current user's id (its consequences are stated by `AvailableActions`) |
| ProcessDetail.IsProcessActive | src/components/Processos/ProcessDetail.tsx:69 | definition: the process status is ongoing (its consequences are stated by `AvailableActions`) |
| ProcessDetail.AvailableActions | src/components/Processos/ProcessDetail.tsx:184-197 | "complete" (`:186`) and "forward" (the panel at `:509`) are shown exactly when the process is ongoing and the current step is the user's, as the predicates at `:66-69` decide. "Cancel" (`:192`) is shown exactly when the process is ongoing. The comment box (`:348`) is always shown |
| ProcessDetail.CompleteImpliesCancel | src/components/Processos/ProcessDetail.tsx:184-197 | whoever sees "complete" also sees "cancel" |
| ProcessDetail.ForwardFromPanel | src/components/Processos/ProcessDetail.tsx:509 | from the last step, with past steps closed: forwarding from the panel keeps past steps closed and makes the new step the current, last one. The panel then stays visible to the forwarder exactly when they forwarded to themselves |
| ProcessDetail.CommentOfferedWithoutCurrentStep | src/components/Processos/ProcessDetail.tsx:346-398 | on a finalized process the comment box is still offered, while the page's comment handler fails |
| ProcessDetail.CompletedProcessStillTakesComments | src/components/Processos/ProcessDetail.tsx:605-609 | after completion the comment box is still offered and a comment is still added to the current step, although the dialog announces that a completed process takes no more comments |
| ProcessDetail.CurrentAssignee | src/components/Processos/ProcessDetail.tsx:473-483 | the sidebar names the current step's assignee exactly when a current step exists, and says "finalized" otherwise |
| ProcessDetail.Phase | src/components/Processos/ProcessDetail.tsx:219-221 | a step is drawn past, current or future exactly as its index is below, at or above the current index |
| ProcessDetail.PastPhaseStepsClosed | src/components/Processos/ProcessDetail.tsx:219-221 | under the workflow invariant, no step drawn as past is pending or in progress |
| ProcessDetail.DocumentIcon | src/components/Processos/ProcessDetail.tsx:156-164 | the image icon is chosen exactly when the lower-cased type is one of the six image extensions |
| ProcessDetail.DocumentIconIgnoresCase | src/components/Processos/ProcessDetail.tsx:159 | lower-casing the type first does not change the icon |
| ProcessDetail.DocumentIconSameForSameLowerCase | src/components/Processos/ProcessDetail.tsx:159 | types that differ only in letter case get the same icon |
| ProcessDetail.EmptyCommentIsWhitespaceOnly | src/components/Processos/ProcessDetail.tsx:91 | a comment is refused exactly when its text is all whitespace and no file is attached |
| ProcessDetail.DetailPanel.constructor | src/components/Processos/ProcessDetail.tsx:59-64 | all inputs start empty and the dialog closed |
| ProcessDetail.DetailPanel.SetCommentText | src/components/Processos/ProcessDetail.tsx:352 | only the comment text changes |
| ProcessDetail.DetailPanel.SetNextStepText | src/components/Processos/ProcessDetail.tsx:537 | only the forward instructions change |
| ProcessDetail.DetailPanel.SelectNextUser | src/components/Processos/ProcessDetail.tsx:518 | only the chosen next user changes |
| ProcessDetail.DetailPanel.HandleFileChange | src/components/Processos/ProcessDetail.tsx:71-80 | picked files are appended to the comment list or the forward list, and no selection changes nothing |
| ProcessDetail.DetailPanel.RemoveFile | src/components/Processos/ProcessDetail.tsx:82-88 | the file at the index is dropped from the chosen list only |
| ProcessDetail.DetailPanel.HandleAddComment | src/components/Processos/ProcessDetail.tsx:90-108 | an empty comment sends nothing and changes nothing. Otherwise the text and files are sent. Both inputs are cleared only when `onAddComment` returns, and a throw leaves them as they were |
| ProcessDetail.DetailPanel.HandleMoveToNextStep | src/components/Processos/ProcessDetail.tsx:110-131 | with no user chosen nothing is sent or changed. Otherwise user, instructions and files are sent and the forward inputs are cleared |
| ProcessDetail.DetailPanel.OpenCompleteDialog | src/components/Processos/ProcessDetail.tsx:187 | only the dialog opens |
| ProcessDetail.DetailPanel.CloseCompleteDialog | src/components/Processos/ProcessDetail.tsx:596-615 | dismissing the dialog closes it and changes nothing else |
| ProcessDetail.DetailPanel.HandleCompleteProcess | src/components/Processos/ProcessDetail.tsx:133-141 | requests status completed and closes the dialog |
| ProcessDetail.DetailPanel.HandleCancelProcess | src/components/Processos/ProcessDetail.tsx:143-150 | requests status cancelled, with no confirmation |
| ProcessDetail.SubmitComment | src/components/Processos/ProcessDetail.tsx:90-108 | the view's comment handler wired to the page's: it throws exactly when a non-empty comment meets a loaded process with no current step, and then the view and the page keep their state. Otherwise the view's inputs clear and the page holds `Commented` |
| ProcessTable.Matches | src/components/Processos/ProcessTable.tsx:55-60 | definition: the term is empty or occurs, ignoring case, in the title or the id; each select is empty or equals the literal of the status or type (its consequences are stated by `MatchesSelectValues` and `Filter`) |
| ProcessTable.MatchesSelectValues | src/components/Processos/ProcessTable.tsx:59-60 | a non-empty status or type filter admits only processes whose status or type is the one its literal names; with all filters empty everything matches |
| ProcessTable.MatchesIgnoresTermCase | src/components/Processos/ProcessTable.tsx:56-58 | the search does not depend on the letter case of the term |
| ProcessTable.KeepIf | src/components/Processos/ProcessTable.tsx:54-61 | `filter` keeps each accepted element exactly as often as it occurs in the input and drops every rejected one |
| ProcessTable.Filter | src/components/Processos/ProcessTable.tsx:54-61 | every matching process is kept exactly as often as it occurs in the input, and no other process is kept |
| ProcessTable.EmptyFiltersKeepAll | src/components/Processos/ProcessTable.tsx:56-60 | with all three filters empty the list is unchanged |
| ProcessTable.LexCompare | src/components/Processos/ProcessTable.tsx:76-78 | the string comparison returns -1, 0 or 1, and 0 exactly when the strings are equal |
| ProcessTable.LexCompareAntisymmetric | src/components/Processos/ProcessTable.tsx:76-78 | swapping the operands of the string comparison negates it |
| ProcessTable.LexCompareTransitive | src/components/Processos/ProcessTable.tsx:76-78 | the string comparison is transitive |
| ProcessTable.Compare | src/components/Processos/ProcessTable.tsx:62-80 | definition: the source comparator, column by column (its meaning is stated by `CompareMeaning`, `PrecedesTotal` and `PrecedesTransitive`) |
| ProcessTable.CompareMeaning | src/components/Processos/ProcessTable.tsx:62-80 | by date or priority, `a` may go first exactly when its timestamp or rank is not greater (ascending) or not smaller (descending). On a text column, two processes tie exactly when their lower-cased texts are equal |
| ProcessTable.PrecedesTotal | src/components/Processos/ProcessTable.tsx:62-80 | for every column and direction, of two processes one may precede the other |
| ProcessTable.PrecedesTransitive | src/components/Processos/ProcessTable.tsx:62-80 | the comparator's order is transitive, so sorting by it is well defined |
| ProcessTable.SortedIsPairwise | src/components/Processos/ProcessTable.tsx:62-80 | adjacent order implies that every earlier row may precede every later row |
| ProcessTable.Insert | src/components/Processos/ProcessTable.tsx:62-80 | inserting into a sorted list gives a sorted list with exactly one more occurrence of the element |
| ProcessTable.SortBy | src/components/Processos/ProcessTable.tsx:62-80 | the sort returns a permutation of its input, ordered by the comparator |
| ProcessTable.FilteredProcesses | src/components/Processos/ProcessTable.tsx:54-80 | the rows hold every matching process exactly as often as the input does, and no other, in comparator order |
| ProcessTable.FilteredProcessesSpec | src/components/Processos/ProcessTable.tsx:54-80 | the rows are exactly the matching processes, each as often as in the input, and every earlier row may precede every later one. With no filter they are a permutation of the input |
| ProcessTable.PriorityRank | src/components/Processos/ProcessTable.tsx:68 | definition: the `priorityValues` table, low 0, medium 1, high 2 (its meaning is stated by `PrioritySortOrder`) |
| ProcessTable.PrioritySortOrder | src/components/Processos/ProcessTable.tsx:67-71 | in any list the priority comparator orders (such as the rows `SortBy` returns), ranks go low→medium→high ascending and the reverse descending |
| ProcessTable.CreatedAtSortOrder | src/components/Processos/ProcessTable.tsx:63-66 | in any list the date comparator orders (such as the rows `SortBy` returns), timestamps go oldest first ascending and newest first descending |
| ProcessTable.NextSort | src/components/Processos/ProcessTable.tsx:37-44 | clicking the sorted column flips the direction. Clicking another column selects it ascending |
| ProcessTable.ToggleTwiceRestores | src/components/Processos/ProcessTable.tsx:38-39 | clicking the same header twice restores the sort |
| ProcessTable.TableState.constructor | src/components/Processos/ProcessTable.tsx:31-35 | empty filters, sorted by creation date descending |
| ProcessTable.TableState.HandleSort | src/components/Processos/ProcessTable.tsx:37-44 | the sort state becomes `NextSort` of the old one, and the filters are unchanged |
| ProcessTable.TableState.SetFilters | src/components/Processos/ProcessTable.tsx:105-124 | the three filters take the new values, and the sort is unchanged |
| ProcessTable.TableState.Rows | src/components/Processos/ProcessTable.tsx:54-80 | the rows shown are exactly the processes matching the current filters, each as often as it occurs, ordered by the current sort |
| Layout.UnreadCount | src/components/Layout.tsx:48 | the badge count is at most the number of notifications, and zero exactly when all are read |
| Layout.UnreadCountIsUnreadEntries | src/components/Layout.tsx:48 | the badge count equals the number of entries whose read flag is false |
| Layout.MarkAsRead | src/components/Layout.tsx:50-53 | entries with the id become read and every other entry is unchanged |
| Layout.MarkAllAsRead | src/components/Layout.tsx:61-62 | every entry becomes read and nothing else changes |
| Layout.MarkAsReadIdempotent | src/components/Layout.tsx:50-53 | marking the same id twice equals marking it once |
| Layout.MarkAsReadUnknownId | src/components/Layout.tsx:50-53 | an id no entry carries changes nothing |
| Layout.MarkAsReadCommutes | src/components/Layout.tsx:50-53 | marking two ids gives the same list in either order |
| Layout.MarkAsReadLowersUnread | src/components/Layout.tsx:48-53 | marking never raises the badge, and lowers it when an unread entry has the id |
| Layout.MarkAllAsReadClearsUnread | src/components/Layout.tsx:48-62 | after marking all read the badge is zero |
| Layout.MarkAllAfterMarkOne | src/components/Layout.tsx:50-62 | marking all read subsumes an earlier single mark |
| ProcessForm.WithField | src/components/Processos/ProcessForm.tsx:40-46 | the named field takes the value. Every other field, the step and the files are unchanged |
| ProcessForm.WithStepField | src/components/Processos/ProcessForm.tsx:48-57 | the named step field takes the value. Every other step field and the rest of the form are unchanged |
| ProcessForm.IsComplete | src/components/Processos/ProcessForm.tsx:90 | definition: title, step title and step assignee are all non-empty (its consequences are stated by `HandleSubmit` and the lemmas below) |
| ProcessForm.OptionalFieldsNotRequired | src/components/Processos/ProcessForm.tsx:90 | description, type, priority, step description and files play no part in the submit check |
| ProcessForm.OptionalEditsKeepCompleteness | src/components/Processos/ProcessForm.tsx:90 | editing a field outside the three required ones never changes whether the form can be submitted |
| ProcessForm.DefaultFormIncomplete | src/components/Processos/ProcessForm.tsx:24-35 | the initial (and reset) form cannot be submitted |
| ProcessForm.DefaultSelectsAreValid | src/components/Processos/ProcessForm.tsx:27-28 | the initial type and priority are the literals of purchase and medium |
| ProcessForm.Payload | src/components/Processos/ProcessForm.tsx:103-106 | the payload is the form with the picked files as its documents, and nothing else changed |
| ProcessForm.ProcessFormState.constructor | src/components/Processos/ProcessForm.tsx:24-38 | the form starts as the default form, with no files and not submitting |
| ProcessForm.ProcessFormState.HandleChange | src/components/Processos/ProcessForm.tsx:40-46 | the form becomes `WithField` of the old form, and the files are unchanged |
| ProcessForm.ProcessFormState.HandleSelectChange | src/components/Processos/ProcessForm.tsx:59-64 | same effect as `HandleChange` |
| ProcessForm.ProcessFormState.HandleStepChange | src/components/Processos/ProcessForm.tsx:48-57 | the form becomes `WithStepField` of the old form, and the files are unchanged |
| ProcessForm.ProcessFormState.HandleStepSelectChange | src/components/Processos/ProcessForm.tsx:66-74 | same effect as `HandleStepChange` |
| ProcessForm.ProcessFormState.HandleFileChange | src/components/Processos/ProcessForm.tsx:76-81 | picked files are appended, and no selection changes nothing |
| ProcessForm.ProcessFormState.RemoveFile | src/components/Processos/ProcessForm.tsx:83-85 | the file at the index is dropped and the form is unchanged |
| ProcessForm.ProcessFormState.HandleSubmit | src/components/Processos/ProcessForm.tsx:87-140 | an incomplete form sends nothing and changes nothing. Otherwise the payload is sent. On success the form and files reset, on a throw they are kept, and either way the form is no longer submitting |
| ProfileForm.WithProfileField | src/components/Usuario/ProfileForm.tsx:51-64 | the named profile field takes the value. The others, the id and the avatar are unchanged |
| ProfileForm.ValidateProfile | src/components/Usuario/ProfileForm.tsx:87-103 | a missing name or email is reported exactly when one is empty. A mismatch is reported exactly when both are present and a non-empty password differs from its confirmation |
| ProfileForm.AcceptedProfileIsConsistent | src/components/Usuario/ProfileForm.tsx:87-103 | a save goes ahead only with name and email present, and no new password or a confirmed one |
| ProfileForm.EmptyPasswordIgnoresConfirmation | src/components/Usuario/ProfileForm.tsx:96 | with no new password the confirmation field is irrelevant |
| ProfileForm.MissingFieldReportedFirst | src/components/Usuario/ProfileForm.tsx:87-94 | a missing field is reported even when the passwords also differ |
| ProfileForm.ProfileFormState.constructor | src/components/Usuario/ProfileForm.tsx:42-47 | the editor starts from the user, with no avatar, no passwords and not submitting |
| ProfileForm.ProfileFormState.HandleChange | src/components/Usuario/ProfileForm.tsx:51-57 | the form data becomes `WithProfileField` of the old data, and nothing else changes |
| ProfileForm.ProfileFormState.HandleSelectChange | src/components/Usuario/ProfileForm.tsx:59-64 | same effect as `HandleChange` |
| ProfileForm.ProfileFormState.SetPassword | src/components/Usuario/ProfileForm.tsx:262 | only the new password changes |
| ProfileForm.ProfileFormState.SetConfirmPassword | src/components/Usuario/ProfileForm.tsx:273 | only the confirmation changes |
| ProfileForm.ProfileFormState.HandleAvatarChange | src/components/Usuario/ProfileForm.tsx:66-77 | the first picked file becomes the avatar, and an empty pick changes nothing |
| ProfileForm.ProfileFormState.ClearAvatarPreview | src/components/Usuario/ProfileForm.tsx:79-82 | avatar file and preview are cleared and nothing else changes |
| ProfileForm.ProfileFormState.HandleSubmit | src/components/Usuario/ProfileForm.tsx:84-131 | a rejected form sends nothing and changes nothing. Otherwise the data and avatar are sent. On success the passwords and avatar are cleared, on a throw only the submitting flag settles, and either way the form is no longer submitting |

### Where the code departs from the intended design (the model follows the code)

- **New step status.**
  - Intended: the step a process is forwarded to becomes the step in
    progress.
  - The code: the appended step is `pending`
    (`src/pages/DetalheProcessoPage.tsx:232`), and no handler ever sets a
    step in progress.
- **Unknown assignee.**
  - Intended: the process goes to the user picked in the forward panel.
    The select lists only known users.
  - The code: an id that matches no user silently falls back to the first
    user (`:231`).
- **No status checks.**
  - Intended: a finished process is closed to further forwarding and
    comments. The confirmation dialog says so (`ProcessDetail.tsx:609`), and
    the buttons are shown only for ongoing processes (`ProcessDetail.tsx:184`).
  - The code: the page's handlers never look at the status.
  - A finalized process can be forwarded, and then a pending step lies behind
    the index (`Workflow.AdvanceWhenFinalizedLeavesPendingPastStep`). The
    forward panel rules this out from the UI.
  - A status update ignores the previous status (`Workflow.StatusUpdateLastWins`).
- **Pre-planned steps.**
  - Intended: forwarding hands the process to the user picked in the panel.
  - The code: the new step is appended at the end (`:247`), but the index
    only moves up by one (`:248`). When steps are already planned after the
    current one, the next planned step becomes current, not the chosen
    user's step (`Workflow.AdvanceWithPlannedStepSkipsAssignee`). `Workflow.AdvanceForwardsToAssignee`
    and `ProcessDetail.ForwardFromPanel` state the hand-over only from the
    last step.
- **Comments on finished processes.**
  - Intended: no comments after completion.
  - The code: the comment box is not guarded by `isProcessActive`.
  - A completed process with a current step still takes comments
    (`ProcessDetail.CompletedProcessStillTakesComments`).
  - On a process with no current step, the page's handler reads `.comments`
    of `undefined` and throws a `TypeError`. The view then keeps its text and
    files (`ProcessDetail.SubmitComment`), and the model returns
    `Err(NoCurrentStep)` or `thrown`.
- **Attachments are dropped.**
  - Intended: files given with a forward or a comment are attached to the
    process. Both handlers receive and log them (`:220`, `:260`).
  - The code: they are never stored.

## Left out

- Rendering is not modelled: JSX, styling, icons, and the label and colour
  tables (status, type and priority names in Portuguese).
- Toasts, `console.log`, navigation and routing have no effect on the state,
  so they are not modelled.
- `setTimeout` delays are collapsed.
  - The form submit and the profile save run to completion at once.
  - The 800 ms simulated load is `DetailPage.Load`.
  - A second submit while the first is pending is therefore not modelled.
- Clocks are parameters, and `Date` values are integer timestamps (`int` in the records; the clock
  parameter `now` is a `nat`).
  Date formatting is not modelled.
  - One `now` stands for all the clock reads of a handler. Forwarding reads
    the clock twice: `startedAt` of the new step at
    `src/pages/DetalheProcessoPage.tsx:235` and `completedAt` of the closed
    step at `:243`. Commenting reads it twice: `Date.now()` for the id at
    `:267` and `new Date()` for the date at `:269`.
  - The model takes both reads as equal, which real clocks need not be.
- The avatar preview comes from a `FileReader` callback, which is asynchronous
  browser I/O and is not modelled. The preview field is only ever cleared.
- The mock data in the pages is not modelled: the sample processes, the
  users, and the initial notifications. Users are parameters.
- `src/components/Dashboard/Dashboard.tsx`, `DashboardStats`, `App.tsx` and
  the list/new-process/profile pages are only wiring and mock data, so they
  are not modelled.
- The detail page copies the process shallowly and then mutates the shared
  `steps` array and comment lists in place. The model treats the process as a
  value, so aliasing with the previous state object is not modelled. No code
  reads that previous object.
- Text.Lower: `toLowerCase` is modelled on ASCII letters only.
- Text.Trim: `trim` is modelled on ASCII whitespace only.
- ProcessTable.LexCompare: `localeCompare` is modelled as code-point order.
  Locale collation is not modelled.
- ProcessTable.Filter: states which processes are kept and how often, but
  not that they keep their input order. The order only matters for ties
  under a stable sort, and stability is not stated either (see ProcessTable.SortBy below).
- ProcessTable.KeepIf: the `filter` that ProcessTable.Filter is built on;
  it likewise states multiplicities but not input order.
- ProcessTable.SortBy: proves a sorted permutation. Stability is not proved,
  though the insertion sort used is stable, like the engine's `sort` since
  ES2019.
- Numbers and indices:
  - `currentStep` is a `nat`. The code never makes it negative or fractional.
  - Priority ranks and timestamps are unbounded integers. JavaScript's
    floating-point numbers agree with them for the values involved.
- ProcessTable.Filter: the status and type filters compare the literal
  spelling of the enum with the select's value, as the code does. Values the
  selects never produce are not excluded.
- The form fields that `handleChange`/`handleSelectChange` write are a closed
  datatype of the names the JSX uses. Writing an arbitrary key
  (`[name]: value`) is not modelled.
- The `Notification` type of `src/types/index.ts` is declared but not used by
  the layout. The layout has its own record with a numeric id, which
  `Layout.Notification` models.
