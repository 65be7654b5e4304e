// The domain records of the approval-workflow dashboard (src/types/index.ts).
// Dates are millisecond timestamps (`int`); browser `File` objects are opaque
// values that the model never inspects.

module Types {

  datatype Option<+T> = None | Some(value: T)

  datatype Result<+T, +E> = Ok(value: T) | Err(error: E)

  datatype User = User(
    id: string,
    name: string,
    email: string,
    role: string,
    department: string,
    avatar: string)

  /** An attached document; `fileType` is the extension-like `type` field. */
  datatype Document = Document(
    id: string,
    name: string,
    fileType: string,
    url: string,
    uploadedAt: int,
    uploadedBy: string)

  /** The four step states: 'pending' | 'in-progress' | 'completed' | 'rejected'. */
  datatype StepStatus = Pending | InProgress | StepCompleted | Rejected

  datatype Comment = Comment(
    id: string,
    text: string,
    createdAt: int,
    createdBy: User)

  /** A step of a process; only `startedAt` and `completedAt` are optional. */
  datatype ProcessStep = ProcessStep(
    id: string,
    title: string,
    description: string,
    assignedTo: User,
    status: StepStatus,
    documents: seq<Document>,
    comments: seq<Comment>,
    startedAt: Option<int>,
    completedAt: Option<int>)

  datatype ProcessType = Purchase | Hiring | Other

  datatype ProcessStatus = Draft | Ongoing | Completed | Cancelled

  datatype Priority = Low | Medium | High

  /** A tracked process; `currentStep == |steps|` means it has no active step. */
  datatype Process = Process(
    id: string,
    title: string,
    description: string,
    kind: ProcessType,
    status: ProcessStatus,
    priority: Priority,
    createdAt: int,
    createdBy: User,
    currentStep: nat,
    steps: seq<ProcessStep>,
    documents: seq<Document>)

  datatype NotificationKind = ProcessAssigned | ProcessCompleted | CommentAdded | DocumentAdded

  datatype Notification = Notification(
    id: string,
    kind: NotificationKind,
    read: bool,
    message: string,
    processId: Option<string>,
    createdAt: int)

  /** A browser file picked by the user: only carried around, never read. */
  datatype File = File(name: string, size: nat)

  // The string literals the status, type and priority unions stand for, and
  // their parsers (the filter selects and the new-process form hold these
  // literals as plain strings).

  function ProcessStatusName(s: ProcessStatus): string
  {
    match s
    case Draft => "draft"
    case Ongoing => "ongoing"
    case Completed => "completed"
    case Cancelled => "cancelled"
  }

  function ParseProcessStatus(x: string): (r: Option<ProcessStatus>)
    ensures r.Some? ==> ProcessStatusName(r.value) == x
    ensures r.None? ==> x !in {"draft", "ongoing", "completed", "cancelled"}
  {
    if x == "draft" then Some(Draft)
    else if x == "ongoing" then Some(Ongoing)
    else if x == "completed" then Some(Completed)
    else if x == "cancelled" then Some(Cancelled)
    else None
  }

  lemma ProcessStatusRoundTrip(s: ProcessStatus)
    ensures ParseProcessStatus(ProcessStatusName(s)) == Some(s)
  {
  }

  function ProcessTypeName(t: ProcessType): string
  {
    match t
    case Purchase => "purchase"
    case Hiring => "hiring"
    case Other => "other"
  }

  function ParseProcessType(x: string): (r: Option<ProcessType>)
    ensures r.Some? ==> ProcessTypeName(r.value) == x
    ensures r.None? ==> x !in {"purchase", "hiring", "other"}
  {
    if x == "purchase" then Some(Purchase)
    else if x == "hiring" then Some(Hiring)
    else if x == "other" then Some(Other)
    else None
  }

  lemma ProcessTypeRoundTrip(t: ProcessType)
    ensures ParseProcessType(ProcessTypeName(t)) == Some(t)
  {
  }

  function PriorityName(p: Priority): string
  {
    match p
    case Low => "low"
    case Medium => "medium"
    case High => "high"
  }

  function ParsePriority(x: string): (r: Option<Priority>)
    ensures r.Some? ==> PriorityName(r.value) == x
    ensures r.None? ==> x !in {"low", "medium", "high"}
  {
    if x == "low" then Some(Low)
    else if x == "medium" then Some(Medium)
    else if x == "high" then Some(High)
    else None
  }

  lemma PriorityRoundTrip(p: Priority)
    ensures ParsePriority(PriorityName(p)) == Some(p)
  {
  }
}
