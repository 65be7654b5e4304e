// The new-process form (src/components/Processos/ProcessForm.tsx): form state
// edited field by field, a list of picked files, and a submit that checks the
// three required fields, hands the payload to `onSubmit` and resets the form
// when `onSubmit` returns normally.
//
// The one-second `setTimeout` before the payload is sent is collapsed: the
// submit runs to completion at once. Whether `onSubmit` throws is the
// parameter `submitOk`.

module ProcessForm {
  import opened Types
  import opened FileLists

  /** The first step, as entered on the form. */
  datatype StepDraft = StepDraft(title: string, description: string, assignedToId: string)

  /** `processData`: type and priority are kept as the strings the selects produce. */
  datatype FormData = FormData(
    title: string,
    description: string,
    kind: string,
    priority: string,
    step: StepDraft,
    documents: seq<File>)

  /** The initial form, and the one a successful submit returns to. */
  const DefaultForm := FormData("", "", "purchase", "medium", StepDraft("", "", ""), [])

  /** The top-level fields edited by `handleChange` and `handleSelectChange`. */
  datatype FormField = TitleField | DescriptionField | TypeField | PriorityField

  /** The fields of the first step edited by `handleStepChange` and `handleStepSelectChange`. */
  datatype StepField = StepTitle | StepDescription | AssignedToId

  function FieldValue(d: FormData, name: FormField): string
  {
    match name
    case TitleField => d.title
    case DescriptionField => d.description
    case TypeField => d.kind
    case PriorityField => d.priority
  }

  function StepFieldValue(s: StepDraft, name: StepField): string
  {
    match name
    case StepTitle => s.title
    case StepDescription => s.description
    case AssignedToId => s.assignedToId
  }

  /** `{ ...processData, [name]: value }`: only the named field changes. */
  function WithField(d: FormData, name: FormField, value: string): (r: FormData)
    ensures FieldValue(r, name) == value
    ensures forall other :: other != name ==> FieldValue(r, other) == FieldValue(d, other)
    ensures r.step == d.step && r.documents == d.documents
  {
    match name
    case TitleField => d.(title := value)
    case DescriptionField => d.(description := value)
    case TypeField => d.(kind := value)
    case PriorityField => d.(priority := value)
  }

  /** `{ ...processData, step: { ...processData.step, [name]: value } }`. */
  function WithStepField(d: FormData, name: StepField, value: string): (r: FormData)
    ensures StepFieldValue(r.step, name) == value
    ensures forall other :: other != name ==> StepFieldValue(r.step, other) == StepFieldValue(d.step, other)
    ensures r.(step := d.step) == d
  {
    match name
    case StepTitle => d.(step := d.step.(title := value))
    case StepDescription => d.(step := d.step.(description := value))
    case AssignedToId => d.(step := d.step.(assignedToId := value))
  }

  /** The submit check: title, step title and step assignee must be non-empty. */
  predicate IsComplete(d: FormData)
  {
    d.title != "" && d.step.title != "" && d.step.assignedToId != ""
  }

  /** Description, type, priority, step description and files play no part in the check. */
  lemma OptionalFieldsNotRequired(d: FormData, description: string, kind: string, priority: string, stepDescription: string, documents: seq<File>)
    ensures IsComplete(d.(description := description, kind := kind, priority := priority,
                          step := d.step.(description := stepDescription), documents := documents))
            == IsComplete(d)
  {
  }

  /** Editing a field other than the three required ones never changes the outcome of the check. */
  lemma OptionalEditsKeepCompleteness(d: FormData, name: FormField, stepName: StepField, value: string)
    ensures name != TitleField ==> IsComplete(WithField(d, name, value)) == IsComplete(d)
    ensures stepName == StepDescription ==> IsComplete(WithStepField(d, stepName, value)) == IsComplete(d)
  {
  }

  /** A fresh or reset form cannot be submitted. */
  lemma DefaultFormIncomplete()
    ensures !IsComplete(DefaultForm)
  {
  }

  /** The initial type and priority are literals of their unions: purchase and medium. */
  lemma DefaultSelectsAreValid()
    ensures ParseProcessType(DefaultForm.kind) == Some(Purchase)
    ensures ParsePriority(DefaultForm.priority) == Some(Medium)
  {
  }

  /** `{ ...processData, documents: uploadedFiles }`, the value given to `onSubmit`. */
  function Payload(d: FormData, files: seq<File>): (r: FormData)
    ensures r.documents == files
    ensures r.(documents := d.documents) == d
  {
    d.(documents := files)
  }

  /** The form component's state. */
  class ProcessFormState {
    var data: FormData
    var uploadedFiles: seq<File>
    var isSubmitting: bool

    constructor ()
      ensures data == DefaultForm && uploadedFiles == [] && !isSubmitting
    {
      data := DefaultForm;
      uploadedFiles := [];
      isSubmitting := false;
    }

    method HandleChange(name: FormField, value: string)
      modifies this
      ensures data == WithField(old(data), name, value)
      ensures uploadedFiles == old(uploadedFiles) && isSubmitting == old(isSubmitting)
    {
      data := WithField(data, name, value);
    }

    /** `handleSelectChange` does exactly what `handleChange` does. */
    method HandleSelectChange(name: FormField, value: string)
      modifies this
      ensures data == WithField(old(data), name, value)
      ensures uploadedFiles == old(uploadedFiles) && isSubmitting == old(isSubmitting)
    {
      HandleChange(name, value);
    }

    method HandleStepChange(name: StepField, value: string)
      modifies this
      ensures data == WithStepField(old(data), name, value)
      ensures uploadedFiles == old(uploadedFiles) && isSubmitting == old(isSubmitting)
    {
      data := WithStepField(data, name, value);
    }

    /** `handleStepSelectChange` does exactly what `handleStepChange` does. */
    method HandleStepSelectChange(name: StepField, value: string)
      modifies this
      ensures data == WithStepField(old(data), name, value)
      ensures uploadedFiles == old(uploadedFiles) && isSubmitting == old(isSubmitting)
    {
      HandleStepChange(name, value);
    }

    /** `picked` is `e.target.files`, which may be null. */
    method HandleFileChange(picked: Option<seq<File>>)
      modifies this
      ensures picked.None? ==> uploadedFiles == old(uploadedFiles)
      ensures picked.Some? ==> uploadedFiles == old(uploadedFiles) + picked.value
      ensures data == old(data) && isSubmitting == old(isSubmitting)
    {
      if picked.Some? {
        uploadedFiles := uploadedFiles + picked.value;
      }
    }

    method RemoveFile(index: int)
      modifies this
      ensures uploadedFiles == RemoveAt(old(uploadedFiles), index)
      ensures data == old(data) && isSubmitting == old(isSubmitting)
    {
      uploadedFiles := RemoveAt(uploadedFiles, index);
    }

    /**
     * `handleSubmit`: `sent` is the value `onSubmit` receives, if it is
     * called; `submitOk` says whether `onSubmit` returned without throwing.
     */
    method HandleSubmit(submitOk: bool) returns (sent: Option<FormData>)
      modifies this
      ensures !IsComplete(old(data)) ==>
        sent == None && data == old(data) && uploadedFiles == old(uploadedFiles) && isSubmitting == old(isSubmitting)
      ensures IsComplete(old(data)) ==>
        && sent == Some(Payload(old(data), old(uploadedFiles)))
        && !isSubmitting
        && (submitOk ==> data == DefaultForm && uploadedFiles == [])
        && (!submitOk ==> data == old(data) && uploadedFiles == old(uploadedFiles))
    {
      if data.title == "" || data.step.title == "" || data.step.assignedToId == "" {
        return None;
      }
      isSubmitting := true;
      var formData := data.(documents := uploadedFiles);
      sent := Some(formData);
      if submitOk {
        data := FormData("", "", "purchase", "medium", StepDraft("", "", ""), []);
        uploadedFiles := [];
      }
      isSubmitting := false;
    }
  }
}
