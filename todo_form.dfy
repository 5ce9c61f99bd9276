/**
 * The add/edit todo form: its field state and defaults, validation, the submit
 * payload with the reset that follows an add, and the priority colours.
 */
module TodoForm {
  import opened Wrappers
  import opened Text
  import opened TodoTypes

  /** The partial data an edit form starts from; any field may be missing. */
  datatype InitialData = InitialData(
    title: Option<string>,
    description: Option<string>,
    priority: Option<Priority>,
    dueDate: Option<string>)

  /** What `onSubmit` receives; `dueDate` is missing when the date input is empty. */
  datatype TodoFormData = TodoFormData(title: string, description: string, priority: Priority, dueDate: Option<string>)

  const TitleRequired := "Title is required"

  /** `initialData?.field || ''`. */
  function TextOrEmpty(initial: Option<InitialData>, field: InitialData -> Option<string>): (s: string)
    ensures initial.None? ==> s == []
    ensures initial.Some? && field(initial.value).None? ==> s == []
    ensures initial.Some? && field(initial.value).Some? ==> s == field(initial.value).value
  {
    if initial.Some? then field(initial.value).GetOr([]) else []
  }

  /** `initialData?.priority || 'medium'`. */
  function PriorityOrMedium(initial: Option<InitialData>): (p: Priority)
    ensures initial.Some? && initial.value.priority.Some? ==> p == initial.value.priority.value
    ensures initial.None? || initial.value.priority.None? ==> p == Medium
  {
    if initial.Some? then initial.value.priority.GetOr(Medium) else Medium
  }

  /** `getPriorityColor`: high is red, medium yellow, low green. */
  function PriorityColor(p: Priority): string {
    match p
    case High => "text-red-500"
    case Medium => "text-yellow-500"
    case Low => "text-green-500"
  }

  /** Distinct priorities are shown in distinct colours. */
  lemma PriorityColorInjective(p: Priority, q: Priority)
    ensures PriorityColor(p) == PriorityColor(q) <==> p == q
  {
  }

  class FormState {
    var title: string
    var description: string
    var priority: Priority
    var dueDate: string
    var errors: map<string, string>
    const isEditing: bool

    /** The `useState` initialisers: missing text fields are '', a missing priority is medium. */
    constructor (initial: Option<InitialData>, isEditing: bool)
      ensures title == TextOrEmpty(initial, (d: InitialData) => d.title)
      ensures description == TextOrEmpty(initial, (d: InitialData) => d.description)
      ensures priority == PriorityOrMedium(initial)
      ensures dueDate == TextOrEmpty(initial, (d: InitialData) => d.dueDate)
      ensures errors == map[] && this.isEditing == isEditing
    {
      title := TextOrEmpty(initial, (d: InitialData) => d.title);
      description := TextOrEmpty(initial, (d: InitialData) => d.description);
      priority := PriorityOrMedium(initial);
      dueDate := TextOrEmpty(initial, (d: InitialData) => d.dueDate);
      errors := map[];
      this.isEditing := isEditing;
    }

    /** The effect that reloads the fields whenever new initial data arrives; none leaves them. */
    method SyncInitial(initial: Option<InitialData>)
      modifies this`title, this`description, this`priority, this`dueDate
      ensures initial.None? ==>
        (title == old(title) && description == old(description) && priority == old(priority) && dueDate == old(dueDate))
      ensures initial.Some? ==>
        (title == TextOrEmpty(initial, (d: InitialData) => d.title)
         && description == TextOrEmpty(initial, (d: InitialData) => d.description)
         && priority == PriorityOrMedium(initial)
         && dueDate == TextOrEmpty(initial, (d: InitialData) => d.dueDate))
    {
      if initial.Some? {
        title := TextOrEmpty(initial, (d: InitialData) => d.title);
        description := TextOrEmpty(initial, (d: InitialData) => d.description);
        priority := PriorityOrMedium(initial);
        dueDate := TextOrEmpty(initial, (d: InitialData) => d.dueDate);
      }
    }

    /** `validate`: fails exactly when the title is blank, and records why. */
    method Validate() returns (ok: bool)
      modifies this`errors
      ensures ok <==> !IsBlank(title)
      ensures errors == if ok then map[] else map["title" := TitleRequired]
    {
      var newErrors: map<string, string> := map[];
      if Trim(title) == [] {
        newErrors := newErrors["title" := TitleRequired];
      }
      errors := newErrors;
      ok := |newErrors.Keys| == 0;
    }

    /**
     * `handleSubmit`: an invalid form submits nothing; a valid one submits its
     * fields unchanged (an empty date as missing) and, when adding, resets them.
     */
    method HandleSubmit() returns (submitted: Option<TodoFormData>)
      modifies this`title, this`description, this`priority, this`dueDate, this`errors
      ensures submitted.None? <==> IsBlank(old(title))
      ensures submitted.Some? ==> submitted.value == TodoFormData(old(title), old(description), old(priority),
                                                                  if old(dueDate) == [] then None else Some(old(dueDate)))
      ensures errors == if submitted.Some? then map[] else map["title" := TitleRequired]
      ensures submitted.Some? && !isEditing ==>
        title == [] && description == [] && priority == Medium && dueDate == []
      ensures submitted.None? || isEditing ==>
        title == old(title) && description == old(description) && priority == old(priority) && dueDate == old(dueDate)
    {
      var ok := Validate();
      if !ok {
        return None;
      }
      submitted := Some(TodoFormData(title, description, priority, if dueDate == [] then None else Some(dueDate)));
      if !isEditing {
        title, description, priority, dueDate := [], [], Medium, [];
      }
    }
  }
}
