/**
 * The subtask list of a todo: each subtask's checkbox and delete button, and the
 * form that adds a subtask.
 */
module SubtaskComponent {
  import opened Text
  import opened TodoTypes

  /** The two controls a subtask row has. */
  datatype Control = Checkbox | DeleteButton

  /** The callback a control invokes, with its argument. */
  datatype SubtaskCallback = OnToggle(subtaskId: string) | OnDelete(subtaskId: string)

  /** A row's controls call back with that row's own subtask id. */
  function Callback(s: Subtask, c: Control): (cb: SubtaskCallback)
    ensures cb.subtaskId == s.id
    ensures cb.OnToggle? <==> c == Checkbox
  {
    match c
    case Checkbox => OnToggle(s.id)
    case DeleteButton => OnDelete(s.id)
  }

  /** `disabled={!newSubtaskTitle.trim()}`. */
  function AddDisabled(title: string): (b: bool)
    ensures b <==> IsBlank(title)
  {
    Trim(title) == []
  }

  class SubtaskList {
    var newSubtaskTitle: string
    /** The titles `onAddSubtask` was called with, in order. */
    var added: seq<string>

    /** Every title handed on is trimmed and not empty. */
    ghost predicate Valid()
      reads this
    {
      forall i :: 0 <= i < |added| ==> added[i] != [] && Trim(added[i]) == added[i]
    }

    constructor ()
      ensures Valid() && newSubtaskTitle == [] && added == []
    {
      newSubtaskTitle := [];
      added := [];
    }

    /** The input's `onChange`. */
    method SetTitle(title: string)
      modifies this`newSubtaskTitle
      ensures newSubtaskTitle == title
    {
      newSubtaskTitle := title;
    }

    /** `handleAddSubtask`: a blank title does nothing; otherwise its trimmed form is added and the input cleared. */
    method HandleAddSubtask()
      requires Valid()
      modifies this
      ensures Valid()
      ensures IsBlank(old(newSubtaskTitle)) ==> newSubtaskTitle == old(newSubtaskTitle) && added == old(added)
      ensures !IsBlank(old(newSubtaskTitle)) ==>
        newSubtaskTitle == [] && added == old(added) + [Trim(old(newSubtaskTitle))]
    {
      var trimmed := Trim(newSubtaskTitle);
      if trimmed != [] {
        TrimIdempotent(newSubtaskTitle);
        added := added + [trimmed];
        newSubtaskTitle := [];
      }
    }
  }
}
