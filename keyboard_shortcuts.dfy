/**
 * Global keyboard shortcuts: '?' shows or toggles the help dialog, and any other key
 * runs the first registered shortcut whose key matches it, ignoring case, unless the
 * user is typing into an editable element.
 */
module KeyboardShortcuts {
  import opened Wrappers
  import opened Text

  /** What the keypress landed on. */
  datatype Target = InputElement | TextAreaElement | ContentEditable | OtherElement

  datatype KeyEvent = KeyEvent(key: string, ctrl: bool, meta: bool, shift: bool, alt: bool, target: Target)

  /** A shortcut; `action` is a number standing for its callback. */
  datatype Shortcut = Shortcut(key: string, description: string, action: nat)

  /** What a keypress does. */
  datatype Reaction = ShowHelp | ToggleHelp | Run(action: nat) | Nothing

  /** An input, a textarea or a contentEditable element. */
  predicate Editable(t: Target) {
    t != OtherElement
  }

  /** `e.key.toLowerCase() === shortcut.key.toLowerCase()`. */
  predicate KeyMatches(key: string, s: Shortcut) {
    Lower(key) == Lower(s.key)
  }

  /** The index of the first shortcut whose key matches. */
  function FirstMatch(key: string, shortcuts: seq<Shortcut>): (r: Option<nat>)
    ensures r.Some? ==> r.value < |shortcuts| && KeyMatches(key, shortcuts[r.value])
    ensures r.Some? ==> forall j :: 0 <= j < r.value ==> !KeyMatches(key, shortcuts[j])
    ensures r.None? ==> forall j :: 0 <= j < |shortcuts| ==> !KeyMatches(key, shortcuts[j])
  {
    if shortcuts == [] then None
    else if KeyMatches(key, shortcuts[0]) then Some(0)
    else
      match FirstMatch(key, shortcuts[1..])
      case None => None
      case Some(i) => Some(i + 1)
  }

  /** '?' with ctrl, meta or shift. */
  predicate ShowsHelp(e: KeyEvent) {
    e.key == "?" && (e.ctrl || e.meta || e.shift)
  }

  /** '?' with none of ctrl, meta and alt. */
  predicate TogglesHelp(e: KeyEvent) {
    e.key == "?" && !e.ctrl && !e.meta && !e.alt
  }

  /** The reaction `handleKeyDown` has to a keypress. */
  function Respond(e: KeyEvent, shortcuts: seq<Shortcut>): Reaction {
    if ShowsHelp(e) then ShowHelp
    else if TogglesHelp(e) then ToggleHelp
    else if Editable(e.target) then Nothing
    else
      match FirstMatch(e.key, shortcuts)
      case None => Nothing
      case Some(i) => Run(shortcuts[i].action)
  }

  /** Typing into an editable element never runs a shortcut. */
  lemma EditableNeverRuns(e: KeyEvent, shortcuts: seq<Shortcut>)
    requires Editable(e.target)
    ensures !Respond(e, shortcuts).Run?
  {
  }

  /** A shortcut runs iff it is the first one whose key matches, outside editable elements. */
  lemma RunsFirstMatch(e: KeyEvent, shortcuts: seq<Shortcut>, i: nat)
    requires !ShowsHelp(e) && !TogglesHelp(e) && i < |shortcuts|
    requires !Editable(e.target) && KeyMatches(e.key, shortcuts[i])
    requires forall j :: 0 <= j < i ==> !KeyMatches(e.key, shortcuts[j])
    ensures Respond(e, shortcuts) == Run(shortcuts[i].action)
  {
    assert FirstMatch(e.key, shortcuts) == Some(i);
  }

  /** '?' with alt and no other modifier is not a help key: it goes to the shortcuts. */
  lemma AltQuestionMarkIsShortcut(target: Target, shortcuts: seq<Shortcut>)
    ensures Respond(KeyEvent("?", false, false, false, true, target), shortcuts) !in {ShowHelp, ToggleHelp}
  {
  }

  /**
   * '?' typed with shift only (how most layouts produce it) always shows the help and
   * never hides it; only '?' without shift, ctrl, meta and alt toggles.
   */
  lemma ShiftQuestionMarkOnlyShows(target: Target, shortcuts: seq<Shortcut>, alt: bool)
    ensures Respond(KeyEvent("?", false, false, true, alt, target), shortcuts) == ShowHelp
    ensures Respond(KeyEvent("?", false, false, false, false, target), shortcuts) == ToggleHelp
  {
  }

  class ShortcutHandler {
    var showHelp: bool
    /** The actions run so far, in order. */
    var fired: seq<nat>
    const shortcuts: seq<Shortcut>
    /** With `disabled` no listener is installed. */
    const disabled: bool

    constructor (shortcuts: seq<Shortcut>, disabled: bool)
      ensures !showHelp && fired == []
      ensures this.shortcuts == shortcuts && this.disabled == disabled
    {
      showHelp := false;
      fired := [];
      this.shortcuts := shortcuts;
      this.disabled := disabled;
    }

    /**
     * A keydown reaching the window. Returns whether the default action was
     * prevented; at most one action runs.
     */
    method HandleKeyDown(e: KeyEvent) returns (prevented: bool)
      modifies this`showHelp, this`fired
      ensures disabled ==> !prevented && showHelp == old(showHelp) && fired == old(fired)
      ensures !disabled ==> (prevented <==> Respond(e, shortcuts) != Nothing)
      ensures !disabled ==> match Respond(e, shortcuts)
        case ShowHelp => showHelp && fired == old(fired)
        case ToggleHelp => showHelp == !old(showHelp) && fired == old(fired)
        case Run(a) => showHelp == old(showHelp) && fired == old(fired) + [a]
        case Nothing => showHelp == old(showHelp) && fired == old(fired)
    {
      if disabled {
        return false;
      }
      if e.key == "?" && (e.ctrl || e.meta || e.shift) {
        showHelp := true;
        return true;
      }
      if e.key == "?" && !e.ctrl && !e.meta && !e.alt {
        showHelp := !showHelp;
        return true;
      }
      var i := 0;
      while i < |shortcuts|
        invariant 0 <= i <= |shortcuts|
        invariant !Editable(e.target) ==> forall j :: 0 <= j < i ==> !KeyMatches(e.key, shortcuts[j])
        invariant fired == old(fired)
      {
        if Lower(e.key) == Lower(shortcuts[i].key) {
          if Editable(e.target) {
            i := i + 1;
            continue;
          }
          fired := fired + [shortcuts[i].action];
          RunsFirstMatch(e, shortcuts, i);
          return true;
        }
        i := i + 1;
      }
      return false;
    }

    /** The backdrop and the 'Got it' button. */
    method CloseHelp()
      modifies this`showHelp
      ensures !showHelp
    {
      showHelp := false;
    }
  }
}
