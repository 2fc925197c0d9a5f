/** One input with ghost text: the element's value and classes, the settings
    stored with it, and the methods of the plugin as pure transitions. Each
    transition returns the new element and, for the handlers that have one,
    the call it makes to the user's callback. */
module GhostField {

  import opened Optional
  import opened Text
  import opened Config

  /** The part of a DOM input the plugin reads and writes. `stored` is the
      settings record kept under the data key 'ghostText', absent before init. */
  datatype Input = Input(value: string, classes: set<string>, stored: Option<Settings>)

  /** A call of user callback `hook` with argument `arg`. */
  datatype Call = Call(hook: Callback, arg: string)

  /** What a handler leaves behind: the element, and the callback it called. */
  datatype Handled = Handled(input: Input, call: Option<Call>)

  /** Which form the init call attached the submit handler to, if any. The
      selector used for `ById(id)` is `'#' + id`. */
  datatype SubmitTarget = Unwired | ById(id: string) | ClosestForm

  /** What init leaves behind: the element, and where it wired submission. */
  datatype Bound = Bound(input: Input, submit: SubmitTarget)

  /** A callback is called only when it is set, and then with the given value. */
  function Invoke(hook: Option<Callback>, arg: string): (r: Option<Call>)
    ensures r.Some? <==> hook.Some?
    ensures r.Some? ==> r.value.hook == hook.value && r.value.arg == arg
  {
    match hook
    case None => None
    case Some(h) => Some(Call(h, arg))
  }

  /** The blur handler restores the ghost text exactly when this holds. */
  predicate RestoresOnBlur(value: string, s: Settings): (b: bool)
    ensures b <==> (forall i :: 0 <= i < |value| ==> IsWhitespace(value[i])) || value == s.ghostText
  {
    Blank(value) || value == s.ghostText
  }

  /** The invariant one might expect of a ghost-text input: the ghost class is
      on exactly when the value is the ghost text. The plugin does not keep it. */
  predicate MarkerMatchesValue(e: Input)
    requires e.stored.Some?
  {
    e.stored.value.ghostClass in e.classes <==> e.value == e.stored.value.ghostText
  }

  /** The form-submit handler: a value that still equals the ghost text is
      cleared so that it is not submitted; the classes are left alone. */
  function ParentFormSubmit(e: Input): (r: Input)
    requires e.stored.Some?
    ensures r.classes == e.classes && r.stored == e.stored
    ensures r.value == "" <==> e.value == "" || e.value == e.stored.value.ghostText
    ensures r.value != e.value ==> e.value == e.stored.value.ghostText
  {
    if e.value == e.stored.value.ghostText then e.(value := "") else e
  }

  /** The focus handler: ghost text is cleared and its class removed; the
      focus callback is handed the value as it was on entry. */
  function Focus(e: Input): (r: Handled)
    requires e.stored.Some?
    ensures r.input.stored == e.stored
    ensures e.value == e.stored.value.ghostText ==>
              r.input.value == "" && r.input.classes == e.classes - {e.stored.value.ghostClass}
    ensures e.value != e.stored.value.ghostText ==> r.input == e
    ensures r.call == Invoke(e.stored.value.focus, e.value)
  {
    var s := e.stored.value;
    var after := if e.value == s.ghostText then e.(value := "", classes := e.classes - {s.ghostClass}) else e;
    Handled(after, Invoke(s.focus, e.value))
  }

  /** The blur handler: a blank value, or one equal to the ghost text, is
      replaced by the ghost text and its class added; any other value stays
      as it is. The blur callback is handed the value as it was on entry. */
  function Blur(e: Input): (r: Handled)
    requires e.stored.Some?
    ensures r.input.stored == e.stored
    ensures RestoresOnBlur(e.value, e.stored.value) ==>
              r.input.value == e.stored.value.ghostText
              && r.input.classes == e.classes + {e.stored.value.ghostClass}
    ensures !RestoresOnBlur(e.value, e.stored.value) ==> r.input == e
    ensures r.call == Invoke(e.stored.value.blur, e.value)
  {
    var s := e.stored.value;
    var after := if RestoresOnBlur(e.value, s) then e.(value := s.ghostText, classes := e.classes + {s.ghostClass}) else e;
    Handled(after, Invoke(s.blur, e.value))
  }

  /** The keyup handler: no effect on the element; the change callback is
      handed the current value. */
  function Change(e: Input): (r: Handled)
    requires e.stored.Some?
    ensures r.input == e
    ensures r.call == Invoke(e.stored.value.change, e.value)
  {
    Handled(e, Invoke(e.stored.value.change, e.value))
  }

  /** Where init attaches the submit handler: nowhere unless `clearOnSubmit`
      is set; to the form with the given id when `parentForm` is a non-empty
      string, its first '#' deleted; to the closest enclosing form otherwise. */
  function SubmitTargetFor(s: Settings): (t: SubmitTarget)
    ensures t.Unwired? <==> !s.clearOnSubmit
    ensures t.ById? <==> s.clearOnSubmit && s.parentForm.Some? && s.parentForm.value != ""
    ensures t.ById? ==> t.id == RemoveFirst(s.parentForm.value, '#')
    ensures t.ClosestForm? <==> s.clearOnSubmit && (s.parentForm.None? || s.parentForm.value == "")
  {
    if !s.clearOnSubmit then Unwired
    else if s.parentForm.Some? && s.parentForm.value != "" then ById(RemoveFirst(s.parentForm.value, '#'))
    else ClosestForm
  }

  /** The updateSettings method: the stored settings are extended by `o`; the
      value and classes are untouched. */
  function UpdateSettings(e: Input, o: Options): (r: Input)
    requires e.stored.Some?
    ensures r.value == e.value && r.classes == e.classes
    ensures r.stored.Some? && r.stored.value == Extend(e.stored.value, o)
  {
    e.(stored := Some(Extend(e.stored.value, o)))
  }

  /** The init method: the defaults, with the ghost text taken from the current
      value, are extended by `o` and stored; the ghost class is added whatever
      the value is; the submit handler is wired as the settings say. */
  function Init(e: Input, o: Options): (r: Bound)
    ensures r.input.value == e.value
    ensures r.input.stored == Some(Extend(Defaults(e.value), o))
    ensures r.input.classes == e.classes + {r.input.stored.value.ghostClass}
    ensures r.submit == SubmitTargetFor(r.input.stored.value)
  {
    var s := Extend(Defaults(e.value), o);
    Bound(Input(e.value, e.classes + {s.ghostClass}, Some(s)), SubmitTargetFor(s))
  }
}
