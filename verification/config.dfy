/** The settings record the plugin stores with `$.data(element, 'ghostText')`,
    the options object a caller passes, and the shallow merge between them. */
module Config {

  import opened Optional

  /** A user-supplied callback, known only by its identity: its code is the caller's. */
  datatype Callback = Callback(id: nat)

  /** The stored settings of one input. */
  datatype Settings = Settings(
    ghostText: string,
    ghostClass: string,
    focus: Option<Callback>,
    blur: Option<Callback>,
    change: Option<Callback>,
    clearOnSubmit: bool,
    parentForm: Option<string>)

  /** An options object: `None` is a key that is absent (or `undefined`), which
      `$.extend` skips; `Some(v)` is a key that is present with value `v`. A
      callback or `parentForm` key may be present with value `null`, which is
      `Some(None)` and does override. */
  datatype Options = Options(
    ghostText: Option<string>,
    ghostClass: Option<string>,
    focus: Option<Option<Callback>>,
    blur: Option<Option<Callback>>,
    change: Option<Option<Callback>>,
    clearOnSubmit: Option<bool>,
    parentForm: Option<Option<string>>)

  /** The empty options object `{}`. */
  const NoOptions := Options(None, None, None, None, None, None, None)

  const DefaultGhostClass := "ghost-text"

  /** The defaults: ghost text is the value the input has when the plugin is called. */
  function Defaults(value: string): (s: Settings)
    ensures s.ghostText == value && s.ghostClass == DefaultGhostClass
    ensures s.focus.None? && s.blur.None? && s.change.None?
    ensures s.clearOnSubmit && s.parentForm.None?
  {
    Settings(value, DefaultGhostClass, None, None, None, true, None)
  }

  /** `$.extend(s, o)`: every key present in `o` overrides, every other key keeps its value. */
  function Extend(s: Settings, o: Options): (r: Settings)
    ensures o.ghostText.Some? ==> r.ghostText == o.ghostText.value
    ensures o.ghostText.None? ==> r.ghostText == s.ghostText
    ensures o.ghostClass.Some? ==> r.ghostClass == o.ghostClass.value
    ensures o.ghostClass.None? ==> r.ghostClass == s.ghostClass
    ensures o.focus.Some? ==> r.focus == o.focus.value
    ensures o.focus.None? ==> r.focus == s.focus
    ensures o.blur.Some? ==> r.blur == o.blur.value
    ensures o.blur.None? ==> r.blur == s.blur
    ensures o.change.Some? ==> r.change == o.change.value
    ensures o.change.None? ==> r.change == s.change
    ensures o.clearOnSubmit.Some? ==> r.clearOnSubmit == o.clearOnSubmit.value
    ensures o.clearOnSubmit.None? ==> r.clearOnSubmit == s.clearOnSubmit
    ensures o.parentForm.Some? ==> r.parentForm == o.parentForm.value
    ensures o.parentForm.None? ==> r.parentForm == s.parentForm
  {
    Settings(
      o.ghostText.GetOr(s.ghostText),
      o.ghostClass.GetOr(s.ghostClass),
      o.focus.GetOr(s.focus),
      o.blur.GetOr(s.blur),
      o.change.GetOr(s.change),
      o.clearOnSubmit.GetOr(s.clearOnSubmit),
      o.parentForm.GetOr(s.parentForm))
  }

  /** The options object holding every key of `b`, and the keys of `a` that `b` lacks. */
  function Then(a: Options, b: Options): Options {
    Options(
      if b.ghostText.Some? then b.ghostText else a.ghostText,
      if b.ghostClass.Some? then b.ghostClass else a.ghostClass,
      if b.focus.Some? then b.focus else a.focus,
      if b.blur.Some? then b.blur else a.blur,
      if b.change.Some? then b.change else a.change,
      if b.clearOnSubmit.Some? then b.clearOnSubmit else a.clearOnSubmit,
      if b.parentForm.Some? then b.parentForm else a.parentForm)
  }

  /** Extending with `{}` (or with `undefined`) changes nothing. */
  lemma ExtendNoOptions(s: Settings)
    ensures Extend(s, NoOptions) == s
  {
  }

  /** Two successive merges are one merge in which the later keys win. */
  lemma ExtendTwice(s: Settings, a: Options, b: Options)
    ensures Extend(Extend(s, a), b) == Extend(s, Then(a, b))
  {
  }

  /** Merging the same options again changes nothing. */
  lemma ExtendIdempotent(s: Settings, o: Options)
    ensures Extend(Extend(s, o), o) == Extend(s, o)
  {
  }
}
