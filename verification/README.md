# jQuery Ghost Text, modelled in Dafny

`$(input).ghostText(opts, args)` gives a text input placeholder ("ghost") text.
Init stores a settings record with the input and adds the ghost class. Focus
clears the ghost text and removes the class. Blur puts the ghost text back,
class included, when the value is blank (nothing left once every whitespace
character is deleted) or equals the ghost text. Submitting the parent form
clears a value that still equals the ghost text. Keyup only calls the user's
`change` callback. Called with a string, the plugin runs the method of that
name instead, or does nothing if no method has that name.

The model abstracts the element to its value, its set of classes and the
settings stored with it (`GhostField.Input`). Every method is a pure function
returning the new element and, for focus, blur and change, the call it makes
to the user's callback, with the argument the callback would receive.

- `optional.dfy`: `Option`, standing for a `null` or `undefined` property.
- `text.dfy`: the two string operations: deleting `\s` characters (the blur
  guard) and deleting the first `'#'` of the `parentForm` id.
- `config.dfy`: the settings record, the options object, the defaults and the
  `$.extend` merge.
- `field.dfy`: the element and the methods init, updateSettings,
  parentFormSubmit, focus, blur and change.
- `plugin.dfy`: dispatch on the first argument, and delivery of the events
  whose handlers init binds.
- `properties.dfy`: properties that relate several calls.

The model follows the code, including where it differs from the natural
reading "the ghost class marks the ghost text":

- Init adds the ghost class whatever the value is, not only when the value
  equals the ghost text.
- Submission leaves the class on.
- A user who focuses the input and types the ghost text verbatim leaves the
  value equal to the ghost text with the class off, until the next blur.

So "the class is on exactly when the value is the ghost text"
(`GhostField.MarkerMatchesValue`) is not an invariant of the plugin. The
model proves which operations keep it and exhibits the ones that break it.
Focus breaks it too when the ghost text is empty, which happens when the input
is empty at init.

Three more consequences of the code, stated as properties:

- `ghostText('init', args)` merges nothing. Init reads its options from the
  first argument, which is then the string `'init'`.
- `clearOnSubmit` and `parentForm` are read once, by init. A later
  updateSettings neither wires nor unwires the submit handler.
- `parentForm.replace('#', '')` deletes the first `'#'` wherever it stands,
  not only a leading one.

## Model

| member | source | states |
|---|---|---|
| Text.IsWhitespace | jquery.ghostText.js:126 | the `\s` class; among ASCII characters it holds exactly of tab, line feed, vertical tab, form feed, carriage return and space |
| Text.Blank | jquery.ghostText.js:126 | a value is blank exactly when every character of it is whitespace |
| Text.RemoveWhitespace | jquery.ghostText.js:126 | deleting whitespace keeps every non-whitespace character (with its count) and no whitespace; the result is empty exactly when every character of the input is whitespace |
| Text.RemoveWhitespaceIdempotent | jquery.ghostText.js:126 | deleting whitespace from an already stripped string changes nothing |
| Text.IndexOf | jquery.ghostText.js:75 | the position found holds the character and no earlier position does; nothing is found exactly when the character is absent |
| Text.RemoveFirst | jquery.ghostText.js:75 | a string without the character is unchanged; otherwise exactly one occurrence, the first, is deleted and the rest kept in place |
| Text.RemoveFirstDropsLeading | jquery.ghostText.js:75 | a leading character is the one deleted |
| Config.Defaults | jquery.ghostText.js:47-55 | the ghost text defaults to the value given, the class to "ghost-text", no callbacks, clearOnSubmit on, no parent form |
| Config.Extend | jquery.ghostText.js:98-100 | each key present in the options overrides the setting, including an explicit null callback or form; each absent key keeps its setting |
| Config.ExtendNoOptions | jquery.ghostText.js:64-68 | merging the empty options object that replaces falsy options changes no setting |
| Config.ExtendTwice | jquery.ghostText.js:98-100 | two successive updates equal one update in which the later keys win |
| Config.ExtendIdempotent | jquery.ghostText.js:98-100 | repeating the same update changes nothing |
| GhostField.Invoke | jquery.ghostText.js:117-119 | a callback is called only when it is set, and then with the given value |
| GhostField.RestoresOnBlur | jquery.ghostText.js:126 | blur restores exactly when every character of the value is whitespace or the value is the ghost text |
| GhostField.ParentFormSubmit | jquery.ghostText.js:103-107 | the value becomes empty exactly when it was empty or was the ghost text; a changed value was the ghost text; classes and settings are untouched |
| GhostField.Focus | jquery.ghostText.js:109-120 | ghost text is cleared and its class removed, any other value leaves the element unchanged; the focus callback gets the value read on entry |
| GhostField.Blur | jquery.ghostText.js:123-134 | a blank value or the ghost text becomes the ghost text with its class added, any other value leaves the element unchanged; the blur callback gets the value read on entry |
| GhostField.Change | jquery.ghostText.js:136-143 | the element is unchanged; the change callback gets the current value |
| GhostField.SubmitTargetFor | jquery.ghostText.js:71-85 | no submit handler unless clearOnSubmit; the form whose id is parentForm with its first '#' deleted when parentForm is a non-empty string; the closest form otherwise |
| GhostField.UpdateSettings | jquery.ghostText.js:98-101 | the stored settings become the old ones extended by the options; value and classes are untouched |
| GhostField.Init | jquery.ghostText.js:63-96 | the value is untouched; the stored settings are the defaults (ghost text = current value) extended by the options; the ghost class is added whatever the value; the submit wiring follows the new settings |
| Plugin.MethodName | jquery.ghostText.js:61-144 | each of the six methods has its own key: "init", "updateSettings", "parentFormSubmit", "focus", "blur", "change" |
| Plugin.MethodNamed | jquery.ghostText.js:149 | a name finds a method only if it is that method's key; a name no method has finds nothing |
| Plugin.MethodNameRoundTrip | jquery.ghostText.js:61-144 | each method is found under its own key and under no other string |
| Plugin.Run | jquery.ghostText.js:151 | init run by name stores the defaults whatever `args` holds, because it reads its options from the first argument; updateSettings extends the settings by `args`; the other methods leave the settings alone; only focus, blur and change call back, with the current value; only parentFormSubmit, focus and blur touch the value; only init reports a submit wiring. Every method but init needs stored settings, as it reads them |
| Plugin.Dispatch | jquery.ghostText.js:146-157 | a string naming a method runs only that method (init with no options); any other string changes nothing; a non-string runs init with its options; only init reports a submit wiring |
| Plugin.Deliver | jquery.ghostText.js:75-90 | focus, blur and keyup events run their handlers; a submission runs parentFormSubmit when init wired a handler, whatever clearOnSubmit says now, and does nothing otherwise |
| Plugin.DeliverAll | jquery.ghostText.js:88-90 | a run of events keeps the stored settings, makes at most one callback call per event, calls only callbacks the settings hold, and calls nothing when none is set |
| Properties.KeyUpsCallChange | jquery.ghostText.js:90 | a run of keyup events leaves the element unchanged and calls the change callback once per event, each time with the current value |
| Properties.BlurIdempotent | jquery.ghostText.js:126-127 | blurring twice leaves the element as blurring once |
| Properties.FocusIdempotent | jquery.ghostText.js:112-113 | focusing twice leaves the element as focusing once |
| Properties.ParentFormSubmitIdempotent | jquery.ghostText.js:104-105 | a second submission clears nothing more |
| Properties.FocusThenBlurRestores | jquery.ghostText.js:110-132 | from the ghost text, focus then blur restores the ghost text with its class; the focus callback sees the ghost text and the blur callback the empty string |
| Properties.WhitespaceOnlyIsRestored | jquery.ghostText.js:126-127 | a value made only of whitespace becomes the ghost text, class on |
| Properties.RealInputSurvivesBlur | jquery.ghostText.js:126 | a value other than the ghost text containing a non-whitespace character is left as it is by blur |
| Properties.BlurKeepsMarkerInvariant | jquery.ghostText.js:123-128 | if the class was on exactly when the value was the ghost text, that still holds after blur |
| Properties.FocusKeepsMarkerInvariant | jquery.ghostText.js:109-114 | the same for focus, provided the ghost text is not empty |
| Properties.FocusBreaksMarkerInvariantOnEmptyGhostText | jquery.ghostText.js:112-113 | with an empty ghost text, focus on the empty value removes the class while the value still equals the ghost text |
| Properties.SubmitBreaksMarkerInvariant | jquery.ghostText.js:103-107 | submission of a non-empty ghost text leaves the class on and the value no longer the ghost text |
| Properties.TypedGhostTextBreaksMarkerInvariant | jquery.ghostText.js:121-128 | after focus, a value typed equal to the ghost text has the class off; the next blur puts it back |
| Properties.InitDefaultShowsGhost | jquery.ghostText.js:47-55 | with the ghost text defaulted, init stores the current value as ghost text and the class matches the value |
| Properties.InitMarksRealContent | jquery.ghostText.js:93-95 | with a ghost text other than the value, init still adds the class, so class and value disagree |
| Properties.EventsKeepMarkerInvariant | jquery.ghostText.js:88-90 | any run of focus, blur and keyup events with no submit handler keeps the class matching the value when the ghost text is not empty |
| Properties.SubmitWiringFixedAtInit | jquery.ghostText.js:71-85 | after a default init, turning clearOnSubmit off does not stop submission from clearing the ghost text |
| Properties.ChangedGhostClassStaysOn | jquery.ghostText.js:98-100 | after updateSettings changes the ghost class, the old class stays on through focus and blur |
| Properties.SubmitUnwiredStaysUnwired | jquery.ghostText.js:71-85 | after an init with clearOnSubmit off, turning it on does not make submission clear anything |
| Properties.InitByNameIgnoresArgs | jquery.ghostText.js:64-68 | init run by name stores the defaults, whatever the second argument holds |
| Properties.ParentFormHashIsOptional | jquery.ghostText.js:73-75 | a form id given with or without a leading '#' wires the same form |
| Properties.SearchBoxScenario | jquery.ghostText.js:93-128 | an input holding "Search" shows it as ghost text after init, is emptied by focus, and shows it again after blur |

## Left out

- Event registration (`.focus`, `.blur`, `.keyup`, `.submit`) and finding the form, by id or with `.closest('form')`: jQuery code. They are modelled only as the `SubmitTarget` init reports and the `Deliver` function that routes an event to its handler.
- `$.data` storage and the internals of `$.extend`: jQuery code. The settings are the `stored` field, and the merge is "present keys override". Keys the plugin does not read, which `$.extend` also copies, are not modelled.
- A jQuery set holding several elements, and the chained `return $self`: library semantics. The model is one input.
- Running a method other than init by name before init has stored settings. parentFormSubmit, focus, blur and change throw a TypeError there, as they read the missing settings. updateSettings does not throw: `$.extend` starts from a fresh object when its target is undefined, so it stores a partial settings record holding only the keys given. Handlers and `Dispatch` require stored settings for these cases.
- Calling init a second time stores a new settings object and binds a second set of handlers that read it. The first init's handlers keep reading the first object, and both sets run on every event. This is not modelled: only the latest stored settings exist.
- Names inherited from `Object.prototype` pass the `opts in methods` test (`toString`, `constructor`, ...). They are treated like any unknown name: no effect on the input.
- JavaScript loose equality and truthiness for option values of the wrong type: the model types `ghostText` and `ghostClass` as strings, `clearOnSubmit` as a boolean and callbacks as present or absent. A non-string `ghostText`, a truthy `clearOnSubmit` that is not a boolean and a callback that is not a function are not modelled.
- `ghostClass` is one class name. A value holding several space-separated names, or the empty string, which jQuery's class methods treat specially, is not modelled.
- The user callbacks are foreign code. Only the call each handler makes, and its argument, is modelled.
- The user's typing, which changes the value outside the plugin, is not an operation here. The value of an `Input` is arbitrary.
- Dafny strings are sequences of Unicode scalar values, while JavaScript strings are sequences of UTF-16 code units, so a value holding a lone surrogate cannot be represented. Every `\s` code point lies in the Basic Multilingual Plane, so the equality and whitespace tests are unaffected otherwise.
- `Text.IsWhitespace` lists the Unicode space separators of current Unicode versions. Older engines that counted U+180E as a space are not modelled.
