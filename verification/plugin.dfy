/** The plugin entry point `$(input).ghostText(opts, args)`, which either
    initialises the input or runs one method by name, and the events the
    handlers bound by init respond to. */
module Plugin {

  import opened Optional
  import opened Config
  import opened GhostField

  /** The first argument: a falsy non-string (`undefined`, `null`, `false`,
      `0`), a string, or an options object. */
  datatype Opts = NoOpts | Named(name: string) | Given(options: Options)

  /** The methods that can be run by name. */
  datatype Method = InitMethod | UpdateSettingsMethod | ParentFormSubmitMethod
                  | FocusMethod | BlurMethod | ChangeMethod

  /** The key under which each method is stored. */
  function MethodName(m: Method): (r: string)
    ensures r == "init" <==> m == InitMethod
    ensures r == "updateSettings" <==> m == UpdateSettingsMethod
    ensures r == "parentFormSubmit" <==> m == ParentFormSubmitMethod
    ensures r == "focus" <==> m == FocusMethod
    ensures r == "blur" <==> m == BlurMethod
    ensures r == "change" <==> m == ChangeMethod
  {
    match m
    case InitMethod => "init"
    case UpdateSettingsMethod => "updateSettings"
    case ParentFormSubmitMethod => "parentFormSubmit"
    case FocusMethod => "focus"
    case BlurMethod => "blur"
    case ChangeMethod => "change"
  }

  /** `opts in methods`: the method a string names, if any. */
  function MethodNamed(name: string): (r: Option<Method>)
    ensures r.Some? ==> MethodName(r.value) == name
    ensures r.None? ==> forall m :: MethodName(m) != name
  {
    if name == "init" then Some(InitMethod)
    else if name == "updateSettings" then Some(UpdateSettingsMethod)
    else if name == "parentFormSubmit" then Some(ParentFormSubmitMethod)
    else if name == "focus" then Some(FocusMethod)
    else if name == "blur" then Some(BlurMethod)
    else if name == "change" then Some(ChangeMethod)
    else None
  }

  /** Each method is found under its own name, and no other. */
  lemma MethodNameRoundTrip(m: Method, name: string)
    ensures MethodNamed(MethodName(m)) == Some(m)
    ensures MethodNamed(name) == Some(m) <==> name == MethodName(m)
  {
  }

  /** Every method but init reads the stored settings, which only init creates. */
  predicate NeedsSettings(opts: Opts) {
    opts.Named? && MethodNamed(opts.name).Some? && MethodNamed(opts.name).value != InitMethod
  }

  /** What one call of the plugin leaves behind: the element, the callback
      called, and, when init ran, where it wired submission. */
  datatype Response = Response(input: Input, call: Option<Call>, submit: Option<SubmitTarget>)

  function FromHandled(h: Handled): Response {
    Response(h.input, h.call, None)
  }

  function FromBound(b: Bound): Response {
    Response(b.input, None, Some(b.submit))
  }

  /** Run method `m`, handing it `args`. Init ignores `args` and, called by
      name, merges nothing: it reads the options from the first argument,
      which is the method's name. Every other method reads the stored
      settings, so init must have run. */
  function Run(e: Input, m: Method, args: Options): (r: Response)
    requires m != InitMethod ==> e.stored.Some?
    ensures r.submit.Some? <==> m == InitMethod
    ensures m == InitMethod ==> r.input.stored == Some(Defaults(e.value)) && r.input.value == e.value
    ensures m == UpdateSettingsMethod ==> r.input.stored == Some(Extend(e.stored.value, args))
    ensures m != InitMethod && m != UpdateSettingsMethod ==> r.input.stored == e.stored
    ensures m != ParentFormSubmitMethod && m != FocusMethod && m != BlurMethod ==> r.input.value == e.value
    ensures r.call.Some? ==> m == FocusMethod || m == BlurMethod || m == ChangeMethod
    ensures r.call.Some? ==> r.call.value.arg == e.value
  {
    match m
    case InitMethod => FromBound(Init(e, NoOptions))
    case UpdateSettingsMethod => Response(UpdateSettings(e, args), None, None)
    case ParentFormSubmitMethod => Response(ParentFormSubmit(e), None, None)
    case FocusMethod => FromHandled(Focus(e))
    case BlurMethod => FromHandled(Blur(e))
    case ChangeMethod => FromHandled(Change(e))
  }

  /** `$(input).ghostText(opts, args)`. A string runs the method it names and
      nothing else, and is ignored when it names none; anything else runs init
      with the options it holds. */
  function Dispatch(e: Input, opts: Opts, args: Options): (r: Response)
    requires NeedsSettings(opts) ==> e.stored.Some?
    ensures opts.Named? && MethodNamed(opts.name).None? ==> r == Response(e, None, None)
    ensures opts.NoOpts? ==> r == FromBound(Init(e, NoOptions))
    ensures opts.Given? ==> r == FromBound(Init(e, opts.options))
    ensures opts == Named("init") ==> r == FromBound(Init(e, NoOptions))
    ensures opts == Named("updateSettings") ==> r == Response(UpdateSettings(e, args), None, None)
    ensures opts == Named("parentFormSubmit") ==> r == Response(ParentFormSubmit(e), None, None)
    ensures opts == Named("focus") ==> r == FromHandled(Focus(e))
    ensures opts == Named("blur") ==> r == FromHandled(Blur(e))
    ensures opts == Named("change") ==> r == FromHandled(Change(e))
    ensures r.submit.Some? <==> !opts.Named? || opts.name == "init"
  {
    match opts
    case Named(name) =>
      if MethodNamed(name).Some? then Run(e, MethodNamed(name).value, args)
      else Response(e, None, None)
    case NoOpts => FromBound(Init(e, NoOptions))
    case Given(o) => FromBound(Init(e, o))
  }

  /** The events whose handlers init binds. `FormSubmitted` is a submission
      of the form the submit handler was attached to. */
  datatype Event = Focused | Blurred | KeyUp | FormSubmitted

  /** Deliver an event to an input whose init wired submission to `wiring`.
      Submission is handled whenever a handler was wired, whatever
      `clearOnSubmit` says now: the flag is read once, by init. */
  function Deliver(e: Input, wiring: SubmitTarget, ev: Event): (r: Handled)
    requires e.stored.Some?
    ensures ev == FormSubmitted && wiring.Unwired? ==> r == Handled(e, None)
    ensures ev == FormSubmitted && !wiring.Unwired? ==> r == Handled(ParentFormSubmit(e), None)
    ensures ev == Focused ==> r == Focus(e)
    ensures ev == Blurred ==> r == Blur(e)
    ensures ev == KeyUp ==> r == Change(e)
  {
    match ev
    case Focused => Focus(e)
    case Blurred => Blur(e)
    case KeyUp => Change(e)
    case FormSubmitted => if wiring.Unwired? then Handled(e, None) else Handled(ParentFormSubmit(e), None)
  }

  /** The element after a run of events, and every callback call they made, in order. */
  datatype Trace = Trace(input: Input, calls: seq<Call>)

  /** `h` is one of the callbacks the settings hold. */
  predicate IsHook(s: Settings, h: Callback) {
    s.focus == Some(h) || s.blur == Some(h) || s.change == Some(h)
  }

  /** Deliver `evs` one after another. Each event calls at most one callback,
      and only a callback the stored settings hold. */
  function DeliverAll(e: Input, wiring: SubmitTarget, evs: seq<Event>): (r: Trace)
    requires e.stored.Some?
    ensures r.input.stored == e.stored
    ensures |r.calls| <= |evs|
    ensures forall i :: 0 <= i < |r.calls| ==> IsHook(e.stored.value, r.calls[i].hook)
    ensures e.stored.value.focus.None? && e.stored.value.blur.None? && e.stored.value.change.None? ==> r.calls == []
    ensures evs == [] ==> r == Trace(e, [])
    decreases |evs|
  {
    if evs == [] then Trace(e, [])
    else
      var h := Deliver(e, wiring, evs[0]);
      var rest := DeliverAll(h.input, wiring, evs[1..]);
      Trace(rest.input, (if h.call.Some? then [h.call.value] else []) + rest.calls)
  }
}
