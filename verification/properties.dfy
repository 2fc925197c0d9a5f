/** Properties of the ghost-text transitions that relate several calls. */
module Properties {

  import opened Optional
  import opened Text
  import opened Config
  import opened GhostField
  import opened Plugin

  /** Blurring twice leaves the element as blurring once does. */
  lemma BlurIdempotent(e: Input)
    requires e.stored.Some?
    ensures Blur(Blur(e).input).input == Blur(e).input
  {
  }

  /** Focusing twice leaves the element as focusing once does. */
  lemma FocusIdempotent(e: Input)
    requires e.stored.Some?
    ensures Focus(Focus(e).input).input == Focus(e).input
  {
  }

  /** A second submission clears nothing more. */
  lemma ParentFormSubmitIdempotent(e: Input)
    requires e.stored.Some?
    ensures ParentFormSubmit(ParentFormSubmit(e)) == ParentFormSubmit(e)
  {
  }

  /** Focus then blur on an input showing its ghost text shows it again, with
      the ghost class on; the focus callback sees the ghost text and the blur
      callback the emptied value. */
  lemma FocusThenBlurRestores(e: Input)
    requires e.stored.Some? && e.value == e.stored.value.ghostText
    ensures Blur(Focus(e).input).input == e.(classes := e.classes + {e.stored.value.ghostClass})
    ensures Focus(e).call == Invoke(e.stored.value.focus, e.stored.value.ghostText)
    ensures Blur(Focus(e).input).call == Invoke(e.stored.value.blur, "")
  {
    assert Blank("");
  }

  /** A value made only of whitespace is replaced by the ghost text on blur. */
  lemma WhitespaceOnlyIsRestored(e: Input)
    requires e.stored.Some?
    requires forall i :: 0 <= i < |e.value| ==> IsWhitespace(e.value[i])
    ensures Blur(e).input.value == e.stored.value.ghostText
    ensures e.stored.value.ghostClass in Blur(e).input.classes
  {
  }

  /** A value with a non-whitespace character other than the ghost text survives blur. */
  lemma RealInputSurvivesBlur(e: Input, i: nat)
    requires e.stored.Some? && e.value != e.stored.value.ghostText
    requires i < |e.value| && !IsWhitespace(e.value[i])
    ensures Blur(e).input == e
  {
  }

  /** Blur keeps the marker invariant. */
  lemma BlurKeepsMarkerInvariant(e: Input)
    requires e.stored.Some? && MarkerMatchesValue(e)
    ensures MarkerMatchesValue(Blur(e).input)
  {
  }

  /** Focus keeps the marker invariant when the ghost text is not empty. */
  lemma FocusKeepsMarkerInvariant(e: Input)
    requires e.stored.Some? && MarkerMatchesValue(e) && e.stored.value.ghostText != ""
    ensures MarkerMatchesValue(Focus(e).input)
  {
  }

  /** With an empty ghost text (an input initialised while empty), focus
      removes the class and leaves the value equal to the ghost text. */
  lemma FocusBreaksMarkerInvariantOnEmptyGhostText(e: Input)
    requires e.stored.Some? && e.stored.value.ghostText == "" && e.value == ""
    ensures !MarkerMatchesValue(Focus(e).input)
  {
  }

  /** Submission clears the ghost text but keeps its class: afterwards the
      class is on while the value is not the ghost text. */
  lemma SubmitBreaksMarkerInvariant(e: Input)
    requires e.stored.Some? && e.stored.value.ghostText != ""
    requires e.value == e.stored.value.ghostText && e.stored.value.ghostClass in e.classes
    ensures e.stored.value.ghostClass in ParentFormSubmit(e).classes
    ensures ParentFormSubmit(e).value != e.stored.value.ghostText
    ensures !MarkerMatchesValue(ParentFormSubmit(e))
  {
  }

  /** Init with its ghost text defaulted shows that text, class on. */
  lemma InitDefaultShowsGhost(e: Input, o: Options)
    requires o.ghostText.None?
    ensures Init(e, o).input.stored.value.ghostText == e.value
    ensures MarkerMatchesValue(Init(e, o).input)
  {
  }

  /** Init adds the class even when the value is not the ghost text. */
  lemma InitMarksRealContent(e: Input, o: Options)
    requires o.ghostText.Some? && o.ghostText.value != e.value
    ensures Init(e, o).input.stored.value.ghostClass in Init(e, o).input.classes
    ensures !MarkerMatchesValue(Init(e, o).input)
  {
  }

  /** Focus, blur and keyup events keep the marker invariant over any run,
      as long as the ghost text is not empty and no submit handler is wired. */
  lemma {:induction false} EventsKeepMarkerInvariant(e: Input, evs: seq<Event>)
    requires e.stored.Some? && e.stored.value.ghostText != "" && MarkerMatchesValue(e)
    ensures MarkerMatchesValue(DeliverAll(e, Unwired, evs).input)
    decreases |evs|
  {
    if evs != [] {
      var h := Deliver(e, Unwired, evs[0]);
      if evs[0] == Focused {
        FocusKeepsMarkerInvariant(e);
      } else if evs[0] == Blurred {
        BlurKeepsMarkerInvariant(e);
      }
      EventsKeepMarkerInvariant(h.input, evs[1..]);
    }
  }

  /** Settings that turn `clearOnSubmit` off after init do not unwire the
      submit handler: a default init followed by that update still clears
      the ghost text on submission. */
  lemma SubmitWiringFixedAtInit(e: Input)
    ensures var b := Init(e, NoOptions);
            var u := UpdateSettings(b.input, NoOptions.(clearOnSubmit := Some(false)));
            !u.stored.value.clearOnSubmit
            && Deliver(u, b.submit, FormSubmitted).input.value == ""
  {
  }

  /** Turning `clearOnSubmit` on after an init that had it off wires nothing:
      submission leaves the value as it is. */
  lemma SubmitUnwiredStaysUnwired(e: Input)
    ensures var b := Init(e, NoOptions.(clearOnSubmit := Some(false)));
            var u := UpdateSettings(b.input, NoOptions.(clearOnSubmit := Some(true)));
            u.stored.value.clearOnSubmit
            && Deliver(u, b.submit, FormSubmitted).input == u
  {
  }

  /** Init by name merges nothing, whatever `args` holds. */
  lemma InitByNameIgnoresArgs(e: Input, a: Options, b: Options)
    ensures Dispatch(e, Named("init"), a) == Dispatch(e, Named("init"), b)
    ensures Dispatch(e, Named("init"), a).input.stored == Some(Defaults(e.value))
  {
  }

  /** A `parentForm` given with a leading '#' wires the same form as one given without. */
  lemma ParentFormHashIsOptional(s: Settings, id: string)
    requires s.clearOnSubmit && id != "" && '#' !in id
    ensures SubmitTargetFor(s.(parentForm := Some("#" + id))) == ById(id)
    ensures SubmitTargetFor(s.(parentForm := Some(id))) == ById(id)
  {
    RemoveFirstDropsLeading("#" + id, '#');
    assert ("#" + id)[1..] == id;
  }

  /** A search box whose value is "Search" when the plugin is attached: the
      ghost text is shown, focus clears it, blur on the empty box brings it back. */
  lemma SearchBoxScenario()
    ensures var b := Init(Input("Search", {}, None), NoOptions);
            var f := Focus(b.input).input;
            var g := Blur(f).input;
            && b.input.value == "Search" && DefaultGhostClass in b.input.classes
            && f.value == "" && DefaultGhostClass !in f.classes
            && g.value == "Search" && DefaultGhostClass in g.classes
  {
    assert Blank("");
  }

  /** Keyup events leave the element alone and each calls the change
      callback once, with the current value. */
  lemma {:induction false} KeyUpsCallChange(e: Input, wiring: SubmitTarget, evs: seq<Event>)
    requires e.stored.Some? && e.stored.value.change.Some?
    requires forall i :: 0 <= i < |evs| ==> evs[i] == KeyUp
    ensures DeliverAll(e, wiring, evs).input == e
    ensures DeliverAll(e, wiring, evs).calls == seq(|evs|, _ => Call(e.stored.value.change.value, e.value))
    decreases |evs|
  {
    if evs != [] {
      KeyUpsCallChange(e, wiring, evs[1..]);
    }
  }

  /** Typing the ghost text verbatim after focus leaves the value equal to
      the ghost text with the class off; the next blur puts the class back. */
  lemma TypedGhostTextBreaksMarkerInvariant(e: Input)
    requires e.stored.Some? && e.value == e.stored.value.ghostText
    ensures var typed := Focus(e).input.(value := e.stored.value.ghostText);
            !MarkerMatchesValue(typed) && MarkerMatchesValue(Blur(typed).input)
  {
  }

  /** Changing the ghost class after init strands the old class: focus then
      removes only the new one. */
  lemma ChangedGhostClassStaysOn(e: Input, c: string)
    requires e.stored.Some? && e.stored.value.ghostClass in e.classes && c != e.stored.value.ghostClass
    ensures var u := UpdateSettings(e, NoOptions.(ghostClass := Some(c)));
            e.stored.value.ghostClass in Focus(u).input.classes
            && e.stored.value.ghostClass in Blur(u).input.classes
  {
  }
}
