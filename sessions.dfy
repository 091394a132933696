/** Properties of the control over one call and over whole sessions: a
    session is any sequence of setter calls and text-view events, and the
    lemmas below hold for every such sequence. */
module Sessions {
  import opened Sizing
  import opened WidgetSpec

  /** One call into the control, by the host or by the text view. */
  datatype Action =
    | LineWidthSet(width: real)
    | FontSet(font: Font)
    | MinLinesSet(minLines: int)
    | MaxLinesSet(maxLines: int)
    | DefaultTextSet(placeholder: string)
    | Cleared
    | ButtonTapped
    | Typed(text: string)
    | BeganEditing
    | EndedEditing

  function Apply(w: Widget, layout: Layout, a: Action): Step
  {
    match a
    case LineWidthSet(x) => SetLineWidth(w, x)
    case FontSet(f) => SetFont(w, layout, f)
    case MinLinesSet(n) => SetMinimumNumberOfLines(w, layout, n)
    case MaxLinesSet(n) => SetMaximumNumberOfLines(w, layout, n)
    case DefaultTextSet(p) => SetDefaultText(w, p)
    case Cleared => Clear(w)
    case ButtonTapped => ButtonPressed(w)
    case Typed(t) => TextViewDidChange(w, layout, t)
    case BeganEditing => TextViewDidBeginEditing(w)
    case EndedEditing => TextViewDidEndEditing(w)
  }

  /** The final state and every notification of a session, in order. */
  function Run(w: Widget, layout: Layout, actions: seq<Action>): Step
    decreases |actions|
  {
    if actions == [] then Step(w, [])
    else
      var first := Apply(w, layout, actions[0]);
      var rest := Run(first.next, layout, actions[1..]);
      Step(rest.next, first.events + rest.events)
  }

  // ---- single calls ----

  /** Beginning and then ending an edit without typing gives back the text
      shown before, except when that text was empty and the placeholder is
      not: then the placeholder appears. */
  lemma BeginThenEndRestoresText(w: Widget)
    ensures TextViewDidEndEditing(TextViewDidBeginEditing(w).next).next.text == w.text
            <==> (w.text != "" || w.defaultText == "")
  {
  }

  /** Beginning to edit twice removes the placeholder once: the second call
      leaves the text as the first one left it. */
  lemma BeginEditingTwiceKeepsText(w: Widget)
    ensures TextViewDidBeginEditing(TextViewDidBeginEditing(w).next).next.text
            == TextViewDidBeginEditing(w).next.text
  {
  }

  /** Changing the placeholder and changing it back restores the whole state,
      except when the displayed text was empty, or equal to the new
      placeholder, and so became the placeholder on the way. */
  lemma DefaultTextRoundTrip(w: Widget, placeholder: string)
    ensures SetDefaultText(SetDefaultText(w, placeholder).next, w.defaultText).next == w
            <==> (placeholder == w.defaultText || w.text == w.defaultText
                 || (w.text != "" && w.text != placeholder))
  {
  }

  /** A cleared control cannot submit: the button sends no click. */
  lemma ClearedControlSendsNoClick(w: Widget)
    ensures Clicked !in ButtonPressed(Clear(w).next).events
  {
  }

  /** While editing with nothing typed yet, the empty text is not the
      placeholder, so the button does send a click, and the placeholder then
      comes back. */
  lemma EmptyEditingSendsClick(w: Widget)
    requires w.editing && w.text == "" && w.defaultText != ""
    ensures ButtonPressed(w).events == [Clicked, Editing(false)]
    ensures ButtonPressed(w).next.text == w.defaultText
  {
  }

  /** Typing text equal to the placeholder is treated as the placeholder:
      the button sends no click for it. */
  lemma TypedPlaceholderSendsNoClick(w: Widget, layout: Layout)
    ensures Clicked !in ButtonPressed(TextViewDidChange(w, layout, w.defaultText).next).events
  {
  }

  /** The maximum can be lowered below the minimum: from two to six lines,
      setting the minimum to 4 and then the maximum to 3 leaves 4 > 3. */
  lemma MaximumBelowMinimumExample(font: Font, layout: Layout)
    ensures var w := SetMinimumNumberOfLines(Initial(font), layout, 4).next;
            var v := SetMaximumNumberOfLines(w, layout, 3).next;
            v.minLines == 4 && v.maxLines == 3
  {
  }

  /** The maximum can never be raised: from the initial six lines, 7 is
      refused and no notification is sent. */
  lemma MaximumCannotGrowExample(font: Font, layout: Layout)
    ensures SetMaximumNumberOfLines(Initial(font), layout, 7) == Step(Initial(font), [])
  {
  }

  // ---- whole sessions ----

  /** Every session keeps the line counts positive and the border width
      non-negative. */
  lemma {:induction false} RunPreservesValid(w: Widget, layout: Layout, actions: seq<Action>)
    requires Valid(w)
    ensures Valid(Run(w, layout, actions).next)
    decreases |actions|
  {
    if actions != [] {
      RunPreservesValid(Apply(w, layout, actions[0]).next, layout, actions[1..]);
    }
  }

  /** No session raises the maximum number of lines. */
  lemma {:induction false} RunNeverRaisesMaxLines(w: Widget, layout: Layout, actions: seq<Action>)
    ensures Run(w, layout, actions).next.maxLines <= w.maxLines
    decreases |actions|
  {
    if actions != [] {
      RunNeverRaisesMaxLines(Apply(w, layout, actions[0]).next, layout, actions[1..]);
    }
  }

  predicate NoTyping(actions: seq<Action>)
  {
    forall i :: 0 <= i < |actions| ==> !actions[i].Typed?
  }

  predicate NoEditing(actions: seq<Action>)
  {
    forall i :: 0 <= i < |actions| ==> !actions[i].BeganEditing?
  }

  /** Without typing, the control shows only its placeholder or nothing. */
  lemma {:induction false} RunWithoutTypingShowsPlaceholderOrNothing(
    w: Widget, layout: Layout, actions: seq<Action>)
    requires w.text == "" || w.text == w.defaultText
    requires NoTyping(actions)
    ensures var v := Run(w, layout, actions).next; v.text == "" || v.text == v.defaultText
    decreases |actions|
  {
    if actions != [] {
      assert !actions[0].Typed?;
      RunWithoutTypingShowsPlaceholderOrNothing(
        Apply(w, layout, actions[0]).next, layout, actions[1..]);
    }
  }

  /** A control that shows its placeholder, is never edited and never typed
      into keeps showing the placeholder and never sends a click. */
  lemma {:induction false} RunWithoutInputSendsNoClick(w: Widget, layout: Layout, actions: seq<Action>)
    requires w.text == w.defaultText
    requires NoTyping(actions) && NoEditing(actions)
    ensures var s := Run(w, layout, actions); s.next.text == s.next.defaultText && Clicked !in s.events
    decreases |actions|
  {
    if actions != [] {
      assert !actions[0].Typed? && !actions[0].BeganEditing?;
      var first := Apply(w, layout, actions[0]);
      assert first.next.text == first.next.defaultText && Clicked !in first.events;
      RunWithoutInputSendsNoClick(first.next, layout, actions[1..]);
    }
  }

  /** Every height a session reports is non-negative. */
  lemma {:induction false} RunHeightsNonNegative(w: Widget, layout: Layout, actions: seq<Action>)
    requires Valid(w)
    ensures forall e :: e in Run(w, layout, actions).events && e.NewHeight? ==> 0.0 <= e.height
    decreases |actions|
  {
    if actions != [] {
      var first := Apply(w, layout, actions[0]);
      assert forall e :: e in first.events && e.NewHeight? ==> 0.0 <= e.height;
      RunHeightsNonNegative(first.next, layout, actions[1..]);
    }
  }

  predicate KeepsFont(actions: seq<Action>)
  {
    forall i :: 0 <= i < |actions| ==> !actions[i].FontSet?
  }

  /** While the font stays the same, no session reports a height above that
      of the maximum number of lines it started with. */
  lemma {:induction false} RunHeightsBelowInitialMaximum(w: Widget, layout: Layout, actions: seq<Action>)
    requires KeepsFont(actions)
    ensures forall e :: e in Run(w, layout, actions).events && e.NewHeight? ==>
              e.height <= LinesHeight(w.font.lineHeight, w.maxLines)
    ensures Run(w, layout, actions).next.font == w.font
    decreases |actions|
  {
    if actions != [] {
      assert !actions[0].FontSet?;
      var first := Apply(w, layout, actions[0]);
      assert first.next.font == w.font && first.next.maxLines <= w.maxLines;
      LinesHeightMonotone(w.font.lineHeight, first.next.maxLines, w.maxLines);
      assert forall e :: e in first.events && e.NewHeight? ==>
               e.height <= LinesHeight(w.font.lineHeight, w.maxLines);
      RunHeightsBelowInitialMaximum(first.next, layout, actions[1..]);
    }
  }

  /** Height notifications are not deduplicated: typing the same text again
      leaves the state as it was and reports the same height again. */
  lemma RepeatedTypingRepeatsHeight(w: Widget, layout: Layout, typed: string)
    ensures var once := TextViewDidChange(w, layout, typed);
            TextViewDidChange(once.next, layout, typed) == once && |once.events| == 1
  {
  }
}
