/** The state of the text-view-with-button control as a value, and one
    transition function per setter and per text-view handler. Each transition
    returns the new state together with the notifications the control sends
    its delegate during the call, in order. The class in module Control is
    proved to behave exactly as these functions say. */
module WidgetSpec {
  import opened Sizing

  /** A font, compared by value; only its line height enters the sizing rule. */
  datatype Font = Font(name: string, pointSize: real, lineHeight: Length)

  /** The text layout engine's measurement (`sizeThatFits`): the height that
      `text` in `font` occupies at `width` when at most `maxHeight` is
      offered. It is a parameter of the model, not a definition of it. */
  type Measurer = (string, Font, real, real) -> real

  /** What the host's layout gives the control: the measurement and the
      current width of the text view. */
  datatype Layout = Layout(measure: Measurer, width: real)

  /** The three delegate callbacks. */
  datatype Event =
    | Clicked                   // textViewButtonClicked
    | NewHeight(height: real)   // textViewWithButtonNewHeight(preferredHeight:)
    | Editing(editing: bool)    // textViewWithButtonEditing(editing:)

  /** `text` is what the text view displays (the placeholder included);
      `editing` is whether the text view is the first responder. */
  datatype Widget = Widget(
    text: string,
    defaultText: string,
    minLines: int,
    maxLines: int,
    lineWidth: real,
    font: Font,
    editing: bool)

  /** The state after a call and the notifications sent during it. */
  datatype Step = Step(next: Widget, events: seq<Event>)

  const DefaultPrompt: string := "What's on your mind?"

  /** What every setter keeps: positive line counts and a non-negative border
      width. Note that `minLines <= maxLines` is NOT kept. */
  predicate Valid(w: Widget)
  {
    1 <= w.minLines && 1 <= w.maxLines && 0.0 <= w.lineWidth
  }

  /** The state right after construction: two to six lines, no border, the
      default prompt both as placeholder and as displayed text. */
  function Initial(font: Font): (w: Widget)
    ensures Valid(w) && w.minLines <= w.maxLines
    ensures w.text == w.defaultText == DefaultPrompt
    ensures w.minLines == 2 && w.maxLines == 6 && w.lineWidth == 0.0
    ensures w.font == font && !w.editing
  {
    Widget(DefaultPrompt, DefaultPrompt, 2, 6, 0.0, font, false)
  }

  /** The height the layout engine measures for the current text, offered the
      height of `maxLines` lines. */
  function Measured(w: Widget, layout: Layout): real
  {
    layout.measure(w.text, w.font, layout.width, LinesHeight(w.font.lineHeight, w.maxLines))
  }

  /** `idealHeight` of the control in state `w`. */
  function Ideal(w: Widget, layout: Layout): (h: real)
    ensures h <= LinesHeight(w.font.lineHeight, w.maxLines)
    ensures Valid(w) ==> 0.0 <= h
    ensures w.minLines <= w.maxLines ==> LinesHeight(w.font.lineHeight, w.minLines) <= h
  {
    var m := Measured(w, layout);
    var h := IdealHeight(w.font.lineHeight, w.minLines, w.maxLines, m);
    if w.minLines <= w.maxLines then
      IdealHeightBetweenLineCounts(w.font.lineHeight, w.minLines, w.maxLines, m);
      if Valid(w) then
        IdealHeightNonNegative(w.font.lineHeight, w.minLines, w.maxLines, m);
        h
      else
        h
    else if Valid(w) then
      IdealHeightNonNegative(w.font.lineHeight, w.minLines, w.maxLines, m);
      h
    else
      h
  }

  /** `atMaxHeight` of the control in state `w`. */
  function AtMax(w: Widget, layout: Layout): (r: bool)
    ensures r <==> Ideal(w, layout) == LinesHeight(w.font.lineHeight, w.maxLines)
  {
    AtMaxHeight(w.font.lineHeight, w.minLines, w.maxLines, Measured(w, layout))
  }

  /** The height notification sent for state `w`. */
  function HeightNotice(w: Widget, layout: Layout): Event
  {
    NewHeight(Ideal(w, layout))
  }

  /** Setter of `lineWidth`: a negative width is ignored; no notification. */
  function SetLineWidth(w: Widget, width: real): (s: Step)
    ensures s.events == []
    ensures s.next.lineWidth == (if width < 0.0 then w.lineWidth else width)
    ensures s.next == w.(lineWidth := s.next.lineWidth)
    ensures Valid(w) ==> Valid(s.next)
  {
    if width == w.lineWidth then Step(w, [])
    else if width < 0.0 then Step(w, [])
    else Step(w.(lineWidth := width), [])
  }

  /** Setter of `font`: a different font is stored and the new ideal height
      is sent; the same font changes nothing. */
  function SetFont(w: Widget, layout: Layout, font: Font): (s: Step)
    ensures s.next == w.(font := font)
    ensures font == w.font <==> s.events == []
    ensures font != w.font ==> s.events == [HeightNotice(s.next, layout)]
    ensures Valid(w) ==> Valid(s.next)
  {
    if font != w.font then
      var next := w.(font := font);
      Step(next, [HeightNotice(next, layout)])
    else
      Step(w, [])
  }

  /** Whether the setter of `minimumNumberOfLines` takes `n`. */
  predicate AcceptsMinLines(w: Widget, n: int)
  {
    n != w.minLines && 1 <= n <= w.maxLines
  }

  /** Setter of `minimumNumberOfLines`: the same value, a value below 1 or a
      value above the current maximum is ignored without notification;
      otherwise the minimum is stored and one height notification follows. */
  function SetMinimumNumberOfLines(w: Widget, layout: Layout, n: int): (s: Step)
    ensures !AcceptsMinLines(w, n) <==> s == Step(w, [])
    ensures AcceptsMinLines(w, n) ==>
              s.next == w.(minLines := n) && s.events == [HeightNotice(s.next, layout)]
    ensures s.next.maxLines == w.maxLines
    // an accepted minimum never exceeds the maximum, so the height sent lies between the two
    ensures AcceptsMinLines(w, n) ==>
              LinesHeight(w.font.lineHeight, n) <= s.events[0].height <= LinesHeight(w.font.lineHeight, w.maxLines)
    ensures Valid(w) ==> Valid(s.next)
  {
    if n == w.minLines then Step(w, [])
    else if n < 1 then Step(w, [])
    else if n > w.maxLines then Step(w, [])
    else
      var next := w.(minLines := n);
      IdealHeightBetweenLineCounts(w.font.lineHeight, n, w.maxLines, Measured(next, layout));
      Step(next, [HeightNotice(next, layout)])
  }

  /** Whether the setter of `maximumNumberOfLines` takes `n`: it compares the
      new value with the current maximum, so only a lower value passes. */
  predicate AcceptsMaxLines(w: Widget, n: int)
  {
    1 <= n < w.maxLines
  }

  /** Setter of `maximumNumberOfLines`: the same value, a value below 1 or a
      value above the current maximum is ignored without notification;
      otherwise the maximum is stored and one height notification follows.
      The maximum therefore never grows, and it may fall below the minimum. */
  function SetMaximumNumberOfLines(w: Widget, layout: Layout, n: int): (s: Step)
    ensures !AcceptsMaxLines(w, n) <==> s == Step(w, [])
    ensures AcceptsMaxLines(w, n) ==>
              s.next == w.(maxLines := n) && s.events == [HeightNotice(s.next, layout)]
    ensures s.next.minLines == w.minLines
    ensures s.next.maxLines <= w.maxLines
    ensures Valid(w) ==> Valid(s.next)
  {
    if n == w.maxLines then Step(w, [])
    else if n < 1 then Step(w, [])
    else if n > w.maxLines then Step(w, [])
    else
      var next := w.(maxLines := n);
      Step(next, [HeightNotice(next, layout)])
  }

  /** Setter of `defaultText`: a new placeholder is stored, and it replaces
      the displayed text when that was empty or showed the old placeholder;
      other displayed text is kept. No notification. */
  function SetDefaultText(w: Widget, placeholder: string): (s: Step)
    ensures s.events == []
    ensures s.next.defaultText == placeholder
    ensures s.next.text ==
              (if placeholder != w.defaultText && (w.text == "" || w.text == w.defaultText)
               then placeholder else w.text)
    ensures s.next == w.(text := s.next.text, defaultText := placeholder)
    ensures placeholder == w.defaultText ==> s.next == w
  {
    if placeholder != w.defaultText then
      var text := if w.text == "" || w.text == w.defaultText then placeholder else w.text;
      Step(w.(text := text, defaultText := placeholder), [])
    else
      Step(w, [])
  }

  /** `clear()`: the displayed text becomes the placeholder. */
  function Clear(w: Widget): (s: Step)
    ensures s.events == []
    ensures s.next.text == w.defaultText
    ensures s.next == w.(text := s.next.text)
  {
    Step(w.(text := w.defaultText), [])
  }

  /** `textViewDidBeginEditing`: a displayed placeholder is removed, other
      text is kept; the delegate hears that editing began. */
  function TextViewDidBeginEditing(w: Widget): (s: Step)
    ensures s.next.text == (if w.text == w.defaultText then "" else w.text)
    ensures s.next == w.(text := s.next.text, editing := true)
    ensures s.events == [Editing(true)]
  {
    var text := if w.text == w.defaultText then "" else w.text;
    Step(w.(text := text, editing := true), [Editing(true)])
  }

  /** `textViewDidEndEditing`: empty text is replaced by the placeholder,
      other text is kept; the delegate hears that editing ended. */
  function TextViewDidEndEditing(w: Widget): (s: Step)
    ensures s.next.text == (if w.text == "" then w.defaultText else w.text)
    ensures s.next == w.(text := s.next.text, editing := false)
    ensures s.events == [Editing(false)]
  {
    var text := if w.text == "" then w.defaultText else w.text;
    Step(w.(text := text, editing := false), [Editing(false)])
  }

  /** `textViewDidChange`: the text view already holds what the user typed;
      the new ideal height is sent, whether or not it changed. */
  function TextViewDidChange(w: Widget, layout: Layout, typed: string): (s: Step)
    ensures s.next == w.(text := typed)
    ensures s.events == [HeightNotice(s.next, layout)]
    ensures Valid(w) ==> 0.0 <= s.events[0].height
  {
    var next := w.(text := typed);
    Step(next, [HeightNotice(next, layout)])
  }

  /** `buttonPressed`: the delegate hears a click exactly when the displayed
      text is not the placeholder; then editing ends, which runs the
      end-editing handler if the text view was editing. */
  function ButtonPressed(w: Widget): (s: Step)
    // exactly one click, only for text other than the placeholder, then at most one end of editing
    ensures s.events == (if w.text != w.defaultText then [Clicked] else [])
                        + (if w.editing then [Editing(false)] else [])
    ensures Clicked in s.events <==> w.text != w.defaultText
    ensures Editing(false) in s.events <==> w.editing
    ensures !s.next.editing
    ensures s.next.text == (if w.editing && w.text == "" then w.defaultText else w.text)
    ensures s.next == w.(text := s.next.text, editing := false)
  {
    var clicks := if w.text != w.defaultText then [Clicked] else [];
    if w.editing then
      var ended := TextViewDidEndEditing(w);
      Step(ended.next, clicks + ended.events)
    else
      Step(w, clicks)
  }
}
