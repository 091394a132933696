/** The control itself: an object whose setters and text-view handlers update
    its fields in place and send notifications to its delegate. The delegate
    is modelled by `log`, the list of notifications sent so far. Each method is
    proved to move the object exactly as the matching function of WidgetSpec
    moves a state value, so every lemma of Sessions applies to the object. */
module Control {
  import opened Sizing
  import opened WidgetSpec

  class TextViewWithButton {
    /** What the text view displays, placeholder included (`textView.text`). */
    var text: string
    var defaultText: string
    var minimumNumberOfLines: int
    var maximumNumberOfLines: int
    var lineWidth: real
    var font: Font
    /** Whether the text view is the first responder. */
    var editing: bool
    /** The notifications sent to the delegate so far, oldest first. */
    var log: seq<Event>
    /** The host's text measurement and the text view's width. */
    const layout: Layout

    /** The object's state as a WidgetSpec value. */
    function State(): Widget
      reads this
    {
      Widget(text, defaultText, minimumNumberOfLines, maximumNumberOfLines, lineWidth, font, editing)
    }

    /** Construction and `setup()`: two to six lines, no border, the default
        prompt as placeholder and as displayed text, nothing sent yet. */
    constructor (font: Font, layout: Layout)
      ensures State() == Initial(font) && Valid(State())
      ensures log == [] && this.layout == layout
    {
      lineWidth := 0.0;
      this.font := font;
      minimumNumberOfLines := 2;
      maximumNumberOfLines := 6;
      defaultText := DefaultPrompt;
      text := defaultText;
      editing := false;
      log := [];
      this.layout := layout;
    }

    /** `idealHeight`: the measured height of the text, clamped between the
        heights of the minimum and the maximum number of lines. The getter
        computes `small`, `big` and the two passes over the fields itself, as
        the source getter does; its first ensures ties it to `Ideal`. */
    function IdealHeight(): (h: real)
      reads this
      ensures h == Ideal(State(), layout)
      ensures h <= LinesHeight(font.lineHeight, maximumNumberOfLines)
      ensures minimumNumberOfLines <= maximumNumberOfLines ==>
                LinesHeight(font.lineHeight, minimumNumberOfLines) <= h
    {
      var small := LinesHeight(font.lineHeight, minimumNumberOfLines);
      var big := LinesHeight(font.lineHeight, maximumNumberOfLines);
      var firstPass := layout.measure(text, font, layout.width, big);
      Min(Max(firstPass, small), big)
    }

    /** `atMaxHeight`: the ideal height has reached the maximum number of
        lines. */
    function AtMaxHeight(): (r: bool)
      reads this
      ensures r <==> IdealHeight() == LinesHeight(font.lineHeight, maximumNumberOfLines)
      ensures r <==> AtMax(State(), layout)
    {
      var big := LinesHeight(font.lineHeight, maximumNumberOfLines);
      IdealHeight() >= big
    }

    /** Setter of `lineWidth`. */
    method SetLineWidth(width: real)
      modifies this
      ensures var s := WidgetSpec.SetLineWidth(old(State()), width);
              State() == s.next && log == old(log) + s.events
    {
      if width == lineWidth {
        return;
      } else if width < 0.0 {
        return;
      } else {
        lineWidth := width;
      }
    }

    /** Setter of `font`. */
    method SetFont(newFont: Font)
      modifies this
      ensures var s := WidgetSpec.SetFont(old(State()), layout, newFont);
              State() == s.next && log == old(log) + s.events
    {
      if newFont != font {
        font := newFont;
        log := log + [NewHeight(IdealHeight())];
      }
    }

    /** Setter of `minimumNumberOfLines`. */
    method SetMinimumNumberOfLines(n: int)
      modifies this
      ensures var s := WidgetSpec.SetMinimumNumberOfLines(old(State()), layout, n);
              State() == s.next && log == old(log) + s.events
    {
      if n == minimumNumberOfLines {
        return;
      } else if n < 1 {
        return;
      } else if n > maximumNumberOfLines {
        return;
      } else {
        minimumNumberOfLines := n;
        log := log + [NewHeight(IdealHeight())];
      }
    }

    /** Setter of `maximumNumberOfLines`. */
    method SetMaximumNumberOfLines(n: int)
      modifies this
      ensures var s := WidgetSpec.SetMaximumNumberOfLines(old(State()), layout, n);
              State() == s.next && log == old(log) + s.events
    {
      if n == maximumNumberOfLines {
        return;
      } else if n < 1 {
        return;
      } else if n > maximumNumberOfLines {
        return;
      } else {
        maximumNumberOfLines := n;
        log := log + [NewHeight(IdealHeight())];
      }
    }

    /** Setter of `defaultText`. */
    method SetDefaultText(placeholder: string)
      modifies this
      ensures var s := WidgetSpec.SetDefaultText(old(State()), placeholder);
              State() == s.next && log == old(log) + s.events
    {
      if placeholder != defaultText {
        if text == "" || text == defaultText {
          text := placeholder;
        }
        defaultText := placeholder;
      }
    }

    /** `clear()`. */
    method Clear()
      modifies this
      ensures var s := WidgetSpec.Clear(old(State()));
              State() == s.next && log == old(log) + s.events
    {
      text := defaultText;
    }

    /** `buttonPressed(_:)`; ending the edit runs the end-editing handler
        when the text view is editing. */
    method ButtonPressed()
      modifies this
      ensures var s := WidgetSpec.ButtonPressed(old(State()));
              State() == s.next && log == old(log) + s.events
    {
      if text != defaultText {
        log := log + [Clicked];
      }
      if editing {
        TextViewDidEndEditing();
      }
    }

    /** `textViewDidChange(_:)`: the text view has already taken `typed`. */
    method TextViewDidChange(typed: string)
      modifies this
      ensures var s := WidgetSpec.TextViewDidChange(old(State()), layout, typed);
              State() == s.next && log == old(log) + s.events
    {
      text := typed;
      log := log + [NewHeight(IdealHeight())];
    }

    /** `textViewDidBeginEditing(_:)`. */
    method TextViewDidBeginEditing()
      modifies this
      ensures var s := WidgetSpec.TextViewDidBeginEditing(old(State()));
              State() == s.next && log == old(log) + s.events
    {
      editing := true;
      if text == defaultText {
        text := "";
      }
      log := log + [Editing(true)];
    }

    /** `textViewDidEndEditing(_:)`. */
    method TextViewDidEndEditing()
      modifies this
      ensures var s := WidgetSpec.TextViewDidEndEditing(old(State()));
              State() == s.next && log == old(log) + s.events
    {
      editing := false;
      if text == "" {
        text := defaultText;
      }
      log := log + [Editing(false)];
    }
  }
}
