# TextViewWithButton: a verified model of the control's state and sizing

`TextViewWithButton` is a UIKit control: a text view with a submit button, a
placeholder text, and a height that grows with the text between a minimum and
a maximum number of lines. It tells its delegate three things: the button was
clicked, there is a new preferred height, and editing began or ended.

This project models the part of the control that is not UIKit plumbing. That
part is its fields, its guarded setters, its placeholder handling and its
height rule. It proves what these promise.

- `sizing.dfy`, module `Sizing`: the height rule. `idealHeight` is the
  measured height of the text, raised to the height of `minimumNumberOfLines`
  lines and then cut down to the height of `maximumNumberOfLines` lines.
  `atMaxHeight` says the ideal height has reached the ceiling.
- `widget_spec.dfy`, module `WidgetSpec`: the control's state as a value
  (`Widget`). It has one function per setter and per text-view handler. Each
  function returns the new state and the notifications sent during the call
  (`Step`).
- `sessions.dfy`, module `Sessions`: lemmas about single calls and about
  whole sessions. A session is any sequence of calls, and `Run` folds it.
- `text_view_with_button.dfy`, module `Control`: class `TextViewWithButton`.
  Its fields are the source's backing fields, and its methods update them in
  place (`modifies this`). The delegate is the field `log`, the list of
  notifications sent so far. Each method's `ensures` says that the new state
  and the new `log` are those of the matching `WidgetSpec` function. So every
  lemma about `WidgetSpec` and `Sessions` also holds for the object.

Text measurement (`sizeThatFits`) belongs to UIKit's layout engine. It is a
parameter here: `Layout.measure` takes the text, the font, the width and the
offered maximum height. The width of the text view is `Layout.width`.
Nothing depends on the measurement being non-negative: the ideal height is
non-negative for any measurement once the line counts are positive.

The getters of `text`, `lineWidth`, `font`, `minimumNumberOfLines`,
`maximumNumberOfLines` and `defaultText` return a field. In the class these
are the public fields of the same meaning.

Behaviour of the code that the model keeps as written:

- The maximum-lines setter compares the new value with the current maximum
  (`TextViewMitButton/TextViewWithButton.swift:132`), not with the minimum. So
  the maximum can only go down, and it can go below the minimum. When it does,
  the ideal height is pinned to the height of the maximum.
- Height notifications are sent on every accepted font, minimum-lines or
  maximum-lines setter call and on every text change. They are sent even when
  the height did not change. The `lineWidth` and `defaultText` setters and
  `clear()` send none, although the last two can change the displayed text.
- The placeholder is stored in the text view as its text. Text the user types
  that equals the placeholder is treated as the placeholder. The button sends
  no click for it.
- Pressing the button while editing with nothing typed yet sends a click,
  because the empty text is not the placeholder (`EmptyEditingSendsClick`).
- `atMaxHeight` tests `idealHeight >= big`. The ideal height never exceeds
  `big`, so this is the same as equality (`Sizing.AtMaxHeight`).

So the minimum-lines setter refuses a minimum above the maximum, but the
maximum-lines setter accepts a maximum below the minimum, and that is the only
way the pair becomes inconsistent. An unchanged height is notified again, and
the placeholder is stored as the displayed text.

## Model

| member | source | states |
|---|---|---|
| `Sizing.IdealHeight` | TextViewMitButton/TextViewWithButton.swift:166-177 | never above `lineHeight*maxLines`; at least `lineHeight*minLines` when that floor is not above the ceiling; a measurement that fits is returned unchanged; too tall gives the ceiling; too short gives the floor; a floor above the ceiling gives the ceiling |
| `Sizing.IdealHeightBetweenLineCounts` | TextViewMitButton/TextViewWithButton.swift:166-177 | with line height >= 0 and `minLines <= maxLines`, the ideal height lies between the heights of the two line counts |
| `Sizing.IdealHeightNonNegative` | TextViewMitButton/TextViewWithButton.swift:166-177 | with line height >= 0 and positive line counts, the ideal height is >= 0 for any measurement, even with the maximum below the minimum |
| `Sizing.LinesHeightMonotone` | TextViewMitButton/TextViewWithButton.swift:168-169 | the height of more lines is never smaller, for a non-negative line height |
| `Sizing.AtMaxHeight` | TextViewMitButton/TextViewWithButton.swift:183-188 | true exactly when the ideal height equals the ceiling; and exactly when the measurement reaches the ceiling or the floor is at or above it |
| `Sizing.DefaultLineCountsExample` | TextViewMitButton/TextViewWithButton.swift:166-188 | line height 20 with 2 to 6 lines: one line gives 40, eight lines give 120 and are at the maximum, three lines give 60 |
| `WidgetSpec.Initial` | TextViewMitButton/TextViewWithButton.swift:24-32 | the initial state: 2 to 6 lines, border width 0, placeholder "What's on your mind?" also displayed, not editing; it satisfies the invariant |
| `WidgetSpec.Ideal` | TextViewMitButton/TextViewWithButton.swift:166-177 | the control's ideal height is at most the height of its maximum lines; it is >= 0 in every valid state, and at least the minimum lines' height whenever min <= max |
| `WidgetSpec.AtMax` | TextViewMitButton/TextViewWithButton.swift:183-188 | the control is at maximum height exactly when its ideal height equals the maximum lines' height |
| `WidgetSpec.SetLineWidth` | TextViewMitButton/TextViewWithButton.swift:40-54 | a negative width leaves the border width unchanged; any other width is stored; nothing else changes; no notification; the invariant is kept |
| `WidgetSpec.SetFont` | TextViewMitButton/TextViewWithButton.swift:91-102 | the font becomes the new font; a notification is sent exactly when it differs from the old one, and it carries the new ideal height |
| `WidgetSpec.SetMinimumNumberOfLines` | TextViewMitButton/TextViewWithButton.swift:103-121 | the same value, a value < 1 or a value > the maximum changes nothing and sends nothing (both directions); otherwise only the minimum changes and exactly one height notification follows, with a height between the new minimum's and the maximum's; the maximum is untouched |
| `WidgetSpec.SetMaximumNumberOfLines` | TextViewMitButton/TextViewWithButton.swift:122-140 | accepted exactly when `1 <= n < maxLines`, then only the maximum changes and one height notification follows; otherwise nothing changes and nothing is sent; the maximum never grows and the minimum is untouched |
| `WidgetSpec.SetDefaultText` | TextViewMitButton/TextViewWithButton.swift:141-153 | the placeholder becomes the new value; the displayed text becomes it only if the value is new and the text was empty or the old placeholder, otherwise it is kept; the same value changes nothing |
| `WidgetSpec.Clear` | TextViewMitButton/TextViewWithButton.swift:194-196 | the displayed text becomes the placeholder and nothing else changes |
| `WidgetSpec.TextViewDidBeginEditing` | TextViewMitButton/TextViewWithButton.swift:279-284 | a displayed placeholder becomes "", other text is kept; editing starts; exactly `Editing(true)` is sent |
| `WidgetSpec.TextViewDidEndEditing` | TextViewMitButton/TextViewWithButton.swift:286-292 | "" becomes the placeholder, other text is kept; editing stops; exactly `Editing(false)` is sent |
| `WidgetSpec.TextViewDidChange` | TextViewMitButton/TextViewWithButton.swift:275-277 | the text is the typed text; exactly one height notification is sent, with a height >= 0 in a valid state |
| `WidgetSpec.ButtonPressed` | TextViewMitButton/TextViewWithButton.swift:266-272 | the notifications are exactly one `Clicked` if the displayed text differs from the placeholder (none otherwise), followed by exactly one `Editing(false)` if the control was editing (none otherwise); afterwards it is not editing, and empty text has become the placeholder if the control was editing; other text is kept |
| `Sessions.BeginThenEndRestoresText` | TextViewMitButton/TextViewWithButton.swift:279-292 | beginning and ending an edit without typing restores the text exactly when it was not empty (or the placeholder is empty) |
| `Sessions.BeginEditingTwiceKeepsText` | TextViewMitButton/TextViewWithButton.swift:279-284 | for every state, beginning to edit a second time leaves the text as the first call left it |
| `Sessions.DefaultTextRoundTrip` | TextViewMitButton/TextViewWithButton.swift:141-153 | setting a placeholder and setting the old one back restores the state exactly when the value was not new, or the text showed the old placeholder, or the text was neither empty nor equal to the new placeholder |
| `Sessions.ClearedControlSendsNoClick` | TextViewMitButton/TextViewWithButton.swift:266-272 | after `clear()` the button sends no click |
| `Sessions.EmptyEditingSendsClick` | TextViewMitButton/TextViewWithButton.swift:266-272 | while editing with empty text, the button sends a click and then `Editing(false)`, and the placeholder comes back |
| `Sessions.TypedPlaceholderSendsNoClick` | TextViewMitButton/TextViewWithButton.swift:266-277 | after typing exactly the placeholder, the button sends no click |
| `Sessions.MaximumBelowMinimumExample` | TextViewMitButton/TextViewWithButton.swift:103-140 | from the initial state, minimum 4 then maximum 3 is accepted and leaves the maximum below the minimum |
| `Sessions.MaximumCannotGrowExample` | TextViewMitButton/TextViewWithButton.swift:122-140 | from the initial six lines, a maximum of 7 is refused without notification |
| `Sessions.RunPreservesValid` | TextViewMitButton/TextViewWithButton.swift:40-153 | every session keeps both line counts >= 1 and the border width >= 0 |
| `Sessions.RunNeverRaisesMaxLines` | TextViewMitButton/TextViewWithButton.swift:122-140 | no session ends with a larger maximum than it started with |
| `Sessions.RunWithoutTypingShowsPlaceholderOrNothing` | TextViewMitButton/TextViewWithButton.swift:141-196 | a session without typing that starts with the placeholder or empty text only ever ends with the placeholder or empty text |
| `Sessions.RunWithoutInputSendsNoClick` | TextViewMitButton/TextViewWithButton.swift:266-292 | a session with no typing and no editing that starts on the placeholder ends on it and sends no click |
| `Sessions.RunHeightsNonNegative` | TextViewMitButton/TextViewWithButton.swift:166-177 | every height a session from a valid state reports is >= 0 |
| `Sessions.RunHeightsBelowInitialMaximum` | TextViewMitButton/TextViewWithButton.swift:122-177 | while the font is not changed, every reported height is at most the height of the maximum lines the session started with |
| `Sessions.RepeatedTypingRepeatsHeight` | TextViewMitButton/TextViewWithButton.swift:275-277 | typing the same text again leaves the state unchanged and sends the same height notification again (no deduplication) |
| `Control.TextViewWithButton.constructor` | TextViewMitButton/TextViewWithButton.swift:219-232 | the new object is in the initial state with nothing sent |
| `Control.TextViewWithButton.IdealHeight` | TextViewMitButton/TextViewWithButton.swift:166-177 | the object's ideal height is `WidgetSpec.Ideal` of its state, at most the maximum lines' height and at least the minimum lines' height when min <= max |
| `Control.TextViewWithButton.AtMaxHeight` | TextViewMitButton/TextViewWithButton.swift:183-188 | `idealHeight >= big` holds exactly when the ideal height equals the maximum lines' height |
| `Control.TextViewWithButton.SetLineWidth` | TextViewMitButton/TextViewWithButton.swift:40-54 | new state and log are those of `WidgetSpec.SetLineWidth` |
| `Control.TextViewWithButton.SetFont` | TextViewMitButton/TextViewWithButton.swift:91-102 | new state and log are those of `WidgetSpec.SetFont` |
| `Control.TextViewWithButton.SetMinimumNumberOfLines` | TextViewMitButton/TextViewWithButton.swift:103-121 | new state and log are those of `WidgetSpec.SetMinimumNumberOfLines` |
| `Control.TextViewWithButton.SetMaximumNumberOfLines` | TextViewMitButton/TextViewWithButton.swift:122-140 | new state and log are those of `WidgetSpec.SetMaximumNumberOfLines` |
| `Control.TextViewWithButton.SetDefaultText` | TextViewMitButton/TextViewWithButton.swift:141-153 | new state and log are those of `WidgetSpec.SetDefaultText` |
| `Control.TextViewWithButton.Clear` | TextViewMitButton/TextViewWithButton.swift:194-196 | new state and log are those of `WidgetSpec.Clear` |
| `Control.TextViewWithButton.ButtonPressed` | TextViewMitButton/TextViewWithButton.swift:266-272 | new state and log are those of `WidgetSpec.ButtonPressed` |
| `Control.TextViewWithButton.TextViewDidChange` | TextViewMitButton/TextViewWithButton.swift:275-277 | new state and log are those of `WidgetSpec.TextViewDidChange` |
| `Control.TextViewWithButton.TextViewDidBeginEditing` | TextViewMitButton/TextViewWithButton.swift:279-284 | new state and log are those of `WidgetSpec.TextViewDidBeginEditing` |
| `Control.TextViewWithButton.TextViewDidEndEditing` | TextViewMitButton/TextViewWithButton.swift:286-292 | new state and log are those of `WidgetSpec.TextViewDidEndEditing` |

## Left out

- Cosmetic setters (`roundedCorners`, `bgColor`, `lineColor`, `textColor`, `buttonImage`): they store opaque colours or images and trigger a redraw. No logic depends on them.
- `draw(_:)` and the layout constraints built in `setup()`: these are rendering and layout calls into UIKit and CoreGraphics.
- `resign()`, `offset` and the `print` diagnostics are toolkit side effects. The first-responder machinery is reduced to the `editing` flag. `textView.endEditing(true)` in `buttonPressed` runs the end-editing handler exactly when that flag is set.
- The delegate is optional in the source, and with no delegate no notification goes anywhere. `log` records every notification as if a delegate were attached.
- `sizeThatFits` is UIKit's text layout. It is the parameter `Layout.measure`, not a definition. The text view's width is fixed per object in `Layout.width`. Layout passes that resize the view are not modelled.
- CGFloat arithmetic is modelled as exact `real` arithmetic. Rounding, NaN and infinities are not modelled.
- WidgetSpec.SetLineWidth: does not model a NaN width. In the source neither guard (`new == _lineWidth`, `new < 0.0`) holds for NaN, so NaN is stored. The border width would then not be `>= 0`, which `Valid` and `Sessions.RunPreservesValid` assume of every stored width.
- WidgetSpec.SetDefaultText, WidgetSpec.ButtonPressed, WidgetSpec.TextViewDidBeginEditing, WidgetSpec.TextViewDidEndEditing and the matching `Control.TextViewWithButton` methods compare strings as sequences of code points. Swift's `String` `==` and `!=` (source lines 146, 147, 268, 280, 288) treat canonically equivalent strings as equal. So for a placeholder and a typed text that are canonically equivalent but differ in code points (a precomposed "é" against "e" followed by a combining accent), the source treats the text as the placeholder and the model does not. Unicode normalisation is not modelled.
- Re-entrancy is not modelled. The source calls the delegate synchronously, and a delegate may call back into the control in the middle of a call, for example between the click and the end of editing in `buttonPressed`. The model appends each call's notifications as one step, with no calls in between.
- `UIFont` equality in the font setter is modelled as value equality of (name, point size, line height). Assigning the font to the text view (line 98) is folded into the measurement, which takes the font as an argument.
- `TextViewMitButton/ViewController.swift` is the demo host. It only wires outlets and labels and sets a constraint constant.
