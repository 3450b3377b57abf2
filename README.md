# Toggler widget model

A Dafny model of the `Toggler` widget of the iced GUI toolkit's native crate:
a labelled on/off switch that the application rebuilds on every view pass.

- `native.dfy` (module `Native`): the value types the widget uses: `u16` as
  the newtype `U16`, Rust's `Option`, and the toolkit's `Length` and
  alignments. It also holds `CheckedMul`, the overflow-checked `u16` product.
  `Result` and `ArithmeticError` are not in the source: the widget's `layout`
  returns a layout node and panics on overflow, and the model encodes that
  panic as `Err(MultiplyOverflow)`.
- `events.dfy` (module `Events`): mouse and input events, the `Status` an event
  handler reports (`Captured` / `Ignored`), and `MessageQueue`, the caller's
  `Vec<Message>`, a class whose `items` sequence `Push` extends in place.
- `toggler.dfy` (module `Toggler`): the widget as the datatype
  `Toggler<F, S, M>`, where `F` is the renderer's font type, `S` its style
  type and `M` the application's message type. `onToggle` is a function field
  `bool -> M`.
  - The builder: `New` and the seven fluent setters. `Apply` runs one setter
    and `Configure` runs a chain of them. `SameExcept` says which fields a
    setter may change, and `Holds` says which value it leaves behind.
  - The layout request: `Layout` gives the row of a text node and a toggle
    box. It returns `Err(MultiplyOverflow)` when `2 * size` overflows `u16`.
  - The draw parameters: `DrawLabel` and `DrawToggle`.
  - The layout hash inputs.
  - Event handling: `React` is the pure transition rule. `OnEvent` is the
    in-place version that pushes onto a `MessageQueue`. `Replay` delivers a
    sequence of events to the same widget.

The widget is a datatype, not a class. Every setter takes the widget by
value and returns it. `on_event` takes `&mut self` but never writes a field.
So the fact that event handling leaves the widget unchanged (same state, same
callback) holds by construction. The cursor hit test `Rectangle::contains` is
replaced by a boolean `inside` input. The renderer's constants and defaults
are the parameter `RendererDefaults`:
- `DEFAULT_SIZE` of the toggler renderer;
- `default_size()` of the text renderer;
- `Font::default()` and `Style::default()`.

## Model

| member | source | states |
|---|---|---|
| `Native.CheckedMul` | native/src/widget/toggler.rs:161 | the `u16` product exists exactly when it is at most 65535, and then equals the mathematical product |
| `Toggler.Toggler.New` | native/src/widget/toggler.rs:53-68 | the new widget keeps the given state, label and callback; width is `Fill`, size is the renderer's `DEFAULT_SIZE`, no text size, no text alignment, spacing 0, default font and style |
| `Toggler.Toggler.Size` | native/src/widget/toggler.rs:74-77 | the size becomes the argument and no other field changes |
| `Toggler.Toggler.Width` | native/src/widget/toggler.rs:82-85 | the width becomes the argument and no other field changes |
| `Toggler.Toggler.TextSize` | native/src/widget/toggler.rs:90-93 | the text size becomes present and equal to the argument; no other field changes |
| `Toggler.Toggler.TextAlign` | native/src/widget/toggler.rs:98-101 | the text alignment becomes present and equal to the argument; no other field changes |
| `Toggler.Toggler.Spacing` | native/src/widget/toggler.rs:106-109 | the spacing becomes the argument and no other field changes |
| `Toggler.Toggler.Font` | native/src/widget/toggler.rs:115-118 | the font becomes the argument and no other field changes |
| `Toggler.Toggler.Style` | native/src/widget/toggler.rs:123-126 | the style becomes the argument and no other field changes |
| `Toggler.Toggler.Apply` | native/src/widget/toggler.rs:74-126 | any setter call leaves its value in its own field and changes no other field |
| `Toggler.Toggler.Configure` | native/src/widget/toggler.rs:74-126 | a chain of setter calls changes only the fields its setters write; the state, the callback and the label are never changed |
| `Toggler.ConfigureLastWins` | native/src/widget/toggler.rs:74-126 | after a chain of setters, each written field holds the value of the last setter that writes it |
| `Toggler.Toggler.LayoutWidth` | native/src/widget/toggler.rs:133-135 | the width policy reported to the layout engine is the width the widget was configured with |
| `Toggler.Toggler.LayoutHeight` | native/src/widget/toggler.rs:137-139 | the height policy is always `Shrink` |
| `Toggler.Toggler.LabelSize` | native/src/widget/toggler.rs:157 | the label's text size is the configured text size if set, else the text renderer's default size |
| `Toggler.Toggler.LabelAlign` | native/src/widget/toggler.rs:153 | the label's alignment is the configured alignment if set, else `Left` |
| `Toggler.Toggler.Layout` | native/src/widget/toggler.rs:141-165 | layout succeeds exactly when `size <= 32767`. The toggle box is then `2*size` units wide and `size` units tall. The text node carries the label, resolved alignment, font, widget width and resolved size. The row uses the widget width and spacing and centres its items |
| `Toggler.Toggler.DrawLabel` | native/src/widget/toggler.rs:207-217 | the label is drawn with its text, font, resolved size and resolved alignment, vertically centred |
| `Toggler.Toggler.DrawToggle` | native/src/widget/toggler.rs:219-228 | the toggler renderer receives the current state, whether the cursor is over the outer bounds, and the style |
| `Toggler.LayoutMatchesDraw` | native/src/widget/toggler.rs:146-217 | the row and label are laid out with the reported width policy; layout and draw resolve the label's size and alignment alike |
| `Toggler.Toggler.HashLayoutInputs` | native/src/widget/toggler.rs:231-236 | the hasher is fed exactly two values: the widget's type marker, then the label |
| `Toggler.LayoutHashIgnoresConfiguration` | native/src/widget/toggler.rs:231-236 | two widgets with the same label feed the layout hasher the same inputs, whatever their state, sizes, spacing, font or style |
| `Toggler.Toggler.React` | native/src/widget/toggler.rs:176-189 | an event is captured exactly when it is a left-button press inside the bounds; a captured event emits exactly `on_toggle(!is_active)`, any other event emits nothing |
| `Toggler.Toggler.OnEvent` | native/src/widget/toggler.rs:167-190 | the reported status is the transition rule's, and the queue becomes its old contents followed by exactly the emitted messages; earlier entries are unchanged |
| `Toggler.Toggler.Replay` | native/src/widget/toggler.rs:167-190 | delivering events in turn queues at most one message per event, and every queued message is `on_toggle(!is_active)` of the unchanged widget |
| `Toggler.ReplayCountsClicks` | native/src/widget/toggler.rs:176-189 | the number of queued messages equals the number of left presses inside the bounds |
| `Toggler.NewThenClick` | native/src/widget/toggler.rs:177-186 | a fresh inactive toggler clicked inside its bounds is captured and queues `on_toggle(true)`; clicked outside it is ignored and queues nothing |
| `Toggler.SizeTwentyBox` | native/src/widget/toggler.rs:159-163 | with size 20 the toggle box is 40 by 20 units |
| `Toggler.ClickTwice` | native/src/widget/toggler.rs:167-190 | the same click delivered twice is captured twice and queues the same message twice |

## Left out

- `Toggler.Toggler.Layout`: follows Rust's overflow-checked arithmetic, where `2 * size` panics when `size > 32767`. Release builds without overflow checks wrap to `(2 * size) mod 65536` instead. That wrap is not modelled.
- The layout solve itself (`Row::layout`, text measurement). It is done by the layout engine, which is not part of this model. Only the parameters the widget passes in are modelled.
- The drawing backends: `text::Renderer::draw` and the toggler `Renderer::draw`. Only the arguments the widget passes are modelled. The toggle-box bounds and the drawn label output are not modelled: they come from the layout engine and the renderer.
- `draw` unwraps the first two children of the layout. It panics if the layout engine returns fewer than two. That is a layout-engine invariant outside this model.
- `hash_layout` is modelled only as the sequence of values it feeds to the hasher (a type marker, then the label). The hash function (`TypeId`, `Hasher`) is a standard library internal.
- `Rectangle::contains` and the `Point`/`Rectangle` geometry use `f32` arithmetic. The hit test is the boolean input `inside`.
- The `Clipboard` argument and the `renderer` argument of `on_event`: the widget never uses them.
- The conversion `From<Toggler> for Element`: it only wraps the widget for the framework and has no logic.
- The internals of fonts, styles and events: fonts and styles are type parameters. Cursor positions, scroll deltas, and keyboard, window and touch payloads are not modelled.
- `Length` is defined outside this file. The model gives it only the variants it needs: `Fill`, `Shrink` and `Units(u16)`.
- Argument conversions: `new` takes `label: impl Into<String>` and `style` takes `impl Into<Renderer::Style>`, calling `.into()`. The model receives the already-converted value.
- `MouseButton.Other(code: nat)` stands for the `u8` payload of the toolkit's `Button::Other`; its 8-bit bound is not modelled.
