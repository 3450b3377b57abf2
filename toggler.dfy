/** The toggler widget: a labelled on/off switch. The widget is a value that
    the application rebuilds on every view pass; it owns its configuration and
    the current on/off state, asks the layout engine for a row of a label and a
    toggle box, and on a left click inside its bounds queues the message that
    the application's callback builds from the opposite state. */
module Toggler {
  import opened Native
  import opened Events

  /** What the renderer supplies to the widget: the toggler renderer's
      `DEFAULT_SIZE`, the text renderer's `default_size()`, and the `Default`
      values of its font and style types. */
  datatype RendererDefaults<F, S> = RendererDefaults(
    toggleSize: U16,
    textSize: U16,
    font: F,
    style: S)

  /** The configurable fields, one per fluent setter. */
  datatype Field = SizeField | WidthField | TextSizeField | TextAlignField | SpacingField | FontField | StyleField

  /** One call of a fluent setter with its argument. */
  datatype Setting<F, S> =
    | SetSize(size: U16)
    | SetWidth(width: Length)
    | SetTextSize(textSize: U16)
    | SetTextAlign(align: HorizontalAlignment)
    | SetSpacing(spacing: U16)
    | SetFont(font: F)
    | SetStyle(style: S)
  {
    /** The field this setter writes. */
    function Target(): Field
    {
      match this
      case SetSize(_) => SizeField
      case SetWidth(_) => WidthField
      case SetTextSize(_) => TextSizeField
      case SetTextAlign(_) => TextAlignField
      case SetSpacing(_) => SpacingField
      case SetFont(_) => FontField
      case SetStyle(_) => StyleField
    }
  }

  /** The fields written by a chain of setters. */
  function Targets<F, S>(settings: seq<Setting<F, S>>): set<Field>
  {
    if settings == [] then {}
    else Targets(settings[..|settings| - 1]) + {settings[|settings| - 1].Target()}
  }

  /** The text child handed to the layout engine. */
  datatype TextNode<F> = TextNode(content: string, align: HorizontalAlignment, font: F, width: Length, size: U16)

  /** The empty box that reserves room for the switch track. */
  datatype BoxNode = BoxNode(width: Length, height: Length)

  /** The row the widget lays itself out as: label first, toggle box second. */
  datatype RowNode<F> = RowNode(width: Length, spacing: U16, alignItems: Align, text: TextNode<F>, toggle: BoxNode)

  /** The arguments of the text renderer's draw call for the label (no colour
      is passed: the renderer chooses it). */
  datatype TextDraw<F> = TextDraw(content: string, size: U16, font: F, hAlign: HorizontalAlignment, vAlign: VerticalAlignment)

  /** The arguments of the toggler renderer's draw call, besides the toggle
      box bounds and the drawn label. */
  datatype ToggleDraw<S> = ToggleDraw(isActive: bool, isMouseOver: bool, style: S)

  /** What is fed to the layout hasher: a marker private to this widget type,
      then the label. */
  datatype HashInput = TogglerMarker | LabelText(text: string)

  /** The status of one event and the messages it queued. */
  datatype Reaction<M> = Reaction(status: Status, emitted: seq<M>)

  /** One event as the dispatcher delivers it, with whether the cursor lies
      inside the widget's bounds. */
  datatype Delivery = Delivery(event: Event, inside: bool)

  /** The number of left presses with the cursor inside the bounds. */
  function Clicks(deliveries: seq<Delivery>): nat
  {
    if deliveries == [] then 0
    else (if IsLeftPress(deliveries[0].event) && deliveries[0].inside then 1 else 0) + Clicks(deliveries[1..])
  }

  /** F is the renderer's font type, S its style type, M the application's
      message type. */
  datatype Toggler<F, S, M> = Toggler(
    isActive: bool,
    onToggle: bool -> M,
    labelText: string,
    width: Length,
    size: U16,
    textSize: Option<U16>,
    textAlign: Option<HorizontalAlignment>,
    spacing: U16,
    font: F,
    style: S)
  {
    /** `Toggler::new`: the given state, label and callback, and defaults. */
    static function New(isActive: bool, labelText: string, onToggle: bool -> M, defaults: RendererDefaults<F, S>): (t: Toggler<F, S, M>)
      ensures t.isActive == isActive && t.labelText == labelText && t.onToggle == onToggle
      ensures t.width == Fill && t.size == defaults.toggleSize
      ensures t.textSize == None && t.textAlign == None && t.spacing == 0
      ensures t.font == defaults.font && t.style == defaults.style
    {
      Toggler(isActive, onToggle, labelText, Fill, defaults.toggleSize, None, None, 0, defaults.font, defaults.style)
    }

    /** This widget and `other` agree on every field outside `changed`; the
        state, the callback and the label are never in `changed`. */
    ghost predicate SameExcept(other: Toggler<F, S, M>, changed: set<Field>)
    {
      && isActive == other.isActive
      && onToggle == other.onToggle
      && labelText == other.labelText
      && (SizeField !in changed ==> size == other.size)
      && (WidthField !in changed ==> width == other.width)
      && (TextSizeField !in changed ==> textSize == other.textSize)
      && (TextAlignField !in changed ==> textAlign == other.textAlign)
      && (SpacingField !in changed ==> spacing == other.spacing)
      && (FontField !in changed ==> font == other.font)
      && (StyleField !in changed ==> style == other.style)
    }

    /** The field written by `s` holds the value `s` sets. */
    ghost predicate Holds(s: Setting<F, S>)
    {
      match s
      case SetSize(v) => size == v
      case SetWidth(v) => width == v
      case SetTextSize(v) => textSize == Some(v)
      case SetTextAlign(v) => textAlign == Some(v)
      case SetSpacing(v) => spacing == v
      case SetFont(v) => font == v
      case SetStyle(v) => style == v
    }

    function Size(size: U16): (r: Toggler<F, S, M>)
      ensures r.size == size && r.SameExcept(this, {SizeField})
    {
      this.(size := size)
    }

    function Width(width: Length): (r: Toggler<F, S, M>)
      ensures r.width == width && r.SameExcept(this, {WidthField})
    {
      this.(width := width)
    }

    function TextSize(textSize: U16): (r: Toggler<F, S, M>)
      ensures r.textSize.Some? && r.textSize.value == textSize
      ensures r.SameExcept(this, {TextSizeField})
    {
      this.(textSize := Some(textSize))
    }

    function TextAlign(align: HorizontalAlignment): (r: Toggler<F, S, M>)
      ensures r.textAlign.Some? && r.textAlign.value == align
      ensures r.SameExcept(this, {TextAlignField})
    {
      this.(textAlign := Some(align))
    }

    function Spacing(spacing: U16): (r: Toggler<F, S, M>)
      ensures r.spacing == spacing && r.SameExcept(this, {SpacingField})
    {
      this.(spacing := spacing)
    }

    function Font(font: F): (r: Toggler<F, S, M>)
      ensures r.font == font && r.SameExcept(this, {FontField})
    {
      this.(font := font)
    }

    function Style(style: S): (r: Toggler<F, S, M>)
      ensures r.style == style && r.SameExcept(this, {StyleField})
    {
      this.(style := style)
    }

    /** One setter call. */
    function Apply(s: Setting<F, S>): (r: Toggler<F, S, M>)
      ensures r.Holds(s) && r.SameExcept(this, {s.Target()})
    {
      match s
      case SetSize(v) => Size(v)
      case SetWidth(v) => Width(v)
      case SetTextSize(v) => TextSize(v)
      case SetTextAlign(v) => TextAlign(v)
      case SetSpacing(v) => Spacing(v)
      case SetFont(v) => Font(v)
      case SetStyle(v) => Style(v)
    }

    /** A chain of setter calls, applied left to right. */
    function Configure(settings: seq<Setting<F, S>>): (r: Toggler<F, S, M>)
      ensures r.SameExcept(this, Targets(settings))
      decreases |settings|
    {
      if settings == [] then this
      else Configure(settings[..|settings| - 1]).Apply(settings[|settings| - 1])
    }

    /** `Widget::width` */
    function LayoutWidth(): (w: Length)
      ensures w == width
    {
      width
    }

    /** `Widget::height`: the widget never grows vertically. */
    function LayoutHeight(): (h: Length)
      ensures h == Shrink
    {
      Shrink
    }

    /** The text size of the label, as both layout and draw resolve it. */
    function LabelSize(defaults: RendererDefaults<F, S>): (s: U16)
      ensures textSize.Some? ==> s == textSize.value
      ensures textSize.None? ==> s == defaults.textSize
    {
      textSize.UnwrapOr(defaults.textSize)
    }

    /** The horizontal alignment of the label, as both layout and draw
        resolve it. */
    function LabelAlign(): (a: HorizontalAlignment)
      ensures textAlign.Some? ==> a == textAlign.value
      ensures textAlign.None? ==> a == HorizontalAlignment.Left
    {
      textAlign.UnwrapOr(HorizontalAlignment.Left)
    }

    /** The row handed to the layout engine. `2 * size` is `u16` arithmetic
        with overflow checking, so a size above 32767 aborts the layout. */
    function Layout(defaults: RendererDefaults<F, S>): (r: Result<RowNode<F>, ArithmeticError>)
      ensures r.Ok? <==> size as int <= U16_MAX / 2
      ensures r.Ok? ==> r.value.toggle.width.Units? && r.value.toggle.width.units as int == 2 * size as int
      ensures r.Ok? ==> r.value.toggle.height == Units(size)
      ensures r.Ok? ==> r.value.text == TextNode(labelText, LabelAlign(), font, width, LabelSize(defaults))
      ensures r.Ok? ==> r.value.width == width && r.value.spacing == spacing && r.value.alignItems == Align.Center
    {
      var text := TextNode(labelText, LabelAlign(), font, width, LabelSize(defaults));
      match CheckedMul(2, size)
      case None => Err(MultiplyOverflow)
      case Some(trackWidth) =>
        Ok(RowNode(width, spacing, Align.Center, text, BoxNode(Units(trackWidth), Units(size))))
    }

    /** The label's draw call. */
    function DrawLabel(defaults: RendererDefaults<F, S>): (d: TextDraw<F>)
      ensures d.content == labelText && d.font == font
      ensures d.size == LabelSize(defaults) && d.hAlign == LabelAlign()
      ensures d.vAlign == VerticalAlignment.Center
    {
      TextDraw(labelText, LabelSize(defaults), font, LabelAlign(), VerticalAlignment.Center)
    }

    /** The toggler renderer's draw call, given whether the cursor lies inside
        the widget's outer bounds. */
    function DrawToggle(inside: bool): (d: ToggleDraw<S>)
      ensures d.isActive == isActive && d.isMouseOver == inside && d.style == style
    {
      ToggleDraw(isActive, inside, style)
    }

    /** `hash_layout`: the values fed to the hasher, in order. The label is
        the only field of the widget among them. */
    function HashLayoutInputs(): (k: seq<HashInput>)
      ensures |k| == 2 && k[0] == TogglerMarker
      ensures k[1].LabelText? && k[1].text == labelText
    {
      [TogglerMarker, LabelText(labelText)]
    }

    /** `on_event` as a function of the event and of whether the cursor lies
        inside the widget's bounds. */
    function React(event: Event, inside: bool): (r: Reaction<M>)
      ensures r.status == Captured <==> IsLeftPress(event) && inside
      ensures r.status == Captured ==> r.emitted == [onToggle(!isActive)]
      ensures r.status == Ignored ==> r.emitted == []
    {
      match event
      case Mouse(ButtonPressed(Left)) =>
        if inside then Reaction(Captured, [onToggle(!isActive)]) else Reaction(Ignored, [])
      case _ => Reaction(Ignored, [])
    }

    /** `on_event`: pushes onto the caller's queue in place and never writes
        the widget, which is a value here. */
    method OnEvent(event: Event, inside: bool, messages: MessageQueue<M>) returns (status: Status)
      modifies messages
      ensures status == React(event, inside).status
      ensures messages.items == old(messages.items) + React(event, inside).emitted
    {
      match event
      case Mouse(ButtonPressed(Left)) =>
        if inside {
          messages.Push(onToggle(!isActive));
          status := Captured;
        } else {
          status := Ignored;
        }
      case _ =>
        status := Ignored;
    }

    /** The messages queued when the same widget receives `deliveries` one
        after another. */
    function Replay(deliveries: seq<Delivery>): (queued: seq<M>)
      ensures |queued| <= |deliveries|
      ensures forall k :: 0 <= k < |queued| ==> queued[k] == onToggle(!isActive)
      decreases |deliveries|
    {
      if deliveries == [] then []
      else
        var last := deliveries[|deliveries| - 1];
        Replay(deliveries[..|deliveries| - 1]) + React(last.event, last.inside).emitted
    }
  }

  /** A setter leaves alone what an earlier setter of another field wrote. */
  lemma HoldsFramed<F, S, M>(before: Toggler<F, S, M>, after: Toggler<F, S, M>, s: Setting<F, S>, changed: set<Field>)
    requires before.Holds(s) && after.SameExcept(before, changed) && s.Target() !in changed
    ensures after.Holds(s)
  {
  }

  /** In a chain of setters, each field ends up with the value of the last
      setter that writes it. */
  lemma {:induction false} ConfigureLastWins<F, S, M>(t: Toggler<F, S, M>, settings: seq<Setting<F, S>>, i: nat)
    requires i < |settings|
    requires forall j :: i < j < |settings| ==> settings[j].Target() != settings[i].Target()
    ensures t.Configure(settings).Holds(settings[i])
    decreases |settings|
  {
    var n := |settings| - 1;
    if i < n {
      var prefix := settings[..n];
      ConfigureLastWins(t, prefix, i);
      HoldsFramed(t.Configure(prefix), t.Configure(settings), settings[i], {settings[n].Target()});
    }
  }

  lemma {:induction false} ClicksAppend(deliveries: seq<Delivery>, d: Delivery)
    ensures Clicks(deliveries + [d]) == Clicks(deliveries) + (if IsLeftPress(d.event) && d.inside then 1 else 0)
    decreases |deliveries|
  {
    if deliveries != [] {
      assert (deliveries + [d])[1..] == deliveries[1..] + [d];
      ClicksAppend(deliveries[1..], d);
    }
  }

  /** Delivering events in turn queues one message per left press inside the
      bounds, and nothing for any other delivery. */
  lemma {:induction false} ReplayCountsClicks<F, S, M>(t: Toggler<F, S, M>, deliveries: seq<Delivery>)
    ensures |t.Replay(deliveries)| == Clicks(deliveries)
    decreases |deliveries|
  {
    if deliveries != [] {
      var n := |deliveries| - 1;
      ReplayCountsClicks(t, deliveries[..n]);
      assert deliveries == deliveries[..n] + [deliveries[n]];
      ClicksAppend(deliveries[..n], deliveries[n]);
    }
  }

  /** The width policy the widget reports is the one its row and label are
      laid out with, and the label is resolved alike by layout and draw. */
  lemma LayoutMatchesDraw<F, S, M>(t: Toggler<F, S, M>, defaults: RendererDefaults<F, S>)
    requires t.Layout(defaults).Ok?
    ensures t.Layout(defaults).value.width == t.LayoutWidth()
    ensures t.Layout(defaults).value.text.width == t.LayoutWidth()
    ensures t.Layout(defaults).value.text.size == t.DrawLabel(defaults).size
    ensures t.Layout(defaults).value.text.align == t.DrawLabel(defaults).hAlign
  {
  }

  /** The layout hash sees only the label: widgets that differ in state, size,
      spacing, font or style hash alike. */
  lemma LayoutHashIgnoresConfiguration<F, S, M>(a: Toggler<F, S, M>, b: Toggler<F, S, M>)
    requires a.labelText == b.labelText
    ensures a.HashLayoutInputs() == b.HashLayoutInputs()
  {
  }

  /** A freshly built, inactive (`is_active == false`) toggler queues `on_toggle(true)` when
      clicked inside its bounds. */
  lemma NewThenClick<F, S, M>(labelText: string, onToggle: bool -> M, defaults: RendererDefaults<F, S>)
    ensures Toggler.New(false, labelText, onToggle, defaults).React(Mouse(ButtonPressed(MouseButton.Left)), true)
         == Reaction(Captured, [onToggle(true)])
    ensures Toggler.New(false, labelText, onToggle, defaults).React(Mouse(ButtonPressed(MouseButton.Left)), false)
         == Reaction(Ignored, [])
  {
  }

  /** Size 20 asks for a 40 by 20 toggle box. */
  lemma SizeTwentyBox<F, S, M>(t: Toggler<F, S, M>, defaults: RendererDefaults<F, S>)
    ensures t.Size(20).Layout(defaults).Ok?
    ensures t.Size(20).Layout(defaults).value.toggle == BoxNode(Units(40), Units(20))
  {
  }

  /** The same click delivered twice queues the same message twice; the widget
      is not changed in between. */
  method ClickTwice<F, S, M>(t: Toggler<F, S, M>, messages: MessageQueue<M>) returns (first: Status, second: Status)
    modifies messages
    ensures first == Captured && second == Captured
    ensures messages.items == old(messages.items) + [t.onToggle(!t.isActive), t.onToggle(!t.isActive)]
  {
    first := t.OnEvent(Mouse(ButtonPressed(MouseButton.Left)), true, messages);
    second := t.OnEvent(Mouse(ButtonPressed(MouseButton.Left)), true, messages);
  }
}
