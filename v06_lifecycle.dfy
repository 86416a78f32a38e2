/**
  The lifecycle of one 0.6.6 modal (modal.js) as a state machine on values:
  `_init`, `align`, `open`, `update`, `close`, the completion of the fade-out,
  and the handlers `open` binds. Every handler lives on the context (the
  window at the body, the target element elsewhere) and `close` unbinds the
  whole context, so nothing is left behind. The class in v06_modal.dfy is
  proved to follow these step functions.
 */
module LifecycleV06 {
  import opened Dom
  import opened OptionsV06
  import opened AlignV06

  /** Everything the widget keeps about one instance. */
  datatype State = State(
    opts: Options,               // `_init` narrows `fixed` in place
    target: Element,
    isInitialized: bool,
    isOpen: bool,
    wrapper: Option<Position>,   // built by _init, always positioned absolutely
    overlay: Option<Overlay>,    // built by _init when opts.overlay
    content: Markup,             // markup of the content element
    fadingOut: bool,             // a fade-out has started and not completed
    handlers: seq<Binding>,      // handlers bound under `.modal`, in bind order
    placement: Option<Placement>,// what the last `align` wrote
    trace: seq<Event>)           // alignments and callbacks, in order

  /** A new instance, as the plugin creates it: nothing built, nothing bound. */
  function Fresh(target: Element, o: Overrides): (r: State)
    ensures r.target == target && r.opts == Configure(o)
    ensures !r.isInitialized && !r.isOpen && !r.fadingOut
    ensures r.handlers == [] && r.content == "" && r.trace == []
  {
    State(Configure(o), target, false, false, None, None, "", false, [], None, [])
  }

  /** Where metrics are read and handlers bound: the window for the body, the element itself otherwise. */
  function Context(target: Element): Surface
  {
    if target == Body then Window else Target
  }

  /** The handlers one `open` binds, all on the context: resize and scroll
      realignment in fixed mode, then the delegated dismiss click. */
  function OpenBindings(fixed: bool, ctx: Surface): (hs: seq<Binding>)
    ensures forall i :: 0 <= i < |hs| ==> hs[i].on == ctx
  {
    (if fixed then [Bind(ctx, Resize), Bind(ctx, Scroll)] else []) + [Bind(ctx, Click)]
  }

  /** `_init`: build wrapper, content and (optionally) overlay once, and keep
      `fixed` only for a modal whose context is the window. */
  function Init(s: State): (r: State)
    ensures r.isInitialized
    ensures s.isInitialized ==> r == s
    ensures !s.isInitialized ==>
      && r.wrapper == Some(Absolute)
      && r.overlay.Some? == s.opts.overlay
      && r.opts == s.opts.(fixed := s.opts.fixed && s.target == Body)
  {
    if s.isInitialized then s
    else
      s.(wrapper := Some(Absolute),
         overlay := if s.opts.overlay then Some(Overlay(true)) else None,
         opts := s.opts.(fixed := s.opts.fixed && Context(s.target) == Window),
         isInitialized := true)
  }

  /** `align`: recompute the placement from fresh measurements. */
  function AlignStep(s: State, m: Metrics): (r: State)
    ensures r.placement == Some(Align(s.opts.overlay, m))
    ensures r.trace == s.trace + [Aligned]
    ensures r == s.(placement := r.placement, trace := r.trace)
  {
    s.(placement := Some(Align(s.opts.overlay, m)), trace := s.trace + [Aligned])
  }

  /** `update(content, callback)`: reads `this.content`, which only `_init` creates. */
  function Update(s: State, content: Option<Markup>, callback: bool, m: Metrics): (r: State)
    requires s.isInitialized
    ensures r.isOpen == s.isOpen && r.handlers == s.handlers && r.opts == s.opts
  {
    var s1 := s.(content := Html(s.content, content));
    if s1.isOpen then
      var s2 := AlignStep(s1, m);
      s2.(trace := s2.trace + Fires(s2.opts.onupdate, OnUpdate) + Fires(callback, Callback))
    else s1
  }

  /** `open(content, callback)`. */
  function Open(s: State, content: Option<Markup>, callback: bool, m: Metrics): (r: State)
    ensures r.isInitialized && r.isOpen
    ensures s.isInitialized && s.isOpen ==> r == s
    ensures !(s.isInitialized && s.isOpen) ==>
      !r.fadingOut && r.handlers == Init(s).handlers + OpenBindings(Init(s).opts.fixed, Context(s.target))
  {
    if s.isInitialized && s.isOpen then s else Show(Init(s), content, callback, m)
  }

  /** The part of `open` after `_init`: bind, fill, cancel a pending fade-out, align, mark open, fire. */
  function Show(s: State, content: Option<Markup>, callback: bool, m: Metrics): (r: State)
    ensures r.isOpen && r.isInitialized == s.isInitialized && !r.fadingOut && r.opts == s.opts
    ensures r.handlers == s.handlers + OpenBindings(s.opts.fixed, Context(s.target))
    ensures content.Some? ==> r.content == content.value
    ensures content.None? ==> r.content == s.content
  {
    var s1 := s.(handlers := s.handlers + OpenBindings(s.opts.fixed, Context(s.target)),
                 content := Html(s.content, content),
                 fadingOut := false);
    var s2 := AlignStep(s1, m).(isOpen := true);
    s2.(trace := s2.trace + Fires(s2.opts.onopen, OnOpen) + Fires(callback, Callback))
  }

  /** `close(callback)`: every `.modal` handler on the context is removed. */
  function Close(s: State, callback: bool): (r: State)
    ensures s.isInitialized ==> !r.isOpen
    ensures !(s.isInitialized && s.isOpen) ==> r == s
    ensures r.content == s.content && r.opts == s.opts
  {
    if !s.isInitialized || !s.isOpen then s
    else
      s.(handlers := Unbind(s.handlers, Context(s.target)),
         fadingOut := true,
         isOpen := false,
         trace := s.trace + Fires(s.opts.onclose, OnClose) + Fires(callback, Callback))
  }

  /** The fade-out started by `close` completes: the content markup is emptied. */
  function FadeOutDone(s: State): (r: State)
    ensures !r.fadingOut
    ensures s.fadingOut ==> r.content == ""
    ensures !s.fadingOut ==> r == s
  {
    if s.fadingOut then s.(content := "", fadingOut := false) else s
  }

  /** Whether a click on `c` reaches the handler delegated from the context:
      the close control, the overlay (always flagged) when built, and any other
      flagged element inside the context, which at the body is the whole page. */
  predicate Dismisses(s: State, c: Clicked)
  {
    || c == CloseControl
    || (c == OverlayElement && s.overlay.Some?)
    || (c.FlaggedElement? && (c.insideTarget || Context(s.target) == Window))
  }

  /** What one bound handler does with an event. */
  function Handle(s: State, b: Binding, e: Input): (r: State)
    ensures b.kind != KindOf(e) || e.KeyUpEvent? ==> r == s
    ensures e.ClickEvent? ==> r == s || r == Close(s, false)
    ensures (e.ResizeEvent? || e.ScrollEvent?) && b.kind == KindOf(e) ==> r == AlignStep(s, e.m)
  {
    match (b.kind, e)
    case (Resize, ResizeEvent(m)) => AlignStep(s, m)
    case (Scroll, ScrollEvent(m)) => AlignStep(s, m)
    case (Click, ClickEvent(c)) => if Dismisses(s, c) then Close(s, false) else s
    case _ => s
  }

  /** Every handler in the snapshot taken when the event arrives runs, in bind order. */
  function Dispatch(s: State, snapshot: seq<Binding>, e: Input): State
    decreases |snapshot|
  {
    if snapshot == [] then s else Dispatch(Handle(s, snapshot[0], e), snapshot[1..], e)
  }

  function Fire(s: State, e: Input): State
  {
    Dispatch(s, s.handlers, e)
  }

  // ---------------------------------------------------------------------------
  // Runs of public calls and page events

  datatype Op =
    | Opening(content: Option<Markup>, callback: bool, m: Metrics)
    | Updating(content: Option<Markup>, callback: bool, m: Metrics)
    | Closing(callback: bool)
    | FadeOutCompletes
    | PageEvent(e: Input)

  /** One call or event. An `update` before `_init` throws at its first
      statement, so it leaves the state as it was. */
  function Step(s: State, op: Op): State
  {
    match op
    case Opening(c, cb, m) => Open(s, c, cb, m)
    case Updating(c, cb, m) => if s.isInitialized then Update(s, c, cb, m) else s
    case Closing(cb) => Close(s, cb)
    case FadeOutCompletes => FadeOutDone(s)
    case PageEvent(e) => Fire(s, e)
  }

  function Run(s: State, ops: seq<Op>): State
    decreases |ops|
  {
    if ops == [] then s else Run(Step(s, ops[0]), ops[1..])
  }

  /**
    What every reachable state satisfies. The handlers are exactly one `open`'s
    worth while open and none while closed: they never accumulate.
   */
  ghost predicate Inv(s: State)
  {
    && s.wrapper == (if s.isInitialized then Some(Absolute) else None)
    && s.overlay == (if s.isInitialized && s.opts.overlay then Some(Overlay(true)) else None)
    && (s.isInitialized && s.opts.fixed ==> s.target == Body)
    && (!s.isInitialized ==> !s.isOpen && !s.fadingOut)
    && (s.fadingOut ==> !s.isOpen)
    && s.handlers == (if s.isOpen then OpenBindings(s.opts.fixed, Context(s.target)) else [])
  }

  lemma FreshInv(target: Element, o: Overrides)
    ensures Inv(Fresh(target, o))
  {
  }

  lemma InitInv(s: State)
    requires Inv(s)
    ensures Inv(Init(s))
  {
  }

  lemma AlignInv(s: State, m: Metrics)
    requires Inv(s)
    ensures Inv(AlignStep(s, m))
  {
  }

  lemma UpdateInv(s: State, content: Option<Markup>, callback: bool, m: Metrics)
    requires Inv(s) && s.isInitialized
    ensures Inv(Update(s, content, callback, m))
  {
  }

  lemma OpenInv(s: State, content: Option<Markup>, callback: bool, m: Metrics)
    requires Inv(s)
    ensures Inv(Open(s, content, callback, m))
  {
    if !(s.isInitialized && s.isOpen) {
      InitInv(s);
      assert Init(s).handlers == [];
    }
  }

  lemma CloseInv(s: State, callback: bool)
    requires Inv(s)
    ensures Inv(Close(s, callback))
  {
    if s.isInitialized && s.isOpen {
      UnbindAll(s.handlers, Context(s.target));
    }
  }

  lemma FadeOutDoneInv(s: State)
    requires Inv(s)
    ensures Inv(FadeOutDone(s))
  {
  }

  lemma HandleInv(s: State, b: Binding, e: Input)
    requires Inv(s)
    ensures Inv(Handle(s, b, e))
    ensures Handle(s, b, e).isInitialized == s.isInitialized
  {
    match (b.kind, e) {
      case (Resize, ResizeEvent(m)) => AlignInv(s, m);
      case (Scroll, ScrollEvent(m)) => AlignInv(s, m);
      case (Click, ClickEvent(c)) => CloseInv(s, false);
      case _ =>
    }
  }

  lemma {:induction false} DispatchInv(s: State, snapshot: seq<Binding>, e: Input)
    requires Inv(s)
    ensures Inv(Dispatch(s, snapshot, e))
    decreases |snapshot|
  {
    if snapshot != [] {
      HandleInv(s, snapshot[0], e);
      DispatchInv(Handle(s, snapshot[0], e), snapshot[1..], e);
    }
  }

  lemma StepInv(s: State, op: Op)
    requires Inv(s)
    ensures Inv(Step(s, op))
  {
    match op
    case Opening(c, cb, m) => OpenInv(s, c, cb, m);
    case Updating(c, cb, m) => if s.isInitialized { UpdateInv(s, c, cb, m); }
    case Closing(cb) => CloseInv(s, cb);
    case FadeOutCompletes => FadeOutDoneInv(s);
    case PageEvent(e) => DispatchInv(s, s.handlers, e);
  }

  /** Every state reachable from a new instance satisfies the invariant. */
  lemma {:induction false} RunInv(s: State, ops: seq<Op>)
    requires Inv(s)
    ensures Inv(Run(s, ops))
    decreases |ops|
  {
    if ops != [] {
      StepInv(s, ops[0]);
      RunInv(Step(s, ops[0]), ops[1..]);
    }
  }

  // ---------------------------------------------------------------------------
  // init, open, update, close

  /** Fixed mode survives `_init` only for a modal attached to the body; nothing else in the options changes. */
  lemma InitNarrowsFixed(s: State)
    requires !s.isInitialized
    ensures Init(s).opts.fixed <==> s.opts.fixed && s.target == Body
    ensures Init(s).opts.(fixed := s.opts.fixed) == s.opts
  {
  }

  /** `open` leaves the modal built and open, and changes nothing exactly when it already was. */
  lemma OpenNoOpIffOpen(s: State, content: Option<Markup>, callback: bool, m: Metrics)
    ensures Open(s, content, callback, m).isInitialized && Open(s, content, callback, m).isOpen
    ensures Open(s, content, callback, m) == s <==> s.isInitialized && s.isOpen
  {
  }

  /**
    A real `open`: it binds one set of handlers on the context, replaces the
    markup with whatever it is given (the empty string included; an omitted
    argument keeps it), cancels a pending fade-out, always aligns, and fires
    `onopen` then the caller's callback; `onupdate` never fires.
   */
  lemma OpenEffects(s: State, content: Option<Markup>, callback: bool, m: Metrics)
    requires !(s.isInitialized && s.isOpen)
    ensures var r := Open(s, content, callback, m);
      && r.handlers == s.handlers + OpenBindings(Init(s).opts.fixed, Context(s.target))
      && !r.fadingOut
      && r.content == Html(s.content, content)
      && r.placement == Some(Align(s.opts.overlay, m))
      && r.trace == s.trace + [Aligned] + Fires(s.opts.onopen, OnOpen) + Fires(callback, Callback)
  {
  }

  /**
    `update` always replaces the markup it is given. While open it aligns, then
    fires `onupdate` and its callback; while closed it changes nothing else and
    fires nothing.
   */
  lemma UpdateEffects(s: State, content: Markup, callback: bool, m: Metrics)
    requires s.isInitialized
    ensures var r := Update(s, Some(content), callback, m);
      && r.content == content
      && (s.isOpen ==> r.trace == s.trace + [Aligned] + Fires(s.opts.onupdate, OnUpdate) + Fires(callback, Callback))
      && (s.isOpen ==> r.placement == Some(Align(s.opts.overlay, m)))
      && (!s.isOpen ==> r == s.(content := content))
  {
  }

  /** `close` changes nothing exactly when the modal is not both built and open. */
  lemma CloseNoOpIffNotOpen(s: State, callback: bool)
    ensures Close(s, callback) == s <==> !(s.isInitialized && s.isOpen)
  {
  }

  /**
    A real `close` on a reachable state: no handler is left bound; the modal is
    closed at once while its content is kept until the fade-out completes;
    `onclose` fires, then the caller's callback.
   */
  lemma CloseEffects(s: State, callback: bool)
    requires Inv(s) && s.isInitialized && s.isOpen
    ensures var r := Close(s, callback);
      && !r.isOpen && r.fadingOut
      && r.handlers == []
      && r.content == s.content
      && r.trace == s.trace + Fires(s.opts.onclose, OnClose) + Fires(callback, Callback)
  {
    UnbindAll(s.handlers, Context(s.target));
  }

  /** Once the fade-out of a `close` completes, the content is empty and the modal stays closed. */
  lemma CloseThenFadeOutClears(s: State, callback: bool)
    requires s.isInitialized && s.isOpen
    ensures var r := FadeOutDone(Close(s, callback));
      !r.isOpen && r.content == "" && !r.fadingOut
  {
  }

  /** Reopening before the fade-out completes: the pending clear is cancelled and the new content stays. */
  lemma ReopenBeforeFadeOutKeepsContent(s: State, cb1: bool, content: Markup, cb2: bool, m: Metrics)
    requires s.isInitialized && s.isOpen
    ensures var r := FadeOutDone(Open(Close(s, cb1), Some(content), cb2, m));
      r.isOpen && r.content == content
  {
  }

  // ---------------------------------------------------------------------------
  // Handlers

  lemma CloseTwice(s: State)
    ensures Close(Close(s, false), false) == Close(s, false)
  {
  }

  /** Dismiss-click handlers: a click on a flagged element closes as one `close` does. */
  lemma {:induction false} DispatchClick(s: State, snapshot: seq<Binding>, c: Clicked)
    ensures Dispatch(s, snapshot, ClickEvent(c))
         == if Dismisses(s, c) && Bound(snapshot, Click) > 0 then Close(s, false) else s
    decreases |snapshot|
  {
    if snapshot != [] {
      var e := ClickEvent(c);
      DispatchClick(Handle(s, snapshot[0], e), snapshot[1..], c);
      if snapshot[0].kind == Click && Dismisses(s, c) {
        CloseTwice(s);
      }
    }
  }

  /** Key presses reach no handler of this version. */
  lemma {:induction false} DispatchKeyUp(s: State, snapshot: seq<Binding>, code: int)
    ensures Dispatch(s, snapshot, KeyUpEvent(code)) == s
    decreases |snapshot|
  {
    if snapshot != [] {
      DispatchKeyUp(s, snapshot[1..], code);
    }
  }

  /** This version never binds a key handler: Escape, like any key, does nothing. */
  lemma KeyUpUnbound(s: State, code: int)
    requires Inv(s)
    ensures Bound(s.handlers, KeyUp) == 0
    ensures Fire(s, KeyUpEvent(code)) == s
  {
    forall i | 0 <= i < |s.handlers| ensures s.handlers[i].kind != KeyUp {
      assert s.handlers[i] in s.handlers;
    }
    DispatchKeyUp(s, s.handlers, code);
  }

  /** A resize aligns once when the open modal is in fixed mode, and does nothing otherwise. */
  lemma ResizeAlignsOnce(s: State, m: Metrics)
    requires Inv(s)
    ensures Fire(s, ResizeEvent(m)) == if s.isOpen && s.opts.fixed then AlignStep(s, m) else s
  {
    var ctx := Context(s.target);
    var e := ResizeEvent(m);
    if s.isOpen && s.opts.fixed {
      assert s.handlers == [Bind(ctx, Resize), Bind(ctx, Scroll), Bind(ctx, Click)];
      var a := AlignStep(s, m);
      assert Dispatch(a, [Bind(ctx, Click)], e) == a;
      assert Dispatch(a, [Bind(ctx, Scroll), Bind(ctx, Click)], e) == a;
    } else if s.isOpen {
      assert s.handlers == [Bind(ctx, Click)];
      assert Handle(s, Bind(ctx, Click), e) == s;
      assert s.handlers[1..] == [];
      assert Dispatch(s, s.handlers, e) == Dispatch(s, [], e);
    } else {
      assert s.handlers == [];
    }
  }

  /** A scroll aligns once when the open modal is in fixed mode, and does nothing otherwise. */
  lemma ScrollAlignsOnce(s: State, m: Metrics)
    requires Inv(s)
    ensures Fire(s, ScrollEvent(m)) == if s.isOpen && s.opts.fixed then AlignStep(s, m) else s
  {
    var ctx := Context(s.target);
    var e := ScrollEvent(m);
    if s.isOpen && s.opts.fixed {
      assert s.handlers == [Bind(ctx, Resize), Bind(ctx, Scroll), Bind(ctx, Click)];
      var a := AlignStep(s, m);
      assert Dispatch(a, [Bind(ctx, Click)], e) == a;
      assert Dispatch(s, s.handlers, e) == Dispatch(s, [Bind(ctx, Scroll), Bind(ctx, Click)], e);
    } else if s.isOpen {
      assert s.handlers == [Bind(ctx, Click)];
      assert Handle(s, Bind(ctx, Click), e) == s;
      assert s.handlers[1..] == [];
      assert Dispatch(s, s.handlers, e) == Dispatch(s, [], e);
    } else {
      assert s.handlers == [];
    }
  }

  /**
    A click on the close control or on the overlay closes an open modal (the
    overlay always dismisses in this version), and so does a click on any other
    element flagged `data-toggle="modal"` inside the context: anywhere on the
    page at the body, inside the target element elsewhere. Any other click
    does nothing.
   */
  lemma ClickDismissal(s: State, c: Clicked)
    requires Inv(s) && s.isOpen
    ensures Fire(s, ClickEvent(c)).isOpen <==>
      || c == OtherElement
      || (c == OverlayElement && !s.opts.overlay)
      || (c == FlaggedElement(false) && s.target != Body)
    ensures Fire(s, ClickEvent(c)) == if Fire(s, ClickEvent(c)).isOpen then s else Close(s, false)
  {
    assert s.handlers[|s.handlers| - 1].kind == Click;
    DispatchClick(s, s.handlers, c);
  }

  /** Resize handlers never pile up: one while open in fixed mode, none otherwise. */
  lemma ResizeHandlersBounded(s: State)
    requires Inv(s)
    ensures Bound(s.handlers, Resize) == if s.isOpen && s.opts.fixed then 1 else 0
  {
    var ctx := Context(s.target);
    if s.isOpen && s.opts.fixed {
      assert s.handlers == [Bind(ctx, Resize)] + [Bind(ctx, Scroll), Bind(ctx, Click)];
      BoundAppend([Bind(ctx, Resize)], [Bind(ctx, Scroll), Bind(ctx, Click)], Resize);
    }
  }

  // ---------------------------------------------------------------------------
  // Open/close cycles

  /** One round of `open()` then `close()`. */
  function Cycle(s: State, m: Metrics): State
  {
    Close(Open(s, None, false, m), false)
  }

  /** `n` rounds of `open()` then `close()`. */
  function Cycles(s: State, n: nat, m: Metrics): State
  {
    Iterate(x => Cycle(x, m), s, n)
  }

  /** A reachable, closed modal. */
  ghost predicate ClosedReachable(s: State)
  {
    Inv(s) && !s.isOpen
  }

  lemma OneCycle(s: State, m: Metrics)
    requires ClosedReachable(s)
    ensures ClosedReachable(Cycle(s, m))
  {
    OpenInv(s, None, false, m);
    CloseInv(Open(s, None, false, m), false);
  }

  /** Open/close rounds keep a modal reachable and closed. */
  lemma {:induction false} CyclesReachable(s: State, n: nat, m: Metrics)
    requires ClosedReachable(s)
    ensures ClosedReachable(Cycles(s, n, m))
    decreases n
  {
    if n != 0 {
      OneCycle(s, m);
      CyclesReachable(Cycle(s, m), n - 1, m);
    }
  }

  /**
    After any number of open/close rounds at the body no handler is bound, so
    the next `open` makes a resize align exactly once (in fixed mode).
   */
  lemma CyclesLeaveNothingBound(o: Overrides, n: nat, m: Metrics)
    ensures Cycles(Fresh(Body, o), n, m).handlers == []
    ensures var r := Open(Cycles(Fresh(Body, o), n, m), None, false, m);
      Bound(r.handlers, Resize) == if r.opts.fixed then 1 else 0
  {
    var c := Cycles(Fresh(Body, o), n, m);
    FreshInv(Body, o);
    CyclesReachable(Fresh(Body, o), n, m);
    OpenInv(c, None, false, m);
    ResizeHandlersBounded(Open(c, None, false, m));
  }
}
