/**
  The lifecycle of one 0.8.1 modal (js/modal.js) as a state machine on values:
  `_init`, `align`, `open`, `update`, `close`, the completion of the fade-out,
  and the handlers `open` binds. The class in v08_modal.dfy is proved to follow
  these step functions; what the widget promises is proved here about them.
 */
module LifecycleV08 {
  import opened Dom
  import opened OptionsV08
  import opened AlignV08

  /** Everything the widget keeps about one instance. */
  datatype State = State(
    opts: Options,
    target: Element,
    isInitialized: bool,
    isOpen: bool,
    wrapper: Option<Position>,   // built by _init, with its CSS position
    overlay: Option<Overlay>,    // built by _init when opts.overlay
    isBody: bool,                // set by _init: the target is document.body
    content: Markup,             // markup of the content element
    fadingOut: bool,             // a fade-out has started and not completed
    handlers: seq<Binding>,      // handlers bound under `.modal`, in bind order
    placement: Option<Placement>,// what the last `align` wrote
    trace: seq<Event>)           // alignments and callbacks, in order

  /** A new instance, as the plugin creates it: nothing built, nothing bound. */
  function Fresh(target: Element, o: Overrides): (r: State)
    ensures r.target == target && r.opts == Configure(o)
    ensures !r.isInitialized && !r.isOpen && !r.fadingOut
    ensures r.handlers == [] && r.content == "" && r.trace == []
  {
    State(Configure(o), target, false, false, None, None, false, "", false, [], None, [])
  }

  /** The handlers one `open` binds: resize on the context (the window, when
      attached to the body) and Escape on the document, then the delegated
      dismiss click on the document. */
  function OpenBindings(isBody: bool): (hs: seq<Binding>)
    ensures Bind(Document, Click) in hs
    ensures Bind(Window, Resize) in hs <==> isBody
    ensures Bind(Document, KeyUp) in hs <==> isBody
    ensures |hs| == if isBody then 3 else 1
  {
    (if isBody then [Bind(Window, Resize), Bind(Document, KeyUp)] else []) + [Bind(Document, Click)]
  }

  /** `_init`: build wrapper, content and (optionally) overlay once. */
  function Init(s: State): (r: State)
    ensures r.isInitialized
    ensures s.isInitialized ==> r == s
    ensures !s.isInitialized ==>
      && r.overlay.Some? == s.opts.overlay
      && (r.overlay.Some? ==> r.overlay.value.dismisses == s.opts.blur)
      && r.isBody == (s.target == Body)
      && r.wrapper == Some(if s.opts.fixed then Fixed else Absolute)
  {
    if s.isInitialized then s
    else
      s.(wrapper := Some(if s.opts.fixed then Fixed else Absolute),
         overlay := if s.opts.overlay then Some(Overlay(s.opts.blur)) else None,
         isBody := s.target == Body,
         isInitialized := true)
  }

  /** `align`: recompute the placement from fresh measurements. */
  function AlignStep(s: State, m: Metrics): (r: State)
    ensures r.placement == Some(Align(s.opts.fixed, s.opts.overlay, s.isBody, m))
    ensures r.trace == s.trace + [Aligned]
    ensures r == s.(placement := r.placement, trace := r.trace)
  {
    s.(placement := Some(Align(s.opts.fixed, s.opts.overlay, s.isBody, m)), trace := s.trace + [Aligned])
  }

  /** `update(content, callback)`: reads `this.content`, which only `_init` creates. */
  function Update(s: State, content: Option<Markup>, callback: bool, m: Metrics): (r: State)
    requires s.isInitialized
    ensures r.isOpen == s.isOpen && r.handlers == s.handlers && r.isInitialized
  {
    var s1 := s.(content := Html(s.content, content));
    var s2 := if s1.isOpen then AlignStep(s1, m) else s1;
    s2.(trace := s2.trace + Fires(s2.opts.onupdate, OnUpdate) + Fires(callback, Callback))
  }

  /** `open(content, callback)`. `stop()` before the fade-in cancels a pending
      fade-out, so its completion will no longer clear the content. */
  function Open(s: State, content: Option<Markup>, callback: bool, m: Metrics): (r: State)
    ensures r.isInitialized && r.isOpen
    ensures s.isInitialized && s.isOpen ==> r == s
    ensures !(s.isInitialized && s.isOpen) ==>
      !r.fadingOut && r.handlers == Init(s).handlers + OpenBindings(Init(s).isBody)
  {
    if s.isInitialized && s.isOpen then s
    else
      var s1 := Init(s);
      Show(s1.(handlers := s1.handlers + OpenBindings(s1.isBody), fadingOut := false, isOpen := true), content, callback, m)
  }

  /** The end of `open`, once its handlers are bound and it is marked open:
      truthy content goes through `update`, then the callbacks fire. */
  function Show(s: State, content: Option<Markup>, callback: bool, m: Metrics): (r: State)
    requires s.isInitialized
    ensures r.isInitialized && r.isOpen == s.isOpen && r.handlers == s.handlers && r.fadingOut == s.fadingOut
    ensures r.content == if Truthy(content) then content.value else s.content
  {
    var s1 := if Truthy(content) then Update(s, content, false, m) else s;
    s1.(trace := s1.trace + Fires(s1.opts.onopen, OnOpen) + Fires(callback, Callback))
  }

  /** `close(callback)`: only the document's `.modal` handlers are removed. */
  function Close(s: State, callback: bool): (r: State)
    ensures s.isInitialized ==> !r.isOpen
    ensures !(s.isInitialized && s.isOpen) ==> r == s
    ensures r.content == s.content
  {
    if !s.isInitialized || !s.isOpen then s
    else
      s.(handlers := Unbind(s.handlers, Document),
         fadingOut := true,
         isOpen := false,
         trace := s.trace + Fires(s.opts.onclose, OnClose) + Fires(callback, Callback))
  }

  /** The fade-out started by `close` completes: the content markup is emptied. */
  function FadeOutDone(s: State): (r: State)
    ensures !r.fadingOut
    ensures s.fadingOut ==> r.content == ""
    ensures !s.fadingOut ==> r == s
  {
    if s.fadingOut then s.(content := "", fadingOut := false) else s
  }

  /** Whether a click on `c` reaches the handler delegated from the document:
      every element flagged `data-toggle="modal"` anywhere on the page does, and
      the overlay is flagged only when built with `blur`. */
  predicate Dismisses(s: State, c: Clicked)
  {
    c == CloseControl || c.FlaggedElement? || (c == OverlayElement && s.overlay == Some(Overlay(true)))
  }

  /** What one bound handler does with an event. */
  function Handle(s: State, b: Binding, e: Input): (r: State)
    ensures b.kind != KindOf(e) || e.ScrollEvent? ==> r == s
    ensures e.KeyUpEvent? || e.ClickEvent? ==> r == s || r == Close(s, false)
    ensures e.ResizeEvent? && b.kind == Resize ==> r == AlignStep(s, e.m)
  {
    match (b.kind, e)
    case (Resize, ResizeEvent(m)) => AlignStep(s, m)
    case (KeyUp, KeyUpEvent(code)) => if code == EscapeKeyCode then Close(s, false) else s
    case (Click, ClickEvent(c)) => if Dismisses(s, c) then Close(s, false) else s
    case _ => s
  }

  /** Every handler in the snapshot taken when the event arrives runs, in bind order. */
  function Dispatch(s: State, snapshot: seq<Binding>, e: Input): State
    decreases |snapshot|
  {
    if snapshot == [] then s else Dispatch(Handle(s, snapshot[0], e), snapshot[1..], e)
  }

  function Fire(s: State, e: Input): State
  {
    Dispatch(s, s.handlers, e)
  }

  /** Alignment `n` times over, as `n` bound resize handlers do it. */
  function AlignTimes(s: State, m: Metrics, n: nat): State
    decreases n
  {
    if n == 0 then s else AlignTimes(AlignStep(s, m), m, n - 1)
  }

  // ---------------------------------------------------------------------------
  // Runs of public calls and page events

  datatype Op =
    | Opening(content: Option<Markup>, callback: bool, m: Metrics)
    | Updating(content: Option<Markup>, callback: bool, m: Metrics)
    | Closing(callback: bool)
    | FadeOutCompletes
    | PageEvent(e: Input)

  /** One call or event. An `update` before `_init` throws at its first
      statement, so it leaves the state as it was. */
  function Step(s: State, op: Op): State
  {
    match op
    case Opening(c, cb, m) => Open(s, c, cb, m)
    case Updating(c, cb, m) => if s.isInitialized then Update(s, c, cb, m) else s
    case Closing(cb) => Close(s, cb)
    case FadeOutCompletes => FadeOutDone(s)
    case PageEvent(e) => Fire(s, e)
  }

  function Run(s: State, ops: seq<Op>): State
    decreases |ops|
  {
    if ops == [] then s else Run(Step(s, ops[0]), ops[1..])
  }

  /**
    What every reachable state satisfies. The document's handlers are balanced:
    one dismiss click (and one Escape handler at the body) while open, none
    while closed. Nothing is said about how many resize handlers the window
    holds: `close` never removes them.
   */
  ghost predicate Inv(s: State)
  {
    && s.wrapper == (if s.isInitialized then Some(if s.opts.fixed then Fixed else Absolute) else None)
    && s.overlay == (if s.isInitialized && s.opts.overlay then Some(Overlay(s.opts.blur)) else None)
    && s.isBody == (s.isInitialized && s.target == Body)
    && (!s.isInitialized ==> !s.isOpen && !s.fadingOut && s.handlers == [])
    && (s.fadingOut ==> !s.isOpen)
    && (forall b :: b in s.handlers ==> b in OpenBindings(s.isBody))
    && multiset(s.handlers)[Bind(Document, Click)] == (if s.isOpen then 1 else 0)
    && multiset(s.handlers)[Bind(Document, KeyUp)] == (if s.isOpen && s.isBody then 1 else 0)
  }

  lemma FreshInv(target: Element, o: Overrides)
    ensures Inv(Fresh(target, o))
  {
  }

  lemma InitInv(s: State)
    requires Inv(s)
    ensures Inv(Init(s))
  {
  }

  lemma AlignInv(s: State, m: Metrics)
    requires Inv(s)
    ensures Inv(AlignStep(s, m))
  {
  }

  lemma UpdateInv(s: State, content: Option<Markup>, callback: bool, m: Metrics)
    requires Inv(s) && s.isInitialized
    ensures Inv(Update(s, content, callback, m))
  {
  }

  /** Binding one set of handlers on a built, closed modal and marking it open keeps the invariant. */
  lemma BindInv(s: State)
    requires Inv(s) && s.isInitialized && !s.isOpen
    ensures Inv(s.(handlers := s.handlers + OpenBindings(s.isBody), fadingOut := false, isOpen := true))
  {
    var hs := s.handlers + OpenBindings(s.isBody);
    assert multiset(s.handlers)[Bind(Document, Click)] == 0;
    assert multiset(hs) == multiset(s.handlers) + multiset(OpenBindings(s.isBody));
  }

  lemma ShowInv(s: State, content: Option<Markup>, callback: bool, m: Metrics)
    requires Inv(s) && s.isInitialized
    ensures Inv(Show(s, content, callback, m))
  {
    if Truthy(content) {
      UpdateInv(s, content, false, m);
    }
  }

  lemma OpenInv(s: State, content: Option<Markup>, callback: bool, m: Metrics)
    requires Inv(s)
    ensures Inv(Open(s, content, callback, m))
  {
    if !(s.isInitialized && s.isOpen) {
      var s1 := Init(s);
      InitInv(s);
      BindInv(s1);
      ShowInv(s1.(handlers := s1.handlers + OpenBindings(s1.isBody), fadingOut := false, isOpen := true), content, callback, m);
    }
  }

  lemma CloseInv(s: State, callback: bool)
    requires Inv(s)
    ensures Inv(Close(s, callback))
  {
    if s.isInitialized && s.isOpen {
      var r := Unbind(s.handlers, Document);
      forall b | b in r ensures b in OpenBindings(s.isBody) {
        assert multiset(r)[b] > 0;
      }
    }
  }

  lemma FadeOutDoneInv(s: State)
    requires Inv(s)
    ensures Inv(FadeOutDone(s))
  {
  }

  lemma HandleInv(s: State, b: Binding, e: Input)
    requires Inv(s)
    ensures Inv(Handle(s, b, e))
    ensures Handle(s, b, e).isInitialized == s.isInitialized
  {
    match (b.kind, e) {
      case (Resize, ResizeEvent(m)) => AlignInv(s, m);
      case (KeyUp, KeyUpEvent(code)) => CloseInv(s, false);
      case (Click, ClickEvent(c)) => CloseInv(s, false);
      case _ =>
    }
  }

  lemma {:induction false} DispatchInv(s: State, snapshot: seq<Binding>, e: Input)
    requires Inv(s)
    ensures Inv(Dispatch(s, snapshot, e))
    decreases |snapshot|
  {
    if snapshot != [] {
      HandleInv(s, snapshot[0], e);
      DispatchInv(Handle(s, snapshot[0], e), snapshot[1..], e);
    }
  }

  lemma StepInv(s: State, op: Op)
    requires Inv(s)
    ensures Inv(Step(s, op))
  {
    match op
    case Opening(c, cb, m) => OpenInv(s, c, cb, m);
    case Updating(c, cb, m) => if s.isInitialized { UpdateInv(s, c, cb, m); }
    case Closing(cb) => CloseInv(s, cb);
    case FadeOutCompletes => FadeOutDoneInv(s);
    case PageEvent(e) => DispatchInv(s, s.handlers, e);
  }

  /** Every state reachable from a new instance satisfies the invariant. */
  lemma {:induction false} RunInv(s: State, ops: seq<Op>)
    requires Inv(s)
    ensures Inv(Run(s, ops))
    decreases |ops|
  {
    if ops != [] {
      StepInv(s, ops[0]);
      RunInv(Step(s, ops[0]), ops[1..]);
    }
  }

  // ---------------------------------------------------------------------------
  // open, update, close

  /** `open` leaves the modal built and open, and changes nothing exactly when it already was. */
  lemma OpenNoOpIffOpen(s: State, content: Option<Markup>, callback: bool, m: Metrics)
    ensures Open(s, content, callback, m).isInitialized && Open(s, content, callback, m).isOpen
    ensures Open(s, content, callback, m) == s <==> s.isInitialized && s.isOpen
  {
  }

  /**
    A real `open`: it binds one more set of handlers, cancels a pending fade-out,
    puts truthy content in place, and fires, in order, the alignment and
    `onupdate` of the `update` it delegates to (only for truthy content), then
    `onopen`, then the caller's callback, each only when defined.
   */
  lemma OpenEffects(s: State, content: Option<Markup>, callback: bool, m: Metrics)
    requires !(s.isInitialized && s.isOpen)
    ensures var r := Open(s, content, callback, m);
      && r.handlers == s.handlers + OpenBindings(Init(s).isBody)
      && !r.fadingOut
      && r.content == (if Truthy(content) then content.value else s.content)
      && r.trace == s.trace
           + (if Truthy(content) then [Aligned] + Fires(s.opts.onupdate, OnUpdate) else [])
           + Fires(s.opts.onopen, OnOpen)
           + Fires(callback, Callback)
      && (!Truthy(content) ==> r.placement == s.placement)
      && r.opts == s.opts
  {
    var s1 := Init(s);
    ShowTrace(s1.(handlers := s1.handlers + OpenBindings(s1.isBody), fadingOut := false, isOpen := true), content, callback, m);
  }

  /** The end of `open` on an open modal: the align and `onupdate` of truthy content, then `onopen`, then the callback. */
  lemma ShowTrace(s: State, content: Option<Markup>, callback: bool, m: Metrics)
    requires s.isInitialized && s.isOpen
    ensures var r := Show(s, content, callback, m);
      && r.trace == s.trace
           + (if Truthy(content) then [Aligned] + Fires(s.opts.onupdate, OnUpdate) else [])
           + Fires(s.opts.onopen, OnOpen)
           + Fires(callback, Callback)
      && (!Truthy(content) ==> r.placement == s.placement)
      && r.opts == s.opts
  {
  }

  /**
    `update` always replaces the markup it is given and always fires `onupdate`
    then its callback; it aligns (first) only when the modal is open. It never
    touches the open flag or the handlers.
   */
  lemma UpdateEffects(s: State, content: Markup, callback: bool, m: Metrics)
    requires s.isInitialized
    ensures var r := Update(s, Some(content), callback, m);
      && r.content == content
      && r.trace == s.trace + (if s.isOpen then [Aligned] else []) + Fires(s.opts.onupdate, OnUpdate) + Fires(callback, Callback)
      && (s.isOpen ==> r.placement == Some(Align(s.opts.fixed, s.opts.overlay, s.isBody, m)))
      && (!s.isOpen ==> r.placement == s.placement)
      && r.isOpen == s.isOpen && r.handlers == s.handlers && r.fadingOut == s.fadingOut
  {
  }

  /** `close` changes nothing exactly when the modal is not both built and open. */
  lemma CloseNoOpIffNotOpen(s: State, callback: bool)
    ensures Close(s, callback) == s <==> !(s.isInitialized && s.isOpen)
  {
  }

  /**
    A real `close`: the document's handlers go and every other handler stays
    (the resize handlers on the window among them); the modal is closed at once
    while its content is kept until the fade-out completes; `onclose` fires,
    then the caller's callback.
   */
  lemma CloseEffects(s: State, callback: bool)
    requires s.isInitialized && s.isOpen
    ensures var r := Close(s, callback);
      && !r.isOpen && r.fadingOut
      && r.content == s.content
      && (forall b :: b in r.handlers ==> b.on != Document)
      && (forall b: Binding :: b.on != Document ==> multiset(r.handlers)[b] == multiset(s.handlers)[b])
      && r.trace == s.trace + Fires(s.opts.onclose, OnClose) + Fires(callback, Callback)
  {
    var r := Close(s, callback);
    forall b | b in r.handlers ensures b.on != Document {
      assert multiset(r.handlers)[b] > 0;
    }
  }

  /** Once the fade-out of a `close` completes, the content is empty and the modal stays closed. */
  lemma CloseThenFadeOutClears(s: State, callback: bool)
    requires s.isInitialized && s.isOpen
    ensures var r := FadeOutDone(Close(s, callback));
      !r.isOpen && r.content == "" && !r.fadingOut
  {
  }

  /** Reopening before the fade-out completes: the pending clear is cancelled and the new content stays. */
  lemma ReopenBeforeFadeOutKeepsContent(s: State, cb1: bool, content: Markup, cb2: bool, m: Metrics)
    requires s.isInitialized && s.isOpen && content != ""
    ensures var r := FadeOutDone(Open(Close(s, cb1), Some(content), cb2, m));
      r.isOpen && r.content == content
  {
  }

  // ---------------------------------------------------------------------------
  // Handlers

  lemma CloseTwice(s: State)
    ensures Close(Close(s, false), false) == Close(s, false)
  {
  }

  /** Escape handlers: however many are bound, Escape closes as one `close` does; other keys do nothing. */
  lemma {:induction false} DispatchKeyUp(s: State, snapshot: seq<Binding>, code: int)
    ensures Dispatch(s, snapshot, KeyUpEvent(code))
         == if code == EscapeKeyCode && Bound(snapshot, KeyUp) > 0 then Close(s, false) else s
    decreases |snapshot|
  {
    if snapshot != [] {
      var e := KeyUpEvent(code);
      DispatchKeyUp(Handle(s, snapshot[0], e), snapshot[1..], code);
      if snapshot[0].kind == KeyUp && code == EscapeKeyCode {
        CloseTwice(s);
      }
    }
  }

  /** Dismiss-click handlers: a click on a flagged element closes as one `close` does. */
  lemma {:induction false} DispatchClick(s: State, snapshot: seq<Binding>, c: Clicked)
    ensures Dispatch(s, snapshot, ClickEvent(c))
         == if Dismisses(s, c) && Bound(snapshot, Click) > 0 then Close(s, false) else s
    decreases |snapshot|
  {
    if snapshot != [] {
      var e := ClickEvent(c);
      DispatchClick(Handle(s, snapshot[0], e), snapshot[1..], c);
      if snapshot[0].kind == Click && Dismisses(s, c) {
        CloseTwice(s);
      }
    }
  }

  /** Resize handlers: each bound copy aligns once more. */
  lemma {:induction false} DispatchResize(s: State, snapshot: seq<Binding>, m: Metrics)
    ensures Dispatch(s, snapshot, ResizeEvent(m)) == AlignTimes(s, m, Bound(snapshot, Resize))
    decreases |snapshot|
  {
    if snapshot != [] {
      DispatchResize(Handle(s, snapshot[0], ResizeEvent(m)), snapshot[1..], m);
    }
  }

  /** A scroll reaches no handler of this version. */
  lemma {:induction false} DispatchScroll(s: State, snapshot: seq<Binding>, m: Metrics)
    ensures Dispatch(s, snapshot, ScrollEvent(m)) == s
    decreases |snapshot|
  {
    if snapshot != [] {
      DispatchScroll(s, snapshot[1..], m);
    }
  }

  /** This version never binds a scroll handler, so scrolling changes nothing. */
  lemma ScrollUnbound(s: State, m: Metrics)
    requires Inv(s)
    ensures Bound(s.handlers, Scroll) == 0
    ensures Fire(s, ScrollEvent(m)) == s
  {
    forall i | 0 <= i < |s.handlers| ensures s.handlers[i].kind != Scroll {
      assert s.handlers[i] in s.handlers;
    }
    DispatchScroll(s, s.handlers, m);
  }

  lemma KeyUpBound(s: State)
    requires Inv(s)
    ensures Bound(s.handlers, KeyUp) > 0 <==> s.isOpen && s.isBody
  {
    if s.isOpen && s.isBody {
      assert Bind(Document, KeyUp) in s.handlers;
      var i :| 0 <= i < |s.handlers| && s.handlers[i] == Bind(Document, KeyUp);
      assert s.handlers[i].kind == KeyUp;
    } else {
      forall i | 0 <= i < |s.handlers| ensures s.handlers[i].kind != KeyUp {
        assert s.handlers[i] in s.handlers;
      }
    }
  }

  lemma ClickBound(s: State)
    requires Inv(s)
    ensures Bound(s.handlers, Click) > 0 <==> s.isOpen
  {
    if s.isOpen {
      assert Bind(Document, Click) in s.handlers;
      var i :| 0 <= i < |s.handlers| && s.handlers[i] == Bind(Document, Click);
      assert s.handlers[i].kind == Click;
    } else {
      forall i | 0 <= i < |s.handlers| ensures s.handlers[i].kind != Click {
        assert s.handlers[i] in s.handlers;
      }
    }
  }

  /**
    Escape (key code 27) closes an open modal attached to the body, and only
    one attached to the body; `opts.escape` plays no part in it. Any other key
    does nothing.
   */
  lemma EscapeClosesOnlyAtBody(s: State, code: int)
    requires Inv(s) && s.isOpen
    ensures Fire(s, KeyUpEvent(EscapeKeyCode)).isOpen <==> !s.isBody
    ensures Fire(s, KeyUpEvent(EscapeKeyCode)) == Fire(s.(opts := s.opts.(escape := !s.opts.escape)), KeyUpEvent(EscapeKeyCode)).(opts := s.opts)
    ensures code != EscapeKeyCode ==> Fire(s, KeyUpEvent(code)) == s
  {
    DispatchKeyUp(s, s.handlers, EscapeKeyCode);
    DispatchKeyUp(s, s.handlers, code);
    KeyUpBound(s);
    var t := s.(opts := s.opts.(escape := !s.opts.escape));
    DispatchKeyUp(t, t.handlers, EscapeKeyCode);
  }

  /**
    A click on the close control, or on any other element flagged
    `data-toggle="modal"` anywhere on the page, closes an open modal; a click
    on the overlay closes it only when the overlay was built with `blur`; a
    click on an unflagged element does nothing.
   */
  lemma ClickDismissal(s: State, c: Clicked)
    requires Inv(s) && s.isOpen
    ensures Fire(s, ClickEvent(c)).isOpen <==>
      c == OtherElement || (c == OverlayElement && !(s.opts.overlay && s.opts.blur))
    ensures Fire(s, ClickEvent(c)) == if Fire(s, ClickEvent(c)).isOpen then s else Close(s, false)
  {
    ClickBound(s);
    DispatchClick(s, s.handlers, c);
  }

  /** A window resize aligns once for every resize handler bound. */
  lemma ResizeAlignsPerHandler(s: State, m: Metrics)
    ensures Fire(s, ResizeEvent(m)) == AlignTimes(s, m, Bound(s.handlers, Resize))
  {
    DispatchResize(s, s.handlers, m);
  }

  // ---------------------------------------------------------------------------
  // Open/close cycles

  /** One round of `open()` then `close()`. */
  function Cycle(s: State, m: Metrics): State
  {
    Close(Open(s, None, false, m), false)
  }

  /** `n` rounds of `open()` then `close()`. */
  function Cycles(s: State, n: nat, m: Metrics): State
  {
    Iterate(x => Cycle(x, m), s, n)
  }

  /** The handlers are `k` resize handlers on the window and nothing else. */
  predicate WindowResizeOnly(hs: seq<Binding>, k: nat)
  {
    |hs| == k && forall i :: 0 <= i < |hs| ==> hs[i] == Bind(Window, Resize)
  }

  /**
    At the body, `close` leaves the window's resize handler behind: after `n`
    open/close rounds the window holds `n` resize handlers and the document
    none, so the next `open` makes a resize align `n + 1` times.
   */
  lemma {:induction false} ResizeHandlersAccumulate(o: Overrides, n: nat, m: Metrics)
    ensures WindowResizeOnly(Cycles(Fresh(Body, o), n, m).handlers, n)
    ensures Bound(Open(Cycles(Fresh(Body, o), n, m), None, false, m).handlers, Resize) == n + 1
  {
    CyclesFrom(Fresh(Body, o), 0, n, m);
    var c := Cycles(Fresh(Body, o), n, m);
    assert Open(c, None, false, m).handlers == c.handlers + OpenBindings(true);
    BoundAppend(c.handlers, OpenBindings(true), Resize);
    BoundCopies(c.handlers, Bind(Window, Resize));
  }

  /** A closed modal whose next `open` treats it as attached to the body. */
  predicate ClosedAtBody(s: State)
  {
    !s.isOpen && (if s.isInitialized then s.isBody else s.target == Body)
  }

  lemma CyclesFrom(s: State, k: nat, n: nat, m: Metrics)
    requires ClosedAtBody(s) && WindowResizeOnly(s.handlers, k)
    ensures ClosedAtBody(Cycles(s, n, m)) && WindowResizeOnly(Cycles(s, n, m).handlers, k + n)
  {
    var P := (x: State, j: nat) => ClosedAtBody(x) && WindowResizeOnly(x.handlers, j);
    var f := x => Cycle(x, m);
    forall x: State, j: nat | P(x, j) ensures P(f(x), j + 1) {
      OneCycleAtBody(x, j, m);
    }
    IterateKeeps(f, P, s, k, n);
  }

  /** At the body, a real `open()` appends the three body handlers and nothing else. */
  lemma OpenAtBody(s: State, m: Metrics)
    requires ClosedAtBody(s)
    ensures var r := Open(s, None, false, m);
      r.isInitialized && r.isOpen && r.isBody && r.handlers == s.handlers + OpenBindings(true)
  {
  }

  /** A real `close()` leaves exactly the non-document handlers, and the modal built and closed. */
  lemma CloseKeepsBody(s: State)
    requires s.isInitialized && s.isOpen
    ensures var r := Close(s, false);
      r.isInitialized && !r.isOpen && r.isBody == s.isBody && r.handlers == Unbind(s.handlers, Document)
  {
  }

  /** Of the body handlers, unbinding the document leaves only the window's resize handler. */
  lemma UnbindBodyBindings()
    ensures Unbind(OpenBindings(true), Document) == [Bind(Window, Resize)]
  {
    var bound := OpenBindings(true);
    assert bound[1..] == [Bind(Document, KeyUp), Bind(Document, Click)];
    assert bound[1..][1..] == [Bind(Document, Click)];
  }

  /** Unbinding the document after binding the body handlers onto `k` window resize handlers leaves `k + 1`. */
  lemma ResizeLeftBehind(hs: seq<Binding>, k: nat)
    requires WindowResizeOnly(hs, k)
    ensures WindowResizeOnly(Unbind(hs + OpenBindings(true), Document), k + 1)
  {
    var r := hs + [Bind(Window, Resize)];
    assert Unbind(hs + OpenBindings(true), Document) == r by {
      UnbindAppend(hs, OpenBindings(true), Document);
      UnbindNothing(hs, Document);
      UnbindBodyBindings();
    }
    assert WindowResizeOnly(r, k + 1) by {
      assert forall i :: 0 <= i < |hs| ==> r[i] == hs[i];
    }
  }

  lemma OneCycleAtBody(s: State, k: nat, m: Metrics)
    requires ClosedAtBody(s) && WindowResizeOnly(s.handlers, k)
    ensures ClosedAtBody(Cycle(s, m)) && WindowResizeOnly(Cycle(s, m).handlers, k + 1)
  {
    OpenAtBody(s, m);
    CloseKeepsBody(Open(s, None, false, m));
    ResizeLeftBehind(s.handlers, k);
  }
}
