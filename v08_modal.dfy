/**
  The 0.8.1 widget as the object the page holds (js/modal.js): a `Modal` whose
  methods update its fields in place, and the `$.fn.modal` registry that keeps
  one instance per element. Each method is proved to perform exactly the
  corresponding step of the lifecycle in v08_lifecycle.dfy and to keep its
  invariant; what the widget promises is proved there, about those steps.
 */
module ModalV08 {
  import opened Dom
  import opened OptionsV08
  import opened AlignV08
  import opened LifecycleV08

  class Modal {
    const opts: Options
    const target: Element
    var isInitialized: bool
    var isOpen: bool
    var wrapper: Option<Position>
    var overlay: Option<Overlay>
    var isBody: bool
    var content: Markup
    var fadingOut: bool
    var handlers: seq<Binding>
    var placement: Option<Placement>
    var trace: seq<Event>

    /** The instance's fields as a lifecycle state. */
    function Snapshot(): State
      reads this
    {
      State(opts, target, isInitialized, isOpen, wrapper, overlay, isBody, content, fadingOut, handlers, placement, trace)
    }

    ghost predicate Valid()
      reads this
    {
      Inv(Snapshot())
    }

    /** `new Modal(target, options)`: the options merged over the defaults, nothing built yet. */
    constructor (target: Element, options: Overrides)
      ensures Snapshot() == Fresh(target, options)
      ensures Valid()
    {
      this.opts := Configure(options);
      this.target := target;
      isInitialized := false;
      isOpen := false;
      wrapper := None;
      overlay := None;
      isBody := false;
      content := "";
      fadingOut := false;
      handlers := [];
      placement := None;
      trace := [];
      new;
      FreshInv(target, options);
    }

    /** `_init()`: builds the structure on the first call only. */
    method Init()
      modifies this
      ensures Snapshot() == LifecycleV08.Init(old(Snapshot()))
      ensures old(Valid()) ==> Valid()
    {
      if Valid() {
        InitInv(Snapshot());
      }
      if isInitialized {
        return;
      }
      wrapper := Some(if opts.fixed then Fixed else Absolute);
      overlay := if opts.overlay then Some(Overlay(opts.blur)) else None;
      isBody := target == Body;
      isInitialized := true;
    }

    /** `align()`: reads the wrapper, which only `_init` builds. */
    method Align(m: Metrics)
      requires isInitialized
      modifies this
      ensures Snapshot() == AlignStep(old(Snapshot()), m)
      ensures old(Valid()) ==> Valid()
    {
      if Valid() {
        AlignInv(Snapshot(), m);
      }
      placement := Some(AlignV08.Align(opts.fixed, opts.overlay, isBody, m));
      trace := trace + [Aligned];
    }

    /** `update(content, callback)`: reads the content element, which only `_init` builds. */
    method Update(content: Option<Markup>, callback: bool, m: Metrics)
      requires isInitialized
      modifies this
      ensures Snapshot() == LifecycleV08.Update(old(Snapshot()), content, callback, m)
      ensures old(Valid()) ==> Valid()
    {
      if Valid() {
        UpdateInv(Snapshot(), content, callback, m);
      }
      this.content := Html(this.content, content);
      if isOpen {
        Align(m);
      }
      trace := trace + Fires(opts.onupdate, OnUpdate) + Fires(callback, Callback);
    }

    /** `open(content, callback)`. */
    method Open(content: Option<Markup>, callback: bool, m: Metrics)
      requires Valid()
      modifies this
      ensures Snapshot() == LifecycleV08.Open(old(Snapshot()), content, callback, m)
      ensures Valid()
    {
      ghost var s := Snapshot();
      if !isInitialized {
        Init();
      } else if isOpen {
        return;
      }
      ghost var s0 := Snapshot();
      assert s0 == LifecycleV08.Init(s);
      handlers := handlers + OpenBindings(isBody);
      fadingOut := false;
      isOpen := true;
      ghost var s1 := Snapshot();
      assert s1 == s0.(handlers := s0.handlers + OpenBindings(s0.isBody), fadingOut := false, isOpen := true);
      if Truthy(content) {
        Update(content, false, m);
      }
      trace := trace + Fires(opts.onopen, OnOpen) + Fires(callback, Callback);
      assert Snapshot() == Show(s1, content, callback, m) == LifecycleV08.Open(s, content, callback, m);
      OpenInv(s, content, callback, m);
    }

    /** `close(callback)`. */
    method Close(callback: bool)
      requires Valid()
      modifies this
      ensures Snapshot() == LifecycleV08.Close(old(Snapshot()), callback)
      ensures Valid()
    {
      CloseInv(Snapshot(), callback);
      if !isInitialized || !isOpen {
        return;
      }
      handlers := Unbind(handlers, Document);
      fadingOut := true;
      isOpen := false;
      trace := trace + Fires(opts.onclose, OnClose) + Fires(callback, Callback);
    }

    /** The completion callback of the fade-out `close` started. */
    method FadeOutComplete()
      requires Valid()
      modifies this
      ensures Snapshot() == FadeOutDone(old(Snapshot()))
      ensures Valid()
    {
      FadeOutDoneInv(Snapshot());
      if fadingOut {
        content := "";
        fadingOut := false;
      }
    }

    /** One bound handler reacting to an event. */
    method RunHandler(b: Binding, e: Input)
      requires Valid() && isInitialized
      modifies this
      ensures Snapshot() == Handle(old(Snapshot()), b, e)
      ensures Valid()
    {
      HandleInv(Snapshot(), b, e);
      match (b.kind, e) {
        case (Resize, ResizeEvent(m)) =>
          Align(m);
        case (KeyUp, KeyUpEvent(code)) =>
          if code == EscapeKeyCode {
            Close(false);
          }
        case (Click, ClickEvent(c)) =>
          if c == CloseControl || c.FlaggedElement? || (c == OverlayElement && overlay == Some(Overlay(true))) {
            Close(false);
          }
        case _ =>
      }
    }

    /** The page delivers an event: every handler bound when it arrives runs, in bind order. */
    method Fire(e: Input)
      requires Valid()
      modifies this
      ensures Snapshot() == LifecycleV08.Fire(old(Snapshot()), e)
      ensures Valid()
    {
      var snapshot := handlers;
      var i := 0;
      while i < |snapshot|
        invariant 0 <= i <= |snapshot|
        invariant Valid()
        invariant |snapshot| > 0 ==> isInitialized
        invariant Dispatch(Snapshot(), snapshot[i..], e) == Dispatch(old(Snapshot()), snapshot, e)
      {
        assert snapshot[i..][0] == snapshot[i];
        assert snapshot[i..][1..] == snapshot[i + 1..];
        HandleInv(Snapshot(), snapshot[i], e);
        RunHandler(snapshot[i], e);
        i := i + 1;
      }
    }
  }

  /** `$.fn.modal(options)`: the instance stored with each element, as `$.data(el, 'modal')`. */
  class Registry {
    var instances: map<Element, Modal>

    /** Each element's instance is attached to that element. */
    ghost predicate Valid()
      reads this
    {
      forall e :: e in instances ==> instances[e].target == e
    }

    constructor ()
      ensures instances == map[]
      ensures Valid()
    {
      instances := map[];
    }

    /**
      Gives every element that has no instance yet a new one built from
      `options`; an element that already has one keeps it, options and state.
     */
    method Plugin(elements: seq<Element>, options: Overrides)
      requires Valid()
      modifies this
      ensures Valid()
      ensures forall e :: e in instances <==> e in old(instances) || e in elements
      ensures forall e :: e in old(instances) ==>
        instances[e] == old(instances[e]) && instances[e].Snapshot() == old(instances[e].Snapshot())
      ensures forall e :: e in instances && e !in old(instances) ==>
        fresh(instances[e]) && instances[e].Snapshot() == Fresh(e, options) && instances[e].Valid()
    {
      var i := 0;
      while i < |elements|
        invariant 0 <= i <= |elements|
        invariant Valid()
        invariant forall e :: e in instances <==> e in old(instances) || e in elements[..i]
        invariant forall e :: e in old(instances) ==> instances[e] == old(instances[e])
        invariant forall e :: e in instances && e !in old(instances) ==>
          fresh(instances[e]) && instances[e].Snapshot() == Fresh(e, options) && instances[e].Valid()
      {
        var e := elements[i];
        assert elements[..i + 1] == elements[..i] + [e];
        if e !in instances {
          var modal := new Modal(e, options);
          instances := instances[e := modal];
        }
        i := i + 1;
      }
      assert elements[..i] == elements;
    }
  }
}
