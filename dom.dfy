/**
  Vocabulary shared by both versions of the modal widget: the page element a
  modal is attached to, the surfaces (window, document, target) on which it binds
  handlers under the `.modal` namespace, the events that reach those handlers,
  the measurements the rendering engine reports, and the trace of observable
  effects (alignments and callbacks) in the order they happen.
 */
module Dom {

  datatype Option<+T> = None | Some(value: T)

  /** The supplied value when there is one, the default otherwise. */
  function Pick<T>(supplied: Option<T>, default: T): T
  {
    if supplied.Some? then supplied.value else default
  }

  /** Raw markup handed to the content element (never escaped). */
  type Markup = string

  /** A CSS length given as an option: a pixel count or a percentage. */
  datatype Dimension = Pixels(n: int) | Percent(p: int)

  /** A page element: the document body, or any other container. */
  datatype Element = Body | Node(id: nat)

  /** Where a handler is bound: the window, the document, or the modal's own target element. */
  datatype Surface = Window | Document | Target

  datatype EventKind = Resize | Scroll | KeyUp | Click

  /** One handler bound under the `.modal` namespace. */
  datatype Binding = Bind(on: Surface, kind: EventKind)

  /** CSS `position` given to the wrapper when it is built. */
  datatype Position = Fixed | Absolute

  /** The overlay element; `dismisses` is whether it carries `data-toggle="modal"`. */
  datatype Overlay = Overlay(dismisses: bool)

  /**
    The element a click lands on: the wrapper's close control, the overlay, some
    other element carrying `data-toggle="modal"` (in the caller's content markup
    or elsewhere on the page; `insideTarget` is whether it lies inside the
    modal's target element), or an element without that flag.
   */
  datatype Clicked = CloseControl | OverlayElement | FlaggedElement(insideTarget: bool) | OtherElement

  /** Measurements read from the rendering engine when `align` runs, in whole pixels. */
  datatype Metrics = Metrics(
    wrapperHeight: int,
    wrapperWidth: int,
    contextHeight: int,
    contextWidth: int,
    scrollTop: int,
    documentHeight: int)

  /** An event delivered by the page to whatever handlers are bound for its kind. */
  datatype Input =
    | ResizeEvent(m: Metrics)
    | ScrollEvent(m: Metrics)
    | KeyUpEvent(keyCode: int)
    | ClickEvent(on: Clicked)

  /** The kind of handler an event is delivered to. */
  function KindOf(e: Input): EventKind
  {
    match e
    case ResizeEvent(_) => Resize
    case ScrollEvent(_) => Scroll
    case KeyUpEvent(_) => KeyUp
    case ClickEvent(_) => Click
  }

  const EscapeKeyCode: int := 27

  /** Observable effects, in order: an alignment, or one of the callbacks firing. */
  datatype Event = Aligned | OnOpen | OnUpdate | OnClose | Callback

  /** A callback fires only when it is defined. */
  function Fires(defined: bool, e: Event): seq<Event>
  {
    if defined then [e] else []
  }

  /** JavaScript truthiness of a content argument: an omitted argument and the empty string are falsy. */
  predicate Truthy(arg: Option<Markup>)
  {
    arg.Some? && arg.value != ""
  }

  /** jQuery's `.html(value)`: given markup it replaces the element's markup;
      given `undefined` it is the getter and changes nothing. */
  function Html(current: Markup, arg: Option<Markup>): Markup
  {
    match arg
    case Some(markup) => markup
    case None => current
  }

  /**
    Offset that centres a box of `size` pixels in `room` pixels: half the spare
    room when the box fits, zero (flush) otherwise. Halves are kept exact.
   */
  function Centre(size: int, room: int): (offset: real)
    ensures size < room ==> 0.0 < offset && offset + size as real + offset == room as real
    ensures room <= size ==> offset == 0.0
  {
    if size < room then (room - size) as real / 2.0 else 0.0
  }

  /** jQuery's `.off('.modal')` / `.unbind('.modal')` on one surface: every
      binding on that surface goes, every other binding stays, in order. */
  function Unbind(hs: seq<Binding>, on: Surface): (r: seq<Binding>)
    ensures forall b :: multiset(r)[b] == if b.on == on then 0 else multiset(hs)[b]
    ensures forall i :: 0 <= i < |r| ==> r[i].on != on
    ensures |r| <= |hs|
  {
    if hs == [] then []
    else
      assert hs == [hs[0]] + hs[1..];
      if hs[0].on == on then Unbind(hs[1..], on) else [hs[0]] + Unbind(hs[1..], on)
  }

  /** How many of the bindings are for events of kind `k`. */
  function Bound(hs: seq<Binding>, k: EventKind): (n: nat)
    ensures n <= |hs|
    ensures n == 0 <==> forall i :: 0 <= i < |hs| ==> hs[i].kind != k
  {
    if hs == [] then 0
    else (if hs[0].kind == k then 1 else 0) + Bound(hs[1..], k)
  }

  lemma {:induction false} BoundAppend(a: seq<Binding>, b: seq<Binding>, k: EventKind)
    ensures Bound(a + b, k) == Bound(a, k) + Bound(b, k)
  {
    if a != [] {
      assert (a + b)[1..] == a[1..] + b;
      BoundAppend(a[1..], b, k);
    } else {
      assert a + b == b;
    }
  }

  /** Unbinding distributes over concatenation. */
  lemma {:induction false} UnbindAppend(a: seq<Binding>, b: seq<Binding>, on: Surface)
    ensures Unbind(a + b, on) == Unbind(a, on) + Unbind(b, on)
  {
    if a == [] {
      assert a + b == b;
    } else {
      assert (a + b)[0] == a[0];
      assert (a + b)[1..] == a[1..] + b;
      UnbindAppend(a[1..], b, on);
    }
  }

  /** Unbinding a surface that holds no handler leaves the bindings as they are. */
  lemma {:induction false} UnbindNothing(hs: seq<Binding>, on: Surface)
    requires forall i :: 0 <= i < |hs| ==> hs[i].on != on
    ensures Unbind(hs, on) == hs
  {
    if hs != [] {
      UnbindNothing(hs[1..], on);
    }
  }

  /** A run of copies of one binding counts fully for that binding's kind. */
  lemma {:induction false} BoundCopies(hs: seq<Binding>, b: Binding)
    requires forall i :: 0 <= i < |hs| ==> hs[i] == b
    ensures Bound(hs, b.kind) == |hs|
  {
    if hs != [] {
      BoundCopies(hs[1..], b);
    }
  }

  /** All the bindings are on one surface: unbinding it leaves none. */
  lemma {:induction false} UnbindAll(hs: seq<Binding>, on: Surface)
    requires forall i :: 0 <= i < |hs| ==> hs[i].on == on
    ensures Unbind(hs, on) == []
  {
    if hs != [] {
      UnbindAll(hs[1..], on);
    }
  }

  /** `f` applied `n` times over. */
  function Iterate<S>(f: S -> S, s: S, n: nat): S
    decreases n
  {
    if n == 0 then s else Iterate(f, f(s), n - 1)
  }

  /** A property indexed by a round count, which every application of `f` carries to the next count, holds after `n` rounds. */
  lemma {:induction false} IterateKeeps<S>(f: S -> S, P: (S, nat) -> bool, s: S, k: nat, n: nat)
    requires P(s, k)
    requires forall x: S, j: nat :: P(x, j) ==> P(f(x), j + 1)
    ensures P(Iterate(f, s, n), k + n)
    decreases n
  {
    if n != 0 {
      IterateKeeps(f, P, f(s), k + 1, n - 1);
    }
  }
}
