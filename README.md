# jQuery Modal — a verified model of the widget's lifecycle

jQuery Modal is a small widget that shows markup in a centred box over an
optional dimmed overlay. A page creates one instance per element with
`$(el).modal(options)` and drives it through `open(content, callback)`,
`update(content, callback)` and `close(callback)`. The repository holds two
versions of the widget, and each gets its own model:

- **0.8.1** (`js/modal.js`): modules `OptionsV08`, `AlignV08`, `LifecycleV08`, `ModalV08`.
- **0.6.6** (`modal.js`): modules `OptionsV06`, `AlignV06`, `LifecycleV06`, `ModalV06`.
- Both share the vocabulary in `Dom`: elements, surfaces, bindings, events,
  metrics, jQuery's `.html()` and `.off('.modal')`.

Each version is modelled at two levels.

- **Lifecycle** (`LifecycleV08`, `LifecycleV06`): the widget's behaviour as step
  functions on a `State` value. These are `Init`, `AlignStep`, `Open`,
  `Update`, `Close`, `FadeOutDone` (the fade-out finishing, a separate later
  event) and `Fire` (the page delivering an event to the bound handlers).
  - `State` holds the flags `isInitialized` and `isOpen`, the content markup,
    the handlers bound under the `.modal` namespace, the last placement
    written by `align`, and a trace of alignments and callbacks in order.
  - `Inv` is the invariant of every reachable state. `RunInv` proves that it
    holds after any sequence of calls and events.
  - The lemmas state what the widget promises. This includes the guards,
    callback order, Escape and click dismissal, and what becomes of handlers
    over repeated open/close rounds.
- **Objects** (`ModalV08`, `ModalV06`): the objects the page holds.
  - `Modal` is a class whose methods update its fields in place, as the
    source's methods do. Each is proved to perform exactly one lifecycle step
    and to keep `Valid()`, which is `Inv` of its fields.
  - `Registry` is the `$.fn.modal` plugin's per-element store.

The two versions differ as follows; each model keeps its own version's behaviour.

| | 0.8.1 | 0.6.6 |
|---|---|---|
| positioning | wrapper `fixed` or `absolute` per `opts.fixed` (default off); fixed mode measures from the viewport top | wrapper always `absolute`, vertical reference always the scroll offset; `_init` keeps `opts.fixed` (default on) only at the body |
| handlers | resize on the window and Escape on the document (body only), dismiss click on the document | resize and scroll (fixed mode only) and dismiss click, all on the context |
| close unbinds | the document only: window resize handlers stay and pile up | the whole context: nothing stays |
| `open` aligns | only when given truthy content (through `update`) | always |
| `update` callbacks | always fire | fire only while open |
| plugin | keeps an existing instance | replaces it |

One point where an option's name and the code part ways; the model follows the code:

- `opts.escape` is named as the switch for Escape dismissal, but 0.8.1 merges
  it into the options and never reads it: Escape closes a modal at the body
  whatever its value (`LifecycleV08.EscapeClosesOnlyAtBody`).

Inputs from outside the widget are parameters.

- Measurements from the rendering engine (`height()`, `width()`,
  `scrollTop()`, the document's height) are a `Metrics` value passed to `align`.
- The user's callbacks are recorded only as defined or not, and as trace
  entries when they fire.
- Content is the markup string handed to `.html()`. An omitted argument is
  `None`, which makes `.html()` a getter that changes nothing. JavaScript
  truthiness is `Truthy`.

## Model

| member | source | states |
|---|---|---|
| Dom.Centre | js/modal.js:121-122 | offset that centres a box: equal gaps on both sides when it fits, zero otherwise |
| Dom.Unbind | js/modal.js:241 | `.off('.modal')` on one surface: every binding on it goes, every other stays with its multiplicity, and none on it remain |
| OptionsV08.Configure | js/modal.js:34-46 | the caller's options over the defaults: no overrides gives the defaults, an omitted key keeps its default (`fixed` off, `overlay`, `blur` and `escape` on; each of `onopen`, `onclose`, `onupdate` undefined when omitted), and merging the same overrides again changes nothing |
| OptionsV08.Merge | js/modal.js:34-46 | `$.extend` with an empty caller object leaves the base as it was |
| OptionsV08.MergeKeys | js/modal.js:34-46 | for each of the eleven keys (the three callbacks, both sizes and both maxima, `fixed`, `overlay`, `blur`, `escape`): a supplied key wins over the base, an omitted key keeps the base value |
| OptionsV08.MergeIdempotent | js/modal.js:34-46 | merging the same overrides twice equals merging once |
| AlignV08.Align | js/modal.js:111-129 | top centres the wrapper vertically within the visible area (reference 0 in fixed mode, the scroll offset otherwise) with equal gaps, or sits flush when too tall; left centres horizontally or is 0; the overlay height is the document's at the body, the context's elsewhere, and is written only when there is an overlay |
| AlignV08.AlignFixture | js/modal.js:113-122 | a 640x480 wrapper in an 800x600 context sits 60 below the reference and 80 from the left |
| AlignV08.FixedIgnoresScroll | js/modal.js:117 | fixed mode ignores the scroll offset; otherwise top moves down by exactly the offset |
| LifecycleV08.Fresh | js/modal.js:32-51 | a new instance holds its target and the merged options, and nothing is built, bound, shown or traced |
| LifecycleV08.OpenBindings | js/modal.js:151-171 | one `open` binds the document dismiss click always, and the window resize and document Escape handlers exactly at the body |
| LifecycleV08.Init | js/modal.js:64-104 | runs once and changes nothing afterwards; builds an overlay only when `opts.overlay`, which dismisses only when `opts.blur`; `isBody` is whether the target is the body; the wrapper is fixed or absolute per `opts.fixed` |
| LifecycleV08.AlignStep | js/modal.js:111-129 | `align` writes the placement `Align` computes from the options and fresh metrics, traces one alignment, and changes nothing else |
| LifecycleV08.Update | js/modal.js:205-223 | needs an initialized modal; never changes the open flag or the handlers |
| LifecycleV08.Open | js/modal.js:138-196 | ends built and open; already open, changes nothing; otherwise cancels a pending fade-out and appends one set of `OpenBindings` to the handlers |
| LifecycleV08.Show | js/modal.js:179-195 | the end of `open` keeps the flags and handlers, and installs the content only when it is truthy |
| LifecycleV08.ShowTrace | js/modal.js:181-195 | the end of `open` traces the align and `onupdate` of truthy content, then `onopen`, then the callback, and keeps the options |
| LifecycleV08.Close | js/modal.js:231-263 | no-op unless built and open; afterwards the modal is closed and its content untouched |
| LifecycleV08.FadeOutDone | js/modal.js:247-250 | the completed fade-out empties the content; without a pending fade-out nothing changes |
| LifecycleV08.Handle | js/modal.js:153-171 | a handler reacts only to its own event kind: resize realigns once, scroll does nothing, and a key-up or a click either does nothing or closes once (which key and which click is stated by `DispatchKeyUp` and `DispatchClick`) |
| LifecycleV08.FreshInv | js/modal.js:32-51 | a new instance satisfies the invariant |
| LifecycleV08.InitInv | js/modal.js:64-104 | `_init` keeps the invariant |
| LifecycleV08.UpdateInv | js/modal.js:205-223 | `update` keeps the invariant |
| LifecycleV08.BindInv | js/modal.js:151-179 | binding one set of handlers on a built, closed modal and opening it keeps the invariant |
| LifecycleV08.OpenInv | js/modal.js:138-196 | `open` keeps the invariant: one dismiss click (and one Escape handler at the body) while open |
| LifecycleV08.CloseInv | js/modal.js:231-263 | `close` keeps the invariant: no document handler while closed |
| LifecycleV08.HandleInv | js/modal.js:153-171 | each bound handler keeps the invariant and the initialized flag |
| LifecycleV08.RunInv | js/modal.js:138-263 | every state reached from an invariant state by any sequence of calls and page events satisfies the invariant |
| LifecycleV08.OpenNoOpIffOpen | js/modal.js:140-147 | `open` ends built and open, and changes nothing exactly when the modal already was |
| LifecycleV08.OpenEffects | js/modal.js:138-196 | a real `open` appends one set of handlers (resize and Escape only at the body), cancels a pending fade-out, installs truthy content, and traces align and `onupdate` (truthy content only), then `onopen`, then the callback, each only if defined |
| LifecycleV08.UpdateEffects | js/modal.js:205-223 | `update` replaces the content, aligns first only when open, and always fires `onupdate` then its callback |
| LifecycleV08.CloseNoOpIffNotOpen | js/modal.js:233-236 | `close` changes nothing exactly when the modal is not both built and open |
| LifecycleV08.CloseEffects | js/modal.js:231-263 | a real `close` removes every document handler and keeps every other (window resize included), closes at once, keeps the content, and fires `onclose` then the callback |
| LifecycleV08.CloseThenFadeOutClears | js/modal.js:244-252 | after `close` and its fade-out the content is empty and the modal closed |
| LifecycleV08.ReopenBeforeFadeOutKeepsContent | js/modal.js:174-184 | reopening before the fade-out completes cancels the pending clear |
| LifecycleV08.CloseTwice | js/modal.js:233-236 | closing twice is closing once |
| LifecycleV08.DispatchKeyUp | js/modal.js:158-164 | however many Escape handlers run, key 27 closes once and other keys do nothing |
| LifecycleV08.DispatchClick | js/modal.js:167-171 | a click on a flagged element closes once, whatever the number of click handlers |
| LifecycleV08.DispatchResize | js/modal.js:153-156 | each bound resize handler aligns once more |
| LifecycleV08.ScrollUnbound | js/modal.js:151-171 | in every reachable state no scroll handler is bound, so scrolling changes nothing |
| LifecycleV08.KeyUpBound | js/modal.js:151-165 | an Escape handler is bound exactly when the modal is open at the body |
| LifecycleV08.ClickBound | js/modal.js:167-171 | a dismiss click handler is bound exactly when the modal is open |
| LifecycleV08.EscapeClosesOnlyAtBody | js/modal.js:158-164 | Escape closes an open modal exactly when it is at the body; `opts.escape` makes no difference; other keys do nothing |
| LifecycleV08.ClickDismissal | js/modal.js:74-171 | on an open modal, a click closes it (as one `close` does) exactly when it lands on the close control, on any other `data-toggle="modal"` element anywhere on the page, or on the overlay when built with `blur`; a click on an unflagged element changes nothing |
| LifecycleV08.ResizeAlignsPerHandler | js/modal.js:153-156 | a resize aligns once per bound resize handler |
| LifecycleV08.OpenAtBody | js/modal.js:151-179 | at the body a real `open()` appends the three body handlers |
| LifecycleV08.CloseKeepsBody | js/modal.js:241-252 | a real `close()` leaves exactly the non-document handlers |
| LifecycleV08.ResizeLeftBehind | js/modal.js:241 | unbinding the document after an `open` at the body leaves one more window resize handler |
| LifecycleV08.OneCycleAtBody | js/modal.js:138-263 | one `open()`/`close()` round at the body adds exactly one window resize handler |
| LifecycleV08.CyclesFrom | js/modal.js:138-263 | `n` rounds add exactly `n` window resize handlers |
| LifecycleV08.ResizeHandlersAccumulate | js/modal.js:138-263 | after `n` rounds from a new instance at the body the window holds `n` resize handlers and nothing else, so the next `open` makes a resize align `n + 1` times |
| ModalV08.Modal.constructor | js/modal.js:32-51 | a new instance holds the merged options and nothing built |
| ModalV08.Modal.Init | js/modal.js:64-104 | performs `Init` on its fields |
| ModalV08.Modal.Align | js/modal.js:111-129 | performs `AlignStep` on its fields |
| ModalV08.Modal.Update | js/modal.js:205-223 | performs `Update`; requires the modal initialized |
| ModalV08.Modal.Open | js/modal.js:138-196 | performs `Open` and keeps the invariant |
| ModalV08.Modal.Close | js/modal.js:231-263 | performs `Close` and keeps the invariant |
| ModalV08.Modal.FadeOutComplete | js/modal.js:247-250 | performs `FadeOutDone` and keeps the invariant |
| ModalV08.Modal.RunHandler | js/modal.js:153-171 | runs one bound handler as `Handle` does |
| ModalV08.Modal.Fire | js/modal.js:153-171 | runs every handler bound when the event arrives, in bind order, as `Fire` does |
| ModalV08.Registry.Plugin | js/modal.js:267-276 | every element ends with an instance; an element that had one keeps it, state and all; a new one is fresh, attached to its element, and built from the options |
| OptionsV06.Configure | modal.js:33-41 | the caller's options over the defaults: no overrides gives the defaults, an omitted key keeps its default (`fixed` and `overlay` on; each of `onopen`, `onclose`, `onupdate` undefined when omitted) |
| OptionsV06.Merge | modal.js:33-41 | `$.extend` with an empty caller object leaves the base as it was |
| OptionsV06.MergeKeys | modal.js:33-41 | for each of the seven keys (the three callbacks, `width`, `height`, `fixed`, `overlay`): a supplied key wins over the base, an omitted key keeps the base value |
| OptionsV06.MergeIdempotent | modal.js:33-41 | merging the same overrides twice equals merging once |
| AlignV06.Align | modal.js:103-125 | top centres the wrapper vertically below the scroll offset with equal gaps, or sits at the offset when too tall; left centres or is 0; the overlay gets top = offset, width and height = the context's, only when there is an overlay |
| AlignV06.AlignFixture | modal.js:105-115 | a 640x480 wrapper in an 800x600 context sits 60 below the offset and 80 from the left |
| AlignV06.ScrollShifts | modal.js:109-123 | scrolling by `d` moves wrapper and overlay down by `d` and nothing else |
| LifecycleV06.Fresh | modal.js:31-45 | a new instance holds its target and the merged options, and nothing is built, bound, shown or traced |
| LifecycleV06.OpenBindings | modal.js:147-159 | every handler `open` binds is on the context |
| LifecycleV06.Init | modal.js:58-96 | runs once; wrapper always absolute; overlay only when `opts.overlay`; `fixed` kept only at the body, other options unchanged |
| LifecycleV06.AlignStep | modal.js:103-125 | `align` writes the placement `Align` computes from the options and fresh metrics, traces one alignment, and changes nothing else |
| LifecycleV06.Update | modal.js:192-210 | needs an initialized modal; never changes the open flag, handlers or options |
| LifecycleV06.Open | modal.js:134-183 | ends built and open; already open, changes nothing; otherwise cancels a pending fade-out and appends one set of `OpenBindings` for the narrowed `fixed` |
| LifecycleV06.Show | modal.js:145-183 | the rest of `open` appends the context handlers, marks the modal open, cancels a pending fade-out, and sets the content from any argument given |
| LifecycleV06.Close | modal.js:218-250 | no-op unless built and open; afterwards closed, content and options untouched |
| LifecycleV06.FadeOutDone | modal.js:234-237 | the completed fade-out empties the content |
| LifecycleV06.Handle | modal.js:149-159 | a handler reacts only to its own event kind: resize and scroll realign once, keys do nothing, and a click either does nothing or closes once (which click is stated by `DispatchClick`) |
| LifecycleV06.FreshInv | modal.js:31-45 | a new instance satisfies the invariant |
| LifecycleV06.InitInv | modal.js:58-96 | `_init` keeps the invariant |
| LifecycleV06.UpdateInv | modal.js:192-210 | `update` keeps the invariant |
| LifecycleV06.OpenInv | modal.js:134-183 | `open` keeps the invariant: exactly one set of handlers while open |
| LifecycleV06.CloseInv | modal.js:218-250 | `close` keeps the invariant: no handlers while closed |
| LifecycleV06.HandleInv | modal.js:149-159 | each bound handler keeps the invariant |
| LifecycleV06.RunInv | modal.js:134-250 | every state reached from an invariant state by any calls and events satisfies the invariant |
| LifecycleV06.InitNarrowsFixed | modal.js:89-93 | after `_init`, `fixed` holds exactly when it held and the target is the body; no other option changes |
| LifecycleV06.OpenNoOpIffOpen | modal.js:136-143 | `open` ends built and open, and changes nothing exactly when it already was |
| LifecycleV06.OpenEffects | modal.js:134-183 | a real `open` binds one set of context handlers, sets the content to its argument (even empty), cancels a pending fade-out, always aligns, and traces align, `onopen`, then the callback |
| LifecycleV06.UpdateEffects | modal.js:192-210 | `update` replaces the content; while open it aligns and fires `onupdate` then the callback; while closed it changes nothing else |
| LifecycleV06.CloseNoOpIffNotOpen | modal.js:220-223 | `close` changes nothing exactly when the modal is not both built and open |
| LifecycleV06.CloseEffects | modal.js:218-250 | a real `close` leaves no handler bound, closes at once, keeps the content and fires `onclose` then the callback |
| LifecycleV06.CloseThenFadeOutClears | modal.js:231-239 | after `close` and its fade-out the content is empty |
| LifecycleV06.ReopenBeforeFadeOutKeepsContent | modal.js:162-168 | reopening before the fade-out completes keeps the new content |
| LifecycleV06.CloseTwice | modal.js:220-223 | closing twice is closing once |
| LifecycleV06.DispatchClick | modal.js:155-159 | a click on a flagged element closes once |
| LifecycleV06.KeyUpUnbound | modal.js:147-159 | in every reachable state no key handler is bound, so Escape, like any key, changes nothing |
| LifecycleV06.ResizeAlignsOnce | modal.js:147-153 | a resize aligns once when open in fixed mode, otherwise does nothing |
| LifecycleV06.ScrollAlignsOnce | modal.js:147-153 | a scroll aligns once when open in fixed mode, otherwise does nothing |
| LifecycleV06.ClickDismissal | modal.js:64-159 | on an open modal, a click closes it (as one `close` does) exactly when it lands on the close control, on the overlay when built, or on any other `data-toggle="modal"` element inside the context (the whole page at the body, the target element elsewhere); a click on an unflagged element, or a flagged one outside a non-body target, changes nothing |
| LifecycleV06.ResizeHandlersBounded | modal.js:134-250 | a reachable state holds one resize handler when open in fixed mode and none otherwise |
| LifecycleV06.OneCycle | modal.js:134-250 | an `open()`/`close()` round from a closed reachable state ends closed and reachable |
| LifecycleV06.CyclesLeaveNothingBound | modal.js:228 | after `n` rounds at the body no handler is bound, and the next `open` binds at most one resize handler |
| ModalV06.Modal.constructor | modal.js:31-45 | a new instance holds the merged options and nothing built |
| ModalV06.Modal.Init | modal.js:58-96 | performs `Init` on its fields, options included |
| ModalV06.Modal.Align | modal.js:103-125 | performs `AlignStep` |
| ModalV06.Modal.Update | modal.js:192-210 | performs `Update`; requires the modal initialized |
| ModalV06.Modal.Open | modal.js:134-183 | performs `Open` and keeps the invariant |
| ModalV06.Modal.Close | modal.js:218-250 | performs `Close` and keeps the invariant |
| ModalV06.Modal.FadeOutComplete | modal.js:234-237 | performs `FadeOutDone` |
| ModalV06.Modal.RunHandler | modal.js:149-159 | runs one bound handler as `Handle` does |
| ModalV06.Modal.Fire | modal.js:149-159 | runs every handler bound when the event arrives, in bind order |
| ModalV06.Registry.Plugin | modal.js:254-260 | every element gets a fresh instance built from the options, replacing any existing one; the replaced instance is left as it was, handlers included |

## Left out

- DOM construction and CSS: the markup literals, the wrapper's and overlay's CSS (sizes, `95%` maxima, `display`), and forcing the container to `position: relative`. The wrapper is a `Position`, the overlay an `Overlay`, and the content its markup string.
- Fade animations and `stop()`: no timing is modelled. The completion of a fade-out is the separate event `FadeOutDone`. `stop()` is modelled only by its one observable effect: it cancels a pending fade-out, so that fade-out will not clear the content.
- Event dispatch mechanics (delegation, bubbling, `preventDefault`): a handler is a `Binding` (surface and event kind), and a click is reduced to where it lands: the close control, the overlay, another `data-toggle="modal"` element (inside the target or not), or an unflagged element.
- Cross-instance interference: the model follows one instance's own handlers only.
  - In 0.8.1 `close` runs `$(document).off('.modal')`, which also removes the document handlers of any other open instance.
  - In 0.6.6 `close` runs `this.context.unbind('.modal')`, which also strips the handlers of any other instance on the same context, such as one the plugin replaced on the same element. Until then the replaced instance's handlers stay bound and keep reacting (its dismiss click closes it too); `ModalV06.Registry.Plugin` leaves the old instance's state, handlers included, as it was.
- Exceptions: an `update` or an `align` before `_init` throws in the source, at its first read of `this.content` or `this.wrapper`. The class methods `Update` and `Align` require an initialized modal. A run of steps treats an early `update` as leaving the state unchanged, which is what the throw does, since nothing is assigned first. A direct call of `align` is not a step of a run: the model reaches `align` only through `open`, `update` and the resize and scroll handlers, which all run after `_init`.
- The ordering of `align` before `isOpen = true` in 0.6.6 `open` is kept in the class method, but it is not observable in the model: `align` does not read `isOpen`.
- Gruntfile.js and grunt.js (build and lint configuration) are not part of this model.
