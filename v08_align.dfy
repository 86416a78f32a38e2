/**
  The centring arithmetic of `align` in the 0.8.1 widget (js/modal.js). The
  wrapper is centred in the context's visible area; in fixed mode the vertical
  reference is the viewport (scroll offset 0), otherwise the context's current
  scroll offset. The overlay is stretched to the document's height when the
  modal is attached to the body, to the context's height otherwise.
 */
module AlignV08 {
  import opened Dom

  /** What `align` writes: the wrapper's `top` and `left`, and the overlay's height if there is an overlay. */
  datatype Placement = Placement(top: real, left: real, overlayHeight: Option<int>)

  /** The vertical reference: 0 in fixed mode, the context's scroll offset otherwise. */
  function ScrollReference(fixed: bool, m: Metrics): int
  {
    if fixed then 0 else m.scrollTop
  }

  function Align(fixed: bool, overlay: bool, isBody: bool, m: Metrics): (p: Placement)
    // Fits vertically: equal gaps above and below, wrapper inside the visible area.
    ensures var s := ScrollReference(fixed, m) as real;
      m.wrapperHeight < m.contextHeight ==>
        && s < p.top
        && p.top - s == (s + m.contextHeight as real) - (p.top + m.wrapperHeight as real)
    // Too tall: flush with the top of the visible area.
    ensures m.contextHeight <= m.wrapperHeight ==> p.top == ScrollReference(fixed, m) as real
    // Fits horizontally: equal gaps left and right; otherwise flush left.
    ensures m.wrapperWidth < m.contextWidth ==>
      0.0 < p.left && p.left == m.contextWidth as real - (p.left + m.wrapperWidth as real)
    ensures m.contextWidth <= m.wrapperWidth ==> p.left == 0.0
    ensures p.overlayHeight.Some? <==> overlay
    ensures overlay && isBody ==> p.overlayHeight == Some(m.documentHeight)
    ensures overlay && !isBody ==> p.overlayHeight == Some(m.contextHeight)
  {
    var s := ScrollReference(fixed, m);
    Placement(
      top := Centre(m.wrapperHeight, m.contextHeight) + s as real,
      left := Centre(m.wrapperWidth, m.contextWidth),
      overlayHeight := if overlay then Some(if isBody then m.documentHeight else m.contextHeight) else None)
  }

  /** A 640x480 wrapper in an 800x600 context sits 60 below the reference and 80 from the left. */
  lemma AlignFixture(fixed: bool, scrollTop: int)
    ensures var p := Align(fixed, false, true, Metrics(480, 640, 600, 800, scrollTop, 0));
      && p.top == (if fixed then 60 else 60 + scrollTop) as real
      && p.left == 80.0
  {
  }

  /** Only the vertical reference depends on the mode: fixed mode ignores the scroll offset. */
  lemma FixedIgnoresScroll(overlay: bool, isBody: bool, m: Metrics, scrollTop: int)
    ensures Align(true, overlay, isBody, m) == Align(true, overlay, isBody, m.(scrollTop := scrollTop))
    ensures Align(false, overlay, isBody, m).top
         == Align(true, overlay, isBody, m).top + m.scrollTop as real
  {
  }
}
