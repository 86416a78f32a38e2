/**
  The centring arithmetic of `align` in the 0.6.6 widget (modal.js). The
  vertical reference is always the context's scroll offset (the wrapper is
  positioned absolutely); the overlay is moved to that offset and sized to the
  context's visible area.
 */
module AlignV06 {
  import opened Dom

  /** The overlay's `top`, `width` and `height`. */
  datatype Box = Box(top: int, width: int, height: int)

  /** What `align` writes: the wrapper's `top` and `left`, and the overlay's box if there is an overlay. */
  datatype Placement = Placement(top: real, left: real, overlayBox: Option<Box>)

  function Align(overlay: bool, m: Metrics): (p: Placement)
    // Fits vertically: equal gaps above and below within the visible area.
    ensures m.wrapperHeight < m.contextHeight ==>
      && m.scrollTop as real < p.top
      && p.top - m.scrollTop as real == (m.scrollTop + m.contextHeight) as real - (p.top + m.wrapperHeight as real)
    // Too tall: flush with the top of the visible area.
    ensures m.contextHeight <= m.wrapperHeight ==> p.top == m.scrollTop as real
    // Fits horizontally: equal gaps left and right; otherwise flush left.
    ensures m.wrapperWidth < m.contextWidth ==>
      0.0 < p.left && p.left == m.contextWidth as real - (p.left + m.wrapperWidth as real)
    ensures m.contextWidth <= m.wrapperWidth ==> p.left == 0.0
    // The overlay covers exactly the visible area.
    ensures p.overlayBox.Some? <==> overlay
    ensures overlay ==> p.overlayBox == Some(Box(m.scrollTop, m.contextWidth, m.contextHeight))
  {
    Placement(
      top := Centre(m.wrapperHeight, m.contextHeight) + m.scrollTop as real,
      left := Centre(m.wrapperWidth, m.contextWidth),
      overlayBox := if overlay then Some(Box(m.scrollTop, m.contextWidth, m.contextHeight)) else None)
  }

  /** A 640x480 wrapper in an 800x600 context scrolled by `scrollTop` sits 60 below the offset and 80 from the left. */
  lemma AlignFixture(scrollTop: int)
    ensures var p := Align(true, Metrics(480, 640, 600, 800, scrollTop, 0));
      && p.top == (60 + scrollTop) as real
      && p.left == 80.0
      && p.overlayBox == Some(Box(scrollTop, 800, 600))
  {
  }

  /** Scrolling by `d` moves the wrapper and the overlay down by `d` and nothing else. */
  lemma ScrollShifts(overlay: bool, m: Metrics, d: int)
    ensures var p := Align(overlay, m);
      var q := Align(overlay, m.(scrollTop := m.scrollTop + d));
      && q.top == p.top + d as real
      && q.left == p.left
      && (overlay ==> q.overlayBox.value.top == p.overlayBox.value.top + d)
  {
  }
}
