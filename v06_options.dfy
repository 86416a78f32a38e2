/**
  Configuration of the 0.6.6 widget (modal.js): fewer keys than 0.8.1, and
  fixed positioning asked for by default. `_init` later narrows `fixed` to
  modals attached to the body (see v06_lifecycle.dfy).
 */
module OptionsV06 {
  import opened Dom

  /** The merged options. A callback is recorded only as defined or not. */
  datatype Options = Options(
    onopen: bool,
    onclose: bool,
    onupdate: bool,
    width: Dimension,
    height: Dimension,
    fixed: bool,
    overlay: bool)

  /** The options a caller supplies; `None` is a key left out (or `undefined`). */
  datatype Overrides = Overrides(
    onopen: Option<bool>,
    onclose: Option<bool>,
    onupdate: Option<bool>,
    width: Option<Dimension>,
    height: Option<Dimension>,
    fixed: Option<bool>,
    overlay: Option<bool>)

  const NoOverrides: Overrides := Overrides(None, None, None, None, None, None, None)

  const Defaults: Options :=
    Options(
      onopen := false,
      onclose := false,
      onupdate := false,
      width := Pixels(640),
      height := Pixels(480),
      fixed := true,
      overlay := true)

  /** `$.extend({}, base, o)`: every key the caller supplies wins over the base. */
  function Merge(base: Options, o: Overrides): (r: Options)
    ensures o == NoOverrides ==> r == base
  {
    Options(
      onopen := Pick(o.onopen, base.onopen),
      onclose := Pick(o.onclose, base.onclose),
      onupdate := Pick(o.onupdate, base.onupdate),
      width := Pick(o.width, base.width),
      height := Pick(o.height, base.height),
      fixed := Pick(o.fixed, base.fixed),
      overlay := Pick(o.overlay, base.overlay))
  }

  /** The options of a new instance: the caller's over the defaults. */
  function Configure(o: Overrides): (r: Options)
    ensures o == NoOverrides ==> r == Defaults
    ensures o.fixed.None? ==> r.fixed
    ensures o.overlay.None? ==> r.overlay
    ensures o.onopen.None? ==> !r.onopen
    ensures o.onclose.None? ==> !r.onclose
    ensures o.onupdate.None? ==> !r.onupdate
    ensures r == Merge(r, o)
  {
    Merge(Defaults, o)
  }

  /** Supplying a key fixes it whatever the base held; leaving it out keeps the base's value. */
  lemma MergeKeys(base: Options, o: Overrides)
    ensures o.onopen.Some? ==> Merge(base, o).onopen == o.onopen.value
    ensures o.onopen.None? ==> Merge(base, o).onopen == base.onopen
    ensures o.onclose.Some? ==> Merge(base, o).onclose == o.onclose.value
    ensures o.onclose.None? ==> Merge(base, o).onclose == base.onclose
    ensures o.onupdate.Some? ==> Merge(base, o).onupdate == o.onupdate.value
    ensures o.onupdate.None? ==> Merge(base, o).onupdate == base.onupdate
    ensures o.width.Some? ==> Merge(base, o).width == o.width.value
    ensures o.width.None? ==> Merge(base, o).width == base.width
    ensures o.height.Some? ==> Merge(base, o).height == o.height.value
    ensures o.height.None? ==> Merge(base, o).height == base.height
    ensures o.fixed.Some? ==> Merge(base, o).fixed == o.fixed.value
    ensures o.fixed.None? ==> Merge(base, o).fixed == base.fixed
    ensures o.overlay.Some? ==> Merge(base, o).overlay == o.overlay.value
    ensures o.overlay.None? ==> Merge(base, o).overlay == base.overlay
  {
  }

  /** Merging the same caller options twice changes nothing further. */
  lemma MergeIdempotent(base: Options, o: Overrides)
    ensures Merge(Merge(base, o), o) == Merge(base, o)
  {
  }
}
