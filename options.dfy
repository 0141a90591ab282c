/** The constructor options both `Physarum` classes accept
    (src/Physarum/Physarum.js and src/Physarum/Physarum.tsx) and the
    dimensions they settle on. */
module Options {
  import opened Gl

  /** The parts of the container element the constructor reads. */
  datatype Container = Container(clientWidth: int, clientHeight: int)

  /** `{ container?, width?, height? }`; an absent option is `None`. */
  datatype ConstructorOptions = ConstructorOptions(container: Option<Container>, width: Option<int>, height: Option<int>)

  datatype Dimensions = Dimensions(width: int, height: int)

  /** `x || fallback` on an optional number: undefined and 0 are falsy. */
  function OrDefault(x: Option<int>, fallback: int): (r: int)
    ensures x.Some? && x.value != 0 ==> r == x.value
    ensures x.None? || x.value == 0 ==> r == fallback
  {
    if x.Some? && x.value != 0 then x.value else fallback
  }

  /** The dimensions the constructor stores: the container's client size
      when a container is given, otherwise `width || 800` by
      `height || 600`. */
  function InitialDimensions(o: ConstructorOptions): Dimensions
  {
    match o.container
    case Some(c) => Dimensions(c.clientWidth, c.clientHeight)
    case None => Dimensions(OrDefault(o.width, 800), OrDefault(o.height, 600))
  }

  /** Without options the field is 800 by 600; a given container overrides
      any given width and height; without a container a nonzero size is
      kept and a zero or missing one falls back to its default. */
  lemma InitialDimensionsCases(o: ConstructorOptions)
    ensures InitialDimensions(ConstructorOptions(None, None, None)) == Dimensions(800, 600)
    ensures o.container.Some? ==>
      InitialDimensions(o) == Dimensions(o.container.value.clientWidth, o.container.value.clientHeight)
    ensures o.container.None? ==>
      && InitialDimensions(o).width == (if o.width.Some? && o.width.value != 0 then o.width.value else 800)
      && InitialDimensions(o).height == (if o.height.Some? && o.height.value != 0 then o.height.value else 600)
    ensures o.container.None? ==> InitialDimensions(o).width != 0 && InitialDimensions(o).height != 0
  {
  }
}
