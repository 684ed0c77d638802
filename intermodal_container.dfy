/** An intermodal (shipping) container: its inner length, width and height
    in metres, and the floor area and volume they span. */
module IntermodalContainer {
  import D = Dimension
  import U = Units
  import opened Quantities

  /** Lengths in metres. */
  datatype Container = Container(length: real, width: real, height: real)

  /** `area()`: length times width, an area whose number of square metres
      is the product of the two numbers of metres. */
  function Area(c: Container): (r: Quantity)
    ensures HasDim(r, D.Area)
    ensures NumberIn(r, U.SquareMetre) == c.length * c.width
  {
    Times(Of(c.length, U.Metre), Of(c.width, U.Metre))
  }

  /** `volume()`: area times height, a volume whose number of cubic metres
      is the product of all three numbers of metres. */
  function Volume(c: Container): (r: Quantity)
    ensures HasDim(r, D.Volume)
    ensures NumberIn(r, U.CubicMetre) == c.length * c.width * c.height
  {
    Times(Area(c), Of(c.height, U.Metre))
  }

  /** Dividing the volume by the height gives back the floor area. */
  lemma VolumeOverHeight(c: Container)
    requires c.height != 0.0
    ensures Over(Volume(c), Of(c.height, U.Metre)) == Area(c)
  {
    TimesOver(Area(c), Of(c.height, U.Metre));
  }
}
