/** The terrain oracle: the colour of the scene pixel under the bit, matched
    exactly against the fixed palette, decides what the bit has run into. */
module Terrain {

  /** A colour as compared by the game: three 0..255 channels. */
  datatype Rgb = Rgb(r: int, g: int, b: int)

  /** A sampled pixel: red, green, blue and alpha, as the scene returns it. */
  datatype Rgba = Rgba(r: int, g: int, b: int, a: int)

  const GroundColor := Rgb(11, 106, 136)
  const BoulderColor := Rgb(220, 150, 130)
  const RiverColor := Rgb(0, 0, 255)
  const BackgroundColor := Rgb(45, 197, 244)
  const BoundaryColor := Rgb(0, 0, 0)
  const GoalColor := Rgb(252, 238, 33)

  /** What the bit has hit: the goal box, a boulder, a losing surface
      (sky, river or canvas boundary), or anything else it can drill through. */
  datatype Contact = Goal | Boulder | Hazard | Passable

  /** The pixel with its alpha channel removed. */
  function Channels(c: Rgba): Rgb
  {
    Rgb(c.r, c.g, c.b)
  }

  /** The colours that end the run: the sky, the river and the canvas boundary. */
  predicate IsHazardColour(rgb: Rgb)
  {
    rgb == BackgroundColor || rgb == RiverColor || rgb == BoundaryColor
  }

  /** Tests in the game's order: goal first, then boulder, then the three
      losing colours; every other colour, the ground's included, is passable. */
  function Classify(c: Rgba): (t: Contact)
    ensures t == Goal <==> Channels(c) == GoalColor
    ensures t == Boulder <==> Channels(c) == BoulderColor
    ensures t == Hazard <==> IsHazardColour(Channels(c))
    ensures t == Passable <==>
      Channels(c) != GoalColor && Channels(c) != BoulderColor && !IsHazardColour(Channels(c))
  {
    var rgb := Channels(c);
    if rgb == GoalColor then Goal
    else if rgb == BoulderColor then Boulder
    else if IsHazardColour(rgb) then Hazard
    else Passable
  }

  /** The alpha channel never changes the verdict. */
  lemma AlphaIgnored(c: Rgba, alpha: int)
    ensures Classify(c.(a := alpha)) == Classify(c)
  {
  }

  /** Ground-coloured pixels let drilling go on. */
  lemma GroundIsPassable(alpha: int)
    ensures Classify(Rgba(GroundColor.r, GroundColor.g, GroundColor.b, alpha)) == Passable
  {
  }
}
