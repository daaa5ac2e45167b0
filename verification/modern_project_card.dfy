/** The modern project card (ModernProjectCard.tsx). A pointer move stores
    the pointer's offset from the card's centre; while hovered, the card
    tilts by 0.02 degree per pixel of offset and lifts by 20px, the image
    shifts by 0.01 px per pixel (parallax) and the drop shadow follows the
    tilt below a fixed 15px drop. Leaving clears the hover flag and the
    offset. */
module ModernProjectCard {
  import opened Optional
  import opened Geometry

  /** Degrees of tilt (and pixels of shadow shift) per pixel of offset. */
  const TiltFactor: real := 0.02

  /** Pixels of image shift per pixel of offset. */
  const ParallaxFactor: real := 0.01

  /** The shadow's fixed downward drop, in pixels. */
  const ShadowDrop: real := 15.0

  /** The card's own transform. */
  datatype CardTilt = CardTilt(rotateX: real, rotateY: real, translateZ: real)

  /** A translation in pixels. */
  datatype Shift = Shift(dx: real, dy: real, dz: real)

  /** The stored offset: the pointer minus the card's centre. */
  function CentreOffset(r: Rect, clientX: real, clientY: real): (p: Point)
    ensures p == Point(0.0, 0.0) <==> clientX == r.left + r.width / 2.0 && clientY == r.top + r.height / 2.0
    ensures Inside(r, clientX, clientY) ==>
      -r.width / 2.0 <= p.x <= r.width / 2.0 && -r.height / 2.0 <= p.y <= r.height / 2.0
  {
    var centerX := r.left + r.width / 2.0;
    var centerY := r.top + r.height / 2.0;
    Point(clientX - centerX, clientY - centerY)
  }

  /** The card's transform: tilt and lift while hovered, flat otherwise. */
  function CardTransform(isHovered: bool, offset: Point): (t: CardTilt)
    ensures !isHovered ==> t == CardTilt(0.0, 0.0, 0.0)
    ensures isHovered ==> t.translateZ == 20.0
    ensures isHovered ==> (t.rotateX == 0.0 && t.rotateY == 0.0 <==> offset == Point(0.0, 0.0))
  {
    if isHovered then CardTilt(offset.y * TiltFactor, offset.x * TiltFactor, 20.0)
    else CardTilt(0.0, 0.0, 0.0)
  }

  /** The image's parallax shift: a fraction of the offset, raised by 30px,
      while hovered; no shift otherwise. */
  function ImageParallax(isHovered: bool, offset: Point): (s: Shift)
    ensures !isHovered ==> s == Shift(0.0, 0.0, 0.0)
    ensures isHovered ==> s.dz == 30.0
  {
    if isHovered then Shift(offset.x * ParallaxFactor, offset.y * ParallaxFactor, 30.0)
    else Shift(0.0, 0.0, 0.0)
  }

  /** The shadow's shift: it follows the tilt and always keeps its drop. */
  function ShadowShift(isHovered: bool, offset: Point): (s: Shift)
    ensures s.dz == -20.0
    ensures !isHovered ==> s == Shift(0.0, ShadowDrop, -20.0)
  {
    if isHovered then Shift(offset.x * TiltFactor, offset.y * TiltFactor + ShadowDrop, -20.0)
    else Shift(0.0, ShadowDrop, -20.0)
  }

  /** The shadow moves by exactly the card's tilt angles (in pixels) below
      its drop, and the image moves by half of them, hovered or not. */
  lemma ShadowAndParallaxFollowTilt(isHovered: bool, offset: Point)
    ensures var t := CardTransform(isHovered, offset);
      var s := ShadowShift(isHovered, offset);
      var p := ImageParallax(isHovered, offset);
      s.dx == t.rotateY && s.dy == t.rotateX + ShadowDrop &&
      2.0 * p.dx == t.rotateY && 2.0 * p.dy == t.rotateX
  {
  }

  /** A pointer inside the card tilts it by at most 1% of its size. */
  lemma TiltBounded(r: Rect, clientX: real, clientY: real, isHovered: bool)
    requires Inside(r, clientX, clientY)
    ensures var t := CardTransform(isHovered, CentreOffset(r, clientX, clientY));
      -0.01 * r.height <= t.rotateX <= 0.01 * r.height &&
      -0.01 * r.width <= t.rotateY <= 0.01 * r.width
  {
  }

  /** A pointer at the centre leaves the hovered card untilted. */
  lemma CentreIsFlat(r: Rect)
    ensures var t := CardTransform(true, CentreOffset(r, r.left + r.width / 2.0, r.top + r.height / 2.0));
      t.rotateX == 0.0 && t.rotateY == 0.0
  {
  }

  /** The card's hover state. */
  class Card {
    var isHovered: bool
    var mousePosition: Point

    constructor ()
      ensures !isHovered && mousePosition == Point(0.0, 0.0)
    {
      isHovered := false;
      mousePosition := Point(0.0, 0.0);
    }

    function Transform(): (t: CardTilt)
      reads this
      ensures !isHovered ==> t == CardTilt(0.0, 0.0, 0.0)
    {
      CardTransform(isHovered, mousePosition)
    }

    /** A pointer move; nothing changes while the element reference is unset. */
    method HandleMouseMove(rect: Option<Rect>, clientX: real, clientY: real)
      modifies this
      ensures isHovered == old(isHovered)
      ensures rect == None ==> mousePosition == old(mousePosition)
      ensures rect.Some? ==> mousePosition == CentreOffset(rect.value, clientX, clientY)
    {
      if rect == None {
        return;
      }
      var r := rect.value;
      var centerX := r.left + r.width / 2.0;
      var centerY := r.top + r.height / 2.0;
      var mouseX := clientX - centerX;
      var mouseY := clientY - centerY;
      mousePosition := Point(mouseX, mouseY);
    }

    method HandleMouseEnter()
      modifies this
      ensures isHovered && mousePosition == old(mousePosition)
    {
      isHovered := true;
    }

    /** Leaving clears the offset, so re-entering without a move gives no tilt. */
    method HandleMouseLeave()
      modifies this
      ensures !isHovered && mousePosition == Point(0.0, 0.0)
      ensures Transform() == CardTilt(0.0, 0.0, 0.0)
      ensures var t := CardTransform(true, mousePosition); t.rotateX == 0.0 && t.rotateY == 0.0
    {
      isHovered := false;
      mousePosition := Point(0.0, 0.0);
    }
  }
}
