/** The directional-bend card (DiagonalBendCard.tsx). A pointer move stores
    the pointer's position normalised to the card's box; while the card is
    hovered the bend rotates it by up to 8 degrees on each axis, chosen by
    which half of the card the pointer is in. The technology tags below
    the description are coloured by position and labelled "#" plus the
    lower-cased name. */
module DiagonalBendCard {
  import opened Optional
  import opened Geometry

  /** The bend intensity. */
  const Intensity: real := 8.0

  datatype Bend = Bend(rotateX: real, rotateY: real)

  const Flat: Bend := Bend(0.0, 0.0)

  /** The stored position: the pointer's offset divided by the card's size. */
  function Normalize(r: Rect, clientX: real, clientY: real): (p: Point)
    requires Proper(r)
    ensures Inside(r, clientX, clientY) ==> 0.0 <= p.x <= 1.0 && 0.0 <= p.y <= 1.0
    ensures p.x * r.width == clientX - r.left && p.y * r.height == clientY - r.top
  {
    Point((clientX - r.left) / r.width, (clientY - r.top) / r.height)
  }

  /** The rotation for a hover state and a stored position, with the
      source's two branches per axis. Both branches of an axis are the
      same linear formula, so the bend is linear in the position. */
  function BendFor(isHovered: bool, p: Point): (b: Bend)
    ensures !isHovered ==> b == Flat
    ensures isHovered ==> b.rotateY == (0.5 - p.x) * 2.0 * Intensity
    ensures isHovered ==> b.rotateX == (p.y - 0.5) * 2.0 * Intensity
  {
    if !isHovered then Flat
    else
      var rotateY := if p.x > 0.5 then -(p.x - 0.5) * Intensity * 2.0 else (0.5 - p.x) * Intensity * 2.0;
      var rotateX := if p.y > 0.5 then (p.y - 0.5) * Intensity * 2.0 else -(0.5 - p.y) * Intensity * 2.0;
      Bend(rotateX, rotateY)
  }

  /** The centre, the right edge and the left edge of the middle row. */
  lemma BendReferencePoints()
    ensures BendFor(true, Point(0.5, 0.5)) == Flat
    ensures BendFor(true, Point(1.0, 0.5)) == Bend(0.0, -Intensity)
    ensures BendFor(true, Point(0.0, 0.5)) == Bend(0.0, Intensity)
  {
  }

  /** A position inside the unit square bends by at most the intensity. */
  lemma BendBounded(isHovered: bool, p: Point)
    requires 0.0 <= p.x <= 1.0 && 0.0 <= p.y <= 1.0
    ensures var b := BendFor(isHovered, p);
      -Intensity <= b.rotateX <= Intensity && -Intensity <= b.rotateY <= Intensity
  {
  }

  /** A pointer inside the card yields a bounded bend. */
  lemma PointerBendBounded(r: Rect, clientX: real, clientY: real, isHovered: bool)
    requires Proper(r) && Inside(r, clientX, clientY)
    ensures var b := BendFor(isHovered, Normalize(r, clientX, clientY));
      -Intensity <= b.rotateX <= Intensity && -Intensity <= b.rotateY <= Intensity
  {
    BendBounded(isHovered, Normalize(r, clientX, clientY));
  }

  /** The colour of the tag at position `index`: blue, green, amber, then purple. */
  function TagColour(index: nat): (c: string)
    ensures c in {"#3b82f6", "#10b981", "#f59e0b", "#8b5cf6"}
    ensures index >= 3 ==> c == "#8b5cf6"
  {
    if index == 0 then "#3b82f6"
    else if index == 1 then "#10b981"
    else if index == 2 then "#f59e0b"
    else "#8b5cf6"
  }

  /** The first four positions get four different colours. */
  lemma TagColoursDistinct(i: nat, j: nat)
    requires i < j < 4
    ensures TagColour(i) != TagColour(j)
  {
  }

  /** An ASCII capital letter. */
  predicate IsUpper(c: char)
  {
    'A' <= c <= 'Z'
  }

  /** The lower-case form of one character: an ASCII capital becomes the
      same letter in lower case, anything else is kept. */
  function LowerChar(c: char): (l: char)
    ensures !IsUpper(l)
    ensures !IsUpper(c) ==> l == c
    ensures IsUpper(c) ==> 'a' <= l <= 'z' && l as int - 'a' as int == c as int - 'A' as int
  {
    if IsUpper(c) then (c as int + 32) as char else c
  }

  /** Lower-case every ASCII capital of `s`, leaving all other characters alone. */
  function ToLower(s: string): (r: string)
    ensures |r| == |s|
    ensures forall i :: 0 <= i < |s| ==> r[i] == LowerChar(s[i])
  {
    if s == [] then [] else [LowerChar(s[0])] + ToLower(s[1..])
  }

  /** Lower-casing twice is lower-casing once. */
  lemma {:induction false} ToLowerIdempotent(s: string)
    ensures ToLower(ToLower(s)) == ToLower(s)
  {
    var once := ToLower(s);
    assert forall i :: 0 <= i < |once| ==> ToLower(once)[i] == once[i];
  }

  /** The text of a technology tag. */
  function TagLabel(tech: string): (tag: string)
    ensures |tag| == |tech| + 1 && tag[0] == '#'
    ensures forall i :: 1 <= i < |tag| ==> !IsUpper(tag[i])
    ensures tag[1..] == ToLower(tech)
  {
    ['#'] + ToLower(tech)
  }

  /** The card's hover state. */
  class Card {
    var mousePosition: Point
    var isHovered: bool

    constructor ()
      ensures mousePosition == Point(0.0, 0.0) && !isHovered
      ensures Transform() == Flat
    {
      mousePosition := Point(0.0, 0.0);
      isHovered := false;
    }

    /** The rotation the card is drawn with. */
    function Transform(): (b: Bend)
      reads this
      ensures !isHovered ==> b == Flat
    {
      BendFor(isHovered, mousePosition)
    }

    /** A pointer move; nothing changes while the element reference is unset. */
    method HandleMouseMove(rect: Option<Rect>, clientX: real, clientY: real)
      requires rect.Some? ==> Proper(rect.value)
      modifies this
      ensures isHovered == old(isHovered)
      ensures rect == None ==> mousePosition == old(mousePosition)
      ensures rect.Some? ==> mousePosition == Normalize(rect.value, clientX, clientY)
    {
      if rect == None {
        return;
      }
      var r := rect.value;
      var x := (clientX - r.left) / r.width;
      var y := (clientY - r.top) / r.height;
      mousePosition := Point(x, y);
    }

    method HandleMouseEnter()
      modifies this
      ensures isHovered && mousePosition == old(mousePosition)
    {
      isHovered := true;
    }

    /** Leaving recentres the stored position, so re-entering without a
        move draws the card flat. */
    method HandleMouseLeave()
      modifies this
      ensures !isHovered && mousePosition == Point(0.5, 0.5)
      ensures Transform() == Flat
      ensures BendFor(true, mousePosition) == Flat
    {
      isHovered := false;
      mousePosition := Point(0.5, 0.5);
    }
  }
}
