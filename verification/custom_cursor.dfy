/** The custom cursor (CustomCursor.tsx). A 20px dot and an 8px trail
    follow the pointer. The dot has two variants: "default" at scale 1 and
    "hover", at scale 1.5, while the pointer is over a button, a link or a
    magnetic button. The default dot is centred on the pointer. The hover
    dot's offset is half its scaled diameter, but the scale is applied about
    the dot's own centre, so its centre sits 5px up and left of the
    pointer. The trail is centred on the pointer. */
module CustomCursor {

  /** The dot's diameter (Tailwind `w-5 h-5`), in pixels. */
  const DotSize: real := 20.0

  /** The trail's diameter (Tailwind `w-2 h-2`), in pixels. */
  const TrailSize: real := 8.0

  datatype Variant = Default | Hover

  /** Where the animation library moves an element, and its scale. */
  datatype Placement = Placement(x: real, y: real, scale: real)

  /** The dot's target for a variant and a pointer position. On both axes
      the offset equals half the scaled diameter. The box's centre, which
      scaling leaves in place, is at `p.x + DotSize / 2`. */
  function DotTarget(v: Variant, mouseX: real, mouseY: real): (p: Placement)
    ensures p.x + DotSize * p.scale / 2.0 == mouseX
    ensures p.y + DotSize * p.scale / 2.0 == mouseY
    ensures v == Default ==> p.scale == 1.0
    ensures v == Hover ==> p.scale == 1.5
    ensures v == Default ==> p.x + DotSize / 2.0 == mouseX && p.y + DotSize / 2.0 == mouseY
    ensures v == Hover ==> p.x + DotSize / 2.0 == mouseX - 5.0 && p.y + DotSize / 2.0 == mouseY - 5.0
  {
    match v
    case Default => Placement(mouseX - 10.0, mouseY - 10.0, 1.0)
    case Hover => Placement(mouseX - 15.0, mouseY - 15.0, 1.5)
  }

  /** The trail's target: centred on the pointer whatever the variant. */
  function TrailTarget(mouseX: real, mouseY: real): (p: Placement)
    ensures p.x + TrailSize / 2.0 == mouseX && p.y + TrailSize / 2.0 == mouseY
    ensures p.scale == 1.0
  {
    Placement(mouseX - 4.0, mouseY - 4.0, 1.0)
  }

  /** The hover dot sits 5px further up and left than the default dot. */
  lemma HoverShift(mouseX: real, mouseY: real)
    ensures DotTarget(Hover, mouseX, mouseY).x == DotTarget(Default, mouseX, mouseY).x - 5.0
    ensures DotTarget(Hover, mouseX, mouseY).y == DotTarget(Default, mouseX, mouseY).y - 5.0
  {
  }

  /** The cursor's state: the last pointer position and the variant. */
  class Cursor {
    var mouseX: real
    var mouseY: real
    var variant: Variant

    constructor ()
      ensures mouseX == 0.0 && mouseY == 0.0 && variant == Default
    {
      mouseX, mouseY := 0.0, 0.0;
      variant := Default;
    }

    function Dot(): (p: Placement)
      reads this
      ensures p.x + DotSize * p.scale / 2.0 == mouseX && p.y + DotSize * p.scale / 2.0 == mouseY
    {
      DotTarget(variant, mouseX, mouseY)
    }

    function Trail(): (p: Placement)
      reads this
      ensures p.x == mouseX - 4.0 && p.y == mouseY - 4.0
    {
      TrailTarget(mouseX, mouseY)
    }

    /** A pointer move stores the exact client coordinates. */
    method MouseMove(clientX: real, clientY: real)
      modifies this
      ensures mouseX == clientX && mouseY == clientY
      ensures variant == old(variant)
      ensures Trail() == Placement(clientX - 4.0, clientY - 4.0, 1.0)
    {
      mouseX, mouseY := clientX, clientY;
    }

    /** The pointer enters an interactive element. */
    method MouseEnter()
      modifies this
      ensures variant == Hover
      ensures mouseX == old(mouseX) && mouseY == old(mouseY)
      ensures Dot() == Placement(mouseX - 15.0, mouseY - 15.0, 1.5)
    {
      variant := Hover;
    }

    /** The pointer leaves an interactive element. */
    method MouseLeave()
      modifies this
      ensures variant == Default
      ensures mouseX == old(mouseX) && mouseY == old(mouseY)
      ensures Dot() == Placement(mouseX - 10.0, mouseY - 10.0, 1.0)
    {
      variant := Default;
    }
  }
}
