/** The continuous-tilt card (FloatingCard.tsx). A pointer move maps the
    pointer's offset from the card's centre to two rotations of at most
    12 degrees and picks a transform origin from the quadrant the pointer
    is in; leaving the card restores the neutral style. */
module FloatingCard {
  import opened Optional
  import opened Geometry

  /** The largest rotation, in degrees, reached on the card's border. */
  const MaxAngle: real := 12.0

  /** The pivot of the rotation, as a CSS transform-origin keyword pair. */
  datatype Origin = Center | BottomRight | BottomLeft | TopRight | TopLeft

  /** The custom properties the card sets on its content. */
  datatype TiltStyle = TiltStyle(rotateX: real, rotateY: real, origin: Origin)

  const Neutral: TiltStyle := TiltStyle(0.0, 0.0, Center)

  /** The pivot opposite the hovered quadrant. The comparisons are strict,
      so a pointer on either centre line falls through to "top left". */
  function QuadrantOrigin(x: real, y: real, width: real, height: real): (o: Origin)
    ensures o != Center
    ensures o == BottomRight <==> x < width / 2.0 && y < height / 2.0
    ensures o == BottomLeft <==> x > width / 2.0 && y < height / 2.0
    ensures o == TopRight <==> x < width / 2.0 && y > height / 2.0
    ensures x == width / 2.0 || y == height / 2.0 ==> o == TopLeft
  {
    if x < width / 2.0 && y < height / 2.0 then BottomRight
    else if x > width / 2.0 && y < height / 2.0 then BottomLeft
    else if x < width / 2.0 && y > height / 2.0 then TopRight
    else TopLeft
  }

  /** The style computed for a pointer at (clientX, clientY) over `r`.
      Above the centre tilts the top towards the viewer (positive rotateX);
      right of the centre gives a positive rotateY. */
  function Tilt(r: Rect, clientX: real, clientY: real): (t: TiltStyle)
    requires Proper(r)
    ensures t.rotateX > 0.0 <==> clientY - r.top < r.height / 2.0
    ensures t.rotateX < 0.0 <==> clientY - r.top > r.height / 2.0
    ensures t.rotateY > 0.0 <==> clientX - r.left > r.width / 2.0
    ensures t.rotateY < 0.0 <==> clientX - r.left < r.width / 2.0
    ensures t.origin != Center
  {
    var x := clientX - r.left;
    var y := clientY - r.top;
    var centerX := r.width / 2.0;
    var centerY := r.height / 2.0;
    QuotientSign(y - centerY, centerY);
    QuotientSign(x - centerX, centerX);
    TiltStyle(((y - centerY) / centerY) * -MaxAngle,
              ((x - centerX) / centerX) * MaxAngle,
              QuadrantOrigin(x, y, r.width, r.height))
  }

  /** A pointer at the exact centre gives no rotation. */
  lemma CentreIsFlat(r: Rect)
    requires Proper(r)
    ensures var t := Tilt(r, r.left + r.width / 2.0, r.top + r.height / 2.0);
      t.rotateX == 0.0 && t.rotateY == 0.0 && t.origin == TopLeft
  {
  }

  /** A pointer at the top-left corner reaches the extreme tilt. */
  lemma TopLeftCorner(r: Rect)
    requires Proper(r)
    ensures Tilt(r, r.left, r.top) == TiltStyle(MaxAngle, -MaxAngle, BottomRight)
  {
    var t := Tilt(r, r.left, r.top);
    var centerX := r.width / 2.0;
    var centerY := r.height / 2.0;
    assert (0.0 - centerY) / centerY == -1.0;
    assert (0.0 - centerX) / centerX == -1.0;
  }

  /** A pointer inside the card never tilts it by more than the maximum angle. */
  lemma TiltBounded(r: Rect, clientX: real, clientY: real)
    requires Proper(r) && Inside(r, clientX, clientY)
    ensures var t := Tilt(r, clientX, clientY);
      -MaxAngle <= t.rotateX <= MaxAngle && -MaxAngle <= t.rotateY <= MaxAngle
  {
    var centerX := r.width / 2.0;
    var centerY := r.height / 2.0;
    SignedUnitQuotient(clientY - r.top - centerY, centerY);
    SignedUnitQuotient(clientX - r.left - centerX, centerX);
  }

  /** The card's state: the style object, empty (`{}`) until the first event. */
  class Card {
    var style: Option<TiltStyle>

    constructor ()
      ensures style == None
    {
      style := None;
    }

    /** The style the content is drawn with: the CSS fallbacks `0` and
        `center` apply while the style object is still empty. */
    function Rendered(): (t: TiltStyle)
      reads this
      ensures style == None ==> t == Neutral
      ensures style.Some? ==> t == style.value
    {
      if style.Some? then style.value else Neutral
    }

    /** A pointer move; `rect` is None when the element reference is unset,
        and then nothing changes. */
    method HandleMouseMove(rect: Option<Rect>, clientX: real, clientY: real)
      requires rect.Some? ==> Proper(rect.value)
      modifies this
      ensures rect == None ==> style == old(style)
      ensures rect.Some? ==> style == Some(Tilt(rect.value, clientX, clientY))
    {
      if rect == None {
        return;
      }
      var r := rect.value;
      var x := clientX - r.left;
      var y := clientY - r.top;
      var centerX := r.width / 2.0;
      var centerY := r.height / 2.0;
      var rotateX := ((y - centerY) / centerY) * -MaxAngle;
      var rotateY := ((x - centerX) / centerX) * MaxAngle;
      var transformOrigin := Center;
      if x < r.width / 2.0 && y < r.height / 2.0 {
        transformOrigin := BottomRight;
      } else if x > r.width / 2.0 && y < r.height / 2.0 {
        transformOrigin := BottomLeft;
      } else if x < r.width / 2.0 && y > r.height / 2.0 {
        transformOrigin := TopRight;
      } else {
        transformOrigin := TopLeft;
      }
      style := Some(TiltStyle(rotateX, rotateY, transformOrigin));
    }

    /** Leaving the card resets the style whatever it was. */
    method HandleMouseLeave()
      modifies this
      ensures style == Some(Neutral)
      ensures Rendered() == Neutral
    {
      style := Some(TiltStyle(0.0, 0.0, Center));
    }
  }
}
