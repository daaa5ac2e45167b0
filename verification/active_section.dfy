/** The portfolio page's scroll-driven section tracker (Portfolio.tsx).
    On every scroll tick the handler walks the fixed list of section ids
    in order; each section whose box straddles the viewport's horizontal
    midline overwrites the active section. There is no early exit, so the
    last qualifying section wins, and a tick where nothing qualifies keeps
    the previous value. The navigation bar highlights the item equal to
    the active section. */
module ActiveSection {

  /** The ids the scroll handler walks, in order. */
  const Sections: seq<string> := ["home", "about", "skills", "projects", "contact"]

  /** The ids the navigation bar renders, in order (a second literal in the source). */
  const NavItems: seq<string> := ["home", "about", "skills", "projects", "contact"]

  /** The vertical extent of a section's bounding rectangle in the viewport. */
  datatype SectionBox = SectionBox(top: real, bottom: real)

  /** The document as the handler sees it: the ids that have an element,
      each with its current bounding box. An id missing from the map has
      no element on the page. */
  type Layout = map<string, SectionBox>

  /** The midline test, inclusive at both ends: a box whose top or bottom
      edge lies exactly on the midline still straddles it. */
  predicate Straddles(b: SectionBox, windowHeight: real): (s: bool)
    ensures s ==> b.top <= b.bottom
    ensures b.top == windowHeight / 2.0 && b.top <= b.bottom ==> s
    ensures b.bottom == windowHeight / 2.0 && b.top <= b.bottom ==> s
  {
    b.top <= windowHeight / 2.0 && b.bottom >= windowHeight / 2.0
  }

  /** A section qualifies when its element exists and straddles the
      midline; an id with no element is skipped whatever the geometry. */
  predicate Qualifies(id: string, layout: Layout, windowHeight: real): (q: bool)
    ensures id !in layout ==> !q
    ensures q ==> layout[id].top <= windowHeight / 2.0 <= layout[id].bottom
  {
    id in layout && Straddles(layout[id], windowHeight)
  }

  /** The active section after visiting `ids` in order, starting from
      `current`: each qualifying id overwrites the value. */
  function Selected(ids: seq<string>, layout: Layout, windowHeight: real, current: string): (r: string)
    ensures r == current || r in ids
    ensures r != current ==> r in layout
  {
    if ids == [] then current
    else
      var before := Selected(ids[..|ids| - 1], layout, windowHeight, current);
      if Qualifies(ids[|ids| - 1], layout, windowHeight) then ids[|ids| - 1] else before
  }

  /** Some id of `ids` qualifies. */
  predicate AnyQualifies(ids: seq<string>, layout: Layout, windowHeight: real)
  {
    exists k :: 0 <= k < |ids| && Qualifies(ids[k], layout, windowHeight)
  }

  /** The result is the value held before the tick, or a qualifying id of
      the list; an id without an element never becomes active. */
  lemma {:induction false} SelectedOrigin(ids: seq<string>, layout: Layout, windowHeight: real, current: string)
    ensures var r := Selected(ids, layout, windowHeight, current);
      r == current || (r in ids && Qualifies(r, layout, windowHeight))
  {
    if ids != [] {
      SelectedOrigin(ids[..|ids| - 1], layout, windowHeight, current);
    }
  }

  /** With no qualifying section the tick keeps the active section. */
  lemma {:induction false} SelectedNoMatch(ids: seq<string>, layout: Layout, windowHeight: real, current: string)
    requires !AnyQualifies(ids, layout, windowHeight)
    ensures Selected(ids, layout, windowHeight, current) == current
  {
    if ids != [] {
      var init := ids[..|ids| - 1];
      assert !Qualifies(ids[|ids| - 1], layout, windowHeight);
      assert !AnyQualifies(init, layout, windowHeight) by {
        forall k | 0 <= k < |init|
          ensures !Qualifies(init[k], layout, windowHeight)
        {
          assert init[k] == ids[k];
        }
      }
      SelectedNoMatch(init, layout, windowHeight, current);
    }
  }

  /** When several sections qualify, the last qualifying one in list order wins. */
  lemma {:induction false} SelectedLastMatch(ids: seq<string>, layout: Layout, windowHeight: real, current: string, k: nat)
    requires k < |ids| && Qualifies(ids[k], layout, windowHeight)
    requires forall j :: k < j < |ids| ==> !Qualifies(ids[j], layout, windowHeight)
    ensures Selected(ids, layout, windowHeight, current) == ids[k]
  {
    if k < |ids| - 1 {
      var init := ids[..|ids| - 1];
      assert !Qualifies(ids[|ids| - 1], layout, windowHeight);
      assert init[k] == ids[k];
      forall j | k < j < |init|
        ensures !Qualifies(init[j], layout, windowHeight)
      {
        assert init[j] == ids[j];
      }
      SelectedLastMatch(init, layout, windowHeight, current, k);
    }
  }

  /** Once some section qualifies, the starting value no longer matters. */
  lemma {:induction false} SelectedIgnoresCurrent(ids: seq<string>, layout: Layout, windowHeight: real, c1: string, c2: string)
    requires AnyQualifies(ids, layout, windowHeight)
    ensures Selected(ids, layout, windowHeight, c1) == Selected(ids, layout, windowHeight, c2)
  {
    var init := ids[..|ids| - 1];
    if !Qualifies(ids[|ids| - 1], layout, windowHeight) {
      var k :| 0 <= k < |ids| && Qualifies(ids[k], layout, windowHeight);
      assert k < |init| && init[k] == ids[k];
      SelectedIgnoresCurrent(init, layout, windowHeight, c1, c2);
    }
  }

  /** Handling the same geometry twice gives the state of handling it once. */
  lemma {:induction false} SelectedIdempotent(ids: seq<string>, layout: Layout, windowHeight: real, current: string)
    ensures var once := Selected(ids, layout, windowHeight, current);
      Selected(ids, layout, windowHeight, once) == once
  {
    var once := Selected(ids, layout, windowHeight, current);
    if AnyQualifies(ids, layout, windowHeight) {
      SelectedIgnoresCurrent(ids, layout, windowHeight, once, current);
    } else {
      SelectedNoMatch(ids, layout, windowHeight, current);
      SelectedNoMatch(ids, layout, windowHeight, once);
    }
  }

  /** The navigation styling: which items are rendered in the accent colour. */
  function NavHighlights(activeSection: string): (r: seq<bool>)
    ensures |r| == |NavItems|
    ensures forall i :: 0 <= i < |r| ==> (r[i] <==> NavItems[i] == activeSection)
  {
    seq(|NavItems|, i requires 0 <= i < |NavItems| => NavItems[i] == activeSection)
  }

  /** The nav list is the tracked list, and for any tracked section exactly
      one item is highlighted. */
  lemma ExactlyOneNavItemActive(activeSection: string)
    requires activeSection in Sections
    ensures NavItems == Sections
    ensures exists i :: 0 <= i < |NavItems| && NavHighlights(activeSection)[i]
    ensures forall i, j :: 0 <= i < j < |NavItems| && NavHighlights(activeSection)[i] ==> !NavHighlights(activeSection)[j]
  {
    var r := NavHighlights(activeSection);
    var i :| 0 <= i < |Sections| && Sections[i] == activeSection;
    assert r[i];
  }

  /** A tick where only "about" straddles the midline activates it; a
      later tick where nothing straddles it keeps "about". */
  lemma ScrollKeepsLastKnown()
    ensures var layout1 := map["home" := SectionBox(-900.0, -100.0), "about" := SectionBox(-100.0, 700.0)];
      var layout2 := map["home" := SectionBox(500.0, 1300.0)];
      var first := Selected(Sections, layout1, 800.0, "home");
      first == "about" && Selected(Sections, layout2, 800.0, first) == "about"
  {
    var layout1 := map["home" := SectionBox(-900.0, -100.0), "about" := SectionBox(-100.0, 700.0)];
    var layout2 := map["home" := SectionBox(500.0, 1300.0)];
    SelectedLastMatch(Sections, layout1, 800.0, "home", 1);
    assert !AnyQualifies(Sections, layout2, 800.0);
    SelectedNoMatch(Sections, layout2, 800.0, "about");
  }

  /** The component's state: the active section id. */
  class Tracker {
    var activeSection: string

    /** The active section is always one of the tracked ids. */
    ghost predicate Valid()
      reads this
    {
      activeSection in Sections
    }

    /** Before any scroll event the active section is "home". */
    constructor ()
      ensures Valid()
      ensures activeSection == "home"
    {
      activeSection := "home";
    }

    /** The scroll handler: visit every tracked id in order and let each
        qualifying section overwrite the active one. */
    method HandleScroll(layout: Layout, windowHeight: real)
      requires Valid()
      modifies this
      ensures Valid()
      ensures activeSection == Selected(Sections, layout, windowHeight, old(activeSection))
    {
      var i := 0;
      while i < |Sections|
        invariant 0 <= i <= |Sections|
        invariant activeSection == Selected(Sections[..i], layout, windowHeight, old(activeSection))
      {
        var section := Sections[i];
        assert Sections[..i + 1][..i] == Sections[..i];
        if section in layout {
          var rect := layout[section];
          if rect.top <= windowHeight / 2.0 && rect.bottom >= windowHeight / 2.0 {
            activeSection := section;
          }
        }
        i := i + 1;
      }
      assert Sections[..i] == Sections;
      SelectedOrigin(Sections, layout, windowHeight, old(activeSection));
    }
  }
}
