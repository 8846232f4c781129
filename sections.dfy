/** The section visibility store of the portfolio: which named sections are
    currently shown. Any string is accepted as a section name, and nothing
    protects "home": hiding it removes it, and only `HideAll` puts it back. */
module Sections {

  /** The eight sections `ShowAll` displays, "home" among them. */
  const AllSections: set<string> :=
    {"home", "about", "overview", "timeline", "services", "projects", "testimonials", "contact"}

  /** The seven non-home sections in overlay order; the terminal's `home` and
      `showall` commands and the overlay z-order use this list. */
  const OverlaySections: seq<string> :=
    ["about", "overview", "timeline", "services", "projects", "testimonials", "contact"]

  lemma OverlaySectionsShape()
    ensures |OverlaySections| == 7
    ensures "home" !in OverlaySections
    ensures forall i, j :: 0 <= i < j < |OverlaySections| ==> OverlaySections[i] != OverlaySections[j]
    ensures AllSections == {"home"} + set s | s in OverlaySections
  {
  }

  class SectionStore {
    /** The currently visible section names. */
    var visible: set<string>

    /** By default only "home" is visible. */
    constructor ()
      ensures visible == {"home"}
    {
      visible := {"home"};
    }

    /** Adds `name`; every other name keeps its membership. */
    method Show(name: string)
      modifies this
      ensures visible == old(visible) + {name}
    {
      visible := visible + {name};
    }

    /** Removes `name`; every other name keeps its membership. "home" is not
        protected. */
    method Hide(name: string)
      modifies this
      ensures visible == old(visible) - {name}
    {
      visible := visible - {name};
    }

    /** Set membership; changes nothing. */
    predicate IsVisible(name: string)
      reads this
    {
      name in visible
    }

    /** Replaces the set by exactly the eight sections; earlier extra names are
        dropped. */
    method ShowAll()
      modifies this
      ensures visible == AllSections
    {
      var all := {};
      all := all + {"home"};
      all := all + {"about"};
      all := all + {"overview"};
      all := all + {"timeline"};
      all := all + {"services"};
      all := all + {"projects"};
      all := all + {"testimonials"};
      all := all + {"contact"};
      visible := all;
    }

    /** Replaces the set by exactly {"home"}, whatever it held. */
    method HideAll()
      modifies this
      ensures visible == {"home"}
    {
      visible := {"home"};
    }
  }

  /** Showing a name is idempotent and makes it visible; hiding it afterwards
      leaves it absent, and other names are as before the two calls. */
  method ShowThenHide(store: SectionStore, name: string, other: string)
    modifies store
    requires other != name
    ensures !store.IsVisible(name)
    ensures store.IsVisible(other) == old(store.IsVisible(other))
  {
    store.Show(name);
    store.Show(name);
    assert store.IsVisible(name);
    store.Hide(name);
  }

  /** Hiding "home" removes it: the store keeps no "home is visible"
      invariant. */
  method HideHomeRemovesIt(store: SectionStore)
    modifies store
    ensures !store.IsVisible("home")
    ensures forall s :: s != "home" ==> (store.IsVisible(s) <==> old(store.IsVisible(s)))
  {
    store.Hide("home");
  }
}
