/** A section shown as a popup over the terminal: its stacking order, whether
    it renders, the "N overlays open" badge, and the three ways to close it. */
module Overlay {
  import opened JsText
  import opened Sections

  /** `Array.prototype.indexOf` over names: the first position of `x`, or -1. */
  function PositionOf(xs: seq<string>, x: string): (r: int)
    ensures -1 <= r < |xs|
    ensures r == -1 <==> x !in xs
    ensures r >= 0 ==> xs[r] == x && x !in xs[..r]
  {
    if xs == [] then -1
    else if xs[0] == x then 0
    else
      var p := PositionOf(xs[1..], x);
      assert p >= 0 ==> xs[1..][..p] == xs[1..p + 1];
      if p == -1 then -1 else p + 1
  }

  const BaseZIndex: int := 100

  /** `getZIndex`: 100 plus the section's place in overlay order; any other
      name gets 100, the same as "about". */
  function ZIndex(name: string): (z: int)
    ensures BaseZIndex <= z < BaseZIndex + |OverlaySections|
    ensures name in OverlaySections ==> OverlaySections[z - BaseZIndex] == name
    ensures name !in OverlaySections ==> z == BaseZIndex
  {
    var index := PositionOf(OverlaySections, name);
    BaseZIndex + (if index >= 0 then index else 0)
  }

  /** The panel's diagonal shift in pixels, `(zIndex - 50) * 10`. */
  function Shift(name: string): (px: int)
    ensures 500 <= px <= 560 && px % 10 == 0
  {
    var z := ZIndex(name);
    TenfoldIsMultiple(z - 50);
    (z - 50) * 10
  }

  /** Ten times any whole number is a multiple of ten. */
  lemma TenfoldIsMultiple(k: int)
    ensures (k * 10) % 10 == 0
  {
  }

  /** Two different overlay sections never share a stacking level or a shift. */
  lemma StackingDistinct(a: string, b: string)
    requires a in OverlaySections && b in OverlaySections && a != b
    ensures ZIndex(a) != ZIndex(b)
    ensures Shift(a) != Shift(b)
  {
    PositionsDistinct(OverlaySections, a, b);
  }

  /** Two different members of a list sit at different first positions. */
  lemma PositionsDistinct(xs: seq<string>, a: string, b: string)
    requires a in xs && b in xs && a != b
    ensures PositionOf(xs, a) != PositionOf(xs, b)
  {
  }

  /** Later sections in overlay order stack above earlier ones. */
  lemma StackingFollowsOrder(i: nat, j: nat)
    requires i < j < |OverlaySections|
    ensures ZIndex(OverlaySections[i]) < ZIndex(OverlaySections[j])
  {
    OverlaySectionsShape();
  }

  /** The overlay renders only in terminal mode and while its section is
      visible. The mode is `None` when the context supplies none. */
  predicate Renders(mode: Option<string>, visible: set<string>, name: string) {
    mode == Some("terminal") && name in visible
  }

  /** How many of `xs` are visible, counting positions (the `filter(...).length`). */
  function VisibleCount(xs: seq<string>, visible: set<string>): (n: nat)
    ensures n <= |xs|
  {
    if xs == [] then 0
    else VisibleCount(xs[..|xs| - 1], visible) + (if xs[|xs| - 1] in visible then 1 else 0)
  }

  /** Some position of `xs` is visible. */
  predicate AnyVisible(xs: seq<string>, visible: set<string>) {
    exists i :: 0 <= i < |xs| && xs[i] in visible
  }

  /** Two different positions of `xs` are visible. */
  predicate TwoVisible(xs: seq<string>, visible: set<string>) {
    exists i, j :: 0 <= i < j < |xs| && xs[i] in visible && xs[j] in visible
  }

  lemma {:induction false} VisibleCountMeaning(xs: seq<string>, visible: set<string>)
    ensures VisibleCount(xs, visible) > 0 <==> AnyVisible(xs, visible)
    ensures VisibleCount(xs, visible) > 1 <==> TwoVisible(xs, visible)
  {
    if xs != [] {
      var front := xs[..|xs| - 1];
      var last := |xs| - 1;
      VisibleCountMeaning(front, visible);
      if AnyVisible(front, visible) {
        var i :| 0 <= i < |front| && front[i] in visible;
        assert xs[i] == front[i];
      }
      if TwoVisible(front, visible) {
        var i, j :| 0 <= i < j < |front| && front[i] in visible && front[j] in visible;
        assert xs[i] == front[i] && xs[j] == front[j];
      }
      if AnyVisible(xs, visible) && xs[last] !in visible {
        var i :| 0 <= i < |xs| && xs[i] in visible;
        assert front[i] == xs[i];
      }
      if TwoVisible(xs, visible) {
        var i, j :| 0 <= i < j < |xs| && xs[i] in visible && xs[j] in visible;
        assert front[i] == xs[i];
        if j < last {
          assert front[j] == xs[j];
        }
      }
      if xs[last] in visible && AnyVisible(front, visible) {
        var i :| 0 <= i < |front| && front[i] in visible;
        assert xs[i] == front[i];
        assert TwoVisible(xs, visible);
      }
    }
  }

  /** The badge's count, over the seven overlay sections. */
  function OpenOverlays(visible: set<string>): (n: nat)
    ensures n <= 7
  {
    OverlaySectionsShape();
    VisibleCount(OverlaySections, visible)
  }

  /** The badge shows while more than one overlay is open. */
  predicate ShowsBadge(visible: set<string>) {
    OpenOverlays(visible) > 1
  }

  function BadgeText(visible: set<string>): string {
    NatToString(OpenOverlays(visible)) + " overlays open"
  }

  /** A rendered overlay section counts itself; its badge shows exactly when
      another overlay section is open too. "home" never counts. */
  lemma BadgeMeansAnotherOverlay(visible: set<string>, k: nat)
    requires k < |OverlaySections| && OverlaySections[k] in visible
    ensures OpenOverlays(visible) >= 1
    ensures ShowsBadge(visible) <==>
      exists j :: 0 <= j < |OverlaySections| && j != k && OverlaySections[j] in visible
    ensures OpenOverlays(visible + {"home"}) == OpenOverlays(visible - {"home"})
  {
    VisibleCountMeaning(OverlaySections, visible);
    if exists j :: 0 <= j < |OverlaySections| && j != k && OverlaySections[j] in visible {
      var j :| 0 <= j < |OverlaySections| && j != k && OverlaySections[j] in visible;
      if j < k {
        assert TwoVisible(OverlaySections, visible);
      } else {
        assert TwoVisible(OverlaySections, visible);
      }
    }
    if TwoVisible(OverlaySections, visible) {
      var i, j :| 0 <= i < j < |OverlaySections| && OverlaySections[i] in visible && OverlaySections[j] in visible;
      if i == k {
        assert OverlaySections[j] in visible && j != k;
      } else {
        assert OverlaySections[i] in visible && i != k;
      }
    }
    OverlaySectionsShape();
    HomeNeverCounts(OverlaySections, visible);
  }

  lemma {:induction false} HomeNeverCounts(xs: seq<string>, visible: set<string>)
    requires "home" !in xs
    ensures VisibleCount(xs, visible + {"home"}) == VisibleCount(xs, visible - {"home"})
  {
    if xs != [] {
      assert xs[..|xs| - 1] <= xs;
      assert "home" !in xs[..|xs| - 1];
      HomeNeverCounts(xs[..|xs| - 1], visible);
    }
  }

  /** One mounted overlay: its section name and the navigation mode it sees. */
  class SectionOverlay {
    const store: SectionStore
    const name: string
    const mode: Option<string>

    constructor (store: SectionStore, name: string, mode: Option<string>)
      ensures this.store == store && this.name == name && this.mode == mode
    {
      this.store := store;
      this.name := name;
      this.mode := mode;
    }

    /** The close button: hides this section, nothing else. */
    method Close()
      modifies store
      ensures store.visible == old(store.visible) - {name}
    {
      store.Hide(name);
    }

    /** A click on the backdrop closes; a click inside the panel does not. */
    method BackdropClick(targetIsBackdrop: bool)
      modifies store
      ensures store.visible == if targetIsBackdrop then old(store.visible) - {name} else old(store.visible)
    {
      if targetIsBackdrop {
        Close();
      }
    }

    /** A key press anywhere on the page: the Escape listener exists only
        while the overlay renders, and reacts only to "Escape". */
    method DocumentKeyDown(key: string)
      modifies store
      ensures store.visible ==
        if Renders(mode, old(store.visible), name) && key == "Escape"
        then old(store.visible) - {name}
        else old(store.visible)
    {
      var listening := mode == Some("terminal") && store.IsVisible(name);
      if listening && key == "Escape" {
        Close();
      }
    }
  }

  /** Closing an overlay by any route leaves it not rendering, and two
      Escape presses do no more than one. */
  method EscapeTwice(overlay: SectionOverlay)
    modifies overlay.store
    ensures !Renders(overlay.mode, overlay.store.visible, overlay.name)
    ensures overlay.store.visible == old(overlay.store.visible) - {overlay.name} || overlay.store.visible == old(overlay.store.visible)
  {
    overlay.DocumentKeyDown("Escape");
    overlay.DocumentKeyDown("Escape");
  }
}
