/**
 * The colouring game: a picture is a list of areas; clicking a grey
 * (colourable) area paints it with the selected palette colour, recorded in
 * a map from area id to colour. The picture data itself is not part of this
 * model: operations that need the current picture take its areas as a
 * parameter.
 */
module Coloring {
  import opened Common

  /** An area of a picture: its id and its colour before painting. */
  datatype Area = Area(id: string, originalColor: string)

  /** The grey that marks an area as colourable. */
  const Colorable := "#E8E8E8"

  /** The ten palette colours, in display order. */
  const Palette: seq<string> := [
    "#FF6B6B", "#4ECDC4", "#45B7D1", "#96CEB4", "#FFEAA7",
    "#DDA0DD", "#FFB347", "#98D8C8", "#F7DC6F", "#BB8FCE"]

  /** The palette holds ten distinct, non-empty colours, none of them the colourable grey. */
  lemma PaletteWellFormed()
    ensures |Palette| == 10 && NoDup(Palette)
    ensures forall i :: 0 <= i < |Palette| ==> Palette[i] != "" && Palette[i] != Colorable
  {
  }

  /**
   * The colour an area is drawn with: its stored colour, falling back to the
   * original colour when none is stored or the stored one is the empty
   * string (JavaScript's `||`).
   */
  function AreaColor(colored: map<string, string>, a: Area): (c: string)
    ensures a.id in colored && colored[a.id] != "" ==> c == colored[a.id]
    ensures a.id !in colored || colored[a.id] == "" ==> c == a.originalColor
  {
    if a.id in colored && colored[a.id] != "" then colored[a.id] else a.originalColor
  }

  /** An area counts as coloured when its id has an entry in the map. */
  predicate IsAreaColored(colored: map<string, string>, a: Area) {
    a.id in colored
  }

  /** The colourable areas of a picture, in order: each colourable area as often as it occurs, and no other. */
  function ColorableAreas(areas: seq<Area>): (r: seq<Area>)
    ensures |r| <= |areas|
    ensures forall a :: a in r <==> a in areas && a.originalColor == Colorable
    ensures forall a :: multiset(r)[a] == if a.originalColor == Colorable then multiset(areas)[a] else 0
  {
    if areas == [] then []
    else
      assert areas == [areas[0]] + areas[1..];
      if areas[0].originalColor == Colorable then [areas[0]] + ColorableAreas(areas[1..])
      else ColorableAreas(areas[1..])
  }

  /** The positions of the coloured areas among `areas`. */
  function ColoredPositions(colored: map<string, string>, areas: seq<Area>): set<int> {
    set i | 0 <= i < |areas| && IsAreaColored(colored, areas[i])
  }

  /** How many of `areas` are coloured: the number of positions holding a coloured area. */
  function ColoredCount(colored: map<string, string>, areas: seq<Area>): (n: int)
    ensures n == |ColoredPositions(colored, areas)|
    ensures 0 <= n <= |areas|
    ensures (forall a :: a in areas ==> !IsAreaColored(colored, a)) ==> n == 0
    ensures (forall a :: a in areas ==> IsAreaColored(colored, a)) ==> n == |areas|
  {
    if areas == [] then 0
    else
      var init, last := areas[..|areas| - 1], areas[|areas| - 1];
      var count := ColoredCount(colored, init);
      assert forall a :: a in init ==> a in areas;
      var positions := ColoredPositions(colored, init);
      assert |areas| - 1 !in positions;
      if IsAreaColored(colored, last) then
        assert ColoredPositions(colored, areas) == positions + {|areas| - 1};
        count + 1
      else
        assert ColoredPositions(colored, areas) == positions;
        count
  }

  /**
   * The completion percentage, rounded to the nearest integer with halves
   * rounded up; `None` when the picture has no colourable area, where the
   * source divides zero by zero.
   */
  function CompletionPercentage(colored: map<string, string>, areas: seq<Area>): (p: Option<int>)
    ensures p.None? <==> forall a :: a in areas ==> a.originalColor != Colorable
    ensures p.Some? ==> 0 <= p.value <= 100
    ensures p.Some? ==>
      RoundsTo(ColoredCount(colored, ColorableAreas(areas)), |ColorableAreas(areas)|, p.value)
  {
    var colorable := ColorableAreas(areas);
    var t := |colorable|;
    if t == 0 then
      None
    else
      var c := ColoredCount(colored, colorable);
      RoundedPercent(c, t);
      Some((200 * c + t) / (2 * t))
  }

  /** `q` is `100 * c / t` rounded to the nearest integer, halves rounded up (`Math.round`). */
  predicate RoundsTo(c: int, t: int, q: int) {
    2 * t * q <= 200 * c + t < 2 * t * (q + 1)
  }

  /** `round(100 * c / t)` as an integer quotient: its bounds and its two ends. */
  lemma RoundedPercent(c: int, t: int)
    requires 0 <= c <= t && t > 0
    ensures 0 <= (200 * c + t) / (2 * t) <= 100
    ensures RoundsTo(c, t, (200 * c + t) / (2 * t))
    ensures c == 0 ==> (200 * c + t) / (2 * t) == 0
    ensures c == t ==> (200 * c + t) / (2 * t) == 100
  {
    var v := 200 * c + t;
    var d := 2 * t;
    var q := v / d;
    assert v == d * q + v % d && 0 <= v % d < d;
    if q > 100 {
      MulMono(101, q, d);
      assert false;
    }
    if q < 0 {
      MulMono(q, -1, d);
      assert false;
    }
    if c == 0 {
      if q >= 1 {
        MulMono(1, q, d);
      }
    }
    if c == t {
      assert v == d * 100 + t;
      if q <= 99 {
        MulMono(q, 99, d);
      }
    }
  }

  /** With nothing coloured the picture is 0% done; with every colourable area coloured it is 100% done. */
  lemma PercentageEnds(colored: map<string, string>, areas: seq<Area>)
    requires exists a :: a in areas && a.originalColor == Colorable
    ensures (forall a :: a in areas ==> !IsAreaColored(colored, a)) ==> CompletionPercentage(colored, areas) == Some(0)
    ensures (forall a :: a in areas && a.originalColor == Colorable ==> IsAreaColored(colored, a)) ==>
              CompletionPercentage(colored, areas) == Some(100)
  {
    var colorable := ColorableAreas(areas);
    var t := |colorable|;
    var c := ColoredCount(colored, colorable);
    RoundedPercent(c, t);
  }

  /** An empty colour map gives 0%, as after clearing or changing picture. */
  lemma ClearedIsZero(areas: seq<Area>)
    requires exists a :: a in areas && a.originalColor == Colorable
    ensures CompletionPercentage(map[], areas) == Some(0)
  {
    PercentageEnds(map[], areas);
  }

  /** The colouring component: its `useState` fields; `pictureCount` is the length of the picture list. */
  class ColoringGame {
    var selectedColor: string
    var currentPicture: nat
    var colored: map<string, string>
    var completedPictures: nat
    const pictureCount: nat

    /** The selected colour is a palette colour and the picture index is in range. */
    ghost predicate Valid()
      reads this
    {
      selectedColor in Palette && currentPicture < pictureCount
    }

    constructor(pictureCount: nat)
      requires pictureCount > 0
      ensures Valid()
      ensures this.pictureCount == pictureCount
      ensures selectedColor == Palette[0] && currentPicture == 0 && colored == map[] && completedPictures == 0
    {
      this.pictureCount := pictureCount;
      selectedColor := Palette[0];
      currentPicture := 0;
      colored := map[];
      completedPictures := 0;
    }

    /** A click on an area: only a colourable area records the selected colour, and only under its own id. */
    method ClickArea(a: Area)
      requires Valid()
      modifies this
      ensures Valid()
      ensures colored == if a.originalColor == Colorable then old(colored)[a.id := selectedColor] else old(colored)
      ensures selectedColor == old(selectedColor) && currentPicture == old(currentPicture)
      ensures completedPictures == old(completedPictures)
    {
      if a.originalColor == Colorable {
        colored := colored[a.id := selectedColor];
      }
    }

    /** A click on palette button `i`. */
    method SelectColor(i: int)
      requires Valid() && 0 <= i < |Palette|
      modifies this
      ensures Valid()
      ensures selectedColor == Palette[i]
      ensures colored == old(colored) && currentPicture == old(currentPicture)
      ensures completedPictures == old(completedPictures)
    {
      selectedColor := Palette[i];
    }

    /** "Clear All": forget every painted colour. */
    method ClearColors()
      requires Valid()
      modifies this
      ensures Valid()
      ensures colored == map[]
      ensures selectedColor == old(selectedColor) && currentPicture == old(currentPicture)
      ensures completedPictures == old(completedPictures)
    {
      colored := map[];
    }

    /**
     * "Next Picture" for a current picture with the given areas: it counts
     * as completed when more than half of it is coloured; the index moves on
     * cyclically, and the picture-change effect empties the colour map when
     * the index actually changed.
     */
    method NextPicture(areas: seq<Area>)
      requires Valid()
      modifies this
      ensures Valid()
      ensures var p := CompletionPercentage(old(colored), areas);
        completedPictures == old(completedPictures) + (if p.Some? && p.value > 50 then 1 else 0)
      ensures currentPicture == (old(currentPicture) + 1) % pictureCount
      ensures colored == if currentPicture != old(currentPicture) then map[] else old(colored)
      ensures selectedColor == old(selectedColor)
    {
      var p := CompletionPercentage(colored, areas);
      if p.Some? && p.value > 50 {
        completedPictures := completedPictures + 1;
      }
      var previous := currentPicture;
      currentPicture := (currentPicture + 1) % pictureCount;
      if currentPicture != previous {
        colored := map[];
      }
    }
  }

  /** After a colourable area is clicked it is coloured and drawn in the selected colour; other areas keep their colour. */
  lemma ClickShowsSelected(colored: map<string, string>, selected: string, a: Area, b: Area)
    requires selected in Palette && a.originalColor == Colorable
    ensures IsAreaColored(colored[a.id := selected], a)
    ensures AreaColor(colored[a.id := selected], a) == selected
    ensures b.id != a.id ==> AreaColor(colored[a.id := selected], b) == AreaColor(colored, b)
  {
    PaletteWellFormed();
  }
}
