/**
 * Connect-the-dots: the player clicks numbered dots in ascending order.  Only
 * the dot numbered `next` is accepted; it is appended to the connected list,
 * and the picture is complete when the largest number is reached.  The
 * connected dots are drawn as one SVG path of move/line commands.
 */
module DotToDot {
  import opened Common

  datatype Dot = Dot(id: int, x: int, y: int, number: int)

  datatype Picture = Picture(name: string, dots: seq<Dot>)

  /** One command of an SVG path: `M x y` or `L x y`. */
  datatype PathCmd = MoveTo(x: int, y: int) | LineTo(x: int, y: int)

  /** The fourteen pictures, in the order "Next Picture" visits them. */
  const Pictures: seq<Picture> := [
    HappyStar, CuteHouse, FriendlyFish, RacingCar,
    SmilingSun, CuteCat, RocketShip, HappyButterfly,
    SweetHeart, JuicyApple, FlyingAirplane, ColorfulUmbrella,
    RoyalCrown, SimpleFlower
  ]

  const HappyStar := Picture("Happy Star", [
    Dot(1, 200, 50, 1), Dot(2, 220, 120, 2), Dot(3, 290, 120, 3), Dot(4, 240, 170, 4),
    Dot(5, 260, 240, 5), Dot(6, 200, 200, 6), Dot(7, 140, 240, 7), Dot(8, 160, 170, 8),
    Dot(9, 110, 120, 9), Dot(10, 180, 120, 10)
  ])

  const CuteHouse := Picture("Cute House", [
    Dot(1, 200, 80, 1), Dot(2, 120, 160, 2), Dot(3, 120, 320, 3), Dot(4, 280, 320, 4),
    Dot(5, 280, 160, 5), Dot(6, 200, 80, 6), Dot(7, 160, 200, 7), Dot(8, 160, 260, 8),
    Dot(9, 200, 260, 9), Dot(10, 200, 200, 10)
  ])

  const FriendlyFish := Picture("Friendly Fish", [
    Dot(1, 80, 150, 1), Dot(2, 120, 120, 2), Dot(3, 200, 100, 3), Dot(4, 280, 120, 4),
    Dot(5, 320, 150, 5), Dot(6, 280, 180, 6), Dot(7, 200, 200, 7), Dot(8, 120, 180, 8),
    Dot(9, 80, 150, 9), Dot(10, 50, 130, 10), Dot(11, 30, 150, 11), Dot(12, 50, 170, 12)
  ])

  const RacingCar := Picture("Racing Car", [
    Dot(1, 100, 180, 1), Dot(2, 120, 160, 2), Dot(3, 180, 140, 3), Dot(4, 250, 140, 4),
    Dot(5, 320, 160, 5), Dot(6, 340, 180, 6), Dot(7, 340, 220, 7), Dot(8, 300, 240, 8),
    Dot(9, 280, 260, 9), Dot(10, 160, 260, 10), Dot(11, 140, 240, 11), Dot(12, 100, 220, 12),
    Dot(13, 100, 180, 13), Dot(14, 130, 200, 14), Dot(15, 310, 200, 15)
  ])

  const SmilingSun := Picture("Smiling Sun", [
    Dot(1, 200, 80, 1), Dot(2, 280, 120, 2), Dot(3, 320, 200, 3), Dot(4, 280, 280, 4),
    Dot(5, 200, 320, 5), Dot(6, 120, 280, 6), Dot(7, 80, 200, 7), Dot(8, 120, 120, 8),
    Dot(9, 200, 80, 9), Dot(10, 170, 170, 10), Dot(11, 230, 170, 11), Dot(12, 170, 230, 12),
    Dot(13, 200, 250, 13), Dot(14, 230, 230, 14)
  ])

  const CuteCat := Picture("Cute Cat", [
    Dot(1, 150, 100, 1), Dot(2, 120, 80, 2), Dot(3, 140, 60, 3), Dot(4, 200, 50, 4),
    Dot(5, 260, 60, 5), Dot(6, 280, 80, 6), Dot(7, 250, 100, 7), Dot(8, 280, 140, 8),
    Dot(9, 300, 200, 9), Dot(10, 280, 260, 10), Dot(11, 200, 280, 11), Dot(12, 120, 260, 12),
    Dot(13, 100, 200, 13), Dot(14, 120, 140, 14), Dot(15, 150, 100, 15), Dot(16, 170, 120, 16),
    Dot(17, 230, 120, 17)
  ])

  const RocketShip := Picture("Rocket Ship", [
    Dot(1, 200, 50, 1), Dot(2, 220, 80, 2), Dot(3, 240, 120, 3), Dot(4, 250, 180, 4),
    Dot(5, 250, 250, 5), Dot(6, 240, 320, 6), Dot(7, 220, 360, 7), Dot(8, 280, 380, 8),
    Dot(9, 300, 420, 9), Dot(10, 280, 450, 10), Dot(11, 220, 430, 11), Dot(12, 180, 430, 12),
    Dot(13, 120, 450, 13), Dot(14, 100, 420, 14), Dot(15, 120, 380, 15), Dot(16, 180, 360, 16),
    Dot(17, 160, 320, 17), Dot(18, 150, 250, 18), Dot(19, 150, 180, 19), Dot(20, 160, 120, 20),
    Dot(21, 180, 80, 21), Dot(22, 200, 50, 22)
  ])

  const HappyButterfly := Picture("Happy Butterfly", [
    Dot(1, 250, 100, 1), Dot(2, 230, 120, 2), Dot(3, 180, 100, 3), Dot(4, 120, 120, 4),
    Dot(5, 80, 160, 5), Dot(6, 100, 200, 6), Dot(7, 150, 220, 7), Dot(8, 200, 200, 8),
    Dot(9, 220, 240, 9), Dot(10, 240, 280, 10), Dot(11, 250, 320, 11), Dot(12, 260, 280, 12),
    Dot(13, 280, 240, 13), Dot(14, 300, 200, 14), Dot(15, 350, 220, 15), Dot(16, 400, 200, 16),
    Dot(17, 420, 160, 17), Dot(18, 380, 120, 18), Dot(19, 320, 100, 19), Dot(20, 270, 120, 20),
    Dot(21, 250, 100, 21), Dot(22, 250, 160, 22), Dot(23, 250, 160, 23)
  ])

  const SweetHeart := Picture("Sweet Heart", [
    Dot(1, 200, 100, 1), Dot(2, 170, 80, 2), Dot(3, 140, 90, 3), Dot(4, 120, 120, 4),
    Dot(5, 130, 150, 5), Dot(6, 160, 180, 6), Dot(7, 200, 220, 7), Dot(8, 240, 180, 8),
    Dot(9, 270, 150, 9), Dot(10, 280, 120, 10), Dot(11, 260, 90, 11), Dot(12, 230, 80, 12),
    Dot(13, 200, 100, 13)
  ])

  const JuicyApple := Picture("Juicy Apple", [
    Dot(1, 175, 120, 1), Dot(2, 140, 140, 2), Dot(3, 120, 180, 3), Dot(4, 110, 220, 4),
    Dot(5, 120, 260, 5), Dot(6, 140, 290, 6), Dot(7, 175, 310, 7), Dot(8, 210, 290, 8),
    Dot(9, 230, 260, 9), Dot(10, 240, 220, 10), Dot(11, 230, 180, 11), Dot(12, 210, 140, 12),
    Dot(13, 175, 120, 13), Dot(14, 185, 100, 14), Dot(15, 195, 80, 15)
  ])

  const FlyingAirplane := Picture("Flying Airplane", [
    Dot(1, 100, 150, 1), Dot(2, 150, 140, 2), Dot(3, 200, 130, 3), Dot(4, 250, 120, 4),
    Dot(5, 300, 110, 5), Dot(6, 350, 120, 6), Dot(7, 380, 140, 7), Dot(8, 370, 160, 8),
    Dot(9, 340, 170, 9), Dot(10, 290, 180, 10), Dot(11, 240, 190, 11), Dot(12, 190, 200, 12),
    Dot(13, 140, 190, 13), Dot(14, 100, 180, 14), Dot(15, 80, 160, 15), Dot(16, 100, 150, 16),
    Dot(17, 120, 120, 17), Dot(18, 160, 110, 18), Dot(19, 200, 120, 19)
  ])

  const ColorfulUmbrella := Picture("Colorful Umbrella", [
    Dot(1, 200, 80, 1), Dot(2, 150, 100, 2), Dot(3, 120, 130, 3), Dot(4, 110, 160, 4),
    Dot(5, 130, 180, 5), Dot(6, 170, 190, 6), Dot(7, 200, 195, 7), Dot(8, 230, 190, 8),
    Dot(9, 270, 180, 9), Dot(10, 290, 160, 10), Dot(11, 280, 130, 11), Dot(12, 250, 100, 12),
    Dot(13, 200, 80, 13), Dot(14, 200, 195, 14), Dot(15, 200, 280, 15)
  ])

  const RoyalCrown := Picture("Royal Crown", [
    Dot(1, 100, 200, 1), Dot(2, 120, 160, 2), Dot(3, 150, 140, 3), Dot(4, 180, 120, 4),
    Dot(5, 200, 100, 5), Dot(6, 220, 120, 6), Dot(7, 250, 140, 7), Dot(8, 280, 160, 8),
    Dot(9, 300, 200, 9), Dot(10, 280, 220, 10), Dot(11, 250, 230, 11), Dot(12, 200, 240, 12),
    Dot(13, 150, 230, 13), Dot(14, 120, 220, 14), Dot(15, 100, 200, 15)
  ])

  const SimpleFlower := Picture("Simple Flower", [
    Dot(1, 175, 120, 1), Dot(2, 200, 100, 2), Dot(3, 220, 120, 3), Dot(4, 200, 140, 4),
    Dot(5, 220, 160, 5), Dot(6, 200, 180, 6), Dot(7, 175, 160, 7), Dot(8, 150, 180, 8),
    Dot(9, 130, 160, 9), Dot(10, 150, 140, 10), Dot(11, 130, 120, 11), Dot(12, 150, 100, 12),
    Dot(13, 175, 120, 13), Dot(14, 175, 180, 14), Dot(15, 175, 280, 15)
  ])

  /** The dots are numbered 1, 2, ..., n in table order, and each id equals its number. */
  predicate NumberedInOrder(dots: seq<Dot>) {
    forall k :: 0 <= k < |dots| ==> dots[k].number == k + 1 && dots[k].id == k + 1
  }

  /** Every picture of the table is numbered 1..n in order, with at least ten dots. */
  lemma PicturesNumberedInOrder()
    ensures |Pictures| == 14
    ensures forall i :: 0 <= i < |Pictures| ==> |Pictures[i].dots| >= 10 && NumberedInOrder(Pictures[i].dots)
  {
    forall i | 0 <= i < |Pictures| ensures |Pictures[i].dots| >= 10 && NumberedInOrder(Pictures[i].dots) {
      if i == 0 {
        HappyStarNumbered();
        assert Pictures[0] == HappyStar;
      } else if i == 1 {
        CuteHouseNumbered();
        assert Pictures[1] == CuteHouse;
      } else if i == 2 {
        FriendlyFishNumbered();
        assert Pictures[2] == FriendlyFish;
      } else if i == 3 {
        RacingCarNumbered();
        assert Pictures[3] == RacingCar;
      } else if i == 4 {
        SmilingSunNumbered();
        assert Pictures[4] == SmilingSun;
      } else if i == 5 {
        CuteCatNumbered();
        assert Pictures[5] == CuteCat;
      } else if i == 6 {
        RocketShipNumbered();
        assert Pictures[6] == RocketShip;
      } else if i == 7 {
        HappyButterflyNumbered();
        assert Pictures[7] == HappyButterfly;
      } else if i == 8 {
        SweetHeartNumbered();
        assert Pictures[8] == SweetHeart;
      } else if i == 9 {
        JuicyAppleNumbered();
        assert Pictures[9] == JuicyApple;
      } else if i == 10 {
        FlyingAirplaneNumbered();
        assert Pictures[10] == FlyingAirplane;
      } else if i == 11 {
        ColorfulUmbrellaNumbered();
        assert Pictures[11] == ColorfulUmbrella;
      } else if i == 12 {
        RoyalCrownNumbered();
        assert Pictures[12] == RoyalCrown;
      } else {
        SimpleFlowerNumbered();
        assert Pictures[13] == SimpleFlower;
      }
    }
  }

  /** `getMaxDotNumber`: the largest number among `dots`. */
  function MaxNumber(dots: seq<Dot>): (m: int)
    requires |dots| > 0
    ensures forall k :: 0 <= k < |dots| ==> dots[k].number <= m
    ensures exists k :: 0 <= k < |dots| && dots[k].number == m
  {
    if |dots| == 1 then
      assert dots[0].number == dots[0].number;
      dots[0].number
    else
      var rest := MaxNumber(dots[1..]);
      assert forall k :: 1 <= k < |dots| ==> dots[k] == dots[1..][k - 1];
      if dots[0].number >= rest then dots[0].number else rest
  }

  /** For a picture numbered 1..n the largest number is n, the dot count. */
  lemma MaxOfNumberedInOrder(dots: seq<Dot>)
    requires |dots| > 0 && NumberedInOrder(dots)
    ensures MaxNumber(dots) == |dots|
  {
    var m := MaxNumber(dots);
    assert dots[|dots| - 1].number == |dots|;
  }

  /** `getDotById`: the first dot, in table order, that carries `number` (despite the name). */
  function GetDotByNumber(dots: seq<Dot>, number: int): (r: Option<Dot>)
    ensures r.None? <==> forall k :: 0 <= k < |dots| ==> dots[k].number != number
    ensures r.Some? ==> exists k :: 0 <= k < |dots| && dots[k] == r.value && r.value.number == number
                          && forall j :: 0 <= j < k ==> dots[j].number != number
  {
    if |dots| == 0 then None
    else if dots[0].number == number then Some(dots[0])
    else
      assert forall k :: 1 <= k < |dots| ==> dots[k] == dots[1..][k - 1];
      GetDotByNumber(dots[1..], number)
  }

  /** In a picture numbered 1..n, number `k` finds the k-th dot of the table. */
  lemma GetDotInNumberedPicture(dots: seq<Dot>, number: int)
    requires NumberedInOrder(dots) && 1 <= number <= |dots|
    ensures GetDotByNumber(dots, number) == Some(dots[number - 1])
  {
  }

  const ConnectedClass := "dot connected"
  const NextClass := "dot next current-target"
  const PlainClass := "dot"

  /** `getDotClass`: connected wins over being the next target, which wins over plain. */
  function DotClass(connected: seq<int>, next: int, number: int): (c: string)
    ensures c == ConnectedClass <==> number in connected
    ensures c == NextClass <==> number !in connected && number == next
    ensures c == PlainClass <==> number !in connected && number != next
  {
    if number in connected then ConnectedClass
    else if number == next then NextClass
    else PlainClass
  }

  predicate SortedById(s: seq<Dot>) {
    forall i, j :: 0 <= i < j < |s| ==> s[i].id <= s[j].id
  }

  /** Insert `d` before the first dot whose id is not smaller than its own. */
  function InsertById(d: Dot, s: seq<Dot>): (r: seq<Dot>)
    ensures multiset(r) == multiset(s) + multiset{d}
  {
    if s == [] then [d]
    else if d.id <= s[0].id then [d] + s
    else
      assert s == [s[0]] + s[1..];
      [s[0]] + InsertById(d, s[1..])
  }

  /** Inserting into an id-ordered list keeps it id-ordered, and puts the smaller of the two leading ids first. */
  lemma {:induction false} InsertKeepsOrder(d: Dot, s: seq<Dot>)
    requires SortedById(s)
    ensures |InsertById(d, s)| == |s| + 1
    ensures InsertById(d, s)[0].id == (if s == [] || d.id <= s[0].id then d.id else s[0].id)
    ensures SortedById(InsertById(d, s))
  {
    if s != [] && d.id > s[0].id {
      var tail := s[1..];
      assert SortedById(tail) by {
        forall i, j | 0 <= i < j < |tail| ensures tail[i].id <= tail[j].id {
          assert tail[i] == s[i + 1] && tail[j] == s[j + 1];
        }
      }
      InsertKeepsOrder(d, tail);
      var rest := InsertById(d, tail);
      if tail != [] {
        assert tail[0] == s[1];
      }
      assert s[0].id <= rest[0].id;
      var r := [s[0]] + rest;
      assert r == InsertById(d, s);
      forall i, j | 0 <= i < j < |r| ensures r[i].id <= r[j].id {
        assert r[j] == rest[j - 1];
        if i > 0 {
          assert r[i] == rest[i - 1];
        } else {
          assert rest[0].id <= rest[j - 1].id;
        }
      }
    }
  }

  /**
   * `getSortedDotsForRendering`: a copy of the dots in ascending id order
   * (later in the list is drawn on top); dots with equal ids keep their order.
   */
  function SortById(dots: seq<Dot>): (r: seq<Dot>)
    ensures SortedById(r)
    ensures multiset(r) == multiset(dots)
    ensures |r| == |dots|
  {
    if dots == [] then []
    else
      assert dots == [dots[0]] + dots[1..];
      var sorted := SortById(dots[1..]);
      InsertKeepsOrder(dots[0], sorted);
      InsertById(dots[0], sorted)
  }

  /** The command for the `i`-th connected dot: `M` for index 0, `L` after; an unknown number gives none. */
  function Stroke(dots: seq<Dot>, connected: seq<int>, i: nat): seq<PathCmd>
    requires i < |connected|
  {
    match GetDotByNumber(dots, connected[i])
    case None => []
    case Some(d) => [if i == 0 then MoveTo(d.x, d.y) else LineTo(d.x, d.y)]
  }

  /** The commands for the first `n` connected dots. */
  function Strokes(dots: seq<Dot>, connected: seq<int>, n: nat): seq<PathCmd>
    requires n <= |connected|
  {
    if n == 0 then [] else Strokes(dots, connected, n - 1) + Stroke(dots, connected, n - 1)
  }

  /** The closing stroke back to the first connected dot, drawn once complete with more than two dots. */
  function Closing(dots: seq<Dot>, connected: seq<int>, complete: bool): seq<PathCmd> {
    if complete && |connected| > 2 then
      match GetDotByNumber(dots, connected[0])
      case None => []
      case Some(d) => [LineTo(d.x, d.y)]
    else []
  }

  /** `getPathData` as a list of commands: nothing for fewer than two connected dots. */
  function PathCommands(dots: seq<Dot>, connected: seq<int>, complete: bool): seq<PathCmd> {
    if |connected| < 2 then []
    else Strokes(dots, connected, |connected|) + Closing(dots, connected, complete)
  }

  /** Every connected number names a dot of the picture. */
  predicate AllKnown(dots: seq<Dot>, connected: seq<int>) {
    forall i :: 0 <= i < |connected| ==> GetDotByNumber(dots, connected[i]).Some?
  }

  function At(dots: seq<Dot>, number: int): Dot
    requires GetDotByNumber(dots, number).Some?
  {
    GetDotByNumber(dots, number).value
  }

  lemma {:induction false} StrokesShape(dots: seq<Dot>, connected: seq<int>, n: nat)
    requires n <= |connected| && AllKnown(dots, connected)
    ensures |Strokes(dots, connected, n)| == n
    ensures n > 0 ==> Strokes(dots, connected, n)[0] == MoveTo(At(dots, connected[0]).x, At(dots, connected[0]).y)
    ensures forall i :: 1 <= i < n ==>
              Strokes(dots, connected, n)[i] == LineTo(At(dots, connected[i]).x, At(dots, connected[i]).y)
  {
    if n > 0 {
      StrokesShape(dots, connected, n - 1);
      assert GetDotByNumber(dots, connected[n - 1]).Some?;
    }
  }

  /**
   * With every connected number known: one `M` to the first dot, one `L` per
   * further dot, and one closing `L` back to the first dot exactly when
   * complete with more than two dots; fewer than two dots give no path.
   */
  lemma PathShape(dots: seq<Dot>, connected: seq<int>, complete: bool)
    requires AllKnown(dots, connected)
    ensures var cmds := PathCommands(dots, connected, complete);
            var n := |connected|;
            && (n < 2 ==> cmds == [])
            && (n >= 2 ==>
                 && |cmds| == n + (if complete && n > 2 then 1 else 0)
                 && cmds[0] == MoveTo(At(dots, connected[0]).x, At(dots, connected[0]).y)
                 && (forall i :: 1 <= i < n ==> cmds[i] == LineTo(At(dots, connected[i]).x, At(dots, connected[i]).y))
                 && (complete && n > 2 ==> cmds[n] == LineTo(At(dots, connected[0]).x, At(dots, connected[0]).y)))
  {
    if |connected| >= 2 {
      StrokesShape(dots, connected, |connected|);
      assert GetDotByNumber(dots, connected[0]).Some?;
    }
  }

  /** The table can be played, and its first picture ends at dot 10. */
  lemma PicturesPlayable()
    ensures Playable(Pictures) && MaxNumber(Pictures[0].dots) == 10
  {
    PicturesNumberedInOrder();
    MaxOfNumberedInOrder(Pictures[0].dots);
  }

  /** `[from, from + 1, ..., from + len - 1]`. */
  function Run(from: int, len: nat): (r: seq<int>)
    ensures |r| == len && forall k :: 0 <= k < len ==> r[k] == from + k
  {
    seq(len, k => from + k)
  }

  /** A non-empty table whose pictures are non-empty and numbered 1..n in order, as every picture of `Pictures` is. */
  predicate Playable(pictures: seq<Picture>) {
    |pictures| > 0 && forall i :: 0 <= i < |pictures| ==> |pictures[i].dots| > 0 && NumberedInOrder(pictures[i].dots)
  }

  /** The dot-to-dot component's state. */
  class DotToDotGame {
    const pictures: seq<Picture>
    var currentPicture: nat
    var connected: seq<int>
    var next: int
    var complete: bool
    var completedPictures: int
    /** The value `next` had when `connected` was last emptied. */
    ghost var origin: int

    /**
     * The connected list is `origin, origin + 1, ...` up to `next`, followed,
     * once complete, by repeats of `next`, which then is the largest number;
     * every number in it is a number of the picture.
     */
    ghost predicate Valid()
      reads this
    {
      && Playable(pictures)
      && currentPicture < |pictures|
      && 1 <= origin <= next <= MaxNumber(pictures[currentPicture].dots)
      && (forall k :: 0 <= k < |connected| ==> connected[k] == Min(origin + k, next))
      && (if complete then |connected| > next - origin && next == MaxNumber(pictures[currentPicture].dots)
          else |connected| == next - origin)
    }

    function Dots(): seq<Dot>
      reads this
      requires Valid()
    {
      pictures[currentPicture].dots
    }

    /** The state after the first render's effect: first picture, nothing connected, dot 1 next. */
    constructor (pictures: seq<Picture>)
      requires Playable(pictures)
      ensures Valid() && this.pictures == pictures
      ensures currentPicture == 0 && connected == [] && next == 1 && !complete && completedPictures == 0
      ensures origin == 1
    {
      MaxOfNumberedInOrder(pictures[0].dots);
      this.pictures := pictures;
      currentPicture := 0;
      connected := [];
      next := 1;
      complete := false;
      completedPictures := 0;
      origin := 1;
    }

    /**
     * `handleDotClick`: only the dot numbered `next` is accepted.  It is
     * appended; reaching the largest number completes the picture and counts
     * it, otherwise `next` moves on by one.  Nothing checks `complete`.
     */
    method DotClick(number: int)
      requires Valid()
      modifies this
      ensures Valid()
      ensures number != old(next) ==>
                connected == old(connected) && next == old(next) && complete == old(complete)
                && completedPictures == old(completedPictures)
      ensures number == old(next) ==> connected == old(connected) + [number]
      ensures number == old(next) && number == MaxNumber(Dots()) ==>
                complete && completedPictures == old(completedPictures) + 1 && next == old(next)
      ensures number == old(next) && number != MaxNumber(Dots()) ==>
                next == old(next) + 1 && complete == old(complete) && completedPictures == old(completedPictures)
      ensures currentPicture == old(currentPicture) && origin == old(origin)
    {
      if number == next {
        connected := connected + [number];
        if number == MaxNumber(pictures[currentPicture].dots) {
          complete := true;
          completedPictures := completedPictures + 1;
        } else {
          next := next + 1;
        }
      }
    }

    /** `resetPicture`: nothing connected, not complete, and the next dot is the largest number. */
    method ResetPicture()
      requires Valid()
      modifies this
      ensures Valid()
      ensures connected == [] && !complete && next == MaxNumber(Dots())
      ensures currentPicture == old(currentPicture) && completedPictures == old(completedPictures)
    {
      connected := [];
      next := MaxNumber(pictures[currentPicture].dots);
      complete := false;
      origin := next;
    }

    /**
     * `nextPicture` and the effect it triggers: the following picture
     * (cyclically) from dot 1. The effect runs only when the index actually
     * changes, which it does whenever there are two pictures or more.
     */
    method NextPicture()
      requires Valid()
      modifies this
      ensures Valid()
      ensures currentPicture == (old(currentPicture) + 1) % |pictures|
      ensures currentPicture != old(currentPicture) ==> connected == [] && next == 1 && !complete && origin == 1
      ensures currentPicture == old(currentPicture) ==>
                connected == old(connected) && next == old(next) && complete == old(complete) && origin == old(origin)
      ensures completedPictures == old(completedPictures)
    {
      var previous := currentPicture;
      currentPicture := (currentPicture + 1) % |pictures|;
      if currentPicture != previous {
        connected := [];
        next := 1;
        complete := false;
        origin := 1;
        MaxOfNumberedInOrder(pictures[currentPicture].dots);
      }
    }

    /**
     * `getPathData`: the commands of the SVG path through the connected dots
     * of the current picture, every one of which names a dot.
     */
    method GetPathData() returns (cmds: seq<PathCmd>)
      requires Valid()
      ensures cmds == PathCommands(Dots(), connected, complete)
      ensures AllKnown(Dots(), connected)
    {
      cmds := PathData(pictures[currentPicture].dots, connected, complete);
      ConnectedKnown(this);
    }
  }

  /** The loop of `getPathData` over given dots and connected numbers; a number with no dot adds nothing. */
  method PathData(dots: seq<Dot>, connected: seq<int>, complete: bool) returns (cmds: seq<PathCmd>)
    ensures cmds == PathCommands(dots, connected, complete)
  {
    if |connected| < 2 {
      return [];
    }
    cmds := [];
    var i := 0;
    while i < |connected|
      invariant 0 <= i <= |connected|
      invariant cmds == Strokes(dots, connected, i)
    {
      var dot := GetDotByNumber(dots, connected[i]);
      ghost var before := cmds;
      if dot.Some? {
        if i == 0 {
          cmds := cmds + [MoveTo(dot.value.x, dot.value.y)];
        } else {
          cmds := cmds + [LineTo(dot.value.x, dot.value.y)];
        }
      }
      assert cmds == before + Stroke(dots, connected, i) == Strokes(dots, connected, i + 1);
      i := i + 1;
    }
    if complete && |connected| > 2 {
      var first := GetDotByNumber(dots, connected[0]);
      if first.Some? {
        cmds := cmds + [LineTo(first.value.x, first.value.y)];
      }
    }
  }

  /** Every connected number names a dot of the current picture, so `PathShape` applies to every game state. */
  lemma ConnectedKnown(g: DotToDotGame)
    requires g.Valid()
    ensures AllKnown(g.Dots(), g.connected)
  {
    var dots := g.Dots();
    MaxOfNumberedInOrder(dots);
    forall i | 0 <= i < |g.connected| ensures GetDotByNumber(dots, g.connected[i]).Some? {
      GetDotInNumberedPicture(dots, g.connected[i]);
    }
  }

  /** Before completion the connected list is exactly `origin, ..., next - 1` (from a fresh picture, `1..next-1`). */
  lemma ConnectedIsRun(g: DotToDotGame)
    requires g.Valid() && !g.complete
    ensures g.connected == Run(g.origin, g.next - g.origin)
  {
  }

  /** Before completion the next dot is not yet connected, so it is highlighted as the target. */
  lemma NextDotHighlighted(g: DotToDotGame)
    requires g.Valid() && !g.complete
    ensures DotClass(g.connected, g.next, g.next) == NextClass
  {
    forall k | 0 <= k < |g.connected| ensures g.connected[k] != g.next {
      assert g.connected[k] == g.origin + k;
    }
  }

  /** Once complete, the last dot is still `next` but is drawn as connected. */
  lemma LastDotShownConnected(g: DotToDotGame)
    requires g.Valid() && g.complete
    ensures DotClass(g.connected, g.next, g.next) == ConnectedClass
  {
    var k := g.next - g.origin;
    assert g.connected[k] == g.next;
  }

  /**
   * "Start Over" makes the largest number the next dot, so a single click
   * completes the picture, and with no completion guard a second click on
   * the same dot completes and counts it again.
   */
  method ResetThenRepeatClick(pictures: seq<Picture>) returns (connected: seq<int>, completedPictures: int)
    requires Playable(pictures)
    ensures var last := |pictures[0].dots|;
            connected == [last, last] && completedPictures == 2
  {
    var game := new DotToDotGame(pictures);
    game.ResetPicture();
    var last := |pictures[0].dots|;
    MaxOfNumberedInOrder(pictures[0].dots);
    game.DotClick(last);
    game.DotClick(last);
    connected, completedPictures := game.connected, game.completedPictures;
  }

  lemma HappyStarNumbered() ensures |HappyStar.dots| >= 10 && NumberedInOrder(HappyStar.dots) {}
  lemma CuteHouseNumbered() ensures |CuteHouse.dots| >= 10 && NumberedInOrder(CuteHouse.dots) {}
  lemma FriendlyFishNumbered() ensures |FriendlyFish.dots| >= 10 && NumberedInOrder(FriendlyFish.dots) {}
  lemma RacingCarNumbered() ensures |RacingCar.dots| >= 10 && NumberedInOrder(RacingCar.dots) {}
  lemma SmilingSunNumbered() ensures |SmilingSun.dots| >= 10 && NumberedInOrder(SmilingSun.dots) {}
  lemma CuteCatNumbered() ensures |CuteCat.dots| >= 10 && NumberedInOrder(CuteCat.dots) {}
  lemma RocketShipNumbered() ensures |RocketShip.dots| >= 10 && NumberedInOrder(RocketShip.dots) {}
  lemma HappyButterflyNumbered() ensures |HappyButterfly.dots| >= 10 && NumberedInOrder(HappyButterfly.dots) {}
  lemma SweetHeartNumbered() ensures |SweetHeart.dots| >= 10 && NumberedInOrder(SweetHeart.dots) {}
  lemma JuicyAppleNumbered() ensures |JuicyApple.dots| >= 10 && NumberedInOrder(JuicyApple.dots) {}
  lemma FlyingAirplaneNumbered() ensures |FlyingAirplane.dots| >= 10 && NumberedInOrder(FlyingAirplane.dots) {}
  lemma ColorfulUmbrellaNumbered() ensures |ColorfulUmbrella.dots| >= 10 && NumberedInOrder(ColorfulUmbrella.dots) {}
  lemma RoyalCrownNumbered() ensures |RoyalCrown.dots| >= 10 && NumberedInOrder(RoyalCrown.dots) {}
  lemma SimpleFlowerNumbered() ensures |SimpleFlower.dots| >= 10 && NumberedInOrder(SimpleFlower.dots) {}
}
