/**
 * The spot-the-difference game: three scenes, each with five rectangular
 * differences in percent coordinates of the right-hand picture. A click on
 * the right picture finds the first not-yet-found difference whose closed
 * rectangle contains the point; five finds complete the scene.
 */
module SpotDifference {
  import opened Common

  /** A difference: its top-left corner and size, in percent of the picture. */
  datatype Difference = Difference(id: int, x: int, y: int, width: int, height: int)

  /** The message shown under the pictures (`null` is `NoFeedback`). */
  datatype Feedback = NoFeedback | Correct | Incorrect | Complete

  /** A point clicked in percent coordinates. */
  datatype Click = Click(x: int, y: int)

  const Scene1: seq<Difference> := [
    Difference(1, 20, 30, 8, 8), Difference(2, 45, 25, 10, 10), Difference(3, 70, 40, 8, 8),
    Difference(4, 30, 60, 12, 8), Difference(5, 60, 70, 8, 8)]
  const Scene2: seq<Difference> := [
    Difference(1, 25, 20, 10, 10), Difference(2, 50, 35, 8, 8), Difference(3, 75, 25, 8, 8),
    Difference(4, 35, 65, 10, 8), Difference(5, 65, 75, 8, 8)]
  const Scene3: seq<Difference> := [
    Difference(1, 15, 25, 8, 8), Difference(2, 40, 30, 10, 10), Difference(3, 65, 20, 8, 8),
    Difference(4, 25, 70, 12, 8), Difference(5, 70, 65, 8, 8)]

  /** The differences of each scene, in table order. */
  const Scenes: seq<seq<Difference>> := [Scene1, Scene2, Scene3]

  /** Number of differences that completes a scene. */
  const Goal := 5

  /** Difference k of a scene has id k + 1 and a non-empty rectangle. */
  predicate WellFormedScene(diffs: seq<Difference>) {
    |diffs| == Goal &&
    forall k :: 0 <= k < |diffs| ==> diffs[k].id == k + 1 && diffs[k].width > 0 && diffs[k].height > 0
  }

  /** The top-left corner of difference k lies in no other difference of the scene. */
  predicate CornersSeparate(diffs: seq<Difference>) {
    forall j, k :: 0 <= j < |diffs| && 0 <= k < |diffs| && j != k ==>
      !Contains(diffs[j], diffs[k].x, diffs[k].y)
  }

  lemma Scene1Facts() ensures WellFormedScene(Scene1) && CornersSeparate(Scene1) {}
  lemma Scene2Facts() ensures WellFormedScene(Scene2) && CornersSeparate(Scene2) {}
  lemma Scene3Facts() ensures WellFormedScene(Scene3) && CornersSeparate(Scene3) {}

  /** Every scene has exactly five differences with ids 1..5, so the completion threshold can be met. */
  lemma ScenesWellFormed()
    ensures |Scenes| == 3
    ensures forall s :: 0 <= s < |Scenes| ==> WellFormedScene(Scenes[s]) && CornersSeparate(Scenes[s])
  {
    Scene1Facts();
    Scene2Facts();
    Scene3Facts();
  }

  /** The closed rectangle of `d` contains the point (x, y). */
  predicate Contains(d: Difference, x: int, y: int) {
    d.x <= x <= d.x + d.width && d.y <= y <= d.y + d.height
  }

  /** A click at (x, y) finds `d`: inside its rectangle and not yet found. */
  predicate Hits(d: Difference, found: seq<int>, x: int, y: int) {
    Contains(d, x, y) && d.id !in found
  }

  /** The first difference in table order that the click finds, if any. */
  function HitTest(diffs: seq<Difference>, found: seq<int>, x: int, y: int): (r: Option<Difference>)
    ensures r.None? <==> forall k :: 0 <= k < |diffs| ==> !Hits(diffs[k], found, x, y)
    ensures r.Some? ==> exists k :: 0 <= k < |diffs| && diffs[k] == r.value && Hits(diffs[k], found, x, y) &&
                                    forall j :: 0 <= j < k ==> !Hits(diffs[j], found, x, y)
  {
    if diffs == [] then None
    else if Hits(diffs[0], found, x, y) then Some(diffs[0])
    else
      var r := HitTest(diffs[1..], found, x, y);
      assert forall k :: 1 <= k < |diffs| ==> diffs[k] == diffs[1..][k - 1];
      r
  }

  /** When exactly one difference contains the point and it is not yet found, the hit test returns it. */
  lemma {:induction false} HitTestUnique(diffs: seq<Difference>, found: seq<int>, x: int, y: int, k: int)
    requires 0 <= k < |diffs| && Hits(diffs[k], found, x, y)
    requires forall j :: 0 <= j < |diffs| && j != k ==> !Contains(diffs[j], x, y)
    ensures HitTest(diffs, found, x, y) == Some(diffs[k])
  {
    if k > 0 {
      assert !Hits(diffs[0], found, x, y);
      forall j | 0 <= j < |diffs[1..]| && j != k - 1 ensures !Contains(diffs[1..][j], x, y) {
        assert diffs[1..][j] == diffs[j + 1];
      }
      HitTestUnique(diffs[1..], found, x, y, k - 1);
    }
  }

  /** Clicking the top-left corner of a difference not yet found finds exactly that difference. */
  lemma CornerHit(s: int, k: int, found: seq<int>)
    requires 0 <= s < |Scenes| && 0 <= k < Goal
    requires k + 1 !in found
    ensures HitTest(Scenes[s], found, Scenes[s][k].x, Scenes[s][k].y) == Some(Scenes[s][k])
  {
    ScenesWellFormed();
    var diffs := Scenes[s];
    assert Contains(diffs[k], diffs[k].x, diffs[k].y);
    HitTestUnique(diffs, found, diffs[k].x, diffs[k].y, k);
  }

  /** The ids 1..5 of a scene's differences. */
  function SceneIds(): (ids: set<int>)
    ensures |ids| == Goal
    ensures forall id :: id in ids <==> 1 <= id <= Goal
  {
    {1, 2, 3, 4, 5}
  }

  /** The spot-the-difference component: its `useState` fields. */
  class SpotDifferenceGame {
    var scene: nat
    var found: seq<int>
    var score: int
    var feedback: Feedback
    var wrongClick: Option<Click>

    /** The scene exists and the found list holds distinct ids of its differences. */
    ghost predicate Valid()
      reads this
    {
      scene < |Scenes| && NoDup(found) &&
      forall i :: 0 <= i < |found| ==> 1 <= found[i] <= Goal
    }

    constructor()
      ensures Valid()
      ensures scene == 0 && found == [] && score == 0 && feedback == NoFeedback && wrongClick == None
    {
      scene := 0;
      found := [];
      score := 0;
      feedback := NoFeedback;
      wrongClick := None;
    }

    /**
     * A click at (x, y) on the left (`isRight` false) or right picture.
     * Nothing happens while the scene shows as complete or on the left
     * picture; otherwise a hit records the difference and scores 2 and a
     * miss records the wrong point.
     */
    method SceneClick(x: int, y: int, isRight: bool)
      requires Valid()
      modifies this
      ensures Valid()
      ensures scene == old(scene)
      ensures old(feedback) == Complete || !isRight ==>
        found == old(found) && score == old(score) && feedback == old(feedback) && wrongClick == old(wrongClick)
      ensures old(feedback) != Complete && isRight ==>
        var hit := HitTest(Scenes[old(scene)], old(found), x, y);
        if hit.Some? then
          found == old(found) + [hit.value.id] && score == old(score) + 2 &&
          feedback == Correct && wrongClick == old(wrongClick)
        else
          found == old(found) && score == old(score) &&
          feedback == Incorrect && wrongClick == Some(Click(x, y))
    {
      if feedback == Complete {
        return;
      }
      if !isRight {
        return;
      }
      var hit := HitTest(Scenes[scene], found, x, y);
      if hit.Some? {
        ScenesWellFormed();
        found := found + [hit.value.id];
        feedback := Correct;
        score := score + 2;
      } else {
        feedback := Incorrect;
        wrongClick := Some(Click(x, y));
      }
    }

    /** The completion effect: five finds mark the scene complete and score a 10-point bonus. */
    method CompletionEffect()
      requires Valid()
      modifies this
      ensures Valid()
      ensures scene == old(scene) && found == old(found) && wrongClick == old(wrongClick)
      ensures |found| == Goal ==> feedback == Complete && score == old(score) + 10
      ensures |found| != Goal ==> feedback == old(feedback) && score == old(score)
    {
      if |found| == Goal {
        feedback := Complete;
        score := score + 10;
      }
    }

    /** The 3-second timer after completion: the next scene, or the first after the last, with nothing found. */
    method SceneAdvance()
      requires Valid()
      modifies this
      ensures Valid()
      ensures scene == (if old(scene) < |Scenes| - 1 then old(scene) + 1 else 0)
      ensures found == [] && feedback == NoFeedback
      ensures score == old(score) && wrongClick == old(wrongClick)
    {
      if scene < |Scenes| - 1 {
        scene := scene + 1;
      } else {
        scene := 0;
      }
      found := [];
      feedback := NoFeedback;
    }

    /** The 1.5-second timer after a hit hides the message. */
    method DismissHit()
      requires Valid()
      modifies this
      ensures Valid()
      ensures feedback == NoFeedback
      ensures scene == old(scene) && found == old(found) && score == old(score) && wrongClick == old(wrongClick)
    {
      feedback := NoFeedback;
    }

    /** The 1-second timer after a miss hides the message and the wrong-click marker. */
    method DismissMiss()
      requires Valid()
      modifies this
      ensures Valid()
      ensures feedback == NoFeedback && wrongClick == None
      ensures scene == old(scene) && found == old(found) && score == old(score)
    {
      feedback := NoFeedback;
      wrongClick := None;
    }
  }

  /** The found list never holds more than the five differences of a scene. */
  lemma FoundAtMostGoal(g: SpotDifferenceGame)
    requires g.Valid()
    ensures |g.found| <= Goal
  {
    NoDupWithin(g.found, SceneIds());
  }

  /**
   * Playing the first scene by clicking each difference's top-left corner in
   * turn finds all five, completes the scene with 5 * 2 + 10 points and
   * moves on to the second scene.
   */
  method PlayFirstScene() returns (score: int, complete: bool, scene: nat)
    ensures score == 20 && complete && scene == 1
  {
    var g := new SpotDifferenceGame();
    var k := 0;
    while k < Goal - 1
      invariant 0 <= k <= Goal - 1
      invariant g.Valid() && g.scene == 0
      invariant g.found == seq(k, i => i + 1)
      invariant g.score == 2 * k
      invariant g.feedback != Complete
    {
      ClickCorner(g, k);
      // the completion effect runs after the render, before the 1.5-second timer
      g.CompletionEffect();
      g.DismissHit();
      k := k + 1;
    }
    ClickCorner(g, k);
    g.CompletionEffect();
    complete := g.feedback == Complete;
    g.DismissHit();
    g.SceneAdvance();
    score := g.score;
    scene := g.scene;
  }

  /** A click on the top-left corner of the first scene's `k`-th difference, after the first `k` were found, finds it. */
  method ClickCorner(g: SpotDifferenceGame, k: int)
    requires g.Valid() && g.scene == 0 && g.feedback != Complete
    requires 0 <= k < Goal && g.found == seq(k, i => i + 1)
    modifies g
    ensures g.Valid() && g.scene == 0 && g.feedback == Correct
    ensures g.found == seq(k + 1, i => i + 1) && g.score == old(g.score) + 2
  {
    ScenesWellFormed();
    CornerHit(0, k, g.found);
    var d := Scenes[0][k];
    g.SceneClick(d.x, d.y, true);
    assert seq(k + 1, i => i + 1) == seq(k, i => i + 1) + [k + 1];
  }
}
