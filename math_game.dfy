/**
 * The counting game: an addition of two numbers in 0..5, shown as
 * dinosaurs, with three answer buttons.
 */
module MathGame {
  import opened Common
  import opened Quiz

  /** A problem: the two addends, their sum and the answer buttons in display order. */
  datatype Problem = Problem(num1: int, num2: int, answer: int, options: seq<int>)

  /** The message shown after an answer (`null` is `NoResult`). */
  datatype Feedback = NoResult | Correct | Incorrect

  /** Number of wrong options on each problem. */
  const WrongCount := 2

  /** What every generated problem satisfies. */
  predicate ValidProblem(p: Problem) {
    0 <= p.num1 <= 5 && 0 <= p.num2 <= 5 && p.answer == p.num1 + p.num2 &&
    |p.options| == WrongCount + 1 && NoDup(p.options) && p.answer in p.options &&
    forall i :: 0 <= i < |p.options| ==> 0 <= p.options[i] <= 10
  }

  /**
   * Generates a problem from the addends `draw1` and `draw2` (each a draw of
   * `floor(random * 6)`), the candidate wrong answers `wrongDraws` (draws of
   * `floor(random * 11)`) and the shuffle `swaps`. `None` exactly when the
   * draws other than the answer hold fewer than two distinct values, where
   * the source keeps drawing.
   */
  method GenerateProblem(draw1: int, draw2: int, wrongDraws: seq<int>, swaps: seq<nat>) returns (p: Option<Problem>)
    requires 0 <= draw1 <= 5 && 0 <= draw2 <= 5
    requires forall i :: 0 <= i < |wrongDraws| ==> 0 <= wrongDraws[i] <= 10
    ensures p.Some? ==> ValidProblem(p.value) && p.value.num1 == draw1 && p.value.num2 == draw2
    ensures p.Some? ==> forall x :: x in p.value.options ==> x == draw1 + draw2 || x in wrongDraws
    ensures p.None? <==> |Others(wrongDraws, draw1 + draw2)| < WrongCount
    ensures p.None? ==> AtMostOneOther(wrongDraws, draw1 + draw2)
  {
    var answer := draw1 + draw2;
    var wrong, used := SampleDistinct(answer, wrongDraws, WrongCount);
    if |wrong| < WrongCount {
      assert wrongDraws[..used] == wrongDraws;
      forall i, j | 0 <= i < |wrongDraws| && 0 <= j < |wrongDraws| &&
          wrongDraws[i] != answer && wrongDraws[j] != answer
        ensures wrongDraws[i] == wrongDraws[j]
      {
        assert wrongDraws[i] in wrong && wrongDraws[j] in wrong;
      }
      return None;
    }
    assert forall x :: x in wrong ==> x in wrongDraws;
    ShuffledOptions(answer, wrong, swaps);
    var options := Shuffle([answer] + wrong, swaps);
    forall i | 0 <= i < |options| ensures 0 <= options[i] <= 10 {
      assert options[i] in options;
      if options[i] != answer {
        assert options[i] in wrongDraws;
      }
    }
    p := Some(Problem(draw1, draw2, answer, options));
  }

  /** Apart from `answer`, the draws hold at most one distinct value. */
  predicate AtMostOneOther(draws: seq<int>, answer: int) {
    forall i, j :: 0 <= i < |draws| && 0 <= j < |draws| && draws[i] != answer && draws[j] != answer ==>
      draws[i] == draws[j]
  }

  /** The dinosaur row drawn for a number: exactly that many dinosaurs. */
  function Dinosaurs(count: nat): (r: seq<string>)
    ensures |r| == count
    ensures forall i :: 0 <= i < |r| ==> r[i] == "dinosaur"
  {
    if count == 0 then [] else Dinosaurs(count - 1) + ["dinosaur"]
  }

  /** The counting-game component: its `useState` fields. */
  class MathGame {
    var problem: Option<Problem>
    var score: int
    var feedback: Feedback
    var problemsCompleted: int

    /** A loaded problem is a valid one, and a result is only ever shown for a loaded problem. */
    ghost predicate Valid()
      reads this
    {
      && (problem.Some? ==> ValidProblem(problem.value))
      && (feedback != NoResult ==> problem.Some?)
    }

    /** Before the mount effect: no problem yet. */
    constructor()
      ensures Valid()
      ensures problem == None && score == 0 && feedback == NoResult && problemsCompleted == 0
    {
      problem := None;
      score := 0;
      feedback := NoResult;
      problemsCompleted := 0;
    }

    /** The mount effect installs the first generated problem. */
    method Load(next: Problem)
      requires Valid() && ValidProblem(next)
      modifies this
      ensures Valid()
      ensures problem == Some(next)
      ensures score == old(score) && feedback == old(feedback) && problemsCompleted == old(problemsCompleted)
    {
      problem := Some(next);
    }

    /**
     * A click on an answer button. The buttons exist only once a problem is
     * loaded and are disabled while a result is shown, so the click is
     * `accepted` exactly then; an accepted click scores one point exactly
     * when it is the right answer, shows the result and starts the 2-second
     * timer. An ignored click changes nothing.
     */
    method Answer(selected: int) returns (accepted: bool)
      requires Valid()
      modifies this
      ensures Valid()
      ensures accepted <==> problem.Some? && old(feedback) == NoResult
      ensures problem == old(problem) && problemsCompleted == old(problemsCompleted)
      ensures !accepted ==> score == old(score) && feedback == old(feedback)
      ensures accepted ==>
        score == old(score) + (if selected == problem.value.answer then 1 else 0) &&
        feedback == (if selected == problem.value.answer then Correct else Incorrect)
    {
      accepted := problem.Some? && feedback == NoResult;
      if !accepted {
        return;
      }
      if selected == problem.value.answer {
        feedback := Correct;
        score := score + 1;
      } else {
        feedback := Incorrect;
      }
    }

    /**
     * The timer of an accepted answer, pending exactly while its result is
     * shown: hide the result, count one more completed problem and show a
     * new problem. The count the timer's closure captured is the current
     * one, since no other timer can run while the buttons are disabled.
     */
    method AdvanceProblem(next: Problem)
      requires Valid() && ValidProblem(next) && feedback != NoResult
      modifies this
      ensures Valid()
      ensures problemsCompleted == old(problemsCompleted) + 1 && problem == Some(next) && feedback == NoResult
      ensures score == old(score)
    {
      feedback := NoResult;
      problemsCompleted := problemsCompleted + 1;
      problem := Some(next);
    }
  }

  /**
   * One answer, then its timer: one completed problem, a point exactly when
   * the answer was right, and the next problem on screen.
   */
  method AnswerRound(first: Problem, next: Problem, selected: int) returns (score: int, completed: int, shown: Option<Problem>)
    requires ValidProblem(first) && ValidProblem(next)
    ensures score == (if selected == first.answer then 1 else 0)
    ensures completed == 1 && shown == Some(next)
  {
    var g := new MathGame();
    g.Load(first);
    var _ := g.Answer(selected);
    g.AdvanceProblem(next);
    score, completed, shown := g.score, g.problemsCompleted, g.problem;
  }

  /**
   * A second click while the first answer's result is shown is ignored:
   * after the timer only the first answer has scored and one problem is
   * completed.
   */
  method SecondAnswerIgnored(first: Problem, next: Problem, a: int, b: int)
    returns (secondAccepted: bool, score: int, completed: int)
    requires ValidProblem(first) && ValidProblem(next)
    ensures !secondAccepted
    ensures score == (if a == first.answer then 1 else 0) && completed == 1
  {
    var g := new MathGame();
    g.Load(first);
    var _ := g.Answer(a);
    secondAccepted := g.Answer(b);
    g.AdvanceProblem(next);
    score, completed := g.score, g.problemsCompleted;
  }
}
