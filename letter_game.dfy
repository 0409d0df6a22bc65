/**
 * The letter game: a picture word is shown and the player picks its first
 * letter among four letter buttons.
 */
module LetterGame {
  import opened Common
  import opened Quiz

  /** An entry of the word table (its emoji is not modelled). */
  datatype LetterWord = LetterWord(letter: char, word: string)

  /** A challenge: the target letter, the buttons in display order, and the picture word. */
  datatype Challenge = Challenge(target: char, options: seq<char>, word: string)

  /** The message shown after an answer (`null` is `NoResult`). */
  datatype Feedback = NoResult | Correct | Incorrect

  /** Number of wrong letters on each challenge. */
  const WrongCount := 3

  const LetterWords: seq<LetterWord> := [
    LetterWord('A', "Apple"), LetterWord('B', "Ball"), LetterWord('C', "Car"), LetterWord('D', "Dog"),
    LetterWord('E', "Elephant"), LetterWord('F', "Fish"), LetterWord('G', "Giraffe"), LetterWord('H', "House"),
    LetterWord('I', "Ice cream"), LetterWord('J', "Juice"), LetterWord('K', "Kite"), LetterWord('L', "Lion"),
    LetterWord('M', "Mouse"), LetterWord('N', "Nest"), LetterWord('O', "Orange"), LetterWord('P', "Pizza"),
    LetterWord('Q', "Queen"), LetterWord('R', "Robot"), LetterWord('S', "Sun"), LetterWord('T', "Tree"),
    LetterWord('U', "Umbrella"), LetterWord('V', "Van"), LetterWord('W', "Whale"), LetterWord('X', "X-ray"),
    LetterWord('Y', "Yo-yo"), LetterWord('Z', "Zebra")]

  /** The capital letter with code 65 + k (`String.fromCharCode(65 + k)`). */
  function LetterAt(k: int): (c: char)
    requires 0 <= k < 26
    ensures 'A' <= c <= 'Z' && c as int - 'A' as int == k
  {
    (65 + k) as char
  }

  /** The table lists the alphabet in order, and each word begins with its letter. */
  lemma LetterWordsWellFormed()
    ensures |LetterWords| == 26
    ensures forall i :: 0 <= i < 26 ==> LetterWords[i].letter == LetterAt(i)
    ensures forall i :: 0 <= i < 26 ==> |LetterWords[i].word| > 0 && LetterWords[i].word[0] == LetterWords[i].letter
  {
  }

  /** What every generated challenge satisfies. */
  predicate ValidChallenge(c: Challenge) {
    IsUpper(c.target) && |c.word| > 0 && c.word[0] == c.target &&
    |c.options| == WrongCount + 1 && NoDup(c.options) && c.target in c.options &&
    forall i :: 0 <= i < |c.options| ==> IsUpper(c.options[i])
  }

  /**
   * Generates a challenge from the table entry `pick` (a draw of
   * `floor(random * 26)`), the candidate wrong letters `letterDraws` (draws
   * of `floor(random * 26)`, turned into letters) and the shuffle `swaps`.
   * `None` exactly when the drawn letters other than the target hold fewer
   * than three distinct letters, where the source keeps drawing.
   */
  method GenerateChallenge(pick: int, letterDraws: seq<int>, swaps: seq<nat>) returns (c: Option<Challenge>)
    requires 0 <= pick < 26
    requires forall i :: 0 <= i < |letterDraws| ==> 0 <= letterDraws[i] < 26
    ensures c.None? <==> |Others(DrawnLetters(letterDraws), LetterWords[pick].letter)| < WrongCount
    ensures c.Some? ==> ValidChallenge(c.value)
    ensures c.Some? ==> c.value.target == LetterWords[pick].letter && c.value.word == LetterWords[pick].word
    ensures c.Some? ==> forall x :: x in c.value.options ==>
                          x == c.value.target || exists i :: 0 <= i < |letterDraws| && x == LetterAt(letterDraws[i])
  {
    LetterWordsWellFormed();
    var entry := LetterWords[pick];
    var target := entry.letter;
    var letters := DrawnLetters(letterDraws);
    var wrong, used := SampleDistinct(target, letters, WrongCount);
    if |wrong| < WrongCount {
      return None;
    }
    ShuffledOptions(target, wrong, swaps);
    var options := Shuffle([target] + wrong, swaps);
    forall k | 0 <= k < |options|
      ensures IsUpper(options[k])
      ensures options[k] == target || exists i :: 0 <= i < |letterDraws| && options[k] == LetterAt(letterDraws[i])
    {
      assert options[k] in options;
      if options[k] != target {
        assert options[k] in letters;
        var i :| 0 <= i < |letters| && letters[i] == options[k];
        assert options[k] == LetterAt(letterDraws[i]);
      }
    }
    c := Some(Challenge(target, options, entry.word));
  }

  /** The letters `String.fromCharCode(65 + d)` of the draws `d`. */
  function DrawnLetters(letterDraws: seq<int>): (r: seq<char>)
    requires forall i :: 0 <= i < |letterDraws| ==> 0 <= letterDraws[i] < 26
    ensures |r| == |letterDraws| && forall i :: 0 <= i < |r| ==> r[i] == LetterAt(letterDraws[i])
  {
    seq(|letterDraws|, i requires 0 <= i < |letterDraws| => LetterAt(letterDraws[i]))
  }

  /** The letter-game component: its `useState` fields. */
  class LetterGame {
    var challenge: Option<Challenge>
    var score: int
    var feedback: Feedback
    var challengesCompleted: int

    /** A loaded challenge is a valid one, and a result is only ever shown for a loaded challenge. */
    ghost predicate Valid()
      reads this
    {
      && (challenge.Some? ==> ValidChallenge(challenge.value))
      && (feedback != NoResult ==> challenge.Some?)
    }

    /** Before the mount effect: no challenge yet. */
    constructor()
      ensures Valid()
      ensures challenge == None && score == 0 && feedback == NoResult && challengesCompleted == 0
    {
      challenge := None;
      score := 0;
      feedback := NoResult;
      challengesCompleted := 0;
    }

    /** The mount effect installs the first generated challenge. */
    method Load(next: Challenge)
      requires Valid() && ValidChallenge(next)
      modifies this
      ensures Valid()
      ensures challenge == Some(next)
      ensures score == old(score) && feedback == old(feedback) && challengesCompleted == old(challengesCompleted)
    {
      challenge := Some(next);
    }

    /**
     * A click on a letter button. The buttons exist only once a challenge is
     * loaded and are disabled while a result is shown, so the click is
     * `accepted` exactly then; an accepted click scores one point exactly
     * when it is the target letter, shows the result and starts the
     * 2.5-second timer. An ignored click changes nothing.
     */
    method Answer(selected: char) returns (accepted: bool)
      requires Valid()
      modifies this
      ensures Valid()
      ensures accepted <==> challenge.Some? && old(feedback) == NoResult
      ensures challenge == old(challenge) && challengesCompleted == old(challengesCompleted)
      ensures !accepted ==> score == old(score) && feedback == old(feedback)
      ensures accepted ==>
        score == old(score) + (if selected == challenge.value.target then 1 else 0) &&
        feedback == (if selected == challenge.value.target then Correct else Incorrect)
    {
      accepted := challenge.Some? && feedback == NoResult;
      if !accepted {
        return;
      }
      if selected == challenge.value.target {
        feedback := Correct;
        score := score + 1;
      } else {
        feedback := Incorrect;
      }
    }

    /**
     * The timer of an accepted answer, pending exactly while its result is
     * shown: hide the result, count one more completed challenge and show a
     * new one. The count the timer's closure captured is the current one,
     * since no other timer can run while the buttons are disabled.
     */
    method AdvanceChallenge(next: Challenge)
      requires Valid() && ValidChallenge(next) && feedback != NoResult
      modifies this
      ensures Valid()
      ensures challengesCompleted == old(challengesCompleted) + 1 && challenge == Some(next) && feedback == NoResult
      ensures score == old(score)
    {
      feedback := NoResult;
      challengesCompleted := challengesCompleted + 1;
      challenge := Some(next);
    }
  }

  /**
   * Exactly one of the four buttons scores: a round answered with a wrong
   * button scores nothing, and with the target scores one, whatever order
   * the buttons are in.
   */
  method AnswerEachButton(first: Challenge) returns (points: seq<int>)
    requires ValidChallenge(first)
    ensures |points| == |first.options|
    ensures forall k :: 0 <= k < |points| ==> points[k] == (if first.options[k] == first.target then 1 else 0)
    ensures exists k :: 0 <= k < |points| && points[k] == 1
  {
    points := [];
    var k := 0;
    while k < |first.options|
      invariant 0 <= k <= |first.options|
      invariant |points| == k
      invariant forall j :: 0 <= j < k ==> points[j] == (if first.options[j] == first.target then 1 else 0)
    {
      var g := new LetterGame();
      g.Load(first);
      var _ := g.Answer(first.options[k]);
      points := points + [g.score];
      k := k + 1;
    }
    var t :| 0 <= t < |first.options| && first.options[t] == first.target;
    assert points[t] == 1;
  }
}
