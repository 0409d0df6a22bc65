/**
 * The word puzzle: a row of letter boxes, one per letter of a hidden word.
 * Clicking a letter fills the first empty box, clicking a box empties it, and
 * the puzzle is solved once every box is filled and the boxes spell the word.
 */
module Codeword {
  import opened Common

  datatype Difficulty = Easy | Medium

  datatype Puzzle = Puzzle(word: string, difficulty: Difficulty)

  /** The sixteen puzzles: eight three-letter easy words, then eight four-letter medium words. */
  const Puzzles: seq<Puzzle> := [
    Puzzle("CAT", Easy), Puzzle("DOG", Easy), Puzzle("SUN", Easy), Puzzle("CAR", Easy),
    Puzzle("BUS", Easy), Puzzle("BAT", Easy), Puzzle("BEE", Easy), Puzzle("EGG", Easy),
    Puzzle("FISH", Medium), Puzzle("BIRD", Medium), Puzzle("TREE", Medium), Puzzle("BOOK", Medium),
    Puzzle("BALL", Medium), Puzzle("CAKE", Medium), Puzzle("STAR", Medium), Puzzle("MOON", Medium)
  ]

  /** The letter buttons, each a one-letter string. */
  const Alphabet: seq<string> := [
    "A", "B", "C", "D", "E", "F", "G", "H", "I", "J", "K", "L", "M",
    "N", "O", "P", "Q", "R", "S", "T", "U", "V", "W", "X", "Y", "Z"
  ]

  /** The empty box. */
  const Empty: string := ""

  /** Every easy word has three letters and every medium word four, all upper-case A to Z. */
  lemma PuzzlesWellFormed()
    ensures |Puzzles| == 16
    ensures forall i :: 0 <= i < |Puzzles| ==>
              |Puzzles[i].word| == (if Puzzles[i].difficulty == Easy then 3 else 4)
    ensures forall i, k :: 0 <= i < |Puzzles| && 0 <= k < |Puzzles[i].word| ==> IsUpper(Puzzles[i].word[k])
  {
  }

  /** Every upper-case letter has its own button. */
  lemma AlphabetCoversUpper(c: char)
    requires IsUpper(c)
    ensures [c] in Alphabet
  {
    assert Alphabet[c as int - 'A' as int] == [c];
  }

  /** Points for solving: 10 for an easy word, 20 for a medium one. */
  function Points(d: Difficulty): (p: int)
    ensures p == 10 || p == 20
    ensures p == 10 <==> d == Easy
  {
    if d == Easy then 10 else 20
  }

  /** `findIndex` of the first empty box, or -1 when every box is filled. */
  function FirstEmpty(boxes: seq<string>): (k: int)
    ensures -1 <= k < |boxes|
    ensures k == -1 <==> forall j :: 0 <= j < |boxes| ==> boxes[j] != Empty
    ensures k >= 0 ==> boxes[k] == Empty && forall j :: 0 <= j < k ==> boxes[j] != Empty
  {
    if |boxes| == 0 then -1
    else if boxes[0] == Empty then 0
    else
      var k := FirstEmpty(boxes[1..]);
      assert forall j :: 1 <= j < |boxes| ==> boxes[j] == boxes[1..][j - 1];
      if k == -1 then -1 else k + 1
  }

  /** The boxes after typing `letter`: it goes into the first empty box, if there is one. */
  function FillFirstEmpty(boxes: seq<string>, letter: string): (r: seq<string>)
    ensures |r| == |boxes|
    ensures FirstEmpty(boxes) == -1 ==> r == boxes
    ensures FirstEmpty(boxes) >= 0 ==> r[FirstEmpty(boxes)] == letter
    ensures forall j :: 0 <= j < |boxes| && j != FirstEmpty(boxes) ==> r[j] == boxes[j]
  {
    var k := FirstEmpty(boxes);
    if k == -1 then boxes else boxes[k := letter]
  }

  /** Emptying box `i` after typing into the first empty box `i` gives back the boxes as they were. */
  lemma FillThenClearRestores(boxes: seq<string>, letter: string)
    requires FirstEmpty(boxes) >= 0
    ensures FillFirstEmpty(boxes, letter)[FirstEmpty(boxes) := Empty] == boxes
  {
  }

  /** `new Array(n).fill('')`. */
  function Blank(n: nat): (r: seq<string>)
    ensures |r| == n && forall j :: 0 <= j < n ==> r[j] == Empty
  {
    seq(n, _ => Empty)
  }

  /** `join('')`: the boxes' contents, one after another. */
  function Join(boxes: seq<string>): string {
    if boxes == [] then "" else boxes[0] + Join(boxes[1..])
  }

  /** The completion test: every box is filled and together they spell `word`. */
  predicate Solves(boxes: seq<string>, word: string) {
    (forall j :: 0 <= j < |boxes| ==> boxes[j] != Empty) && Join(boxes) == word
  }

  /**
   * When every box holds one letter, the boxes spell `word` exactly when
   * there is one box per letter of `word` and box `j` holds its `j`-th letter.
   */
  lemma {:induction false} JoinOfLetters(boxes: seq<string>, word: string)
    requires forall j :: 0 <= j < |boxes| ==> |boxes[j]| == 1
    ensures Join(boxes) == word <==> |boxes| == |word| && forall j :: 0 <= j < |boxes| ==> boxes[j] == [word[j]]
  {
    if boxes == [] {
    } else if word == [] {
      assert |Join(boxes)| >= 1;
    } else {
      JoinOfLetters(boxes[1..], word[1..]);
      var b := boxes[0];
      assert Join(boxes) == b + Join(boxes[1..]);
      if Join(boxes) == word {
        assert b == word[..1] && Join(boxes[1..]) == word[1..];
        assert b == [word[0]];
      }
      if |boxes| == |word| && forall j :: 0 <= j < |boxes| ==> boxes[j] == [word[j]] {
        assert forall j :: 0 <= j < |boxes[1..]| ==> boxes[1..][j] == [word[1..][j]];
        assert word == [word[0]] + word[1..];
      }
    }
  }

  /** The boxes after typing each letter of `letters` in turn. */
  function TypeLetters(boxes: seq<string>, letters: string): seq<string>
    decreases |letters|
  {
    if letters == [] then boxes else TypeLetters(FillFirstEmpty(boxes, [letters[0]]), letters[1..])
  }

  /** With the first `n` boxes filled and box `n` empty, typing writes into box `n`. */
  lemma FillAt(boxes: seq<string>, n: nat, letter: string)
    requires n < |boxes| && boxes[n] == Empty
    requires forall j :: 0 <= j < n ==> boxes[j] != Empty
    ensures FillFirstEmpty(boxes, letter) == boxes[n := letter]
  {
    assert FirstEmpty(boxes) == n;
  }

  /**
   * Typing letters into boxes whose first `n` are filled and the rest empty
   * writes them, in order, from box `n` on.
   */
  lemma {:induction false} TypeIntoTail(boxes: seq<string>, n: nat, letters: string)
    requires n + |letters| <= |boxes|
    requires forall j :: 0 <= j < n ==> boxes[j] != Empty
    requires forall j :: n <= j < |boxes| ==> boxes[j] == Empty
    ensures var r := TypeLetters(boxes, letters);
            |r| == |boxes|
            && (forall j :: 0 <= j < n ==> r[j] == boxes[j])
            && (forall j :: 0 <= j < |letters| ==> r[n + j] == [letters[j]])
            && (forall j :: n + |letters| <= j < |boxes| ==> r[j] == Empty)
    decreases |letters|
  {
    if letters != [] {
      var next := boxes[n := [letters[0]]];
      FillAt(boxes, n, [letters[0]]);
      assert TypeLetters(boxes, letters) == TypeLetters(next, letters[1..]);
      assert forall j :: 0 <= j < n + 1 ==> next[j] != Empty;
      assert forall j :: n + 1 <= j < |next| ==> next[j] == boxes[j];
      TypeIntoTail(next, n + 1, letters[1..]);
      var r := TypeLetters(next, letters[1..]);
      forall j | 0 <= j < n ensures r[j] == boxes[j] {
        assert r[j] == next[j];
      }
      forall j | 0 <= j < |letters| ensures r[n + j] == [letters[j]] {
        if j == 0 {
          assert r[n] == next[n];
        } else {
          assert r[(n + 1) + (j - 1)] == [letters[1..][j - 1]];
        }
      }
    }
  }

  /** Typing the word's letters into blank boxes, in order, solves the puzzle. */
  lemma TypingWordSolves(word: string)
    requires word != []
    ensures var r := TypeLetters(Blank(|word|), word);
            && |r| == |word|
            && (forall j :: 0 <= j < |word| ==> r[j] == [word[j]])
            && Solves(r, word)
  {
    var blank := Blank(|word|);
    TypeIntoTail(blank, 0, word);
    var r := TypeLetters(blank, word);
    forall j | 0 <= j < |word| ensures r[j] == [word[j]] {
      assert r[0 + j] == [word[j]];
    }
    assert forall j :: 0 <= j < |r| ==> |r[j]| == 1 && r[j] != Empty;
    JoinOfLetters(r, word);
  }

  /** Every puzzle can be solved with the letter buttons: each of its letters has a button, and typing them in order solves it. */
  lemma PuzzleSolvableWithButtons(i: int)
    requires 0 <= i < |Puzzles|
    ensures forall k :: 0 <= k < |Puzzles[i].word| ==> [Puzzles[i].word[k]] in Alphabet
    ensures Solves(TypeLetters(Blank(|Puzzles[i].word|), Puzzles[i].word), Puzzles[i].word)
  {
    PuzzlesWellFormed();
    var word := Puzzles[i].word;
    forall k | 0 <= k < |word| ensures [word[k]] in Alphabet {
      AlphabetCoversUpper(word[k]);
    }
    TypingWordSolves(word);
  }

  /** The word-puzzle component, from the moment its first puzzle is drawn. */
  class CodewordGame {
    var puzzle: Puzzle
    var boxes: seq<string>
    var complete: bool
    var showHint: bool
    var score: int
    var solved: int

    /** One box per letter of the word. */
    ghost predicate Valid()
      reads this
    {
      |boxes| == |puzzle.word|
    }

    /** The mount effect: the randomly drawn puzzle `Puzzles[draw]` with blank boxes. */
    constructor (draw: nat)
      requires draw < |Puzzles|
      ensures Valid()
      ensures puzzle == Puzzles[draw] && boxes == Blank(|puzzle.word|)
      ensures !complete && !showHint && score == 0 && solved == 0
    {
      puzzle := Puzzles[draw];
      boxes := Blank(|Puzzles[draw].word|);
      complete := false;
      showHint := false;
      score := 0;
      solved := 0;
    }

    /** `handleLetterClick`: ignored once complete; otherwise the letter fills the first empty box. */
    method LetterClick(letter: string)
      requires Valid()
      modifies this
      ensures Valid()
      ensures boxes == if old(complete) then old(boxes) else FillFirstEmpty(old(boxes), letter)
      ensures puzzle == old(puzzle) && complete == old(complete) && showHint == old(showHint)
      ensures score == old(score) && solved == old(solved)
    {
      if complete {
        return;
      }
      var k := FirstEmpty(boxes);
      if k != -1 {
        boxes := boxes[k := letter];
      }
    }

    /** `handleBoxClick`: ignored once complete; otherwise box `i` is emptied and the others stay. */
    method BoxClick(i: nat)
      requires Valid() && i < |boxes|
      modifies this
      ensures Valid()
      ensures boxes == if old(complete) then old(boxes) else old(boxes)[i := Empty]
      ensures puzzle == old(puzzle) && complete == old(complete) && showHint == old(showHint)
      ensures score == old(score) && solved == old(solved)
    {
      if complete {
        return;
      }
      boxes := boxes[i := Empty];
    }

    /** `clearAll`: every box emptied, whether or not the puzzle is complete; `complete` is kept. */
    method ClearAll()
      requires Valid()
      modifies this
      ensures Valid()
      ensures boxes == Blank(|puzzle.word|)
      ensures puzzle == old(puzzle) && complete == old(complete) && showHint == old(showHint)
      ensures score == old(score) && solved == old(solved)
    {
      boxes := Blank(|puzzle.word|);
    }

    /** `nextPuzzle`: the randomly drawn `Puzzles[draw]` with blank boxes, not complete, hint hidden. */
    method NextPuzzle(draw: nat)
      requires Valid() && draw < |Puzzles|
      modifies this
      ensures Valid()
      ensures puzzle == Puzzles[draw] && boxes == Blank(|puzzle.word|) && !complete && !showHint
      ensures score == old(score) && solved == old(solved)
    {
      puzzle := Puzzles[draw];
      boxes := Blank(|puzzle.word|);
      complete := false;
      showHint := false;
    }

    /** `toggleHint`: flips whether the first letter is shown, so two toggles change nothing. */
    method ToggleHint()
      requires Valid()
      modifies this
      ensures Valid()
      ensures showHint == !old(showHint)
      ensures puzzle == old(puzzle) && boxes == old(boxes) && complete == old(complete)
      ensures score == old(score) && solved == old(solved)
    {
      showHint := !showHint;
    }

    /**
     * The effect that runs after the boxes change: when every box is filled
     * and they spell the word, the puzzle is complete, the score grows by the
     * word's points and one more puzzle counts as solved.
     */
    method CompletionEffect()
      requires Valid()
      modifies this
      ensures Valid()
      ensures Solves(boxes, puzzle.word) ==>
                complete && score == old(score) + Points(puzzle.difficulty) && solved == old(solved) + 1
      ensures !Solves(boxes, puzzle.word) ==>
                complete == old(complete) && score == old(score) && solved == old(solved)
      ensures puzzle == old(puzzle) && boxes == old(boxes) && showHint == old(showHint)
    {
      var filled := forall j :: 0 <= j < |boxes| ==> boxes[j] != Empty;
      if filled {
        if Join(boxes) == puzzle.word {
          complete := true;
          score := score + Points(puzzle.difficulty);
          solved := solved + 1;
        }
      }
    }
  }
}
