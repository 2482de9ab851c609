/** One game: the state `main` keeps (the selected word, its letters and the turn
    counter), the guess step that changes it, and the loop that reads guesses until
    the player quits, wins or loses. */
module Session {
  import opened Hangman
  import WordList

  /** The value of a game's state at one moment. */
  datatype State = State(letters: seq<Letter>, turnsLeft: u8)

  /** How the loop ends: the player quit, or the game was won or lost. */
  datatype Ending = Quit | Over(progress: GameProgress)

  /** The ending and the state the loop leaves behind. */
  datatype Outcome = Outcome(ending: Ending, final: State)

  /** The state a game starts in. */
  function Initial(word: string): State
  {
    State(Hidden(word), AllowedAttempts)
  }

  /** One guess: reveal every matching position; a guess that matched nothing costs a turn. */
  function GuessStep(s: State, guess: char): State
    requires s.turnsLeft > 0
  {
    State(RevealAll(s.letters, guess),
          if Occurs(guess, s.letters) then s.turnsLeft else s.turnsLeft - 1)
  }

  /** The loop of `main` run on the lines of standard input in order. Once the lines
      run out, `read_line` reads nothing, which is the quit sentinel. */
  function Run(s: State, inputs: seq<LineRead>): Outcome
    requires s.turnsLeft > 0
    decreases |inputs|
  {
    if inputs == [] then Outcome(Quit, s)
    else
      var userChar := ReadUserInputCharacter(inputs[0]);
      if userChar == QuitSentinel then Outcome(Quit, s)
      else
        var next := GuessStep(s, userChar);
        match Progress(next.turnsLeft, next.letters)
        case InProgress => Run(next, inputs[1..])
        case Won => Outcome(Over(Won), next)
        case Lost => Outcome(Over(Lost), next)
  }

  // ---------------------------------------------------------------------------
  // The guess step

  /** A guess that matches costs no turn and reveals every matching position. */
  lemma GuessHit(s: State, guess: char)
    requires s.turnsLeft > 0 && Occurs(guess, s.letters)
    ensures GuessStep(s, guess).turnsLeft == s.turnsLeft
    ensures Word(GuessStep(s, guess).letters) == Word(s.letters)
    ensures forall i :: 0 <= i < |s.letters| && s.letters[i].character == guess ==>
      GuessStep(s, guess).letters[i].revealed
  {
    RevealAllEffect(s.letters, guess);
  }

  /** A guess that matches nothing costs exactly one turn and changes no flag. */
  lemma GuessMiss(s: State, guess: char)
    requires s.turnsLeft > 0 && !Occurs(guess, s.letters)
    ensures GuessStep(s, guess) == State(s.letters, s.turnsLeft - 1)
  {
    RevealAllMiss(s.letters, guess);
  }

  /** Guessing again a character of the word changes nothing and costs nothing. */
  lemma GuessIdempotent(s: State, guess: char)
    requires s.turnsLeft > 0 && Occurs(guess, s.letters)
    ensures GuessStep(GuessStep(s, guess), guess) == GuessStep(s, guess)
  {
    RevealAllIdempotent(s.letters, guess);
  }

  // ---------------------------------------------------------------------------
  // Whole games

  /** Over a whole game no character changes, no flag is lowered, and the turn counter
      never grows. */
  lemma {:induction false} RunKeepsWord(s: State, inputs: seq<LineRead>)
    requires s.turnsLeft > 0
    ensures var f := Run(s, inputs).final;
      Word(f.letters) == Word(s.letters) && f.turnsLeft <= s.turnsLeft
      && forall i :: 0 <= i < |s.letters| && s.letters[i].revealed ==> f.letters[i].revealed
    decreases |inputs|
  {
    if inputs != [] {
      var userChar := ReadUserInputCharacter(inputs[0]);
      if userChar != QuitSentinel {
        var next := GuessStep(s, userChar);
        RevealAllEffect(s.letters, userChar);
        if Progress(next.turnsLeft, next.letters) == InProgress {
          RunKeepsWord(next, inputs[1..]);
        }
      }
    }
  }

  /** The loop ends with a win only when every letter is revealed, with a loss only when
      some letter is hidden and no turn is left, and on a quit with turns to spare. */
  lemma {:induction false} RunEnding(s: State, inputs: seq<LineRead>)
    requires s.turnsLeft > 0
    ensures var o := Run(s, inputs);
      (o.ending == Over(Won) ==> AllRevealed(o.final.letters))
      && (o.ending == Over(Lost) ==> !AllRevealed(o.final.letters) && o.final.turnsLeft == 0)
      && (o.ending == Quit ==> o.final.turnsLeft > 0)
      && o.ending != Over(InProgress)
    decreases |inputs|
  {
    if inputs != [] {
      var userChar := ReadUserInputCharacter(inputs[0]);
      if userChar != QuitSentinel {
        var next := GuessStep(s, userChar);
        if Progress(next.turnsLeft, next.letters) == InProgress {
          RunEnding(next, inputs[1..]);
        }
      }
    }
  }

  /** Losing takes at least as many lines of input as there were turns left: each guess
      costs at most one turn. */
  lemma {:induction false} LossNeedsAGuessPerTurn(s: State, inputs: seq<LineRead>)
    requires s.turnsLeft > 0
    requires Run(s, inputs).ending == Over(Lost)
    ensures |inputs| >= s.turnsLeft as int
    decreases |inputs|
  {
    var userChar := ReadUserInputCharacter(inputs[0]);
    var next := GuessStep(s, userChar);
    if Progress(next.turnsLeft, next.letters) == InProgress {
      LossNeedsAGuessPerTurn(next, inputs[1..]);
    }
  }

  /** A quit on the first line ends the game with nothing revealed and no turn spent. */
  lemma QuitFirst(s: State, inputs: seq<LineRead>)
    requires s.turnsLeft > 0
    requires inputs != [] && ReadUserInputCharacter(inputs[0]) == QuitSentinel
    ensures Run(s, inputs) == Outcome(Quit, s)
  {
  }

  /** A game on the empty word is won by its first guess, which costs a turn. */
  lemma EmptyWordIsWonOnFirstGuess(line: string)
    requires line != [] && line[0] != QuitSentinel
    ensures Run(Initial(""), [Line(line)]) == Outcome(Over(Won), State([], AllowedAttempts - 1))
  {
    assert !Occurs(line[0], []);
  }

  /** "cat": after guessing c the game goes on with five turns and shows "c _ _";
      guessing z, a and t next wins with four turns left. */
  lemma CatIsWonWithFourTurnsLeft()
    ensures var s1 := GuessStep(Initial("cat"), 'c');
      s1.turnsLeft == 5 && Progress(s1.turnsLeft, s1.letters) == InProgress
      && Mask(s1.letters) == "Progress: c _ _"
    ensures Run(Initial("cat"), [Line("c\n"), Line("z\n"), Line("a\n"), Line("t\n")])
      == Outcome(Over(Won), State([Letter('c', true), Letter('a', true), Letter('t', true)], 4))
  {
    var s0 := Initial("cat");
    assert s0.letters[0].character == 'c';
    var s1 := GuessStep(s0, 'c');
    assert s1 == State([Letter('c', true), Letter('a', false), Letter('t', false)], 5);
    var l := s1.letters;
    assert l[..2][..1] == [l[0]] && l[..1][..0] == [];
    assert Cells(l[..1]) == " c";
    assert Cells(l[..2]) == " c _";
    assert Mask(l) == "Progress: c _ _";
    assert !l[1].revealed;
    var s2 := GuessStep(s1, 'z');
    assert s2 == State(s1.letters, 4);
    var s3 := GuessStep(s2, 'a');
    assert s2.letters[1].character == 'a';
    assert s3 == State([Letter('c', true), Letter('a', true), Letter('t', false)], 4);
    var s4 := GuessStep(s3, 't');
    assert s3.letters[2].character == 't';
    assert s4 == State([Letter('c', true), Letter('a', true), Letter('t', true)], 4);
  }

  /** "ox": five guesses that all miss lose the game. */
  lemma OxIsLostAfterFiveMisses()
    ensures Run(Initial("ox"), [Line("q"), Line("w"), Line("e"), Line("r"), Line("t")]).ending
      == Over(Lost)
  {
    var s0 := Initial("ox");
    var hidden := [Letter('o', false), Letter('x', false)];
    assert s0.letters == hidden;
    forall c | c in "qwert"
      ensures !Occurs(c, hidden) && RevealAll(hidden, c) == hidden
    {
    }
    assert GuessStep(s0, 'q') == State(hidden, 4);
    assert GuessStep(State(hidden, 4), 'w') == State(hidden, 3);
    assert GuessStep(State(hidden, 3), 'e') == State(hidden, 2);
    assert GuessStep(State(hidden, 2), 'r') == State(hidden, 1);
    assert GuessStep(State(hidden, 1), 't') == State(hidden, 0);
    assert !AllRevealed(hidden) by { assert !hidden[0].revealed; }
    var inputs := [Line("q"), Line("w"), Line("e"), Line("r"), Line("t")];
    assert Run(State(hidden, 1), inputs[4..]).ending == Over(Lost);
    assert Run(State(hidden, 2), inputs[3..]).ending == Over(Lost);
    assert Run(State(hidden, 3), inputs[2..]).ending == Over(Lost);
    assert Run(State(hidden, 4), inputs[1..]).ending == Over(Lost);
  }

  // ---------------------------------------------------------------------------
  // The game as `main` holds it

  class Game {
    /** The word chosen at start, shown when the game ends. */
    const selectedWord: string
    /** One letter per character of the word, updated in place by each guess. */
    const letters: array<Letter>
    var turnsLeft: u8

    ghost function Current(): State
      reads this, letters
    {
      State(letters[..], turnsLeft)
    }

    /** The letters always spell the selected word, and the counter never exceeds the
        number of attempts a game starts with. */
    ghost predicate Valid()
      reads this, letters
    {
      Word(letters[..]) == selectedWord && turnsLeft <= AllowedAttempts
    }

    constructor (word: string)
      ensures Valid() && fresh(letters)
      ensures selectedWord == word && Current() == Initial(word)
    {
      turnsLeft := AllowedAttempts;
      selectedWord := word;
      var created := CreateLetters(word);
      letters := new Letter[|created|](i requires 0 <= i < |created| => created[i]);
      new;
      assert letters[..] == created;
      HiddenSpellsWord(word);
    }

    /** The guess step: reveal every letter equal to the guess in place, and spend a
        turn when none was. */
    method Guess(guess: char) returns (atLeastOneRevealed: bool)
      requires Valid() && turnsLeft > 0
      modifies letters, this`turnsLeft
      ensures Valid()
      ensures Current() == GuessStep(old(Current()), guess)
      ensures atLeastOneRevealed == Occurs(guess, old(letters[..]))
    {
      atLeastOneRevealed := false;
      for i := 0 to letters.Length
        invariant forall k :: 0 <= k < i ==> letters[k] == RevealOne(old(letters[k]), guess)
        invariant forall k :: i <= k < letters.Length ==> letters[k] == old(letters[k])
        invariant atLeastOneRevealed <==> exists k :: 0 <= k < i && old(letters[k]).character == guess
        invariant turnsLeft == old(turnsLeft)
      {
        if letters[i].character == guess {
          letters[i] := letters[i].(revealed := true);
          atLeastOneRevealed := true;
        }
      }
      if !atLeastOneRevealed {
        turnsLeft := turnsLeft - 1;
      }
      assert letters[..] == RevealAll(old(letters[..]), guess);
      RevealAllEffect(old(letters[..]), guess);
    }

    /** Reads a line per turn until the player quits, wins or loses; a guess is only
        made with a turn left, so the counter never drops below zero. */
    method Play(inputs: seq<LineRead>) returns (ending: Ending)
      requires Valid() && turnsLeft > 0
      modifies letters, this`turnsLeft
      ensures Valid()
      ensures Outcome(ending, Current()) == Run(old(Current()), inputs)
    {
      var k := 0;
      while true
        invariant 0 <= k <= |inputs|
        invariant Valid() && turnsLeft > 0
        invariant Run(Current(), inputs[k..]) == Run(old(Current()), inputs)
        decreases |inputs| - k
      {
        var line := if k < |inputs| then inputs[k] else Line([]);
        var userChar := ReadUserInputCharacter(line);
        if userChar == QuitSentinel {
          return Quit;
        }
        ghost var before := Current();
        var _ := Guess(userChar);
        assert inputs[k..][1..] == inputs[k + 1..];
        var progress := CheckProgress(turnsLeft, letters[..]);
        match progress
        case InProgress =>
          k := k + 1;
        case Won =>
          return Over(Won);
        case Lost =>
          return Over(Lost);
      }
    }
  }

  /** `main`: start a game on the selected word and play it on the lines of input;
      the ending and the word are what the program reports. */
  method PlayHangman(contents: string, randomIndex: nat, inputs: seq<LineRead>)
    returns (ending: Ending, selectedWord: string)
    requires randomIndex < |WordList.AvailableWords(contents)|
    ensures selectedWord == WordList.SelectWord(contents, randomIndex)
    ensures ending == Run(Initial(selectedWord), inputs).ending
  {
    selectedWord := WordList.SelectWord(contents, randomIndex);
    var game := new Game(selectedWord);
    ending := game.Play(inputs);
  }
}
