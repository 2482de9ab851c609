/** The letters of the secret word, the guess step on them, the progress check,
    the progress display and the input policy of the hangman game. */
module Hangman {

  /** Rust's `u8`, the type of the turn counter. */
  newtype u8 = x: int | 0 <= x < 256

  /** The number of wrong guesses a game starts with. */
  const AllowedAttempts: u8 := 5

  /** The guess that ends the game at once, with no outcome. */
  const QuitSentinel: char := '*'

  /** One position of the secret word and whether the player has uncovered it. */
  datatype Letter = Letter(character: char, revealed: bool)

  /** What the game is after a guess. */
  datatype GameProgress = InProgress | Won | Lost

  /** What one `read_line` on standard input gives: the text read, line terminator
      included (empty at end of input), or an I/O error. */
  datatype LineRead = Line(text: string) | ReadError

  /** The characters of the letters, in order. */
  function Word(letters: seq<Letter>): string
  {
    seq(|letters|, i requires 0 <= i < |letters| => letters[i].character)
  }

  predicate AllRevealed(letters: seq<Letter>)
  {
    forall i :: 0 <= i < |letters| ==> letters[i].revealed
  }

  /** Whether the guess matches at least one position. */
  predicate Occurs(guess: char, letters: seq<Letter>)
  {
    exists i :: 0 <= i < |letters| && letters[i].character == guess
  }

  // ---------------------------------------------------------------------------
  // create_letters

  /** One hidden letter per character of the word. */
  function Hidden(word: string): seq<Letter>
  {
    seq(|word|, i requires 0 <= i < |word| => Letter(word[i], false))
  }

  /** Builds the letters by pushing one hidden letter per character of the word. */
  method CreateLetters(word: string) returns (letters: seq<Letter>)
    ensures |letters| == |word|
    ensures forall i :: 0 <= i < |letters| ==> letters[i].character == word[i] && !letters[i].revealed
    ensures letters == Hidden(word)
  {
    letters := [];
    for i := 0 to |word|
      invariant |letters| == i
      invariant forall k :: 0 <= k < i ==> letters[k] == Letter(word[k], false)
    {
      letters := letters + [Letter(word[i], false)];
    }
  }

  /** Read back in order, the created letters spell the word, and none is revealed. */
  lemma HiddenSpellsWord(word: string)
    ensures Word(Hidden(word)) == word
    ensures !AllRevealed(Hidden(word)) <==> word != []
  {
    if word != [] {
      assert !Hidden(word)[0].revealed;
    }
  }

  // ---------------------------------------------------------------------------
  // The guess step of the game loop

  /** What the guess does to one letter: a matching letter becomes revealed. */
  function RevealOne(letter: Letter, guess: char): Letter
  {
    if letter.character == guess then letter.(revealed := true) else letter
  }

  /** The letters after a guess: every matching position revealed, nothing else touched. */
  function RevealAll(letters: seq<Letter>, guess: char): seq<Letter>
  {
    seq(|letters|, i requires 0 <= i < |letters| => RevealOne(letters[i], guess))
  }

  /** A guess never changes a character; it reveals exactly the matching positions
      and keeps every other flag as it was. */
  lemma RevealAllEffect(letters: seq<Letter>, guess: char)
    ensures |RevealAll(letters, guess)| == |letters|
    ensures Word(RevealAll(letters, guess)) == Word(letters)
    ensures forall i :: 0 <= i < |letters| ==>
      RevealAll(letters, guess)[i].revealed == (letters[i].revealed || letters[i].character == guess)
  {
  }

  /** A guess that matches nothing leaves every letter as it was. */
  lemma RevealAllMiss(letters: seq<Letter>, guess: char)
    requires !Occurs(guess, letters)
    ensures RevealAll(letters, guess) == letters
  {
  }

  /** Guessing the same character twice reveals nothing more the second time, and it
      still matches, so it still costs no turn. */
  lemma RevealAllIdempotent(letters: seq<Letter>, guess: char)
    ensures RevealAll(RevealAll(letters, guess), guess) == RevealAll(letters, guess)
    ensures Occurs(guess, RevealAll(letters, guess)) == Occurs(guess, letters)
  {
    var once := RevealAll(letters, guess);
    if Occurs(guess, letters) {
      var i :| 0 <= i < |letters| && letters[i].character == guess;
      assert once[i].character == guess;
    }
  }

  // ---------------------------------------------------------------------------
  // check_progress

  /** The outcome of the state: a win is checked before a loss. */
  function Progress(turnsLeft: u8, letters: seq<Letter>): GameProgress
  {
    if AllRevealed(letters) then Won
    else if turnsLeft > 0 then InProgress
    else Lost
  }

  /** Folds an `allRevealed` flag over every letter, then classifies the state. */
  method CheckProgress(turnsLeft: u8, letters: seq<Letter>) returns (progress: GameProgress)
    ensures progress == Won <==> forall i :: 0 <= i < |letters| ==> letters[i].revealed
    ensures progress == Lost <==> (exists i :: 0 <= i < |letters| && !letters[i].revealed) && turnsLeft == 0
    ensures progress == InProgress <==> (exists i :: 0 <= i < |letters| && !letters[i].revealed) && turnsLeft > 0
    ensures progress == Progress(turnsLeft, letters)
  {
    var allRevealed := true;
    for i := 0 to |letters|
      invariant allRevealed <==> forall k :: 0 <= k < i ==> letters[k].revealed
    {
      if !letters[i].revealed {
        allRevealed := false;
      }
    }
    if allRevealed {
      return Won;
    }
    if turnsLeft > 0 {
      return InProgress;
    }
    return Lost;
  }

  /** When the last letter is revealed on the same guess that spends the last turn,
      the game is won. */
  lemma WinBeatsLoss(letters: seq<Letter>)
    requires AllRevealed(letters)
    ensures Progress(0, letters) == Won
  {
  }

  /** A word with no characters is won as soon as it is checked. */
  lemma EmptyWordIsWon(turnsLeft: u8)
    ensures Progress(turnsLeft, []) == Won
  {
  }

  // ---------------------------------------------------------------------------
  // display_progress

  /** How one letter is shown: its character once revealed, an underscore before. */
  function Shown(letter: Letter): char
  {
    if letter.revealed then letter.character else '_'
  }

  /** A space and the shown character, for every letter in order. */
  function Cells(letters: seq<Letter>): string
  {
    if letters == [] then []
    else Cells(letters[..|letters| - 1]) + [' ', Shown(letters[|letters| - 1])]
  }

  /** The progress line. */
  function Mask(letters: seq<Letter>): string
  {
    "Progress:" + Cells(letters)
  }

  lemma {:induction false} CellsLength(letters: seq<Letter>)
    ensures |Cells(letters)| == 2 * |letters|
  {
    if letters != [] {
      CellsLength(letters[..|letters| - 1]);
    }
  }

  lemma {:induction false} CellsAt(letters: seq<Letter>, i: nat)
    requires i < |letters|
    ensures |Cells(letters)| == 2 * |letters|
    ensures Cells(letters)[2 * i] == ' ' && Cells(letters)[2 * i + 1] == Shown(letters[i])
  {
    var front := letters[..|letters| - 1];
    CellsLength(letters);
    CellsLength(front);
    if i < |letters| - 1 {
      CellsAt(front, i);
    }
  }

  /** The progress line is "Progress:" followed by two characters per letter; for the
      empty word it is "Progress:" alone. */
  lemma MaskShape(letters: seq<Letter>)
    ensures |Mask(letters)| == 9 + 2 * |letters|
    ensures Mask(letters)[..9] == "Progress:"
    ensures letters == [] ==> Mask(letters) == "Progress:"
  {
    CellsLength(letters);
  }

  /** At each letter's place the progress line shows a space and the letter's character
      when revealed, an underscore when not. */
  lemma MaskAt(letters: seq<Letter>, i: nat)
    requires i < |letters|
    ensures |Mask(letters)| == 9 + 2 * |letters|
    ensures Mask(letters)[9 + 2 * i] == ' '
    ensures Mask(letters)[10 + 2 * i] == if letters[i].revealed then letters[i].character else '_'
  {
    CellsAt(letters, i);
  }

  /** Once every letter is revealed the progress line spells the word. */
  lemma MaskOfSolvedWord(letters: seq<Letter>)
    requires AllRevealed(letters)
    ensures |Mask(letters)| == 9 + 2 * |letters|
    ensures forall i :: 0 <= i < |letters| ==> Mask(letters)[10 + 2 * i] == Word(letters)[i]
  {
    CellsLength(letters);
    forall i | 0 <= i < |letters|
      ensures Mask(letters)[10 + 2 * i] == Word(letters)[i]
    {
      MaskAt(letters, i);
    }
  }

  /** Builds the progress line by pushing a space and a shown character per letter,
      and reports the number of letters beside it. */
  method DisplayProgress(letters: seq<Letter>) returns (display: string, count: nat)
    ensures display == Mask(letters)
    ensures |display| == 9 + 2 * |letters| && count == |letters|
  {
    display := "Progress:";
    for i := 0 to |letters|
      invariant display == "Progress:" + Cells(letters[..i])
    {
      assert letters[..i + 1][..i] == letters[..i];
      display := display + [' '];
      if letters[i].revealed {
        display := display + [letters[i].character];
      } else {
        display := display + ['_'];
      }
    }
    assert letters[..|letters|] == letters;
    CellsLength(letters);
    count := |letters|;
  }

  // ---------------------------------------------------------------------------
  // read_user_input_character

  /** The guess a line of input stands for: its first character, or the quit
      sentinel when nothing was read or the read failed. */
  function ReadUserInputCharacter(read: LineRead): (c: char)
    ensures read.Line? && read.text != [] ==> c == read.text[0]
    ensures c == QuitSentinel <==> !read.Line? || read.text == [] || read.text[0] == QuitSentinel
  {
    match read
    case Line(text) => if text != [] then text[0] else QuitSentinel
    case ReadError => QuitSentinel
  }

  /** A line the player leaves empty still holds its terminator, so it is a guess of
      the newline character and not a request to quit. */
  lemma EmptyTypedLineIsAGuess()
    ensures ReadUserInputCharacter(Line("\n")) == '\n'
  {
  }
}
