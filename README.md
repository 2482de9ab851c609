# Hangman, modelled in Dafny

This project models the game logic of a terminal hangman game written in Rust
(`src/main.rs`). A word is picked from a word list. The program keeps one `Letter`
(a character and a `revealed` flag) per character of the word, and a `u8` counter
of turns that starts at `ALLOWED_ATTEMPTS = 5`. Each turn it reads one line and
takes its first character as the guess. The guess reveals every matching letter in
place; a guess that matches nothing costs a turn. `check_progress` then decides
whether the game is won, lost or still going. The guess `*` quits at once.

Modules:

- `WordList` (`wordlist.dfy`): how `select_word` turns the word file's contents into
  candidate words (Rust's `trim`, then `split("\n")`) and picks one by index.
- `Hangman` (`hangman.dfy`): `Letter`, `GameProgress`, `create_letters`, the effect of
  a guess on the letters, `check_progress`, `display_progress` and
  `read_user_input_character`. Each loop of the source is a method proved against a
  specification function.
- `Session` (`session.dfy`): the class `Game` holding what `main` keeps (the
  selected word, the letters as an array updated in place, the turn counter), its
  `Guess` and `Play` methods, and `Run`, a function that gives the result of the
  whole loop of `main` on a sequence of input lines. Lemmas about `Run` state what
  holds over whole games.

The turn counter is modelled as a `u8` newtype. `Guess` requires a turn left, and
`Play`'s loop invariant proves that every guess is made with `turnsLeft > 0`, so the
`u8` decrement never underflows.

Where the description of the program and its code differ, the model follows the code:

- A line the player leaves empty is read with its newline. So the guess is `'\n'`,
  which costs a turn. Among reads that bring no character of the player's own, only
  end of input (nothing read) or a read error gives the quit sentinel; a line that
  starts with `*` gives it too (`Hangman.EmptyTypedLineIsAGuess`).
- The word list is never empty: splitting even empty contents yields one empty
  word. So there is no failure path for an empty list. A game on the empty word is
  won by the first guess that is not `*` (`Session.EmptyWordIsWonOnFirstGuess`).

## Model

| member | source | states |
|---|---|---|
| `Hangman.Hidden` | src/main.rs:87-98 | defines the letters `create_letters` builds: one hidden letter per character, in order |
| `Hangman.RevealAll` | src/main.rs:43-48 | defines the letters after a guess: each letter whose character equals the guess is revealed |
| `Hangman.Progress` | src/main.rs:137-145 | defines the classification: `Won` when all are revealed, else `InProgress` with a turn left, else `Lost` |
| `Hangman.Mask` | src/main.rs:100-111 | defines the progress line: "Progress:" then a space and the shown character per letter |
| `WordList.Trim` | src/main.rs:80 | defines Rust's `trim`: leading then trailing white space removed |
| `Session.GuessStep` | src/main.rs:41-52 | defines one guess on a state: reveal the matches, and spend a turn when there were none |
| `Session.Run` | src/main.rs:27-65 | defines the loop of `main` on a sequence of input lines: quit on `*` or end of input, otherwise guess and stop on `Won` or `Lost` |
| `Hangman.CreateLetters` | src/main.rs:87-98 | one letter per character of the word, in order, with that character and not revealed; the length equals the word's |
| `Hangman.HiddenSpellsWord` | src/main.rs:87-98 | read back in order, the created letters spell the word exactly; they are all revealed only when the word is empty |
| `Hangman.RevealAllEffect` | src/main.rs:43-48 | a guess keeps the number of letters and every character; a flag is set afterwards iff it was set before or its character equals the guess |
| `Hangman.RevealAllMiss` | src/main.rs:41-52 | a guess that matches no position leaves every letter unchanged |
| `Hangman.RevealAllIdempotent` | src/main.rs:43-52 | revealing the same guess twice equals revealing it once, and the guess matches afterwards iff it matched before |
| `Hangman.CheckProgress` | src/main.rs:128-146 | `Won` iff every letter is revealed, whatever the turns; `Lost` iff some letter is hidden and no turn is left; `InProgress` iff some letter is hidden and a turn is left |
| `Hangman.WinBeatsLoss` | src/main.rs:137-145 | with every letter revealed and no turn left the state is `Won`, not `Lost` |
| `Hangman.EmptyWordIsWon` | src/main.rs:129-139 | a state with no letters is `Won` |
| `Hangman.MaskShape` | src/main.rs:100-111 | the progress line has length 9 + 2·n and starts with "Progress:"; for the empty word it is "Progress:" alone |
| `Hangman.MaskAt` | src/main.rs:100-111 | at letter i the progress line shows a space then the character if revealed, else `_` |
| `Hangman.MaskOfSolvedWord` | src/main.rs:100-111 | once every letter is revealed the progress line shows the word's characters in order |
| `Hangman.DisplayProgress` | src/main.rs:100-114 | the string built by pushing is the progress line, of length 9 + 2·n, and the count reported is the number of letters |
| `Hangman.ReadUserInputCharacter` | src/main.rs:116-126 | the guess is the first character of the line read; it is the quit sentinel `*` iff the read failed, read nothing, or the line starts with `*` |
| `Hangman.EmptyTypedLineIsAGuess` | src/main.rs:119-123 | a line holding only its newline gives the guess `'\n'`, not the quit sentinel |
| `WordList.TrimStart` | src/main.rs:80 | the result is a suffix of the text; everything dropped is white space and the result does not start with white space |
| `WordList.TrimEnd` | src/main.rs:80 | the result is a prefix of the text; everything dropped is white space and the result does not end with white space |
| `WordList.Split` | src/main.rs:80 | splitting at newlines yields at least one piece |
| `WordList.JoinSplit` | src/main.rs:80 | joining the pieces with newlines gives back the text that was split |
| `WordList.SplitPiecesHaveNoNewline` | src/main.rs:80 | no piece contains a newline |
| `WordList.AvailableWords` | src/main.rs:80 | the list of candidate words is never empty |
| `WordList.SelectWord` | src/main.rs:80-84 | the selected word is one of the candidates, holds no newline and is no longer than the file contents |
| `WordList.EmptyFileGivesEmptyWord` | src/main.rs:80-84 | empty contents give exactly one candidate, the empty word, at index 0 |
| `Session.GuessHit` | src/main.rs:41-52 | a guess that matches costs no turn, keeps every character and reveals every matching position |
| `Session.GuessMiss` | src/main.rs:41-52 | a guess that matches nothing leaves every letter as it was and costs exactly one turn |
| `Session.GuessIdempotent` | src/main.rs:43-52 | guessing again a character of the word changes neither the flags nor the turns |
| `Session.RunKeepsWord` | src/main.rs:27-65 | over a whole game no character changes, no revealed flag is cleared, and the turn counter never grows |
| `Session.RunEnding` | src/main.rs:54-64 | the loop ends in a win only with every letter revealed, in a loss only with a letter hidden and no turn left, on a quit only with a turn left, and never in `InProgress` |
| `Session.LossNeedsAGuessPerTurn` | src/main.rs:41-64 | a loss takes at least as many input lines as there were turns left |
| `Session.QuitFirst` | src/main.rs:35-39 | a first line that reads as `*` ends the loop with no reveal and no turn spent |
| `Session.EmptyWordIsWonOnFirstGuess` | src/main.rs:41-58 | on the empty word the first guess that is not `*` costs a turn and wins |
| `Session.CatIsWonWithFourTurnsLeft` | src/main.rs:27-65 | on "cat", after c the game is `InProgress` with 5 turns and the progress line is "Progress: c _ _"; then z, a, t win with 4 turns left |
| `Session.OxIsLostAfterFiveMisses` | src/main.rs:27-65 | on "ox", five guesses that all miss lose the game |
| `Session.Game.constructor` | src/main.rs:21-23 | a new game holds the selected word, its hidden letters and 5 turns |
| `Session.Game.Guess` | src/main.rs:41-52 | the letters become the guess's reveal of the old letters, in place; the flag says whether some position matched; the counter drops by one exactly when none did; the word and the bound of 5 are kept |
| `Session.Game.Play` | src/main.rs:27-65 | the ending and the final state are those `Run` gives for the old state and the input lines; every guess is made with a turn left |
| `Session.PlayHangman` | src/main.rs:20-71 | the game is played on the selected word, and its ending is the one `Run` gives from the initial state |

## Left out

- Opening and reading `words.txt` is I/O: the file's contents are a parameter.
- The random index from `rand::thread_rng().gen_range` comes from a foreign random source: it is a parameter, required to be in range.
- `io::stdin().read_line` is I/O: the lines it would return are a parameter, and end of input is an empty line.
- All printing and the colours of the `colored` crate are presentation. The content of the progress line is modelled (`Hangman.DisplayProgress`); the lines printed each turn are not recorded by `Play`, and the count is not rendered as text.
- Rust strings are UTF-8 byte strings; the model works on sequences of Unicode scalar values, which is what `chars()` iterates.
- The `u8` decrement's overflow behaviour (a panic or a wrap-around) is not modelled: it cannot happen, because every guess is proved to be made with a turn left.
