/** The word list of `select_word`: the contents of the word file, trimmed of
    surrounding white space, split at every newline; one of its entries, chosen by
    an index the caller supplies, becomes the secret word. */
module WordList {

  /** Rust's `char::is_whitespace`: the characters with Unicode's White_Space property. */
  predicate IsWhiteSpace(c: char)
  {
    var n := c as int;
    (0x09 <= n <= 0x0D) || n == 0x20 || n == 0x85 || n == 0xA0 || n == 0x1680
    || (0x2000 <= n <= 0x200A) || n == 0x2028 || n == 0x2029 || n == 0x202F
    || n == 0x205F || n == 0x3000
  }

  /** `s` without its leading white space. */
  function TrimStart(s: string): (r: string)
    ensures |r| <= |s| && r == s[|s| - |r|..]
    ensures forall i :: 0 <= i < |s| - |r| ==> IsWhiteSpace(s[i])
    ensures r != [] ==> !IsWhiteSpace(r[0])
  {
    if s != [] && IsWhiteSpace(s[0]) then TrimStart(s[1..]) else s
  }

  /** `s` without its trailing white space. */
  function TrimEnd(s: string): (r: string)
    ensures |r| <= |s| && r == s[..|r|]
    ensures forall i :: |r| <= i < |s| ==> IsWhiteSpace(s[i])
    ensures r != [] ==> !IsWhiteSpace(r[|r| - 1])
  {
    if s != [] && IsWhiteSpace(s[|s| - 1]) then TrimEnd(s[..|s| - 1]) else s
  }

  /** Rust's `str::trim`. */
  function Trim(s: string): string
  {
    TrimEnd(TrimStart(s))
  }

  /** Rust's `str::split("\n")`: the pieces between newlines, so one more piece than
      there are newlines, and never none. */
  function Split(s: string): (pieces: seq<string>)
    ensures |pieces| >= 1
  {
    if s == [] then [[]]
    else
      var rest := Split(s[1..]);
      if s[0] == '\n' then [[]] + rest
      else [[s[0]] + rest[0]] + rest[1..]
  }

  /** The pieces joined back with a newline between neighbours. */
  function Join(pieces: seq<string>): string
  {
    if |pieces| <= 1 then (if pieces == [] then [] else pieces[0])
    else pieces[0] + "\n" + Join(pieces[1..])
  }

  /** Splitting loses nothing: joining the pieces gives back the text. */
  lemma {:induction false} JoinSplit(s: string)
    ensures Join(Split(s)) == s
  {
    if s != [] {
      var rest := Split(s[1..]);
      JoinSplit(s[1..]);
      if s[0] == '\n' {
        assert Split(s) == [[]] + rest;
        assert ([[]] + rest)[1..] == rest;
      } else {
        var pieces := Split(s);
        assert pieces == [[s[0]] + rest[0]] + rest[1..];
        if |rest| > 1 {
          assert pieces[1..] == rest[1..];
          assert Join(rest) == rest[0] + "\n" + Join(rest[1..]);
        }
      }
    }
  }

  /** No piece holds a newline. */
  lemma {:induction false} SplitPiecesHaveNoNewline(s: string)
    ensures forall k :: 0 <= k < |Split(s)| ==> '\n' !in Split(s)[k]
  {
    if s != [] {
      SplitPiecesHaveNoNewline(s[1..]);
    }
  }

  /** The candidate words: the trimmed file contents, split at newlines. */
  function AvailableWords(contents: string): (words: seq<string>)
    ensures |words| >= 1
  {
    Split(Trim(contents))
  }

  /** The word at the caller-supplied index among the candidates. */
  function SelectWord(contents: string, randomIndex: nat): (word: string)
    requires randomIndex < |AvailableWords(contents)|
    ensures word in AvailableWords(contents)
    ensures '\n' !in word
    ensures |word| <= |contents|
  {
    SplitPiecesHaveNoNewline(Trim(contents));
    PieceLength(Trim(contents), randomIndex);
    AvailableWords(contents)[randomIndex]
  }

  /** No piece is longer than the text it was split from. */
  lemma {:induction false} PieceLength(s: string, k: nat)
    requires k < |Split(s)|
    ensures |Split(s)[k]| <= |s|
  {
    if s != [] {
      var rest := Split(s[1..]);
      if s[0] == '\n' {
        if k > 0 {
          PieceLength(s[1..], k - 1);
        }
      } else if k == 0 {
        PieceLength(s[1..], 0);
      } else {
        PieceLength(s[1..], k);
      }
    }
  }

  /** Empty contents still give one candidate, the empty word, so a game can always start. */
  lemma EmptyFileGivesEmptyWord()
    ensures AvailableWords("") == [""]
    ensures SelectWord("", 0) == ""
  {
  }
}
