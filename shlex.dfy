/** Python's `shlex.split(s)`: POSIX shell-like splitting with whitespace
    splitting and no comments. Blanks (space, tab, carriage return, line
    feed) separate words; single quotes take everything up to the next
    single quote literally; double quotes do too, except that a backslash
    inside them escapes a following double quote or backslash; a backslash
    outside quotes takes the next character literally. A quote that is
    never closed, or a backslash at the very end, raises `ValueError`. */
module Shlex {
  import opened Wrappers
  import opened Text

  predicate IsShellSpace(c: char) {
    c == ' ' || c == '\t' || c == '\r' || c == '\n'
  }

  predicate IsQuote(c: char) {
    c == '\'' || c == '"'
  }

  /** A character that is not a blank, a quote or a backslash. */
  predicate IsPlainChar(c: char) {
    !IsShellSpace(c) && !IsQuote(c) && c != '\\'
  }

  /** A non-empty word of plain characters: `shlex.split` keeps it as it is. */
  predicate IsPlainWord(w: string) {
    w != [] && forall k :: 0 <= k < |w| ==> IsPlainChar(w[k])
  }

  predicate AllPlain(ws: seq<string>) {
    forall k :: 0 <= k < |ws| ==> IsPlainWord(ws[k])
  }

  /** The states of `shlex.read_token`: between words (`' '`), inside a
      word (`'a'`), inside quotes, and after a backslash, which resumes
      inside double quotes or inside a word. A word state always holds a
      token that is to be emitted: it is entered with a character or on
      leaving quotes, which marks even an empty token as quoted. */
  datatype LexState = Between | InWord | InQuote(quote: char) | Escaped(inDouble: bool)

  /** The lexer between two characters: its state, the token read so far
      and the words already emitted. */
  datatype Lexer = Lexer(state: LexState, token: string, words: seq<string>)

  /** What one character does to the lexer. */
  function Step(l: Lexer, c: char): Lexer {
    match l.state
    case Between =>
      if IsShellSpace(c) then l
      else if c == '\\' then Lexer(Escaped(false), "", l.words)
      else if IsQuote(c) then Lexer(InQuote(c), "", l.words)
      else Lexer(InWord, [c], l.words)
    case InWord =>
      if IsShellSpace(c) then Lexer(Between, "", l.words + [l.token])
      else if IsQuote(c) then l.(state := InQuote(c))
      else if c == '\\' then l.(state := Escaped(false))
      else l.(token := l.token + [c])
    case InQuote(q) =>
      if c == q then l.(state := InWord)
      else if c == '\\' && q == '"' then l.(state := Escaped(true))
      else l.(token := l.token + [c])
    case Escaped(inDouble) =>
      var kept := if inDouble && c != '\\' && c != '"' then l.token + ['\\', c] else l.token + [c];
      Lexer(if inDouble then InQuote('"') else InWord, kept, l.words)
  }

  /** The end of the text: a pending word is emitted; inside quotes or
      after a backslash the split fails. */
  function Finish(l: Lexer): Result<seq<string>, string> {
    match l.state
    case Between => Ok(l.words)
    case InWord => Ok(l.words + [l.token])
    case InQuote(_) => Err("No closing quotation")
    case Escaped(_) => Err("No escaped character")
  }

  function Lex(s: string, l: Lexer): Result<seq<string>, string>
    decreases |s|
  {
    if s == [] then Finish(l) else Lex(s[1..], Step(l, s[0]))
  }

  /** `shlex.split(s)`: the words, or the message of the `ValueError`. */
  function ShlexSplit(s: string): Result<seq<string>, string> {
    Lex(s, Lexer(Between, "", []))
  }

  /** Plain characters extend the current word. */
  lemma {:induction false} LexPlainRun(w: string, rest: string, token: string, words: seq<string>)
    requires forall k :: 0 <= k < |w| ==> IsPlainChar(w[k])
    ensures Lex(w + rest, Lexer(InWord, token, words)) == Lex(rest, Lexer(InWord, token + w, words))
    decreases |w|
  {
    if w == [] {
      assert w + rest == rest;
      assert token + w == token;
    } else {
      var s := w + rest;
      assert s[0] == w[0] && s[1..] == w[1..] + rest;
      assert Step(Lexer(InWord, token, words), w[0]) == Lexer(InWord, token + [w[0]], words);
      LexPlainRun(w[1..], rest, token + [w[0]], words);
      assert token + [w[0]] + w[1..] == token + w;
    }
  }

  /** A plain word between words is read whole and left open. */
  lemma LexFirstWord(w: string, after: string, words: seq<string>)
    requires IsPlainWord(w)
    ensures Lex(w + after, Lexer(Between, "", words)) == Lex(after, Lexer(InWord, w, words))
  {
    var s := w + after;
    assert s[0] == w[0] && s[1..] == w[1..] + after;
    assert Step(Lexer(Between, "", words), w[0]) == Lexer(InWord, [w[0]], words);
    LexPlainRun(w[1..], after, [w[0]], words);
    assert [w[0]] + w[1..] == w;
  }

  /** A space closes the open word. */
  lemma LexSpace(rest: string, token: string, words: seq<string>)
    ensures Lex(" " + rest, Lexer(InWord, token, words)) == Lex(rest, Lexer(Between, "", words + [token]))
  {
    assert (" " + rest)[0] == ' ' && (" " + rest)[1..] == rest;
  }

  /** Plain words joined by single spaces are read one by one; the last
      one is still open when the text after them begins. */
  lemma {:induction false} LexPlainWords(ws: seq<string>, rest: string, words: seq<string>)
    requires |ws| >= 1
    requires forall k :: 0 <= k < |ws| ==> IsPlainWord(ws[k])
    ensures Lex(Join(ws, " ") + rest, Lexer(Between, "", words))
            == Lex(rest, Lexer(InWord, ws[|ws| - 1], words + ws[..|ws| - 1]))
    decreases |ws|
  {
    var w := ws[0];
    if |ws| == 1 {
      assert Join(ws, " ") == w;
      LexFirstWord(w, rest, words);
      assert words + ws[..0] == words;
    } else {
      var tail := Join(ws[1..], " ") + rest;
      assert Join(ws, " ") + rest == w + (" " + tail);
      LexFirstWord(w, " " + tail, words);
      LexSpace(tail, w, words);
      LexPlainWords(ws[1..], rest, words + [w]);
      assert ws[1..][|ws| - 2] == ws[|ws| - 1];
      assert words + [w] + ws[1..][..|ws| - 2] == words + ws[..|ws| - 1];
    }
  }

  /** Plain words joined by spaces split back into the same words. */
  lemma PlainWordsSplit(ws: seq<string>)
    requires |ws| >= 1
    requires forall k :: 0 <= k < |ws| ==> IsPlainWord(ws[k])
    ensures ShlexSplit(Join(ws, " ")) == Ok(ws)
  {
    var text := Join(ws, " ");
    var l := Lexer(InWord, ws[|ws| - 1], [] + ws[..|ws| - 1]);
    AppendEmpty(text);
    assert Lex(text + "", Lexer(Between, "", [])) == Lex("", l) by {
      LexPlainWords(ws, "", []);
    }
    LastSplitOff(ws);
  }

  lemma AppendEmpty(a: string)
    ensures a + "" == a
  {
  }

  lemma LastSplitOff(ws: seq<string>)
    requires |ws| >= 1
    ensures [] + ws[..|ws| - 1] + [ws[|ws| - 1]] == ws
  {
  }

  /** Inside single quotes everything up to the end is taken literally:
      without a closing quote the split fails. */
  lemma {:induction false} LexUnclosed(s: string, token: string, words: seq<string>)
    requires '\'' !in s
    ensures Lex(s, Lexer(InQuote('\''), token, words)) == Err("No closing quotation")
    decreases |s|
  {
    if s != [] {
      LexUnclosed(s[1..], token + [s[0]], words);
    }
  }

  /** A word that opens a single quote never closed fails the whole split,
      whatever plain words come before it. */
  lemma UnclosedQuoteFails(ws: seq<string>, quoted: string)
    requires |ws| >= 1
    requires forall k :: 0 <= k < |ws| ==> IsPlainWord(ws[k])
    requires quoted != [] && quoted[0] == '\'' && '\'' !in quoted[1..]
    ensures ShlexSplit(Join(ws, " ") + " " + quoted) == Err("No closing quotation")
  {
    var text := Join(ws, " ");
    var l := Lexer(InWord, ws[|ws| - 1], [] + ws[..|ws| - 1]);
    AppendAssoc(text, " ", quoted);
    assert Lex(text + (" " + quoted), Lexer(Between, "", [])) == Lex(" " + quoted, l) by {
      LexPlainWords(ws, " " + quoted, []);
    }
    assert Lex(" " + quoted, l) == Err("No closing quotation") by {
      LexSpace(quoted, l.token, l.words);
      LexQuoteOpen(quoted, l.words + [l.token]);
    }
  }

  lemma AppendAssoc(a: string, b: string, c: string)
    ensures a + b + c == a + (b + c)
  {
  }

  /** A single quote between words opens a quoted part that never closes
      when no further single quote follows. */
  lemma LexQuoteOpen(quoted: string, words: seq<string>)
    requires quoted != [] && quoted[0] == '\'' && '\'' !in quoted[1..]
    ensures Lex(quoted, Lexer(Between, "", words)) == Err("No closing quotation")
  {
    assert Step(Lexer(Between, "", words), '\'') == Lexer(InQuote('\''), "", words);
    LexUnclosed(quoted[1..], "", words);
  }

  /** A word holding a space reads, once joined, as the two words around
      the space. */
  lemma {:induction false} JoinSpaceInWord(ws: seq<string>, i: nat, a: string, b: string)
    requires i < |ws| && ws[i] == a + " " + b
    ensures Join(ws, " ") == Join(ws[..i] + [a, b] + ws[i + 1..], " ")
    decreases i
  {
    var split := ws[..i] + [a, b] + ws[i + 1..];
    if i == 0 {
      assert split == [a, b] + ws[1..];
      assert split[1..] == [b] + ws[1..];
      if |ws| > 1 {
        assert split[1..][1..] == ws[1..];
      }
    } else {
      JoinSpaceInWord(ws[1..], i - 1, a, b);
      assert split[0] == ws[0];
      assert split[1..] == ws[1..][..i - 1] + [a, b] + ws[1..][i..];
    }
  }
}
