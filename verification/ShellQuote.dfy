/**
 Quoting paths for a remote POSIX shell, and the commands built from quoted paths.

 `Lex` reads a command line as sections 2.2.1 (escape character), 2.2.2 (single quotes) and
 2.3 (token recognition) of the POSIX Shell Command Language say, for the characters these
 commands use. It refuses whatever else is special, so an accepted line means what it says.
 */
module ShellQuote {
  import opened Wrappers

  const NUL: char := '\0'

  datatype Token = Word(text: string) | AndIf | Great

  datatype Mode = Plain | Escaped | Quoted

  // ---- the shell's side ----------------------------------------------------------

  predicate Blank(c: char) {
    c == ' ' || c == '\t'
  }

  /** Stands for itself in a word, unquoted. */
  predicate Ordinary(c: char) {
    || 'a' <= c <= 'z' || 'A' <= c <= 'Z' || '0' <= c <= '9'
    || c == '-' || c == '+' || c == '.' || c == '/' || c == '_' || c == ':' || c == ','
  }

  function Text(word: Option<string>): string {
    if word.Some? then word.value else ""
  }

  /** The token of the word read so far, if one was begun. */
  function Ended(word: Option<string>): seq<Token> {
    if word.Some? then [Word(word.value)] else []
  }

  function Then(first: seq<Token>, rest: Option<seq<Token>>): Option<seq<Token>> {
    if rest.Some? then Some(first + rest.value) else None
  }

  /** `word` is the word being read, none between words: an empty quotation begins one. */
  function LexFrom(mode: Mode, word: Option<string>, s: string): Option<seq<Token>>
    decreases s
  {
    if s == "" then
      if mode == Plain then Some(Ended(word)) else None
    else
      var c, rest := s[0], s[1..];
      if c == NUL then None
      else
        match mode
        case Quoted =>
          if c == '\'' then LexFrom(Plain, word, rest) else LexFrom(Quoted, Some(Text(word) + [c]), rest)
        case Escaped =>
          if c == '\n' then LexFrom(Plain, word, rest) else LexFrom(Plain, Some(Text(word) + [c]), rest)
        case Plain =>
          if c == '\'' then LexFrom(Quoted, Some(Text(word)), rest)
          else if c == '\\' then LexFrom(Escaped, word, rest)
          else if Blank(c) then Then(Ended(word), LexFrom(Plain, None, rest))
          else if c == '&' && rest != "" && rest[0] == '&'
          then Then(Ended(word) + [AndIf], LexFrom(Plain, None, rest[1..]))
          else if c == '>' && rest != "" && Blank(rest[0]) && word == None then Then([Great], LexFrom(Plain, None, rest))
          else if Ordinary(c) then LexFrom(Plain, Some(Text(word) + [c]), rest)
          else None
  }

  function Lex(s: string): Option<seq<Token>> {
    LexFrom(Plain, None, s)
  }

  // ---- quoting --------------------------------------------------------------------

  function Escape(s: string): string {
    if s == "" then "" else (if s[0] == '\'' then "'\\''" else [s[0]]) + Escape(s[1..])
  }

  function Quote(s: string): string {
    "'" + Escape(s) + "'"
  }

  method ShellQuote(s: string) returns (out: string)
    ensures out == Quote(s)
  {
    out := "'";
    for i := 0 to |s|
      invariant out + Escape(s[i..]) == "'" + Escape(s)
    {
      assert s[i..][1..] == s[i + 1..];
      ghost var before := out;
      var piece := if s[i] == '\'' then "'\\''" else [s[i]];
      out := out + piece;
      assert before + (piece + Escape(s[i + 1..])) == out + Escape(s[i + 1..]);
    }
    out := out + "'";
  }

  /** Closing quote, backslash, quote, opening quote: one quote in the word. */
  lemma EscapedQuote(w: string, t: string)
    ensures LexFrom(Quoted, Some(w), "'\\''" + t) == LexFrom(Quoted, Some(w + ['\'']), t)
  {
    var s := "'\\''" + t;
    assert s[0] == '\'' && s[1..][0] == '\\' && s[1..][1..][0] == '\'' && s[1..][1..][1..][0] == '\'';
    assert s[1..][1..][1..][1..] == t;
    assert LexFrom(Quoted, Some(w), s) == LexFrom(Plain, Some(w), s[1..]);
    assert LexFrom(Plain, Some(w), s[1..]) == LexFrom(Escaped, Some(w), s[1..][1..]);
    assert LexFrom(Escaped, Some(w), s[1..][1..]) == LexFrom(Plain, Some(w + ['\'']), s[1..][1..][1..]);
  }

  /** Inside the quotes, the shell collects `s` and stops at the closing one; a NUL ends the command line instead. */
  lemma {:induction false} EscapeLexes(w: string, s: string, t: string)
    ensures LexFrom(Quoted, Some(w), Escape(s) + "'" + t) == if NUL in s then None else LexFrom(Plain, Some(w + s), t)
    decreases s
  {
    if s == "" {
      assert ("'" + t)[1..] == t && Escape(s) + "'" + t == "'" + t && w + s == w;
    } else {
      var rest := Escape(s[1..]) + "'" + t;
      assert s == [s[0]] + s[1..] && w + [s[0]] + s[1..] == w + s;
      EscapeLexes(w + [s[0]], s[1..], t);
      if s[0] == '\'' {
        assert Escape(s) + "'" + t == "'\\''" + rest;
        EscapedQuote(w, rest);
      } else {
        var all := Escape(s) + "'" + t;
        assert all == [s[0]] + rest;
        assert all[1..] == rest;
      }
    }
  }

  /** Whatever precedes and follows it, a quoted string adds exactly itself to the word it stands in. */
  lemma QuoteLexes(word: Option<string>, s: string, t: string)
    ensures LexFrom(Plain, word, Quote(s) + t) == if NUL in s then None else LexFrom(Plain, Some(Text(word) + s), t)
  {
    var all := Quote(s) + t;
    assert all == "'" + (Escape(s) + "'" + t);
    assert all[0] == '\'' && all[1..] == Escape(s) + "'" + t;
    EscapeLexes(Text(word), s, t);
  }

  /** The shell reads a quoted string as the one word it came from, if and only if it holds no NUL. */
  lemma QuoteRoundTrip(s: string)
    ensures Lex(Quote(s)) == Some([Word(s)]) <==> NUL !in s
  {
    QuoteLexes(None, s, "");
    assert Quote(s) + "" == Quote(s) && "" + s == s;
  }

  // ---- commands ---------------------------------------------------------------------

  /** A command line is words and operators between blanks. */
  datatype Piece = Lit(text: string) | Arg(text: string) | And | Into

  predicate Literal(text: string) {
    text != "" && forall c :: c in text ==> Ordinary(c)
  }

  function Spell(p: Piece): string {
    match p
    case Lit(text) => text
    case Arg(text) => Quote(text)
    case And => "&&"
    case Into => ">"
  }

  function Meaning(p: Piece): Token {
    match p
    case Lit(text) => Word(text)
    case Arg(text) => Word(text)
    case And => AndIf
    case Into => Great
  }

  function Render(pieces: seq<Piece>): string {
    if pieces == [] then "" else Spell(pieces[0]) + if |pieces| == 1 then "" else " " + Render(pieces[1..])
  }

  function Meanings(pieces: seq<Piece>): seq<Token> {
    seq(|pieces|, k requires 0 <= k < |pieces| => Meaning(pieces[k]))
  }

  ghost predicate Sound(pieces: seq<Piece>) {
    && (forall p :: p in pieces && p.Lit? ==> Literal(p.text))
    && (forall p :: p in pieces && p.Arg? ==> NUL !in p.text)
  }

  lemma {:induction false} OrdinaryLexes(w: string, text: string, t: string)
    requires forall c :: c in text ==> Ordinary(c)
    ensures LexFrom(Plain, Some(w), text + t) == LexFrom(Plain, Some(w + text), t)
    decreases text
  {
    if text == "" {
      assert text + t == t && w + text == w;
    } else {
      assert text[0] in text && forall c :: c in text[1..] ==> c in text;
      assert (text + t)[0] == text[0] && (text + t)[1..] == text[1..] + t;
      assert w + [text[0]] + text[1..] == w + text;
      OrdinaryLexes(w + [text[0]], text[1..], t);
    }
  }

  lemma BlankSkipped(t: string)
    ensures LexFrom(Plain, None, " " + t) == Lex(t)
  {
    assert (" " + t)[1..] == t;
    assert Lex(t).Some? ==> [] + Lex(t).value == Lex(t).value;
  }

  lemma LiteralLexes(text: string, t: string)
    requires Literal(text)
    ensures LexFrom(Plain, None, text + " " + t) == Then([Word(text)], Lex(t))
  {
    var after := " " + t;
    WordEnds(text, t);
    assert text + " " + t == text + after;
    FirstLexes(text, after);
    OrdinaryLexes([text[0]], text[1..], after);
    assert [text[0]] + text[1..] == text;
  }

  lemma WordEnds(text: string, t: string)
    ensures LexFrom(Plain, Some(text), " " + t) == Then([Word(text)], Lex(t))
  {
    assert (" " + t)[1..] == t;
  }

  lemma FirstLexes(text: string, after: string)
    requires text != "" && forall c :: c in text ==> Ordinary(c)
    ensures LexFrom(Plain, None, text + after) == LexFrom(Plain, Some([text[0]]), text[1..] + after)
  {
    assert text[0] in text && "" + [text[0]] == [text[0]];
    assert (text + after)[0] == text[0] && (text + after)[1..] == text[1..] + after;
  }

  lemma OperatorLexes(p: Piece, t: string)
    requires p.And? || p.Into?
    ensures LexFrom(Plain, None, Spell(p) + " " + t) == Then([Meaning(p)], Lex(t))
  {
    var after, all := " " + t, Spell(p) + " " + t;
    BlankSkipped(t);
    if p.Into? {
      assert all[1..] == after;
    } else {
      assert all[1..] == [all[0]] + after && all[1..][1..] == after;
      assert [] + [Meaning(p)] == [Meaning(p)];
    }
  }

  /** One piece and a blank. */
  lemma PieceLexes(p: Piece, t: string)
    requires p.Lit? ==> Literal(p.text)
    requires p.Arg? ==> NUL !in p.text
    ensures LexFrom(Plain, None, Spell(p) + " " + t) == Then([Meaning(p)], Lex(t))
  {
    if p.Lit? {
      LiteralLexes(p.text, t);
    } else if p.Arg? {
      var after := " " + t;
      assert after[0] == ' ' && after[1..] == t && Quote(p.text) + " " + t == Quote(p.text) + after;
      QuoteLexes(None, p.text, after);
      assert "" + p.text == p.text;
    } else {
      OperatorLexes(p, t);
    }
  }

  lemma LastWordLexes(p: Piece)
    requires p.Lit? || p.Arg?
    requires if p.Lit? then Literal(p.text) else NUL !in p.text
    ensures Lex(Spell(p)) == Some([Meaning(p)])
  {
    var text := p.text;
    if p.Arg? {
      QuoteRoundTrip(text);
    } else {
      assert [text[0]] + text[1..] == text && text + "" == text;
      FirstLexes(text, "");
      OrdinaryLexes([text[0]], text[1..], "");
      assert LexFrom(Plain, Some(text), "") == Some([Word(text)]);
    }
  }

  /** Any such command line that ends in a word keeps its words and operators apart, whatever its arguments hold. */
  lemma {:induction false} RenderLexes(pieces: seq<Piece>)
    requires pieces != [] && Sound(pieces)
    requires var last := pieces[|pieces| - 1]; last.Lit? || last.Arg?
    ensures Lex(Render(pieces)) == Some(Meanings(pieces))
  {
    hide LexFrom, Spell, Literal, Meaning;
    var p := pieces[0];
    assert p in pieces;
    if |pieces| == 1 {
      LastWordLexes(p);
      assert Render(pieces) == Spell(p);
      assert Meanings(pieces) == [Meaning(p)];
    } else {
      assert forall q :: q in pieces[1..] ==> q in pieces;
      RenderLexes(pieces[1..]);
      PieceLexes(p, Render(pieces[1..]));
      assert Render(pieces) == Spell(p) + " " + Render(pieces[1..]);
      assert [Meaning(p)] + Meanings(pieces[1..]) == Meanings(pieces);
    }
  }

  function MkdirCommand(dir: string): string {
    "mkdir -p " + Quote(dir)
  }

  function UploadCommand(tmp: string): string {
    "cat > " + Quote(tmp)
  }

  function RemoveCommand(tmp: string): string {
    "rm -f " + Quote(tmp)
  }

  function FinalizeCommand(tmp: string, final: string): string {
    "mv " + Quote(tmp) + " " + Quote(final) + " && chmod +x " + Quote(final)
  }

  lemma Spelled(a: Piece, rest: seq<Piece>)
    requires rest != []
    ensures Render([a] + rest) == Spell(a) + " " + Render(rest)
  {
    hide Spell;
    assert ([a] + rest)[1..] == rest;
    assert Spell(a) + (" " + Render(rest)) == Spell(a) + " " + Render(rest);
  }

  /**
   The compound rename keeps its word boundaries: whatever the two paths hold, other than NUL,
   the shell sees `mv`, the two paths, `&&`, `chmod`, `+x` and the final path.
   */
  lemma FinalizeLexes(tmp: string, final: string)
    requires NUL !in tmp && NUL !in final
    ensures Lex(FinalizeCommand(tmp, final)) ==
            Some([Word("mv"), Word(tmp), Word(final), AndIf, Word("chmod"), Word("+x"), Word(final)])
  {
    hide LexFrom, Render;
    var pieces := [Lit("mv"), Arg(tmp), Arg(final), And, Lit("chmod"), Lit("+x"), Arg(final)];
    assert FinalizeCommand(tmp, final) == Render(pieces) by { FinalizeRenders(tmp, final); }
    RenderLexes(pieces);
    assert Meanings(pieces) ==
      [Word("mv"), Word(tmp), Word(final), AndIf, Word("chmod"), Word("+x"), Word(final)];
  }

  lemma ChmodRenders(final: string)
    ensures Render([Lit("chmod"), Lit("+x"), Arg(final)]) == "chmod" + " " + ("+x" + " " + Quote(final))
  {
    hide Quote;
    assert Render([Arg(final)]) == Quote(final);
    Spelled(Lit("+x"), [Arg(final)]);
    Spelled(Lit("chmod"), [Lit("+x"), Arg(final)]);
    hide Render;
    assert [Lit("+x")] + [Arg(final)] == [Lit("+x"), Arg(final)];
    assert [Lit("chmod")] + [Lit("+x"), Arg(final)] == [Lit("chmod"), Lit("+x"), Arg(final)];
  }

  lemma FinalizeRenders(tmp: string, final: string)
    ensures FinalizeCommand(tmp, final) ==
            Render([Lit("mv"), Arg(tmp), Arg(final), And, Lit("chmod"), Lit("+x"), Arg(final)])
  {
    hide Quote;
    var tail := [Lit("chmod"), Lit("+x"), Arg(final)];
    ChmodRenders(final);
    hide Render;
    Spelled(And, tail);
    Spelled(Arg(final), [And] + tail);
    Spelled(Arg(tmp), [Arg(final), And] + tail);
    Spelled(Lit("mv"), [Arg(tmp), Arg(final), And] + tail);
    assert [Arg(final)] + ([And] + tail) == [Arg(final), And] + tail;
    assert [Arg(tmp)] + ([Arg(final), And] + tail) == [Arg(tmp), Arg(final), And] + tail;
    assert [Lit("mv")] + ([Arg(tmp), Arg(final), And] + tail)
        == [Lit("mv"), Arg(tmp), Arg(final), And, Lit("chmod"), Lit("+x"), Arg(final)];
    FinalizeSpaces(Quote(tmp), Quote(final));
  }

  lemma FinalizeSpaces(a: string, b: string)
    ensures "mv " + a + " " + b + " && chmod +x " + b ==
            "mv" + " " + (a + " " + (b + " " + ("&&" + " " + ("chmod" + " " + ("+x" + " " + b)))))
  {
    assert "mv " == "mv" + " ";
    assert " && chmod +x " == " " + "&&" + " " + "chmod" + " " + "+x" + " ";
  }

  /** Two words and a path. */
  lemma TwoWords(a: Piece, b: Piece, path: string)
    requires Sound([a, b]) && NUL !in path
    ensures Lex(Spell(a) + " " + Spell(b) + " " + Quote(path)) == Some([Meaning(a), Meaning(b), Word(path)])
  {
    hide LexFrom, Quote, Spell, Meaning, Literal;
    assert a in [a, b] && b in [a, b];
    QuoteRoundTrip(path);
    PieceLexes(b, Quote(path));
    PieceLexes(a, Spell(b) + " " + Quote(path));
    assert Spell(a) + " " + Spell(b) + " " + Quote(path) == Spell(a) + " " + (Spell(b) + " " + Quote(path));
    assert [Meaning(a)] + ([Meaning(b)] + [Word(path)]) == [Meaning(a), Meaning(b), Word(path)];
  }

  /** The other upload commands pass their path on as one word too; the redirection is an operator. */
  lemma UploadLexes(path: string)
    requires NUL !in path
    ensures Lex(MkdirCommand(path)) == Some([Word("mkdir"), Word("-p"), Word(path)])
    ensures Lex(UploadCommand(path)) == Some([Word("cat"), Great, Word(path)])
    ensures Lex(RemoveCommand(path)) == Some([Word("rm"), Word("-f"), Word(path)])
  {
    hide LexFrom, Quote;
    TwoWords(Lit("mkdir"), Lit("-p"), path);
    assert "mkdir" + " " + "-p" + " " == "mkdir -p ";
    TwoWords(Lit("cat"), Into, path);
    assert "cat" + " " + ">" + " " == "cat > ";
    TwoWords(Lit("rm"), Lit("-f"), path);
    assert "rm" + " " + "-f" + " " == "rm -f ";
  }
}
