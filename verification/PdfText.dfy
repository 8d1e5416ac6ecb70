/** The text of a page: the writers' escaping of literal strings and their content streams, and a reader of
    literal strings as section 7.3.4.2 of ISO 32000-1 defines them.

    A byte string is a `string` whose characters are below 256. */
module PdfText {

  // ---------------------------------------------------------------- escaping

  /** `s.replace(c, out)` for a one-character pattern. */
  function Replace(s: string, c: char, out: string): string {
    if s == "" then "" else (if s[0] == c then out else [s[0]]) + Replace(s[1..], c, out)
  }

  /** The writers' `escape` and `pdf_text`: three replacements, one after the other. */
  function Escape(s: string): string {
    Replace(Replace(Replace(s, '\\', "\\\\"), '(', "\\("), ')', "\\)")
  }

  function EscapeChar(c: char): string {
    if c == '\\' || c == '(' || c == ')' then ['\\', c] else [c]
  }

  function EscapeEach(s: string): string {
    if s == "" then "" else EscapeChar(s[0]) + EscapeEach(s[1..])
  }

  lemma {:induction false} ReplaceConcat(s: string, t: string, c: char, out: string)
    ensures Replace(s + t, c, out) == Replace(s, c, out) + Replace(t, c, out)
  {
    if s == "" {
      assert s + t == t;
    } else {
      assert (s + t)[1..] == s[1..] + t;
      ReplaceConcat(s[1..], t, c, out);
    }
  }

  /** No replacement disturbs what an earlier one produced: the chain escapes each character once. */
  lemma {:induction false} EscapeIsPerCharacter(s: string)
    ensures Escape(s) == EscapeEach(s)
  {
    if s != "" {
      EscapeIsPerCharacter(s[1..]);
      var first := if s[0] == '\\' then "\\\\" else [s[0]];
      var r1 := Replace(s[1..], '\\', "\\\\");
      ReplaceConcat(first, r1, '(', "\\(");
      var second := Replace(first, '(', "\\(");
      ReplaceConcat(second, Replace(r1, '(', "\\("), ')', "\\)");
      EscapeOne(s[0]);
    }
  }

  lemma EscapeOne(c: char)
    ensures Replace(Replace(if c == '\\' then "\\\\" else [c], '(', "\\("), ')', "\\)") == EscapeChar(c)
  {
    if c == '\\' {
      assert Replace("\\\\", '(', "\\(") == "\\\\";
      assert Replace("\\\\", ')', "\\)") == "\\\\";
    } else if c == '(' {
      assert Replace("(", '(', "\\(") == "\\(";
      assert Replace("\\(", ')', "\\)") == "\\(";
    }
  }

  /** `s.encode("latin-1", "replace")`. */
  function Latin1(s: string): (b: string)
    ensures |b| == |s|
    ensures forall i :: 0 <= i < |s| ==> b[i] == (if s[i] as int < 256 then s[i] else '?')
  {
    seq(|s|, i requires 0 <= i < |s| => if s[i] as int < 256 then s[i] else '?')
  }

  lemma Latin1Concat(s: string, t: string)
    ensures Latin1(s + t) == Latin1(s) + Latin1(t)
  {}

  lemma {:induction false} Latin1OfEscape(s: string)
    ensures Latin1(EscapeEach(s)) == EscapeEach(Latin1(s))
  {
    if s != "" {
      Latin1OfEscape(s[1..]);
      Latin1Concat(EscapeChar(s[0]), EscapeEach(s[1..]));
      assert Latin1(s)[1..] == Latin1(s[1..]);
      assert Latin1(EscapeChar(s[0])) == EscapeChar(Latin1(s)[0]);
    }
  }

  // ---------------------------------------------------------------- the reader

  predicate IsOctal(c: char) { '0' <= c <= '7' }

  /** Up to three octal digits of a `\ddd` escape: how many there are. */
  function OctalRun(s: string): (n: nat)
    ensures n <= 3 && n <= |s|
  {
    if |s| > 0 && IsOctal(s[0]) then
      if |s| > 1 && IsOctal(s[1]) then (if |s| > 2 && IsOctal(s[2]) then 3 else 2) else 1
    else 0
  }

  function OctalValue(s: string): nat {
    if s == "" then 0
    else 8 * OctalValue(s[..|s| - 1]) + (if IsOctal(s[|s| - 1]) then s[|s| - 1] as int - '0' as int else 0)
  }

  /** What an escape sequence stands for, and how many characters after the backslash it takes. */
  function ReadEscape(s: string): (r: (string, nat))
    requires s != ""
    ensures 0 < r.1 <= |s|
  {
    match s[0]
    case 'n' => ("\n", 1)
    case 'r' => ("\r", 1)
    case 't' => ("\t", 1)
    case 'b' => ([8 as char], 1)
    case 'f' => ([12 as char], 1)
    case '\n' => ("", 1)
    case '\r' => ("", if |s| > 1 && s[1] == '\n' then 2 else 1)
    case c =>
      if OctalRun(s) > 0 then ([(OctalValue(s[..OctalRun(s)]) % 256) as char], OctalRun(s))
      else ([c], 1)
  }

  /** Reads a literal string after its opening parenthesis: the string and the input behind it.
      `depth` counts the unescaped parentheses still open inside. */
  function ReadLiteral(s: string, depth: nat): (r: (string, string))
    ensures |r.1| <= |s|
    decreases |s|
  {
    if s == "" then ("", "")
    else if s[0] == ')' then
      if depth == 0 then ("", s[1..])
      else var (v, rest) := ReadLiteral(s[1..], depth - 1); (")" + v, rest)
    else if s[0] == '(' then
      var (v, rest) := ReadLiteral(s[1..], depth + 1); ("(" + v, rest)
    else if s[0] == '\\' then
      if |s| == 1 then ("", "")
      else
        var (c, n) := ReadEscape(s[1..]);
        var (v, rest) := ReadLiteral(s[1 + n..], depth);
        (c + v, rest)
    else if s[0] == '\r' then
      var (v, rest) := ReadLiteral(s[if |s| > 1 && s[1] == '\n' then 2 else 1..], depth); ("\n" + v, rest)
    else
      var (v, rest) := ReadLiteral(s[1..], depth); ([s[0]] + v, rest)
  }

  /** A token of a content stream: an operand or operator, or a literal string. */
  datatype Token = Word(w: string) | Text(v: string)

  predicate Blank(c: char) { c == ' ' || c == '\n' }

  /** The length of the word a stream begins with. */
  function WordEnd(s: string): (n: nat)
    ensures n <= |s| && forall i :: 0 <= i < n ==> !Blank(s[i]) && s[i] != '('
    ensures n < |s| ==> Blank(s[n]) || s[n] == '('
  {
    if s == "" || Blank(s[0]) || s[0] == '(' then 0 else 1 + WordEnd(s[1..])
  }

  /** The tokens of a content stream, in order. */
  function Tokens(s: string): seq<Token>
    decreases |s|
  {
    if s == "" then []
    else if Blank(s[0]) then Tokens(s[1..])
    else if s[0] == '(' then var (v, rest) := ReadLiteral(s[1..], 0); [Text(v)] + Tokens(rest)
    else [Word(s[..WordEnd(s)])] + Tokens(s[WordEnd(s)..])
  }

  /** An end-of-line marker inside a literal string reads as one line feed. */
  function NormalizeEol(s: string): string
    decreases |s|
  {
    if s == "" then ""
    else if s[0] == '\r' then "\n" + NormalizeEol(s[if |s| > 1 && s[1] == '\n' then 2 else 1..])
    else [s[0]] + NormalizeEol(s[1..])
  }

  /** One character that is copied: neither a delimiter, a backslash nor a carriage return. */
  lemma ReadsPlain(c: char, tail: string)
    requires c != '(' && c != ')' && c != '\\' && c != '\r'
    ensures ReadLiteral([c] + tail, 0) == ([c] + ReadLiteral(tail, 0).0, ReadLiteral(tail, 0).1)
  {
    assert ([c] + tail)[1..] == tail;
  }

  lemma ReadsEscaped(c: char, tail: string)
    requires c == '(' || c == ')' || c == '\\'
    ensures ReadLiteral(['\\', c] + tail, 0) == ([c] + ReadLiteral(tail, 0).0, ReadLiteral(tail, 0).1)
  {
    var s := ['\\', c] + tail;
    assert s[1..][0] == c && s[2..] == tail;
    assert ReadEscape(s[1..]) == ([c], 1);
  }

  lemma ReadsReturn(tail: string)
    ensures var rest := if tail != "" && tail[0] == '\n' then tail[1..] else tail;
            ReadLiteral(['\r'] + tail, 0) == ("\n" + ReadLiteral(rest, 0).0, ReadLiteral(rest, 0).1)
  {
    var s := ['\r'] + tail;
    assert s[1..] == tail;
    if tail != "" && tail[0] == '\n' {
      assert s[2..] == tail[1..];
    }
  }

  lemma {:induction false} LiteralReads(w: string, rest: string)
    ensures ReadLiteral(EscapeEach(w) + (")" + rest), 0) == (NormalizeEol(w), rest)
    decreases |w|
  {
    var close := ")" + rest;
    if w == "" {
      assert EscapeEach(w) + close == close && close[1..] == rest;
    } else {
      var tail := EscapeEach(w[1..]) + close;
      assert EscapeEach(w) + close == EscapeChar(w[0]) + tail;
      if w[0] == '\r' {
        ReadsReturn(tail);
        if |w| > 1 && w[1] == '\n' {
          assert w[1..][1..] == w[2..];
          assert tail[1..] == EscapeEach(w[2..]) + close;
          LiteralReads(w[2..], rest);
        } else {
          NextIsNotLineFeed(w[1..]);
          LiteralReads(w[1..], rest);
        }
      } else {
        LiteralReads(w[1..], rest);
        if w[0] == '\\' || w[0] == '(' || w[0] == ')' {
          ReadsEscaped(w[0], tail);
        } else {
          ReadsPlain(w[0], tail);
        }
      }
    }
  }

  lemma NextIsNotLineFeed(w: string)
    requires w != "" ==> w[0] != '\n'
    ensures EscapeEach(w) != "" ==> EscapeEach(w)[0] != '\n'
  {}

  // ---------------------------------------------------------------- content streams

  /** Words with single spaces in between. */
  function Spaced(ws: seq<string>): string {
    if ws == [] then "" else if |ws| == 1 then ws[0] else ws[0] + " " + Spaced(ws[1..])
  }

  /** A line of an operator with its operands, or the line that shows one string. */
  datatype Piece = Op(words: seq<string>) | Show(line: string)

  function Render(p: Piece): string {
    match p
    case Op(words) => Spaced(words)
    case Show(line) => "(" + Escape(line) + ") Tj"
  }

  function RenderAll(ps: seq<Piece>): (r: seq<string>)
    ensures |r| == |ps|
  {
    seq(|ps|, i requires 0 <= i < |ps| => Render(ps[i]))
  }

  /** `"\n".join(xs)`. */
  function JoinLines(xs: seq<string>): string {
    if xs == [] then "" else if |xs| == 1 then xs[0] else xs[0] + "\n" + JoinLines(xs[1..])
  }

  function WordTokens(ws: seq<string>): seq<Token> { seq(|ws|, i requires 0 <= i < |ws| => Word(ws[i])) }

  /** The tokens of a piece, as a reader of the encoded stream sees them. */
  function TokensBy(p: Piece): seq<Token> {
    match p
    case Op(words) => WordTokens(words)
    case Show(line) => [Text(NormalizeEol(Latin1(line))), Word("Tj")]
  }

  function TokensOf(ps: seq<Piece>): seq<Token> { if ps == [] then [] else TokensBy(ps[0]) + TokensOf(ps[1..]) }

  /** A word that is read as it is written. */
  predicate Plain(w: string) {
    w != "" && forall i :: 0 <= i < |w| ==> !Blank(w[i]) && w[i] != '(' && w[i] as int < 256
  }

  predicate AllPlain(ws: seq<string>) { forall i :: 0 <= i < |ws| ==> Plain(ws[i]) }

  ghost predicate PlainOps(ps: seq<Piece>) {
    forall i :: 0 <= i < |ps| && ps[i].Op? ==> ps[i].words != [] && AllPlain(ps[i].words)
  }

  /** Nothing follows, or a blank. */
  predicate Parted(rest: string) { rest == "" || Blank(rest[0]) }

  lemma {:induction false} WordEnds(w: string, rest: string)
    requires Plain(w) && Parted(rest)
    ensures WordEnd(w + rest) == |w|
  {
    var n := WordEnd(w + rest);
    assert forall i :: 0 <= i < |w| ==> (w + rest)[i] == w[i];
    assert rest != "" ==> (w + rest)[|w|] == rest[0];
  }

  lemma WordReads(w: string, rest: string)
    requires Plain(w) && Parted(rest)
    ensures Tokens(w + rest) == [Word(w)] + Tokens(rest)
  {
    WordEnds(w, rest);
    var s := w + rest;
    assert s[0] == w[0] && s[..|w|] == w && s[|w|..] == rest;
  }

  lemma BlankReads(c: char, rest: string)
    requires Blank(c)
    ensures Tokens([c] + rest) == Tokens(rest)
  {
    assert ([c] + rest)[1..] == rest;
  }

  lemma FirstWordReads(w: string, tail: string, s: string)
    requires Plain(w) && s == w + ([' '] + tail)
    ensures Tokens(s) == [Word(w)] + Tokens(tail)
  {
    WordReads(w, [' '] + tail);
    BlankReads(' ', tail);
  }

  lemma MoreWordsRead(w: string, tail: string, s: string, ts: seq<Token>, last: seq<Token>)
    requires Plain(w) && s == w + ([' '] + tail) && Tokens(tail) == ts + last
    ensures Tokens(s) == [Word(w)] + ts + last
  {
    FirstWordReads(w, tail, s);
  }

  lemma Regroup(w: string, u: string, rest: string, s: string)
    requires s == w + " " + u
    ensures s + rest == w + ([' '] + (u + rest))
  {}

  lemma {:induction false} WordTokensCons(ws: seq<string>)
    requires ws != []
    ensures WordTokens(ws) == [Word(ws[0])] + WordTokens(ws[1..])
  {}

  lemma {:induction false} WordsRead(ws: seq<string>, rest: string)
    requires ws != [] && AllPlain(ws) && Parted(rest)
    ensures Tokens(Spaced(ws) + rest) == WordTokens(ws) + Tokens(rest)
  {
    assert Plain(ws[0]);
    WordTokensCons(ws);
    if |ws| == 1 {
      WordReads(ws[0], rest);
    } else {
      WordsRead(ws[1..], rest);
      Regroup(ws[0], Spaced(ws[1..]), rest, Spaced(ws));
      MoreWordsRead(ws[0], Spaced(ws[1..]) + rest, Spaced(ws) + rest, WordTokens(ws[1..]), Tokens(rest));
    }
  }

  lemma {:induction false} SpacedBytes(ws: seq<string>)
    requires AllPlain(ws)
    ensures Latin1(Spaced(ws)) == Spaced(ws)
  {
    if ws != [] {
      assert Plain(ws[0]);
      if |ws| > 1 {
        SpacedBytes(ws[1..]);
        Latin1Concat(ws[0] + " ", Spaced(ws[1..]));
        Latin1Concat(ws[0], " ");
      }
    }
  }

  lemma ShowBytes(line: string)
    ensures Latin1(Render(Show(line))) == "(" + (EscapeEach(Latin1(line)) + ") Tj")
  {
    EscapeIsPerCharacter(line);
    Latin1OfEscape(line);
    var esc := EscapeEach(line);
    assert Render(Show(line)) == "(" + (esc + ") Tj");
    Latin1Concat("(", esc + ") Tj");
    Latin1Concat(esc, ") Tj");
  }

  lemma ShowTail(rest: string)
    requires Parted(rest)
    ensures Tokens(" Tj" + rest) == [Word("Tj")] + Tokens(rest)
  {
    assert " Tj" + rest == [' '] + ("Tj" + rest);
    BlankReads(' ', "Tj" + rest);
    WordReads("Tj", rest);
  }

  lemma TextReads(s: string, v: string, rest: string)
    requires s != "" && s[0] == '(' && ReadLiteral(s[1..], 0) == (v, rest)
    ensures Tokens(s) == [Text(v)] + Tokens(rest)
  {}

  lemma ShowReads(line: string, rest: string)
    requires Parted(rest)
    ensures Tokens(Latin1(Render(Show(line))) + rest) == TokensBy(Show(line)) + Tokens(rest)
  {
    var bytes := Latin1(Render(Show(line))) + rest;
    ShowLiteral(line, rest, bytes);
    ShowTokens(bytes, NormalizeEol(Latin1(line)), rest);
  }

  lemma ShowLiteral(line: string, rest: string, bytes: string)
    requires bytes == Latin1(Render(Show(line))) + rest
    ensures bytes != "" && bytes[0] == '(' && ReadLiteral(bytes[1..], 0) == (NormalizeEol(Latin1(line)), " Tj" + rest)
  {
    ShowBytes(line);
    assert bytes[1..] == EscapeEach(Latin1(line)) + (")" + (" Tj" + rest));
    LiteralReads(Latin1(line), " Tj" + rest);
  }

  lemma ShowTokens(bytes: string, v: string, rest: string)
    requires Parted(rest) && bytes != "" && bytes[0] == '(' && ReadLiteral(bytes[1..], 0) == (v, " Tj" + rest)
    ensures Tokens(bytes) == [Text(v), Word("Tj")] + Tokens(rest)
  {
    TextReads(bytes, v, " Tj" + rest);
    ShowTail(rest);
  }

  lemma PieceReads(p: Piece, rest: string)
    requires (p.Op? ==> p.words != [] && AllPlain(p.words)) && Parted(rest)
    ensures Tokens(Latin1(Render(p)) + rest) == TokensBy(p) + Tokens(rest)
  {
    match p
    case Op(words) =>
      SpacedBytes(words);
      WordsRead(words, rest);
    case Show(line) => ShowReads(line, rest);
  }

  lemma LineBytes(x: string, rest: string)
    ensures Latin1(x + "\n" + rest) == Latin1(x) + ("\n" + Latin1(rest))
  {}

  /** Reading a content stream gives back exactly the operators and the lines shown, in order, whatever these
      contain. */
  lemma {:induction false} ContentRoundTrip(ps: seq<Piece>)
    requires PlainOps(ps)
    ensures Tokens(Latin1(JoinLines(RenderAll(ps)))) == TokensOf(ps)
  {
    var xs := RenderAll(ps);
    if |ps| == 1 {
      PieceReads(ps[0], "");
      assert Latin1(xs[0]) + "" == Latin1(xs[0]);
      assert TokensOf(ps) == TokensBy(ps[0]) + [];
    } else if |ps| > 1 {
      var tail := JoinLines(xs[1..]);
      assert xs[1..] == RenderAll(ps[1..]);
      ContentRoundTrip(ps[1..]);
      LineBytes(xs[0], tail);
      PieceReads(ps[0], "\n" + Latin1(tail));
      BlankReads('\n', Latin1(tail));
    }
  }

  /** A line comes back unchanged exactly when it is Latin-1 text without a carriage return. */
  lemma LineSurvivesIff(line: string)
    ensures NormalizeEol(Latin1(line)) == line
       <==> (forall i :: 0 <= i < |line| ==> line[i] as int < 256 && line[i] != '\r')
  {
    NoReturnLeft(Latin1(line));
    NormalizeKeepsBytes(Latin1(line));
    if forall i :: 0 <= i < |line| ==> line[i] as int < 256 && line[i] != '\r' {
      assert Latin1(line) == line;
      NormalizeEolFixes(line);
    }
  }

  lemma {:induction false} NormalizeEolFixes(s: string)
    ensures (forall i :: 0 <= i < |s| ==> s[i] != '\r') ==> NormalizeEol(s) == s
    decreases |s|
  {
    if s != "" && s[0] != '\r' {
      NormalizeEolFixes(s[1..]);
      assert s == [s[0]] + s[1..];
    }
  }

  lemma {:induction false} NoReturnLeft(s: string)
    ensures forall i :: 0 <= i < |NormalizeEol(s)| ==> NormalizeEol(s)[i] != '\r'
    decreases |s|
  {
    if s != "" {
      NoReturnLeft(s[if s[0] == '\r' && |s| > 1 && s[1] == '\n' then 2 else 1..]);
    }
  }

  lemma {:induction false} NormalizeKeepsBytes(s: string)
    requires forall i :: 0 <= i < |s| ==> s[i] as int < 256
    ensures forall i :: 0 <= i < |NormalizeEol(s)| ==> NormalizeEol(s)[i] as int < 256
    decreases |s|
  {
    if s != "" {
      NormalizeKeepsBytes(s[if s[0] == '\r' && |s| > 1 && s[1] == '\n' then 2 else 1..]);
    }
  }
}
