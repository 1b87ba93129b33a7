/** Normalising JSON-with-comments: two chained scanners strip comments and then trailing commas.
    A byte is modelled as the `char` of that code; every statement holds for all strings. */
module Jsonc {
  import opened Common

  // ---------------------------------------------------------------- the scanners

  datatype Mode = Plain | InString(escaped: bool) | InLine | InBlock

  predicate IsWhitespace(c: char) { c == ' ' || c == '\t' || c == '\r' || c == '\n' }

  function AfterStringChar(escaped: bool, c: char): Mode {
    if escaped then InString(false)
    else if c == '\\' then InString(true)
    else if c == '\"' then Plain
    else InString(false)
  }

  function Prepend(s: string, t: Option<string>): Option<string> {
    if t.Some? then Some(s + t.value) else None
  }

  lemma PrependTwice(s: string, t: string, u: Option<string>)
    ensures Prepend(s, Prepend(t, u)) == Prepend(s + t, u)
  {
    if u.Some? { assert s + (t + u.value) == (s + t) + u.value; }
  }

  lemma PrependNothing(u: Option<string>)
    ensures Prepend("", u) == u
  {
    if u.Some? { assert "" + u.value == u.value; }
  }

  /** What stripJSONCComments appends when it goes on from `mode` with `data` left; None stands for
      an unclosed block comment. */
  function Strip(mode: Mode, data: string): Option<string>
    decreases |data|
  {
    if data == "" then if mode.InBlock? then None else Some("")
    else
      var c, rest := data[0], data[1..];
      match mode
      case InLine => if c == '\n' then Prepend([c], Strip(Plain, rest)) else Strip(InLine, rest)
      case InBlock =>
        if c == '*' && |data| > 1 && data[1] == '/' then Strip(Plain, data[2..])
        else if c == '\n' then Prepend([c], Strip(InBlock, rest))
        else Strip(InBlock, rest)
      case InString(escaped) => Prepend([c], Strip(AfterStringChar(escaped, c), rest))
      case Plain =>
        if c == '\"' then Prepend([c], Strip(InString(false), rest))
        else if c == '/' && |data| > 1 && data[1] == '/' then Strip(InLine, data[2..])
        else if c == '/' && |data| > 1 && data[1] == '*' then Strip(InBlock, data[2..])
        else Prepend([c], Strip(Plain, rest))
  }

  /** The number of leading whitespace characters. */
  function Blank(data: string): (n: nat)
    ensures n <= |data|
  {
    if data == "" || !IsWhitespace(data[0]) then 0 else 1 + Blank(data[1..])
  }

  predicate ClosesNext(data: string) {
    Blank(data) < |data| && (data[Blank(data)] == '}' || data[Blank(data)] == ']')
  }

  /** What stripJSONCTrailingCommas appends when it goes on with `data` left. */
  function DropCommas(mode: Mode, data: string): string
    decreases |data|
  {
    if data == "" then ""
    else
      var c, rest := data[0], data[1..];
      if mode.InString? then [c] + DropCommas(AfterStringChar(mode.escaped, c), rest)
      else if c == '\"' then [c] + DropCommas(InString(false), rest)
      else if c == ',' && ClosesNext(rest) then DropCommas(Plain, rest)
      else [c] + DropCommas(Plain, rest)
  }

  /** The step DropCommas makes: whether it appends the character, and how it goes on. */
  lemma DropCommasFirst(mode: Mode, data: string)
    requires data != ""
    ensures var c, rest := data[0], data[1..];
            DropCommas(mode, data)
            == if mode.InString? then [c] + DropCommas(AfterStringChar(mode.escaped, c), rest)
               else if c == '\"' then [c] + DropCommas(InString(false), rest)
               else if c == ',' && ClosesNext(rest) then DropCommas(Plain, rest)
               else [c] + DropCommas(Plain, rest)
  {
  }

  const BOM := ['\U{EF}', '\U{BB}', '\U{BF}']

  function WithoutBom(data: string): string {
    if |data| >= 3 && data[0] == BOM[0] && data[1] == BOM[1] && data[2] == BOM[2] then data[3..] else data
  }

  function Normalized(data: string): Option<string> {
    var stripped := Strip(Plain, WithoutBom(data));
    if stripped.None? then None else Some(DropCommas(Plain, stripped.value))
  }

  method StripComments(data: string) returns (result: Option<string>)
    ensures result == Strip(Plain, data)
  {
    var out := "";
    var inString, inLineComment, inBlockComment, escaped := false, false, false, false;
    var i := 0;
    ghost var mode := Plain;
    assert data[0..] == data;
    PrependNothing(Strip(Plain, data));
    while i < |data|
      invariant 0 <= i <= |data|
      invariant mode == if inLineComment then InLine else if inBlockComment then InBlock
                        else if inString then InString(escaped) else Plain
      invariant !(inLineComment && inBlockComment) && (inLineComment || inBlockComment ==> !inString)
      invariant !inString ==> !escaped
      invariant Strip(Plain, data) == Prepend(out, Strip(mode, data[i..]))
    {
      var ch := data[i];
      assert data[i..][1..] == data[i + 1..];
      assert i + 1 < |data| ==> data[i..][2..] == data[i + 2..];
      ghost var before := out;
      if inLineComment {
        if ch == '\n' {
          inLineComment, mode := false, Plain;
          out := out + [ch];
        }
      } else if inBlockComment {
        if ch == '*' && i + 1 < |data| && data[i + 1] == '/' {
          inBlockComment, mode := false, Plain;
          i := i + 1;
        } else if ch == '\n' {
          out := out + [ch];
        }
      } else if inString {
        out := out + [ch];
        mode := AfterStringChar(escaped, ch);
        if escaped {
          escaped := false;
        } else if ch == '\\' {
          escaped := true;
        } else if ch == '\"' {
          inString := false;
        }
      } else if ch == '\"' {
        inString, mode := true, InString(false);
        out := out + [ch];
      } else if ch == '/' && i + 1 < |data| && data[i + 1] == '/' {
        inLineComment, mode := true, InLine;
        i := i + 1;
      } else if ch == '/' && i + 1 < |data| && data[i + 1] == '*' {
        inBlockComment, mode := true, InBlock;
        i := i + 1;
      } else {
        out := out + [ch];
      }
      if out != before { PrependTwice(before, [ch], Strip(mode, data[i + 1..])); }
      i := i + 1;
    }
    assert data[i..] == "" && out + "" == out;
    if inBlockComment { return None; }
    result := Some(out);
  }

  /** The scan behind a comma: over blanks to a closing bracket. */
  method LooksAhead(data: string, start: nat) returns (closes: bool)
    requires start <= |data|
    ensures closes == ClosesNext(data[start..])
  {
    var j := start;
    while j < |data| && IsWhitespace(data[j])
      invariant start <= j <= |data|
      invariant Blank(data[start..]) == j - start + Blank(data[j..])
    {
      assert data[j..][1..] == data[j + 1..];
      j := j + 1;
    }
    closes := j < |data| && (data[j] == '}' || data[j] == ']');
  }

  /** Where the two flags of the scan put it. */
  function ModeOf(inString: bool, escaped: bool): Mode { if inString then InString(escaped) else Plain }

  /** `all` is what is out and what still comes; one more character moves over. */
  lemma MovesOver(all: string, out: string, c: char, rest: string)
    requires all == out + ([c] + rest)
    ensures all == (out + [c]) + rest
  {
  }

  method StripTrailingCommas(data: string) returns (out: string)
    ensures out == DropCommas(Plain, data)
  {
    out := "";
    var inString, escaped := false, false;
    var i := 0;
    assert data[0..] == data;
    ghost var all := DropCommas(Plain, data);
    while i < |data|
      invariant 0 <= i <= |data|
      invariant all == out + DropCommas(ModeOf(inString, escaped), data[i..])
      invariant !inString ==> !escaped
    {
      var ch := data[i];
      assert data[i..][1..] == data[i + 1..];
      DropCommasFirst(ModeOf(inString, escaped), data[i..]);
      ghost var before, mode := out, ModeOf(inString, escaped);
      if inString {
        out := out + [ch];
        if escaped {
          escaped := false;
        } else if ch == '\\' {
          escaped := true;
        } else if ch == '\"' {
          inString := false;
        }
      } else if ch == '\"' {
        inString := true;
        out := out + [ch];
      } else {
        var drop := false;
        if ch == ',' { drop := LooksAhead(data, i + 1); }
        if !drop { out := out + [ch]; }
      }
      if out != before { MovesOver(all, before, ch, DropCommas(ModeOf(inString, escaped), data[i + 1..])); }
      i := i + 1;
    }
  }

  method Normalize(data: string) returns (result: Option<string>)
    ensures result == Normalized(data)
  {
    var input := data;
    if |data| >= 3 && data[0] == BOM[0] && data[1] == BOM[1] && data[2] == BOM[2] { input := data[3..]; }
    var withoutComments := StripComments(input);
    if withoutComments.None? { return None; }
    var out := StripTrailingCommas(withoutComments.value);
    result := Some(out);
  }

  // ---------------------------------------------------------------- documents

  datatype Token = Punct(c: char) | Str(text: string) | Atom(text: string)
  {
    function Text(): string { if Punct? then [c] else text }
  }

  /** What a JSONC document is made of: tokens, whitespace and comments.  `LastLine` is a line comment
      that runs to the end of the document. */
  datatype Piece = Tok(token: Token) | Space(c: char) | LineComment(body: string) | BlockComment(body: string)
                 | LastLine(body: string)
  {
    function Text(): string {
      match this
      case Tok(token) => token.Text()
      case Space(c) => [c]
      case LineComment(body) => "//" + body + "\n"
      case BlockComment(body) => "/*" + body + "*/"
      case LastLine(body) => "//" + body
    }
  }

  predicate IsPunct(c: char) { c == '{' || c == '}' || c == '[' || c == ']' || c == ':' || c == ',' }

  /** The characters of numbers and of `true`, `false` and `null`. */
  predicate IsAtomChar(c: char) {
    'a' <= c <= 'z' || 'A' <= c <= 'Z' || '0' <= c <= '9' || c == '+' || c == '-' || c == '.'
  }

  /** `s` is the rest of a string literal, and its last character is the closing quote. */
  predicate Closes(escaped: bool, s: string)
    decreases |s|
  {
    s != "" && var next := AfterStringChar(escaped, s[0]);
               if next.InString? then Closes(next.escaped, s[1..]) else |s| == 1
  }

  /** The insignificant white space of JSON (section 2 of RFC 8259): space, tab, line feed, carriage return. */
  predicate IsJsonSpace(c: char) { c as int in {0x20, 0x09, 0x0A, 0x0D} }

  predicate ValidToken(t: Token) {
    match t
    case Punct(c) => IsPunct(c)
    case Str(text) => |text| > 0 && text[0] == '\"' && Closes(false, text[1..])
    case Atom(text) => |text| > 0 && forall i :: 0 <= i < |text| ==> IsAtomChar(text[i])
  }

  predicate ValidPiece(p: Piece) {
    match p
    case Tok(token) => ValidToken(token)
    case Space(c) => IsJsonSpace(c)
    case LineComment(body) => '\n' !in body
    case BlockComment(body) => forall i :: 0 <= i < |body| - 1 ==> !(body[i] == '*' && body[i + 1] == '/')
    case LastLine(body) => '\n' !in body
  }

  predicate ValidDoc(doc: seq<Piece>) {
    doc == [] || (ValidPiece(doc[0]) && (doc[0].LastLine? ==> |doc| == 1) && ValidDoc(doc[1..]))
  }

  function Text(doc: seq<Piece>): string {
    if doc == [] then "" else doc[0].Text() + Text(doc[1..])
  }

  function Tokens(doc: seq<Piece>): seq<Token> {
    if doc == [] then []
    else if doc[0].Tok? then [doc[0].token] + Tokens(doc[1..])
    else Tokens(doc[1..])
  }

  // ---------------------------------------------------------------- comment stripping keeps the tokens

  /** The newlines of a comment body, which is what stripping leaves of it. */
  function Newlines(body: string): string {
    if body == "" then "" else (if body[0] == '\n' then "\n" else "") + Newlines(body[1..])
  }

  function Quiet(p: Piece): string {
    match p
    case Tok(token) => token.Text()
    case Space(c) => [c]
    case LineComment(_) => "\n"
    case BlockComment(body) => Newlines(body)
    case LastLine(_) => ""
  }

  function QuietText(doc: seq<Piece>): string {
    if doc == [] then "" else Quiet(doc[0]) + QuietText(doc[1..])
  }

  lemma {:induction false} StripAtom(text: string, rest: string)
    requires forall i :: 0 <= i < |text| ==> IsAtomChar(text[i])
    ensures Strip(Plain, text + rest) == Prepend(text, Strip(Plain, rest))
  {
    if text == "" {
      assert text + rest == rest;
      PrependNothing(Strip(Plain, rest));
    } else {
      assert (text + rest)[1..] == text[1..] + rest;
      StripAtom(text[1..], rest);
      PrependTwice([text[0]], text[1..], Strip(Plain, rest));
      assert [text[0]] + text[1..] == text;
    }
  }

  lemma {:induction false} StripString(escaped: bool, s: string, rest: string)
    requires Closes(escaped, s)
    ensures Strip(InString(escaped), s + rest) == Prepend(s, Strip(Plain, rest))
    decreases |s|
  {
    assert (s + rest)[1..] == s[1..] + rest;
    var next := AfterStringChar(escaped, s[0]);
    if next.InString? {
      StripString(next.escaped, s[1..], rest);
      PrependTwice([s[0]], s[1..], Strip(Plain, rest));
      assert [s[0]] + s[1..] == s;
    } else {
      assert s[1..] + rest == rest && s == [s[0]];
    }
  }

  lemma {:induction false} StripLine(body: string, rest: string)
    requires '\n' !in body
    ensures Strip(InLine, body + ['\n'] + rest) == Prepend("\n", Strip(Plain, rest))
    ensures Strip(InLine, body) == Some("")
  {
    var data := body + ['\n'] + rest;
    if body == "" {
      assert data[1..] == rest;
    } else {
      assert data[1..] == body[1..] + ['\n'] + rest;
      StripLine(body[1..], rest);
    }
  }

  lemma {:induction false} StripBlock(body: string, rest: string)
    requires ValidPiece(BlockComment(body))
    ensures Strip(InBlock, body + "*/" + rest) == Prepend(Newlines(body), Strip(Plain, rest))
  {
    var data := body + "*/" + rest;
    if body == "" {
      assert data[2..] == rest;
      PrependNothing(Strip(Plain, rest));
    } else {
      assert data[1..] == body[1..] + "*/" + rest;
      StripBlock(body[1..], rest);
      PrependTwice("\n", Newlines(body[1..]), Strip(Plain, rest));
      assert "" + Newlines(body[1..]) == Newlines(body[1..]);
      assert !(data[0] == '*' && data[1] == '/');
    }
  }

  lemma StripToken(t: Token, rest: string)
    requires ValidToken(t)
    ensures Strip(Plain, t.Text() + rest) == Prepend(t.Text(), Strip(Plain, rest))
  {
    var data := t.Text() + rest;
    match t
    case Punct(c) => assert data[1..] == rest;
    case Atom(text) => StripAtom(text, rest);
    case Str(text) =>
      assert data[1..] == text[1..] + rest;
      StripString(false, text[1..], rest);
      PrependTwice([text[0]], text[1..], Strip(Plain, rest));
      assert [text[0]] + text[1..] == text;
  }

  lemma StripComment(p: Piece, rest: string)
    requires ValidPiece(p) && (p.LineComment? || p.BlockComment?)
    ensures Strip(Plain, p.Text() + rest) == Prepend(Quiet(p), Strip(Plain, rest))
  {
    var data := p.Text() + rest;
    if p.LineComment? {
      assert data[2..] == p.body + ['\n'] + rest;
      StripLine(p.body, rest);
    } else {
      assert data[2..] == p.body + "*/" + rest;
      StripBlock(p.body, rest);
    }
  }

  lemma StripLastLine(p: Piece)
    requires ValidPiece(p) && p.LastLine?
    ensures Strip(Plain, p.Text()) == Prepend(Quiet(p), Strip(Plain, ""))
  {
    assert p.Text()[2..] == p.body;
    StripLine(p.body, "");
    PrependNothing(Strip(Plain, ""));
  }

  lemma StripPiece(p: Piece, rest: string)
    requires ValidPiece(p) && (p.LastLine? ==> rest == "")
    ensures Strip(Plain, p.Text() + rest) == Prepend(Quiet(p), Strip(Plain, rest))
  {
    match p
    case Tok(token) => StripToken(token, rest);
    case Space(c) => assert (p.Text() + rest)[1..] == rest;
    case LineComment(_) => StripComment(p, rest);
    case BlockComment(_) => StripComment(p, rest);
    case LastLine(_) =>
      assert p.Text() + rest == p.Text();
      StripLastLine(p);
  }

  lemma {:induction false} StripDoc(doc: seq<Piece>)
    requires ValidDoc(doc)
    ensures Strip(Plain, Text(doc)) == Some(QuietText(doc))
  {
    if doc != [] {
      StripDoc(doc[1..]);
      StripPiece(doc[0], Text(doc[1..]));
    }
  }

  // ---------------------------------------------------------------- comma dropping removes exactly the trailing commas

  predicate Closing(t: Token) { t == Punct('}') || t == Punct(']') }

  predicate Trailing(t: Token, next: seq<Token>) {
    t == Punct(',') && next != [] && Closing(next[0])
  }

  function DropTrailing(ts: seq<Token>): seq<Token> {
    if ts == [] then []
    else if Trailing(ts[0], ts[1..]) then DropTrailing(ts[1..])
    else [ts[0]] + DropTrailing(ts[1..])
  }

  function WithoutTrailing(doc: seq<Piece>): seq<Piece> {
    if doc == [] then []
    else if doc[0].Tok? && Trailing(doc[0].token, Tokens(doc[1..])) then WithoutTrailing(doc[1..])
    else [doc[0]] + WithoutTrailing(doc[1..])
  }

  ghost predicate AllBlank(s: string) { forall i :: 0 <= i < |s| ==> IsWhitespace(s[i]) }

  lemma {:induction false} NewlinesAreBlank(body: string)
    ensures AllBlank(Newlines(body))
  {
    if body != "" { NewlinesAreBlank(body[1..]); }
  }

  lemma GapIsBlank(p: Piece)
    requires ValidPiece(p) && !p.Tok?
    ensures AllBlank(Quiet(p))
  {
    if p.BlockComment? { NewlinesAreBlank(p.body); }
  }

  lemma {:induction false} BlankSkips(w: string, rest: string)
    requires AllBlank(w)
    ensures Blank(w + rest) == |w| + Blank(rest)
  {
    if w == "" {
      assert w + rest == rest;
    } else {
      assert (w + rest)[1..] == w[1..] + rest;
      BlankSkips(w[1..], rest);
    }
  }

  lemma TokenIsNext(t: Token, rest: string)
    requires ValidToken(t)
    ensures ClosesNext(t.Text() + rest) <==> Closing(t)
  {
    var data := t.Text() + rest;
    assert data != "" && data[0] == t.Text()[0] && !IsWhitespace(data[0]);
    assert Blank(data) == 0;
  }

  lemma GapIsSkipped(gap: string, rest: string)
    requires AllBlank(gap)
    ensures ClosesNext(gap + rest) <==> ClosesNext(rest)
  {
    BlankSkips(gap, rest);
    if Blank(rest) < |rest| { assert (gap + rest)[|gap| + Blank(rest)] == rest[Blank(rest)]; }
  }

  /** The lookahead sees the next token, however much whitespace stands in between. */
  lemma {:induction false} LookaheadSeesNextToken(doc: seq<Piece>)
    requires ValidDoc(doc)
    ensures ClosesNext(QuietText(doc)) <==> Tokens(doc) != [] && Closing(Tokens(doc)[0])
  {
    if doc == [] {
      assert !ClosesNext("");
    } else {
      var rest := QuietText(doc[1..]);
      if doc[0].Tok? {
        TokenIsNext(doc[0].token, rest);
      } else {
        GapIsBlank(doc[0]);
        GapIsSkipped(Quiet(doc[0]), rest);
        LookaheadSeesNextToken(doc[1..]);
      }
    }
  }

  lemma {:induction false} KeepBlank(w: string, rest: string)
    requires AllBlank(w)
    ensures DropCommas(Plain, w + rest) == w + DropCommas(Plain, rest)
  {
    if w == "" {
      assert w + rest == rest;
    } else {
      assert (w + rest)[1..] == w[1..] + rest;
      KeepBlank(w[1..], rest);
    }
  }

  lemma {:induction false} KeepAtom(text: string, rest: string)
    requires forall i :: 0 <= i < |text| ==> IsAtomChar(text[i])
    ensures DropCommas(Plain, text + rest) == text + DropCommas(Plain, rest)
  {
    if text == "" {
      assert text + rest == rest;
    } else {
      assert (text + rest)[1..] == text[1..] + rest;
      KeepAtom(text[1..], rest);
    }
  }

  lemma {:induction false} KeepString(escaped: bool, s: string, rest: string)
    requires Closes(escaped, s)
    ensures DropCommas(InString(escaped), s + rest) == s + DropCommas(Plain, rest)
    decreases |s|
  {
    assert (s + rest)[1..] == s[1..] + rest;
    var next := AfterStringChar(escaped, s[0]);
    if next.InString? {
      KeepString(next.escaped, s[1..], rest);
    } else {
      assert s[1..] + rest == rest && s == [s[0]];
    }
  }

  lemma KeepToken(t: Token, rest: string)
    requires ValidToken(t) && !(t == Punct(',') && ClosesNext(rest))
    ensures DropCommas(Plain, t.Text() + rest) == t.Text() + DropCommas(Plain, rest)
  {
    match t
    case Punct(c) => assert (t.Text() + rest)[1..] == rest;
    case Atom(text) => KeepAtom(text, rest);
    case Str(text) => KeepLiteral(text, rest);
  }

  lemma KeepLiteral(text: string, rest: string)
    requires ValidToken(Str(text))
    ensures DropCommas(Plain, text + rest) == text + DropCommas(Plain, rest)
  {
    assert (text + rest)[1..] == text[1..] + rest;
    KeepString(false, text[1..], rest);
  }

  lemma {:induction false} DropCommasDoc(doc: seq<Piece>)
    requires ValidDoc(doc)
    ensures DropCommas(Plain, QuietText(doc)) == QuietText(WithoutTrailing(doc))
    ensures ValidDoc(WithoutTrailing(doc))
    ensures Tokens(WithoutTrailing(doc)) == DropTrailing(Tokens(doc))
  {
    if doc != [] {
      var p, rest := doc[0], QuietText(doc[1..]);
      DropCommasDoc(doc[1..]);
      LookaheadSeesNextToken(doc[1..]);
      if !p.Tok? {
        GapIsBlank(p);
        KeepBlank(Quiet(p), rest);
      } else if Trailing(p.token, Tokens(doc[1..])) {
        assert QuietText(doc)[1..] == rest;
      } else {
        KeepToken(p.token, rest);
      }
    }
  }

  // ---------------------------------------------------------------- the tokens a JSON reader sees

  /** The length of the string literal that goes on with `s`, if it is closed. */
  function LiteralLength(escaped: bool, s: string): (n: Option<nat>)
    ensures n.Some? ==> 0 < n.value <= |s|
    decreases |s|
  {
    if s == "" then None
    else
      var next := AfterStringChar(escaped, s[0]);
      if !next.InString? then Some(1)
      else
        var n := LiteralLength(next.escaped, s[1..]);
        if n.Some? then Some(n.value + 1) else None
  }

  function AtomLength(s: string): (n: nat)
    ensures n <= |s|
  {
    if s == "" || !IsAtomChar(s[0]) then 0 else 1 + AtomLength(s[1..])
  }

  function Then(t: Token, ts: Option<seq<Token>>): Option<seq<Token>> {
    if ts.Some? then Some([t] + ts.value) else None
  }

  /** A JSON lexer: whitespace separates, literals and atoms are taken as long as possible. */
  function Lex(s: string): Option<seq<Token>>
    decreases |s|
  {
    if s == "" then Some([])
    else if IsJsonSpace(s[0]) then Lex(s[1..])
    else if IsPunct(s[0]) then Then(Punct(s[0]), Lex(s[1..]))
    else if s[0] == '\"' then
      var n := LiteralLength(false, s[1..]);
      if n.None? then None else Then(Str(s[..n.value + 1]), Lex(s[n.value + 1..]))
    else if AtomLength(s) > 0 then Then(Atom(s[..AtomLength(s)]), Lex(s[AtomLength(s)..]))
    else None
  }

  ghost predicate AtomsApart(ts: seq<Token>) {
    forall i :: 0 <= i < |ts| - 1 ==> !(ts[i].Atom? && ts[i + 1].Atom?)
  }

  lemma {:induction false} LiteralEnds(escaped: bool, s: string, rest: string)
    requires Closes(escaped, s)
    ensures LiteralLength(escaped, s + rest) == Some(|s|)
    decreases |s|
  {
    assert (s + rest)[1..] == s[1..] + rest;
    var next := AfterStringChar(escaped, s[0]);
    if next.InString? { LiteralEnds(next.escaped, s[1..], rest); }
  }

  lemma {:induction false} AtomEnds(text: string, rest: string)
    requires forall i :: 0 <= i < |text| ==> IsAtomChar(text[i])
    requires rest == "" || !IsAtomChar(rest[0])
    ensures AtomLength(text + rest) == |text|
  {
    if text != "" {
      assert (text + rest)[1..] == text[1..] + rest;
      AtomEnds(text[1..], rest);
    } else {
      assert text + rest == rest;
    }
  }

  lemma {:induction false} LexSkipsBlank(w: string, rest: string)
    requires AllBlank(w)
    ensures Lex(w + rest) == Lex(rest)
  {
    if w == "" {
      assert w + rest == rest;
    } else {
      assert (w + rest)[1..] == w[1..] + rest;
      LexSkipsBlank(w[1..], rest);
    }
  }

  lemma LexToken(t: Token, rest: string)
    requires ValidToken(t) && (t.Atom? ==> rest == "" || !IsAtomChar(rest[0]))
    ensures Lex(t.Text() + rest) == Then(t, Lex(rest))
  {
    match t
    case Punct(c) => assert (t.Text() + rest)[1..] == rest;
    case Atom(text) => LexAtom(text, rest);
    case Str(text) => LexString(text, rest);
  }

  lemma LexAtom(text: string, rest: string)
    requires ValidToken(Atom(text)) && (rest == "" || !IsAtomChar(rest[0]))
    ensures Lex(text + rest) == Then(Atom(text), Lex(rest))
  {
    var data := text + rest;
    AtomEnds(text, rest);
    assert IsAtomChar(text[0]) && data[..|text|] == text && data[|text|..] == rest;
  }

  lemma LexString(text: string, rest: string)
    requires ValidToken(Str(text))
    ensures Lex(text + rest) == Then(Str(text), Lex(rest))
  {
    var data := text + rest;
    assert data[1..] == text[1..] + rest;
    LiteralEnds(false, text[1..], rest);
    assert data[..|text|] == text && data[|text|..] == rest;
  }

  /** Between two tokens the text begins with whitespace or with the next token. */
  lemma {:induction false} FirstChar(doc: seq<Piece>)
    requires ValidDoc(doc) && (Tokens(doc) != [] ==> !Tokens(doc)[0].Atom?)
    ensures var s := QuietText(doc); s == "" || !IsAtomChar(s[0])
  {
    if doc != [] {
      var p := doc[0];
      if p.Tok? {
        assert QuietText(doc)[0] == p.token.Text()[0];
      } else {
        GapIsBlank(p);
        FirstChar(doc[1..]);
        if Quiet(p) == "" {
          assert QuietText(doc) == QuietText(doc[1..]);
        } else {
          assert QuietText(doc)[0] == Quiet(p)[0];
        }
      }
    }
  }

  lemma {:induction false} LexDoc(doc: seq<Piece>)
    requires ValidDoc(doc) && AtomsApart(Tokens(doc))
    ensures Lex(QuietText(doc)) == Some(Tokens(doc))
  {
    if doc != [] {
      var p, rest := doc[0], QuietText(doc[1..]);
      if p.Tok? {
        assert Tokens(doc)[1..] == Tokens(doc[1..]);
        assert AtomsApart(Tokens(doc[1..])) by {
          forall i | 0 <= i < |Tokens(doc[1..])| - 1
            ensures !(Tokens(doc[1..])[i].Atom? && Tokens(doc[1..])[i + 1].Atom?)
          {
            assert Tokens(doc)[i + 1] == Tokens(doc[1..])[i];
          }
        }
        LexDoc(doc[1..]);
        if p.token.Atom? {
          var ts := Tokens(doc);
          assert |ts| > 1 ==> !(ts[0].Atom? && ts[0 + 1].Atom?);
          FirstChar(doc[1..]);
        }
        LexToken(p.token, rest);
      } else {
        LexDoc(doc[1..]);
        GapIsBlank(p);
        LexSkipsBlank(Quiet(p), rest);
      }
    }
  }

  // ---------------------------------------------------------------- JSON values

  /** A JSON value as written in a JSONC file; `trailing` says whether a comma follows the last
      element.  Scalars are numbers, `true`, `false` and `null`; `text` is a whole string literal. */
  datatype Json = Scalar(text: string) | Literal(text: string) | Arr(items: Items, trailing: bool)
                | Obj(members: Members, trailing: bool)
  datatype Items = NoItem | Item(head: Json, tail: Items)
  datatype Members = NoMember | Member(key: string, value: Json, rest: Members)

  predicate ValidJson(v: Json) {
    match v
    case Scalar(text) => ValidToken(Atom(text))
    case Literal(text) => ValidToken(Str(text))
    case Arr(items, _) => ValidItems(items)
    case Obj(members, _) => ValidMembers(members)
  }

  predicate ValidItems(items: Items) {
    items.Item? ==> ValidJson(items.head) && ValidItems(items.tail)
  }

  predicate ValidMembers(members: Members) {
    members.Member? ==> ValidToken(Str(members.key)) && ValidJson(members.value) && ValidMembers(members.rest)
  }

  /** The tokens of a value, with the trailing commas it is written with if `relaxed`. */
  function Written(v: Json, relaxed: bool): seq<Token> {
    match v
    case Scalar(text) => [Atom(text)]
    case Literal(text) => [Str(text)]
    case Arr(items, trailing) => [Punct('[')] + WrittenItems(items, relaxed, relaxed && trailing) + [Punct(']')]
    case Obj(members, trailing) => [Punct('{')] + WrittenMembers(members, relaxed, relaxed && trailing) + [Punct('}')]
  }

  function Comma(present: bool): seq<Token> { if present then [Punct(',')] else [] }

  function WrittenItems(items: Items, relaxed: bool, comma: bool): seq<Token> {
    if items.NoItem? then []
    else Written(items.head, relaxed) + Comma(items.tail.Item? || comma) + WrittenItems(items.tail, relaxed, comma)
  }

  function WrittenMembers(members: Members, relaxed: bool, comma: bool): seq<Token> {
    if members.NoMember? then []
    else [Str(members.key), Punct(':')] + Written(members.value, relaxed)
         + Comma(members.rest.Member? || comma) + WrittenMembers(members.rest, relaxed, comma)
  }

  lemma WrittenEnds(v: Json, relaxed: bool)
    ensures var ts := Written(v, relaxed);
            |ts| > 0 && !Closing(ts[0]) && ts[|ts| - 1] != Punct(',')
  {
  }

  lemma DropOne(t: Token, rest: seq<Token>)
    ensures DropTrailing([t] + rest) == if Trailing(t, rest) then DropTrailing(rest) else [t] + DropTrailing(rest)
  {
    assert ([t] + rest)[1..] == rest;
  }

  lemma DropEnclosed(open: Token, inner: seq<Token>, strict: seq<Token>, close: Token, rest: seq<Token>)
    requires open != Punct(',') && close != Punct(',')
    requires DropTrailing(inner + ([close] + rest)) == strict + DropTrailing([close] + rest)
    ensures DropTrailing([open] + inner + [close] + rest) == [open] + strict + [close] + DropTrailing(rest)
  {
    DropOne(close, rest);
    DropOne(open, inner + ([close] + rest));
    assert [open] + inner + [close] + rest == [open] + (inner + ([close] + rest));
  }

  /** An element, perhaps a comma, and what follows; the comma is kept unless a bracket follows. */
  lemma DropElement(head: seq<Token>, strictHead: seq<Token>, comma: bool,
                    tail: seq<Token>, strictTail: seq<Token>, rest: seq<Token>)
    requires rest != []
    requires DropTrailing(head + (Comma(comma) + (tail + rest)))
             == strictHead + DropTrailing(Comma(comma) + (tail + rest))
    requires DropTrailing(tail + rest) == strictTail + DropTrailing(rest)
    ensures DropTrailing(head + Comma(comma) + tail + rest)
            == strictHead + Comma(comma && !Closing((tail + rest)[0])) + strictTail + DropTrailing(rest)
  {
    FourParts(head, Comma(comma), tail, rest);
    DropComma(comma, tail + rest);
    FourParts(strictHead, Comma(comma && !Closing((tail + rest)[0])), strictTail, DropTrailing(rest));
  }

  lemma FourParts(a: seq<Token>, b: seq<Token>, c: seq<Token>, d: seq<Token>)
    ensures a + b + c + d == a + (b + (c + d))
  {
  }

  lemma DropComma(comma: bool, follow: seq<Token>)
    requires follow != []
    ensures DropTrailing(Comma(comma) + follow) == Comma(comma && !Closing(follow[0])) + DropTrailing(follow)
  {
    if comma { DropOne(Punct(','), follow); } else { assert Comma(false) + follow == follow; }
  }

  lemma ItemsStart(items: Items, members: Members, relaxed: bool, comma: bool)
    ensures items.Item?
            ==> WrittenItems(items, relaxed, comma) != [] && !Closing(WrittenItems(items, relaxed, comma)[0])
    ensures members.Member? ==> WrittenMembers(members, relaxed, comma) != []
                                && !Closing(WrittenMembers(members, relaxed, comma)[0])
  {
    if items.Item? { WrittenEnds(items.head, relaxed); }
  }

  /** Trailing commas are what tells the written tokens from the strict ones. */
  lemma {:induction false} DropTrailingWritten(v: Json, rest: seq<Token>)
    ensures DropTrailing(Written(v, true) + rest) == Written(v, false) + DropTrailing(rest)
    decreases v
  {
    match v
    case Scalar(text) => DropOne(Atom(text), rest);
    case Literal(text) => DropOne(Str(text), rest);
    case Arr(items, trailing) =>
      DropTrailingItems(items, trailing, [Punct(']')] + rest);
      DropEnclosed(Punct('['), WrittenItems(items, true, trailing), WrittenItems(items, false, false), Punct(']'),
                   rest);
    case Obj(members, trailing) =>
      DropTrailingMembers(members, trailing, [Punct('}')] + rest);
      DropEnclosed(Punct('{'), WrittenMembers(members, true, trailing), WrittenMembers(members, false, false),
                   Punct('}'), rest);
  }

  lemma {:induction false} DropTrailingItems(items: Items, comma: bool, rest: seq<Token>)
    requires rest != [] && Closing(rest[0])
    ensures DropTrailing(WrittenItems(items, true, comma) + rest)
            == WrittenItems(items, false, false) + DropTrailing(rest)
    decreases items
  {
    if items.NoItem? {
      assert WrittenItems(items, true, comma) + rest == rest;
    } else {
      var head, tail := Written(items.head, true), WrittenItems(items.tail, true, comma);
      var sep := items.tail.Item? || comma;
      DropTrailingItems(items.tail, comma, rest);
      DropTrailingWritten(items.head, Comma(sep) + (tail + rest));
      DropElement(head, Written(items.head, false), sep, tail, WrittenItems(items.tail, false, false), rest);
      ItemsStart(items.tail, NoMember, true, comma);
    }
  }

  lemma {:induction false} DropTrailingMembers(members: Members, comma: bool, rest: seq<Token>)
    requires rest != [] && Closing(rest[0])
    ensures DropTrailing(WrittenMembers(members, true, comma) + rest)
            == WrittenMembers(members, false, false) + DropTrailing(rest)
    decreases members
  {
    if members.NoMember? {
      assert WrittenMembers(members, true, comma) + rest == rest;
    } else {
      var key, value, tail := [Str(members.key), Punct(':')], Written(members.value, true),
                              WrittenMembers(members.rest, true, comma);
      var sep := members.rest.Member? || comma;
      DropTrailingMembers(members.rest, comma, rest);
      DropTrailingWritten(members.value, Comma(sep) + (tail + rest));
      DropKey(members.key, value, Written(members.value, false), Comma(sep) + (tail + rest));
      DropElement(key + value, key + Written(members.value, false), sep, tail,
                  WrittenMembers(members.rest, false, false), rest);
      ItemsStart(NoItem, members.rest, true, comma);
    }
  }

  lemma DropKey(key: string, value: seq<Token>, strict: seq<Token>, rest: seq<Token>)
    requires DropTrailing(value + rest) == strict + DropTrailing(rest)
    ensures DropTrailing([Str(key), Punct(':')] + value + rest) == [Str(key), Punct(':')] + strict + DropTrailing(rest)
  {
    DropOne(Punct(':'), value + rest);
    DropOne(Str(key), [Punct(':')] + (value + rest));
    PairFirst(Str(key), Punct(':'), value, rest);
    PairFirst(Str(key), Punct(':'), strict, DropTrailing(rest));
  }

  lemma PairFirst(a: Token, b: Token, front: seq<Token>, back: seq<Token>)
    ensures [a, b] + front + back == [a] + ([b] + (front + back))
  {
  }

  lemma ApartConcat(a: seq<Token>, b: seq<Token>)
    requires AtomsApart(a) && AtomsApart(b)
    requires a == [] || b == [] || !a[|a| - 1].Atom? || !b[0].Atom?
    ensures AtomsApart(a + b)
  {
    var ts := a + b;
    forall i | 0 <= i < |ts| - 1 ensures !(ts[i].Atom? && ts[i + 1].Atom?) {
      if i + 1 < |a| { assert a[i] == ts[i] && a[i + 1] == ts[i + 1]; }
      else if i >= |a| { assert b[i - |a|] == ts[i] && b[i - |a| + 1] == ts[i + 1]; }
    }
  }

  lemma {:induction false} WrittenApart(v: Json)
    ensures AtomsApart(Written(v, false))
    decreases v
  {
    match v
    case Scalar(text) =>
    case Literal(text) =>
    case Arr(items, _) =>
      ItemsApart(items);
      ApartConcat([Punct('[')], WrittenItems(items, false, false));
      ApartConcat([Punct('[')] + WrittenItems(items, false, false), [Punct(']')]);
    case Obj(members, _) =>
      MembersApart(members);
      ApartConcat([Punct('{')], WrittenMembers(members, false, false));
      ApartConcat([Punct('{')] + WrittenMembers(members, false, false), [Punct('}')]);
  }

  lemma {:induction false} ItemsApart(items: Items)
    ensures AtomsApart(WrittenItems(items, false, false))
    decreases items
  {
    if items.Item? {
      var sep := Comma(items.tail.Item?);
      WrittenApart(items.head);
      ItemsApart(items.tail);
      ApartConcat(Written(items.head, false), sep);
      ApartConcat(Written(items.head, false) + sep, WrittenItems(items.tail, false, false));
    }
  }

  lemma {:induction false} MembersApart(members: Members)
    ensures AtomsApart(WrittenMembers(members, false, false))
    decreases members
  {
    if members.Member? {
      var key := [Str(members.key), Punct(':')];
      var sep := Comma(members.rest.Member?);
      WrittenApart(members.value);
      MembersApart(members.rest);
      ApartConcat(key, Written(members.value, false));
      ApartConcat(key + Written(members.value, false), sep);
      ApartConcat(key + Written(members.value, false) + sep, WrittenMembers(members.rest, false, false));
    }
  }

  lemma {:induction false} PlainDocsHaveNoBom(doc: seq<Piece>)
    requires ValidDoc(doc)
    ensures WithoutBom(Text(doc)) == Text(doc) && WithoutBom(BOM + Text(doc)) == Text(doc)
  {
    if doc != [] {
      assert Text(doc)[0] == doc[0].Text()[0];
      assert Text(doc)[0] != BOM[0];
    }
    assert (BOM + Text(doc))[3..] == Text(doc);
  }

  /** Normalising any document of whitespace, comments and tokens: the result reads as the same
      tokens without the trailing commas.  String literals are tokens, so they are kept as they are. */
  lemma NormalizeKeepsTokens(doc: seq<Piece>, bom: bool)
    requires ValidDoc(doc) && AtomsApart(DropTrailing(Tokens(doc)))
    ensures var out := Normalized((if bom then BOM else []) + Text(doc));
            out.Some? && Lex(out.value) == Some(DropTrailing(Tokens(doc)))
  {
    PlainDocsHaveNoBom(doc);
    assert [] + Text(doc) == Text(doc);
    StripDoc(doc);
    DropCommasDoc(doc);
    LexDoc(WithoutTrailing(doc));
  }

  /** Normalising keeps the meaning of a JSON value: however it is laid out with whitespace, closed
      comments and trailing commas, the result reads as the tokens of the strict JSON text. */
  lemma NormalizeKeepsJson(v: Json, doc: seq<Piece>, bom: bool)
    requires ValidJson(v) && ValidDoc(doc) && Tokens(doc) == Written(v, true)
    ensures var out := Normalized((if bom then BOM else []) + Text(doc));
            out.Some? && Lex(out.value) == Some(Written(v, false))
  {
    DropTrailingWritten(v, []);
    assert Written(v, true) + [] == Written(v, true) && Written(v, false) + [] == Written(v, false);
    WrittenApart(v);
    NormalizeKeepsTokens(doc, bom);
  }

  // ---------------------------------------------------------------- two laws of comment stripping

  function CountNewlines(s: string): nat {
    if s == "" then 0 else (if s[0] == '\n' then 1 else 0) + CountNewlines(s[1..])
  }

  lemma CountCons(c: char, s: string)
    ensures CountNewlines([c] + s) == (if c == '\n' then 1 else 0) + CountNewlines(s)
  {
    assert ([c] + s)[1..] == s;
  }

  /** Line numbers survive: stripping comments keeps the number of newlines. */
  lemma {:induction false} StripKeepsNewlines(mode: Mode, data: string)
    requires Strip(mode, data).Some?
    ensures CountNewlines(Strip(mode, data).value) == CountNewlines(data)
    decreases |data|
  {
    if data != "" {
      var c, rest := data[0], data[1..];
      if mode.InBlock? && c == '*' && |data| > 1 && data[1] == '/' {
        assert rest[1..] == data[2..];
        StripKeepsNewlines(Plain, data[2..]);
      } else if mode.Plain? && c == '/' && |data| > 1 && (data[1] == '/' || data[1] == '*') {
        assert rest[1..] == data[2..];
        StripKeepsNewlines(if data[1] == '/' then InLine else InBlock, data[2..]);
      } else {
        var next := match mode
          case InLine => if c == '\n' then Plain else InLine
          case InBlock => InBlock
          case InString(escaped) => AfterStringChar(escaped, c)
          case Plain => if c == '\"' then InString(false) else Plain;
        StripKeepsNewlines(next, rest);
        CountCons(c, Strip(next, rest).value);
      }
    }
  }

  /** The mode in which stripped text has to be read again. */
  function Again(mode: Mode): Mode { if mode.InString? then mode else Plain }

  /** A slash that is kept is never followed by what would make it a comment. */
  lemma SlashStaysAlone(data: string)
    requires data != "" && data[0] != '/' && data[0] != '*' && Strip(Plain, data).Some?
    ensures Strip(Plain, data).value != "" && Strip(Plain, data).value[0] == data[0]
  {
  }

  lemma {:induction false} StripTwice(mode: Mode, data: string)
    requires Strip(mode, data).Some?
    ensures Strip(Again(mode), Strip(mode, data).value) == Strip(mode, data)
    decreases |data|
  {
    if data != "" {
      var c, rest, out := data[0], data[1..], Strip(mode, data).value;
      match mode
      case InLine =>
        if c == '\n' {
          StripTwice(Plain, rest);
          assert out[1..] == Strip(Plain, rest).value;
        } else {
          StripTwice(InLine, rest);
        }
      case InBlock =>
        if c == '*' && |data| > 1 && data[1] == '/' {
          StripTwice(Plain, data[2..]);
        } else {
          StripTwice(InBlock, rest);
          if c == '\n' { assert out[1..] == Strip(InBlock, rest).value; }
        }
      case InString(escaped) =>
        StripTwice(AfterStringChar(escaped, c), rest);
        assert out[1..] == Strip(AfterStringChar(escaped, c), rest).value;
      case Plain =>
        if c == '/' && |data| > 1 && (data[1] == '/' || data[1] == '*') {
          StripTwice(if data[1] == '/' then InLine else InBlock, data[2..]);
        } else {
          var next := if c == '\"' then InString(false) else Plain;
          StripTwice(next, rest);
          assert out[1..] == Strip(next, rest).value;
          if c == '/' && rest != "" { SlashStaysAlone(rest); }
        }
    }
  }

  /** Stripping comments is idempotent. */
  lemma StripIsIdempotent(data: string)
    requires Strip(Plain, data).Some?
    ensures Strip(Plain, Strip(Plain, data).value) == Strip(Plain, data)
  {
    StripTwice(Plain, data);
  }
}
