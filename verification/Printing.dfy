/** How values are printed (`SexpString`), and that reading what was printed gives the values
    back. */
module Printing {
  import opened Sexps
  import opened Instructions
  import opened Encoding
  import opened Symbols
  import opened Lexing
  import opened Parsing
  import opened TwoPhase

  // ---------- strconv ----------

  function DigitChar(d: int): char
    requires 0 <= d < 10
  {
    ('0' as int + d) as char
  }

  function ItoaNat(n: nat): string {
    if n < 10 then [DigitChar(n)] else ItoaNat(n / 10) + [DigitChar(n % 10)]
  }

  function Itoa(n: int): string {
    if n < 0 then "-" + ItoaNat(-n) else ItoaNat(n)
  }

  function HexChar(d: int): char
    requires 0 <= d < 16
  {
    "0123456789abcdef"[d]
  }

  function Hex(n: nat, width: nat): string {
    if width == 0 then "" else Hex(n / 16, width - 1) + [HexChar(n % 16)]
  }

  /** Which runes print as themselves: fixed for ASCII, and beyond that what the host's
      Unicode tables (`tables`) say. */
  predicate Printable(c: char, tables: char -> bool) {
    if c < '\U{80}' then ' ' <= c < '\U{7F}' else tables(c)
  }

  /** One rune as it stands between `quote` marks. */
  function QuoteChar(c: char, quote: char, tables: char -> bool): string {
    if c == quote || c == '\\' then ['\\', c]
    else if Printable(c, tables) then [c]
    else
      match c
      case '\U{7}' => "\\a"
      case '\U{8}' => "\\b"
      case '\U{C}' => "\\f"
      case '\n' => "\\n"
      case '\r' => "\\r"
      case '\t' => "\\t"
      case '\U{B}' => "\\v"
      case _ =>
        var n := c as int;
        if n < 0x80 then "\\x" + Hex(n, 2) else if n < 0x10000 then "\\u" + Hex(n, 4) else "\\U" + Hex(n, 8)
  }

  function QuoteBody(s: string, tables: char -> bool): string {
    if s == "" then "" else QuoteChar(s[0], '"', tables) + QuoteBody(s[1..], tables)
  }

  function TrimLeft(s: string): string {
    if s != "" && s[0] == '\'' then TrimLeft(s[1..]) else s
  }

  function TrimRight(s: string): string {
    if s != "" && s[|s| - 1] == '\'' then TrimRight(s[..|s| - 1]) else s
  }

  /** A number that is no rune prints as U+FFFD. */
  function Rune(c: int): char {
    if 0 <= c < 0xD800 || 0xE000 <= c < 0x110000 then c as char else '\U{FFFD}'
  }

  function CharString(c: int, tables: char -> bool): string {
    "#" + TrimRight(TrimLeft("'" + QuoteChar(Rune(c), '\'', tables) + "'"))
  }

  // ---------- SexpString ----------

  function SexpString(v: Value, tables: char -> bool): string
    decreases Size(v), 1
  {
    match v
    case Null => "()"
    case End => "End"
    case Marker => "Marker"
    case Int(i) => Itoa(i)
    case Bool(b) => if b then "true" else "false"
    case Char(c) => CharString(c, tables)
    case Str(s) => "\"" + QuoteBody(s, tables) + "\""
    case Sym(s) => s.name
    case Pair(_, _) => "(" + PairString(v, tables)
    case Arr(es) => "[" + ItemsString(es, tables) + "]"
    case Fun(f) => "fn [" + f.name + "]"
  }

  /** A list after its opening parenthesis. */
  function PairString(v: Value, tables: char -> bool): string
    requires v.Pair?
    decreases Size(v), 0
  {
    SexpString(v.head, tables) +
    match v.tail
    case Pair(_, _) => " " + PairString(v.tail, tables)
    case Null => ")"
    case _ => " . " + SexpString(v.tail, tables) + ")"
  }

  /** Values separated by single spaces. */
  function ItemsString(vs: seq<Value>, tables: char -> bool): string
    decreases SizeSeq(vs), 0
  {
    if vs == [] then ""
    else if |vs| == 1 then SexpString(vs[0], tables)
    else SexpString(vs[0], tables) + " " + ItemsString(vs[1..], tables)
  }

  // ---------- what can be read back ----------

  /** A rune that ends an atom or may not stand in one. */
  predicate Special(c: char) {
    c in "\"';`~()[]{} \n\t\r"
  }

  predicate Plain(s: string) {
    forall i | 0 <= i < |s| :: !Special(s[i])
  }

  predicate SymbolName(name: string) {
    Plain(name) && DecodeAtom(name) == Ok(Token(TokenSymbol, name))
  }

  /** The lexer undoes exactly these of the printer's escapes. */
  predicate ReadableChar(c: char, tables: char -> bool) {
    Printable(c, tables) || c in "\n\r\t" || c == BELL
  }

  predicate ReadableString(s: string, tables: char -> bool) {
    forall i | 0 <= i < |s| :: ReadableChar(s[i], tables)
  }

  predicate ReadableLiteral(c: int) {
    || c in {7, 9, 10, 13}
    || (32 < c < 127 && !Special(c as char))
  }

  /** Values whose printed form is read as the value, by an environment whose symbol tables
      are `t`. */
  predicate Readable(v: Value, t: Names, tables: char -> bool) {
    match v
    case Null => true
    case Int(i) => -TWO63 <= i < TWO63
    case Bool(_) => true
    case Char(c) => ReadableLiteral(c)
    case Str(s) => ReadableString(s, tables)
    case Sym(s) => SymbolName(s.name) && Interned(t, s)
    case Pair(h, r) => Readable(h, t, tables) && Readable(r, t, tables)
    case Arr(es) => forall i | 0 <= i < |es| :: Readable(es[i], t, tables)
    case _ => false
  }

  // ---------- the tokens of a printed value ----------

  function Tok(typ: TokenType): Token {
    Token(typ, "")
  }

  function Tokens(v: Value): seq<Token>
    decreases Size(v), 1
  {
    match v
    case Null => [Tok(TokenLParen), Tok(TokenRParen)]
    case Int(i) => [Token(TokenDecimal, Itoa(i))]
    case Bool(b) => [Token(TokenBool, if b then "true" else "false")]
    case Char(c) => [Token(TokenChar, [Rune(c)])]
    case Str(s) => [Token(TokenString, s)]
    case Sym(s) => [Token(TokenSymbol, s.name)]
    case Pair(_, _) => [Tok(TokenLParen)] + PairTokens(v)
    case Arr(es) => [Tok(TokenLSquare)] + ItemsTokens(es) + [Tok(TokenRSquare)]
    case _ => []
  }

  function PairTokens(v: Value): seq<Token>
    requires v.Pair?
    decreases Size(v), 0
  {
    Tokens(v.head) +
    match v.tail
    case Pair(_, _) => PairTokens(v.tail)
    case Null => [Tok(TokenRParen)]
    case _ => [Tok(TokenDot)] + Tokens(v.tail) + [Tok(TokenRParen)]
  }

  function ItemsTokens(vs: seq<Value>): seq<Token>
    decreases SizeSeq(vs), 0
  {
    if vs == [] then [] else Tokens(vs[0]) + ItemsTokens(vs[1..])
  }

  /** Values that stay in the buffer until a delimiter. */
  predicate Buffered(v: Value) {
    v.Int? || v.Bool? || v.Char? || v.Sym?
  }

  // ---------- running the lexer over a string ----------

  function Feed(l: Lex, s: string): Answer<()>
    decreases |s|
  {
    if s == "" then Answer(l, Ok(()))
    else
      var n := LexNextRune(l, s[0]);
      if n.res.Err? then n else Feed(n.l, s[1..])
  }

  lemma {:induction false} FeedAppend(l: Lex, a: string, b: string)
    requires Feed(l, a).res.Ok?
    ensures Feed(l, a + b) == Feed(Feed(l, a).l, b)
    decreases |a|
  {
    hide LexNextRune;
    if a == "" {
      assert a + b == b;
    } else {
      FeedAppend(LexNextRune(l, a[0]).l, a[1..], b);
      assert (a + b)[1..] == a[1..] + b;
    }
  }

  lemma DumpBufferStream(l: Lex, u: string)
    ensures DumpBuffer(l.(stream := u)).l == DumpBuffer(l).l.(stream := u)
    ensures DumpBuffer(l.(stream := u)).res == DumpBuffer(l).res
  {
    hide DecodeAtom;
  }

  lemma LexNormalStream(l: Lex, r: char, u: string)
    ensures LexNormal(l.(stream := u), r).l == LexNormal(l, r).l.(stream := u)
    ensures LexNormal(l.(stream := u), r).res == LexNormal(l, r).res
  {
    DumpBufferStream(l, u);
    DumpBufferStream(l.(linenum := l.linenum + 1), u);
    hide DumpBuffer, DecodeBrace, Brace, Space;
    if Brace(r) || Space(r) {
      if r == '"' || r == ';' || r == '\'' || r == '`' || r == '~' {
      } else {
        hide LexQuote;
      }
    } else {
    }
  }

  lemma LexNextRuneStream(l: Lex, r: char, u: string)
    ensures LexNextRune(l.(stream := u), r).l == LexNextRune(l, r).l.(stream := u)
    ensures LexNextRune(l.(stream := u), r).res == LexNextRune(l, r).res
  {
    hide EscapeChar, LexNormal;
    LexNormalStream(l, r, u);
  }

  lemma {:induction false} RestFeed(l: Lex, s: string, u: string)
    ensures var f := Feed(l, s);
            if f.res.Ok? then Rest(l.(stream := s + u)) == Rest(f.l.(stream := u))
            else Rest(l.(stream := s + u)) == (f.l.tokens, Some(f.res.error))
    decreases |s|
  {
    hide LexNextRune, DumpBuffer;
    if s == "" {
      assert s + u == u;
    } else {
      assert (s + u)[1..] == s[1..] + u;
      LexNextRuneStream(l, s[0], s[1..] + u);
      if LexNextRune(l, s[0]).res.Ok? {
        RestFeed(LexNextRune(l, s[0]).l, s[1..], u);
      }
    }
  }

  // ---------- lexing atoms ----------

  lemma {:induction false} FeedPlain(l: Lex, s: string)
    requires l.state == LexerNormal && Plain(s)
    ensures Feed(l, s) == Answer(l.(buffer := l.buffer + s), Ok(()))
    decreases |s|
  {
    if s == "" {
      assert l.buffer + s == l.buffer;
    } else {
      assert !Special(s[0]);
      assert LexNextRune(l, s[0]) == Answer(l.(buffer := l.buffer + [s[0]]), Ok(()));
      hide LexNextRune;
      FeedPlain(l.(buffer := l.buffer + [s[0]]), s[1..]);
      assert l.buffer + [s[0]] + s[1..] == l.buffer + s;
    }
  }

  lemma {:induction false} ItoaDigits(n: nat)
    ensures Digits(ItoaNat(n)) && Plain(ItoaNat(n)) && DigitsValue(ItoaNat(n), 10) == n
  {
    var s := ItoaNat(n);
    if n < 10 {
      assert s[..0] == "" && DigitValue(s[0]) == n;
      assert DigitsValue(s[..0], 10) == 0;
    } else {
      ItoaDigits(n / 10);
      assert s[..|s| - 1] == ItoaNat(n / 10);
    }
  }

  lemma ItoaAtom(n: int)
    ensures Plain(Itoa(n)) && DecodeAtom(Itoa(n)) == Ok(Token(TokenDecimal, Itoa(n)))
    ensures -TWO63 <= n < TWO63 ==> ParseInt(Itoa(n), 10) == Ok(n)
  {
    hide FloatRegex, HexRegex, OctRegex, BinaryRegex, CharRegex, SymbolRegex, DecodeChar, ItoaNat, DigitsValue;
    if n < 0 {
      ItoaDigits(-n);
      assert Itoa(n)[1..] == ItoaNat(-n);
    } else {
      ItoaDigits(n);
      assert Digit(Itoa(n)[0]);
    }
  }

  lemma LiteralString(c: int, tables: char -> bool)
    requires ReadableLiteral(c)
    ensures CharString(c, tables) == if c == 92 then "#\\\\" else if c == 7 then "#\\a" else if c == 9 then "#\\t"
                                     else if c == 10 then "#\\n" else if c == 13 then "#\\r" else ['#', c as char]
  {
    var body := QuoteChar(Rune(c), '\'', tables);
    assert body == if c == 92 then "\\\\" else if c == 7 then "\\a" else if c == 9 then "\\t"
                   else if c == 10 then "\\n" else if c == 13 then "\\r" else [c as char];
    hide QuoteChar;
    assert body[0] != '\'' && body[|body| - 1] != '\'';
    var quoted := "'" + body + "'";
    assert TrimLeft(quoted) == body + "'" by {
      assert quoted[1..] == body + "'";
      assert TrimLeft(body + "'") == body + "'";
    }
    assert TrimRight(body + "'") == body by {
      assert (body + "'")[..|body|] == body;
      assert TrimRight(body) == body;
    }
  }

  lemma HashAtom(s: string)
    requires CharRegex(s) && (|s| == 3 ==> EscapeChar(s[2]).Ok?)
    ensures DecodeAtom(s) == Ok(Token(TokenChar, if |s| == 3 then [EscapeChar(s[2]).value] else s[1..]))
  {
    hide EscapeChar;
    assert s[0] == '#' && Unsigned(s) == s && !DecimalRegex(s) && s[..2] != "0x" && s[..2] != "0o" && s[..2] != "0b";
    assert !FloatRegex(s) && !SymbolRegex(s);
    hide FloatRegex, SymbolRegex, CharRegex, DecimalRegex;
  }

  lemma LiteralAtom(c: int, tables: char -> bool)
    requires ReadableLiteral(c)
    ensures var s := CharString(c, tables);
            Plain(s) && DecodeAtom(s) == Ok(Token(TokenChar, [c as char])) && Bytes([c as char]) == [c]
  {
    hide DecodeAtom, CharString;
    LiteralString(c, tables);
    var s := CharString(c, tables);
    HashAtom(s);
    assert Bytes([c as char]) == Utf8(c as char) + Bytes("");
  }

  lemma AtomText(v: Value, t: Names, tables: char -> bool)
    requires Readable(v, t, tables) && Buffered(v)
    ensures var s := SexpString(v, tables);
            Plain(s) && s != "" && DecodeAtom(s).Ok? && Tokens(v) == [DecodeAtom(s).value]
  {
    hide DecodeAtom, Plain, CharString, Itoa;
    match v
    case Int(i) => ItoaAtom(i);
      assert Itoa(i) != "" by {
        EmptyAtom();
      }
    case Bool(b) => BoolAtoms();
    case Char(c) => LiteralAtom(c, tables);
      assert CharString(c, tables) != "" by {
        EmptyAtom();
      }
    case Sym(s) => EmptyAtom();
  }

  lemma EmptyAtom()
    ensures DecodeAtom("").Err?
  {
    assert !CharRegex("") && !FloatRegex("");
    hide FloatRegex;
  }

  lemma BoolAtoms()
    ensures DecodeAtom("true") == Ok(Token(TokenBool, "true")) && Plain("true")
    ensures DecodeAtom("false") == Ok(Token(TokenBool, "false")) && Plain("false")
  {
    hide DecimalRegex, HexRegex, OctRegex, BinaryRegex, FloatRegex, SymbolRegex, CharRegex, DecodeChar;
    LettersPlain("true");
    LettersPlain("false");
    hide Plain;
  }

  lemma LettersPlain(s: string)
    requires forall i | 0 <= i < |s| :: 'a' <= s[i] <= 'z'
    ensures Plain(s)
  {
  }

  // ---------- lexing what was printed ----------

  predicate Ready(l: Lex) {
    l.state == LexerNormal && l.buffer == ""
  }

  function Give(l: Lex, toks: seq<Token>): Lex {
    l.(tokens := l.tokens + toks)
  }

  /** The lexer after the text of a value. */
  function Shown(l: Lex, v: Value, tables: char -> bool): Lex {
    if Buffered(v) then l.(buffer := SexpString(v, tables)) else Give(l, Tokens(v))
  }

  function Delimiter(d: char): seq<Token> {
    if d == ')' then [Tok(TokenRParen)]
    else if d == ']' then [Tok(TokenRSquare)]
    else if d == '}' then [Tok(TokenRCurly)]
    else []
  }

  lemma ShownStream(l: Lex, v: Value, tables: char -> bool)
    ensures Shown(l.(stream := ""), v, tables) == Shown(l, v, tables).(stream := "")
  {
  }

  lemma DumpShown(l: Lex, v: Value, t: Names, tables: char -> bool)
    requires Ready(l) && Readable(v, t, tables)
    ensures DumpBuffer(Shown(l, v, tables)) == Answer(Give(l, Tokens(v)), Ok(()))
  {
    hide DecodeAtom, SexpString, Tokens, Readable;
    if Buffered(v) {
      AtomText(v, t, tables);
    }
  }

  lemma LexDelimiter(l: Lex, d: char)
    requires l.state == LexerNormal && d in " )]}" && DumpBuffer(l).res == Ok(())
    ensures LexNextRune(l, d) == Answer(Give(DumpBuffer(l).l, Delimiter(d)), Ok(()))
  {
    hide DumpBuffer, LexQuote;
    var l1 := DumpBuffer(l).l;
    if d == ' ' {
      assert Space(d) && !Brace(d);
      assert l1.tokens + [] == l1.tokens;
    } else {
      assert d == ')' || d == ']' || d == '}';
      assert Brace(d);
    }
  }

  lemma Delimit(l: Lex, v: Value, d: char, t: Names, tables: char -> bool)
    requires Ready(l) && Readable(v, t, tables) && d in " )]}"
    ensures LexNextRune(Shown(l, v, tables), d) == Answer(Give(l, Tokens(v) + Delimiter(d)), Ok(()))
  {
    hide DumpBuffer, Tokens, SexpString, Readable, Delimiter, LexNextRune;
    DumpShown(l, v, t, tables);
    LexDelimiter(Shown(l, v, tables), d);
    assert l.tokens + Tokens(v) + Delimiter(d) == l.tokens + (Tokens(v) + Delimiter(d));
  }

  /** Past a value and its delimiter. */
  lemma Past(l: Lex, v: Value, d: char, u: string, t: Names, tables: char -> bool)
    requires Ready(l) && Readable(v, t, tables) && d in " )]}"
    requires Feed(l, SexpString(v, tables)) == Answer(Shown(l, v, tables), Ok(()))
    ensures Feed(l, SexpString(v, tables) + ([d] + u)) == Feed(Give(l, Tokens(v) + Delimiter(d)), u)
  {
    FeedAppend(l, SexpString(v, tables), [d] + u);
    Delimit(l, v, d, t, tables);
    hide LexNextRune, SexpString, Shown, Tokens, Readable;
    assert ([d] + u)[1..] == u;
  }

  lemma {:induction false} FeedQuoted(l: Lex, s: string, tables: char -> bool)
    requires l.state == LexerStrLit && ReadableString(s, tables)
    ensures Feed(l, QuoteBody(s, tables)) == Answer(l.(buffer := l.buffer + s), Ok(()))
    decreases |s|
  {
    if s == "" {
      assert l.buffer + s == l.buffer;
    } else {
      var q, l1 := QuoteChar(s[0], '"', tables), l.(buffer := l.buffer + [s[0]]);
      assert ReadableChar(s[0], tables);
      assert QuoteBody(s, tables) == q + QuoteBody(s[1..], tables);
      hide QuoteBody, QuoteChar, LexNextRune, Feed, ReadableChar;
      QuotedChar(l, s[0], tables);
      FeedAppend(l, q, QuoteBody(s[1..], tables));
      FeedQuoted(l1, s[1..], tables);
      assert l1.buffer + s[1..] == l.buffer + s;
    }
  }

  lemma QuotedChar(l: Lex, c: char, tables: char -> bool)
    requires l.state == LexerStrLit && ReadableChar(c, tables)
    ensures Feed(l, QuoteChar(c, '"', tables)) == Answer(l.(buffer := l.buffer + [c]), Ok(()))
  {
    hide LexNormal, LexUnquote, Printable, DumpString;
    var q := QuoteChar(c, '"', tables);
    if |q| == 1 {
      assert c != '"' && c != '\\' && q == [c] && q[1..] == "";
    } else {
      assert |q| == 2 && q[0] == '\\' && EscapeChar(q[1]) == Ok(c);
      assert q[1..] == [q[1]] && q[1..][1..] == "";
      var l1 := l.(state := LexerStrEscaped);
      assert LexNextRune(l, q[0]) == Answer(l1, Ok(()));
      var l2 := l.(buffer := l.buffer + [c]);
      assert LexNextRune(l1, q[1]) == Answer(l2, Ok(()));
      assert Feed(l1, [q[1]]) == Feed(l2, "");
    }
  }

  lemma FeedStr(l: Lex, s: string, tables: char -> bool)
    requires Ready(l) && ReadableString(s, tables)
    ensures Feed(l, "\"" + QuoteBody(s, tables) + "\"") == Answer(Give(l, [Token(TokenString, s)]), Ok(()))
  {
    var l1 := l.(state := LexerStrLit);
    FeedQuoted(l1, s, tables);
    FeedAppend(l1, QuoteBody(s, tables), "\"");
    var text := "\"" + QuoteBody(s, tables) + "\"";
    assert text[1..] == QuoteBody(s, tables) + "\"";
    assert l1.buffer + s == s;
    assert "\""[1..] == "";
  }

  lemma {:induction false} FeedValue(l: Lex, v: Value, t: Names, tables: char -> bool)
    requires Ready(l) && Readable(v, t, tables)
    ensures Feed(l, SexpString(v, tables)) == Answer(Shown(l, v, tables), Ok(()))
    decreases Size(v), 2
  {
    hide LexNextRune, Plain, DecodeAtom, Readable;
    if Buffered(v) {
      AtomText(v, t, tables);
      FeedPlain(l, SexpString(v, tables));
    } else {
      FeedCompound(l, v, t, tables);
    }
  }

  lemma FeedBrace(l: Lex, brace: char, u: string)
    requires Ready(l) && Brace(brace)
    ensures Feed(l, [brace] + u) == Feed(Give(l, [DecodeBrace(brace)]), u)
  {
    assert ([brace] + u)[1..] == u;
    assert LexNextRune(l, brace) == Answer(Give(l, [DecodeBrace(brace)]), Ok(())) by {
      hide DecodeBrace;
    }
    hide LexNextRune;
  }

  lemma FeedEmpty(l: Lex)
    ensures Feed(l, "") == Answer(l, Ok(())) && Give(l, []) == l
  {
  }

  lemma {:induction false} FeedCompound(l: Lex, v: Value, t: Names, tables: char -> bool)
    requires Ready(l) && Readable(v, t, tables) && !Buffered(v)
    ensures Feed(l, SexpString(v, tables)) == Answer(Give(l, Tokens(v)), Ok(()))
    decreases Size(v), 1
  {
    hide Feed, PairString, PairTokens, ItemsString, ItemsTokens;
    match v
    case Null => FeedNull(l);
    case Str(s) => FeedStr(l, s, tables);
    case Pair(_, _) =>
      FeedBrace(l, '(', PairString(v, tables));
      FeedPair(Give(l, [Tok(TokenLParen)]), v, t, tables);
      assert l.tokens + [Tok(TokenLParen)] + PairTokens(v) == l.tokens + Tokens(v);
    case Arr(es) =>
      FeedArray(l, es, t, tables);
  }

  lemma FeedNull(l: Lex)
    requires Ready(l)
    ensures Feed(l, "()") == Answer(Give(l, [Tok(TokenLParen), Tok(TokenRParen)]), Ok(()))
  {
    hide Feed;
    assert "()" == ['('] + ([')'] + "");
    var l1 := Give(l, [Tok(TokenLParen)]);
    FeedBrace(l, '(', [')'] + "");
    FeedBrace(l1, ')', "");
    FeedEmpty(Give(l1, [Tok(TokenRParen)]));
    assert l.tokens + [Tok(TokenLParen)] + [Tok(TokenRParen)] == l.tokens + [Tok(TokenLParen), Tok(TokenRParen)];
  }

  lemma {:induction false} FeedArray(l: Lex, es: seq<Value>, t: Names, tables: char -> bool)
    requires Ready(l) && forall i | 0 <= i < |es| :: Readable(es[i], t, tables)
    ensures Feed(l, "[" + ItemsString(es, tables) + "]") ==
            Answer(Give(l, [Tok(TokenLSquare)] + ItemsTokens(es) + [Tok(TokenRSquare)]), Ok(()))
    decreases SizeSeq(es), 1
  {
    hide Feed, ItemsString, ItemsTokens, Readable;
    FeedBrace(l, '[', ItemsString(es, tables) + "]");
    assert "[" + ItemsString(es, tables) + "]" == ['['] + (ItemsString(es, tables) + "]");
    var l1 := Give(l, [Tok(TokenLSquare)]);
    FeedItems(l1, es, ']', t, tables);
    assert l1.tokens + (ItemsTokens(es) + [Tok(TokenRSquare)]) ==
           l.tokens + ([Tok(TokenLSquare)] + ItemsTokens(es) + [Tok(TokenRSquare)]);
  }

  lemma FeedDot(l: Lex, u: string)
    requires Ready(l)
    ensures Feed(l, ". " + u) == Feed(Give(l, [Tok(TokenDot)]), u)
  {
    var l1 := l.(buffer := ".");
    assert LexNextRune(l, '.') == Answer(l1, Ok(()));
    assert LexNextRune(l1, ' ') == Answer(Give(l, [Tok(TokenDot)]), Ok(()));
    assert (". " + u)[1..] == " " + u && (" " + u)[1..] == u;
    hide LexNextRune;
  }

  /** The text and the tokens of a list, from its second element on. */
  function AfterHead(v: Value, tables: char -> bool): string
    requires v.Pair?
  {
    if v.tail.Pair? then [' '] + PairString(v.tail, tables)
    else if v.tail.Null? then [')'] + ""
    else [' '] + (". " + (SexpString(v.tail, tables) + ([')'] + "")))
  }

  lemma PairSplits(v: Value, tables: char -> bool)
    requires v.Pair?
    ensures PairString(v, tables) == SexpString(v.head, tables) + AfterHead(v, tables)
    ensures PairTokens(v) == Tokens(v.head) +
            if v.tail.Pair? then PairTokens(v.tail) else if v.tail.Null? then [Tok(TokenRParen)]
            else [Tok(TokenDot)] + Tokens(v.tail) + [Tok(TokenRParen)]
  {
    hide SexpString, Tokens;
    assert " . " + SexpString(v.tail, tables) + ")" == [' '] + (". " + (SexpString(v.tail, tables) + ([')'] + "")));
  }

  lemma {:induction false} FeedPair(l: Lex, v: Value, t: Names, tables: char -> bool)
    requires Ready(l) && v.Pair? && Readable(v, t, tables)
    ensures Feed(l, PairString(v, tables)) == Answer(Give(l, PairTokens(v)), Ok(()))
    decreases Size(v), 0
  {
    hide Feed, SexpString, Tokens, Shown, PairString, PairTokens;
    var h, r := v.head, v.tail;
    FeedValue(l, h, t, tables);
    PairSplits(v, tables);
    if r.Pair? {
      Past(l, h, ' ', PairString(r, tables), t, tables);
      var l1 := Give(l, Tokens(h) + Delimiter(' '));
      FeedPair(l1, r, t, tables);
      hide Readable, Ready;
      assert l1.tokens + PairTokens(r) == l.tokens + PairTokens(v);
    } else if r.Null? {
      Past(l, h, ')', "", t, tables);
      FeedEmpty(Give(l, Tokens(h) + Delimiter(')')));
    } else {
      Past(l, h, ' ', ". " + (SexpString(r, tables) + ([')'] + "")), t, tables);
      var l1 := Give(l, Tokens(h) + Delimiter(' '));
      FeedDotted(l1, r, t, tables);
      hide Readable, Ready;
      assert l1.tokens + ([Tok(TokenDot)] + Tokens(r) + [Tok(TokenRParen)]) == l.tokens + PairTokens(v);
    }
  }

  /** A dot, a value and the closing parenthesis. */
  lemma {:induction false} FeedDotted(l: Lex, v: Value, t: Names, tables: char -> bool)
    requires Ready(l) && Readable(v, t, tables)
    ensures Feed(l, ". " + (SexpString(v, tables) + ([')'] + ""))) ==
            Answer(Give(l, [Tok(TokenDot)] + Tokens(v) + [Tok(TokenRParen)]), Ok(()))
    decreases Size(v), 3
  {
    hide Feed, SexpString, Tokens, Shown, Readable;
    var u := SexpString(v, tables) + ([')'] + "");
    FeedDot(l, u);
    var l1 := Give(l, [Tok(TokenDot)]);
    FeedValue(l1, v, t, tables);
    Past(l1, v, ')', "", t, tables);
    FeedEmpty(Give(l1, Tokens(v) + Delimiter(')')));
    assert l1.tokens + (Tokens(v) + Delimiter(')')) == l.tokens + ([Tok(TokenDot)] + Tokens(v) + [Tok(TokenRParen)]);
  }

  lemma Regroup(a: string, b: string, c: string, d: string)
    ensures a + b + c + d == a + (b + (c + d))
  {
  }

  lemma ItemsSplit(es: seq<Value>, close: char, tables: char -> bool)
    requires |es| >= 2
    ensures ItemsString(es, tables) + [close] ==
            SexpString(es[0], tables) + ([' '] + (ItemsString(es[1..], tables) + [close]))
    ensures ItemsTokens(es) == Tokens(es[0]) + ItemsTokens(es[1..])
  {
    hide SexpString, Tokens;
    var s, more := SexpString(es[0], tables), ItemsString(es[1..], tables);
    assert ItemsString(es, tables) == s + [' '] + more;
    hide ItemsString;
    Regroup(s, [' '], more, [close]);
  }

  lemma FeedNoItems(l: Lex, close: char, tables: char -> bool)
    requires Ready(l) && close in "]}"
    ensures Feed(l, ItemsString([], tables) + [close]) == Answer(Give(l, ItemsTokens([]) + Delimiter(close)), Ok(()))
  {
    hide Feed;
    FeedBrace(l, close, "");
    FeedEmpty(Give(l, Delimiter(close)));
    assert ItemsString([], tables) + [close] == [close] + "" && ItemsTokens([]) + Delimiter(close) == Delimiter(close);
  }

  lemma ItemsOne(es: seq<Value>, tables: char -> bool)
    requires |es| == 1
    ensures ItemsString(es, tables) == SexpString(es[0], tables) && ItemsTokens(es) == Tokens(es[0])
  {
    hide SexpString, Tokens;
  }

  lemma FeedLastItem(l: Lex, v: Value, close: char, t: Names, tables: char -> bool)
    requires Ready(l) && Readable(v, t, tables) && close in "]}"
    requires Feed(l, SexpString(v, tables)) == Answer(Shown(l, v, tables), Ok(()))
    ensures Feed(l, SexpString(v, tables) + [close]) == Answer(Give(l, Tokens(v) + Delimiter(close)), Ok(()))
  {
    hide Feed, Readable, SexpString, Tokens, Shown;
    Past(l, v, close, "", t, tables);
    FeedEmpty(Give(l, Tokens(v) + Delimiter(close)));
    assert [close] + "" == [close];
  }

  /** Values separated by spaces, up to the bracket that closes them. */
  lemma {:induction false} FeedItems(l: Lex, es: seq<Value>, close: char, t: Names, tables: char -> bool)
    requires Ready(l) && (forall i | 0 <= i < |es| :: Readable(es[i], t, tables)) && close in "]}"
    ensures Feed(l, ItemsString(es, tables) + [close]) == Answer(Give(l, ItemsTokens(es) + Delimiter(close)), Ok(()))
    decreases SizeSeq(es), 0
  {
    hide Feed, Readable, SexpString, Tokens, Shown, ItemsString, ItemsTokens;
    if es == [] {
      FeedNoItems(l, close, tables);
    } else {
      FeedValue(l, es[0], t, tables);
      if |es| == 1 {
        FeedLastItem(l, es[0], close, t, tables);
        ItemsOne(es, tables);
      } else {
        ItemsSplit(es, close, tables);
        Past(l, es[0], ' ', ItemsString(es[1..], tables) + [close], t, tables);
        var l1 := Give(l, Tokens(es[0]) + Delimiter(' '));
        FeedItems(l1, es[1..], close, t, tables);
        hide Delimiter;
        assert l1.tokens + (ItemsTokens(es[1..]) + Delimiter(close)) == l.tokens + (ItemsTokens(es) + Delimiter(close));
      }
    }
  }

  /** Lexing values separated by spaces, up to the end of the input. */
  lemma {:induction false} RestItems(l: Lex, vs: seq<Value>, t: Names, tables: char -> bool)
    requires Ready(l) && forall i | 0 <= i < |vs| :: Readable(vs[i], t, tables)
    ensures Rest(l.(stream := ItemsString(vs, tables))) == (l.tokens + ItemsTokens(vs), None)
    decreases |vs|
  {
    hide LexNextRune, Readable, SexpString, Tokens, Feed, Shown;
    if vs == [] {
      assert l.tokens + ItemsTokens(vs) == l.tokens;
    } else {
      var s := SexpString(vs[0], tables);
      FeedValue(l, vs[0], t, tables);
      if |vs| == 1 {
        RestFeed(l, s, "");
        assert s + "" == s;
        ShownStream(l, vs[0], tables);
        DumpShown(l.(stream := ""), vs[0], t, tables);
        assert ItemsTokens(vs) == Tokens(vs[0]);
      } else {
        var more := ItemsString(vs[1..], tables);
        Past(l, vs[0], ' ', "", t, tables);
        FeedEmpty(Give(l, Tokens(vs[0]) + Delimiter(' ')));
        RestFeed(l, s + ([' '] + ""), more);
        assert s + ([' '] + "") + more == s + " " + more;
        var l1 := Give(l, Tokens(vs[0]) + Delimiter(' '));
        RestItems(l1, vs[1..], t, tables);
        assert l1.tokens + ItemsTokens(vs[1..]) == l.tokens + ItemsTokens(vs);
      }
    }
  }

  // ---------- parsing what was printed ----------

  lemma FirstToken(v: Value, t: Names, tables: char -> bool)
    requires Readable(v, t, tables)
    ensures Tokens(v) != []
    ensures var typ := Tokens(v)[0].typ; !typ.TokenDot? && !typ.TokenRParen? && !typ.TokenRSquare? && !typ.TokenRCurly?
  {
    hide PairTokens, ItemsTokens;
  }

  lemma TakeAtom(tok: Token, toks: seq<Token>, stop: Option<ReadError>, t: Names)
    requires !tok.typ.TokenLParen? && !tok.typ.TokenLSquare? && !tok.typ.TokenLCurly? && Prefix(tok.typ).None?
    ensures TakeExpression([tok] + toks, stop, t) == Taken(toks, Atom(tok, t).0, Atom(tok, t).1)
  {
    hide Atom;
    assert ([tok] + toks)[1..] == toks;
  }

  lemma {:induction false} TakeValue(v: Value, toks: seq<Token>, stop: Option<ReadError>, t: Names,
                                     tables: char -> bool)
    requires Readable(v, t, tables)
    ensures TakeExpression(Tokens(v) + toks, stop, t) == Taken(toks, t, Ok(v))
    decreases Size(v), 1
  {
    hide TakeList, TakeItems, TakeExpression, PairTokens, ItemsTokens, ParseInt, Itoa, Bytes, DecodeAtom;
    if v.Pair? || v.Arr? {
      TakeCompound(v, toks, stop, t, tables);
    } else if v.Null? {
      TakeNull(toks, stop, t);
    } else {
      TakeAtom(Tokens(v)[0], toks, stop, t);
      if v.Int? {
        ItoaAtom(v.i);
      } else if v.Char? {
        LiteralAtom(v.c, tables);
      }
    }
  }

  lemma {:induction false} TakeCompound(v: Value, toks: seq<Token>, stop: Option<ReadError>, t: Names,
                                        tables: char -> bool)
    requires Readable(v, t, tables) && (v.Pair? || v.Arr?)
    ensures TakeExpression(Tokens(v) + toks, stop, t) == Taken(toks, t, Ok(v))
    decreases Size(v), 0, 1
  {
    hide TakeList, TakeItems, PairTokens, ItemsTokens;
    var all := Tokens(v) + toks;
    if v.Pair? {
      assert all[1..] == PairTokens(v) + toks;
      TakePair(v, toks, stop, t, tables);
    } else {
      assert all[1..] == ItemsTokens(v.elems) + ([Tok(TokenRSquare)] + toks);
      TakeArray([], v.elems, TokenRSquare, toks, stop, t, tables);
      assert [] + v.elems == v.elems;
    }
  }

  lemma TakeNull(toks: seq<Token>, stop: Option<ReadError>, t: Names)
    ensures TakeExpression([Tok(TokenLParen), Tok(TokenRParen)] + toks, stop, t) == Taken(toks, t, Ok(Null))
  {
    var all := [Tok(TokenLParen), Tok(TokenRParen)] + toks;
    assert all[1..] == [Tok(TokenRParen)] + toks && all[1..][1..] == toks;
  }

  lemma {:induction false} TakePair(v: Value, toks: seq<Token>, stop: Option<ReadError>, t: Names, tables: char -> bool)
    requires v.Pair? && Readable(v, t, tables)
    ensures TakeList(PairTokens(v) + toks, stop, t) == Taken(toks, t, Ok(v))
    decreases Size(v), 0, 0
  {
    hide TakeExpression, Tokens;
    var h, r := v.head, v.tail;
    FirstToken(h, t, tables);
    if r.Pair? {
      var more := PairTokens(r) + toks;
      assert PairTokens(v) + toks == Tokens(h) + more;
      TakeValue(h, more, stop, t, tables);
      FirstToken(r.head, t, tables);
      TakePair(r, toks, stop, t, tables);
    } else if r.Null? {
      var more := [Tok(TokenRParen)] + toks;
      assert PairTokens(v) + toks == Tokens(h) + more;
      TakeValue(h, more, stop, t, tables);
      assert more[1..] == toks;
      assert TakeList(more, stop, t) == Taken(toks, t, Ok(Null));
      assert TakeTail(more, stop, t, h) == Taken(toks, t, Ok(v));
    } else {
      var close := [Tok(TokenRParen)] + toks;
      var more := [Tok(TokenDot)] + (Tokens(r) + close);
      assert PairTokens(v) + toks == Tokens(h) + more;
      TakeValue(h, more, stop, t, tables);
      assert more[1..] == Tokens(r) + close && close[1..] == toks;
      TakeValue(r, close, stop, t, tables);
      assert TakeDotted(Tokens(r) + close, stop, t, h) == Taken(toks, t, Ok(v));
      assert TakeTail(more, stop, t, h) == Taken(toks, t, Ok(v));
    }
  }

  lemma {:induction false} TakeArray(done: seq<Value>, es: seq<Value>, close: TokenType, toks: seq<Token>,
                                     stop: Option<ReadError>, t: Names, tables: char -> bool)
    requires (forall i | 0 <= i < |es| :: Readable(es[i], t, tables)) && (close.TokenRSquare? || close.TokenRCurly?)
    ensures TakeItems(ItemsTokens(es) + ([Tok(close)] + toks), stop, t, close, done) == Taken(toks, t, Ok(done + es))
    decreases SizeSeq(es), 0
  {
    hide TakeExpression, Tokens, Readable;
    var rest := [Tok(close)] + toks;
    if es == [] {
      assert ItemsTokens(es) + rest == rest && rest[1..] == toks && done + es == done;
    } else {
      var more := ItemsTokens(es[1..]) + rest;
      assert ItemsTokens(es) + rest == Tokens(es[0]) + more;
      FirstToken(es[0], t, tables);
      TakeValue(es[0], more, stop, t, tables);
      TakeArray(done + [es[0]], es[1..], close, toks, stop, t, tables);
      assert done + [es[0]] + es[1..] == done + es;
    }
  }

  lemma {:induction false} TakeValues(done: seq<Value>, vs: seq<Value>, t: Names, tables: char -> bool)
    requires forall i | 0 <= i < |vs| :: Readable(vs[i], t, tables)
    ensures TakeTokens(ItemsTokens(vs), None, t, done) == Program(done + vs, t, None)
    decreases |vs|
  {
    hide Tokens, Readable, TakeExpression;
    if vs == [] {
      NothingLeft(None, t);
      assert done + vs == done;
    } else {
      FirstToken(vs[0], t, tables);
      NotEnd(vs[0], t, tables);
      TakeValue(vs[0], ItemsTokens(vs[1..]), None, t, tables);
      TakeValues(done + [vs[0]], vs[1..], t, tables);
      assert done + [vs[0]] + vs[1..] == done + vs;
    }
  }

  lemma NothingLeft(stop: Option<ReadError>, t: Names)
    ensures TakeExpression([], stop, t) == Taken([], t, if stop.Some? then Err(stop.value) else Ok(End))
  {
  }

  lemma NotEnd(v: Value, t: Names, tables: char -> bool)
    requires Readable(v, t, tables)
    ensures v != End
  {
  }

  // ---------- the round trip ----------

  /** Reading the printed forms of any number of readable values, separated by spaces, gives
      exactly those values and leaves the symbol tables alone. */
  lemma RoundTrip(vs: seq<Value>, t: Names, tables: char -> bool)
    requires forall i | 0 <= i < |vs| :: Readable(vs[i], t, tables)
    ensures ReadProgram(ItemsString(vs, tables), t) == Program(vs, t, None)
  {
    hide TakeTokens, ParseTokens, Rest, ItemsString, ItemsTokens, Readable;
    var text := ItemsString(vs, tables);
    RestItems(NewLex(""), vs, t, tables);
    assert NewLex("").(stream := text) == NewLex(text);
    TakeValues([], vs, t, tables);
    assert [] + vs == vs && [] + ItemsTokens(vs) == ItemsTokens(vs);
    ReadsInTwoPhases(text, t);
  }

  lemma RoundTripOne(v: Value, t: Names, tables: char -> bool)
    requires Readable(v, t, tables)
    ensures ReadProgram(SexpString(v, tables), t) == Program([v], t, None)
  {
    hide Readable, ReadProgram, SexpString;
    RoundTrip([v], t, tables);
  }
}
