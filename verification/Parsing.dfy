/** The recursive-descent parser of parser.go over the lexer's one-token look-ahead, and the
    two-phase reader it is compared with: lex the whole input, then parse the tokens. */
module Parsing {
  import opened Sexps
  import opened Instructions
  import opened Encoding
  import opened Symbols
  import opened Lexing

  // ---------- single tokens ----------

  const TWO63: int := 0x8000_0000_0000_0000

  function DigitValue(c: char): int {
    if Digit(c) then c as int - '0' as int
    else if 'a' <= c <= 'f' then c as int - 'a' as int + 10
    else c as int - 'A' as int + 10
  }

  function DigitsValue(s: string, base: int): int {
    if s == "" then 0 else DigitsValue(s[..|s| - 1], base) * base + DigitValue(s[|s| - 1])
  }

  /** Signed 64-bit integers; others are out of range. */
  function ParseInt(s: string, base: int): Result<int> {
    var n := if s != "" && s[0] == '-' then -DigitsValue(s[1..], base) else DigitsValue(s, base);
    if -TWO63 <= n < TWO63 then Ok(n) else Err(OutOfRange)
  }

  function IntValue(r: Result<int>): Result<Value> {
    if r.Ok? then Ok(Int(r.value)) else Err(r.error)
  }

  /** The value of a token that is an expression by itself. A character is the first byte of
      its token. */
  function Atom(tok: Token, t: Names): (Names, Result<Value>) {
    match tok.typ
    case TokenNil => (t, Ok(Null))
    case TokenSymbol => (Intern(t, tok.str).0, Ok(Sym(Intern(t, tok.str).1)))
    case TokenBool => (t, Ok(Bool(tok.str == "true")))
    case TokenDecimal => (t, IntValue(ParseInt(tok.str, 10)))
    case TokenHex => (t, IntValue(ParseInt(tok.str, 16)))
    case TokenOct => (t, IntValue(ParseInt(tok.str, 8)))
    case TokenBinary => (t, IntValue(ParseInt(tok.str, 2)))
    case TokenChar => (t, if tok.str == "" then Err(IndexPanic) else Ok(Char(Bytes(tok.str)[0])))
    case TokenString => (t, Ok(Str(tok.str)))
    case TokenFloat => (t, Err(FloatLiteral))
    case TokenEnd => (t, Ok(End))
    case _ => (t, Err(InvalidSyntax))
  }

  /** The symbol that a reader prefix stands for. */
  function Prefix(typ: TokenType): Option<string> {
    match typ
    case TokenQuote => Some("quote")
    case TokenBacktick => Some("syntax-quote")
    case TokenTilde => Some("unquote")
    case TokenTildeAt => Some("unquote-splicing")
    case _ => None
  }

  function Prefixed(t: Names, name: string, e: Value): (Names, Value) {
    (Intern(t, name).0, MakeList([Sym(Intern(t, name).1), e]))
  }

  // ---------- the parser ----------

  datatype Parsed<+T> = Parsed(l: Lex, t: Names, res: Result<T>)

  function ParseExpression(l: Lex, t: Names): (p: Parsed<Value>)
    ensures Pending(p.l) <= Pending(l)
    ensures p.res.Ok? && !(GetToken(l).res.Ok? && GetToken(l).res.value.typ.TokenEnd?) ==> Pending(p.l) < Pending(l)
    decreases Pending(l), 0
  {
    var g := GetToken(l);
    if g.res.Err? then Parsed(g.l, t, Err(g.res.error))
    else if g.res.value.typ.TokenEnd? then Parsed(g.l, t, Ok(End))
    else
      var tok := g.res.value;
      if tok.typ.TokenLParen? then ParseList(g.l, t)
      else if tok.typ.TokenLSquare? then
        var a := ParseItems(g.l, t, TokenRSquare, []);
        Parsed(a.l, a.t, if a.res.Ok? then Ok(Arr(a.res.value)) else Err(a.res.error))
      else if tok.typ.TokenLCurly? then
        var a := ParseItems(g.l, t, TokenRCurly, []);
        if a.res.Err? then Parsed(a.l, a.t, Err(a.res.error))
        else Parsed(a.l, Intern(a.t, "hash").0, Ok(Pair(Sym(Intern(a.t, "hash").1), MakeList(a.res.value))))
      else if Prefix(tok.typ).Some? then
        var e := ParseExpression(g.l, t);
        if e.res.Err? then e
        else Parsed(e.l, Prefixed(e.t, Prefix(tok.typ).value, e.res.value).0,
                    Ok(Prefixed(e.t, Prefix(tok.typ).value, e.res.value).1))
      else Parsed(g.l, Atom(tok, t).0, Atom(tok, t).1)
  }

  function ParseList(l: Lex, t: Names): (p: Parsed<Value>)
    ensures Pending(p.l) <= Pending(l)
    decreases Pending(l), 1
  {
    var k := Peek(l);
    if k.res.Err? then Parsed(k.l, t, Err(k.res.error))
    else if k.res.value.typ.TokenEnd? then Parsed(GetToken(k.l).l, t, Err(UnexpectedEnd))
    else if k.res.value.typ.TokenRParen? then Parsed(GetToken(k.l).l, t, Ok(Null))
    else
      PeekThenGet(l);
      var e := ParseExpression(k.l, t);
      if e.res.Err? then e else ParseTail(e.l, e.t, e.res.value)
  }

  /** After the first expression of a list: a dot, or the rest of the list. */
  function ParseTail(l: Lex, t: Names, head: Value): (p: Parsed<Value>)
    ensures Pending(p.l) <= Pending(l)
    decreases Pending(l), 2
  {
    var k := Peek(l);
    if k.res.Err? then Parsed(k.l, t, Err(k.res.error))
    else if k.res.value.typ.TokenDot? then ParseDotted(GetToken(k.l).l, t, head)
    else
      var r := ParseList(k.l, t);
      Parsed(r.l, r.t, if r.res.Ok? then Ok(Pair(head, r.res.value)) else Err(r.res.error))
  }

  /** After the dot: one expression and the closing parenthesis. */
  function ParseDotted(l: Lex, t: Names, head: Value): (p: Parsed<Value>)
    ensures Pending(p.l) <= Pending(l)
    decreases Pending(l), 1
  {
    var e := ParseExpression(l, t);
    if e.res.Err? then e
    else
      var g := GetToken(e.l);
      if g.res.Err? then Parsed(g.l, e.t, Err(g.res.error))
      else if !g.res.value.typ.TokenRParen? then Parsed(g.l, e.t, Err(ExtraInPair))
      else Parsed(g.l, e.t, Ok(Pair(head, e.res.value)))
  }

  /** The loop that array and hash literals share. */
  function ParseItems(l: Lex, t: Names, close: TokenType, items: seq<Value>): (p: Parsed<seq<Value>>)
    ensures Pending(p.l) <= Pending(l)
    decreases Pending(l), 1
  {
    var k := Peek(l);
    if k.res.Err? then Parsed(k.l, t, Err(k.res.error))
    else if k.res.value.typ.TokenEnd? then Parsed(k.l, t, Err(UnexpectedEnd))
    else if k.res.value.typ == close then Parsed(GetToken(k.l).l, t, Ok(items))
    else
      PeekThenGet(l);
      var e := ParseExpression(k.l, t);
      if e.res.Err? then Parsed(e.l, e.t, Err(e.res.error)) else ParseItems(e.l, e.t, close, items + [e.res.value])
  }

  /** Every expression but the end of the input uses up a token. */
  lemma ExpressionShrinks(l: Lex, t: Names)
    ensures var p := ParseExpression(l, t); p.res.Ok? && p.res.value != End ==> Pending(p.l) < Pending(l)
  {
    hide Pending, ParseList, ParseItems;
  }

  /** What a whole input gives: the expressions read before the end or the first error. */
  datatype Program = Program(exprs: seq<Value>, t: Names, err: Option<ReadError>)

  function ParseTokens(l: Lex, t: Names, exprs: seq<Value>): Program
    decreases Pending(l)
  {
    var e := ParseExpression(l, t);
    if e.res.Err? then Program(exprs, e.t, Some(e.res.error))
    else if e.res.value == End then Program(exprs, e.t, None)
    else ParseTokens(e.l, e.t, exprs + [e.res.value])
  }

  function ReadProgram(input: string, t: Names): Program {
    ParseTokens(NewLex(input), t, [])
  }
}
