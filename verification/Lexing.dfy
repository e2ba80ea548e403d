/** The lexer of lexer.go: a state machine over runes that appends tokens, and the one-token
    look-ahead through which the parser sees them. The functions here specify the methods of
    class `Lexer`. */
module Lexing {

  datatype TokenType =
    | TokenLParen | TokenRParen | TokenLSquare | TokenRSquare | TokenLCurly | TokenRCurly
    | TokenDot | TokenQuote | TokenBacktick | TokenTilde | TokenTildeAt
    | TokenSymbol | TokenBool | TokenDecimal | TokenHex | TokenOct | TokenBinary | TokenFloat
    | TokenChar | TokenString | TokenNil | TokenEnd

  datatype Token = Token(typ: TokenType, str: string)

  const END := Token(TokenEnd, "")

  /** `IndexPanic` is not an error value but the run-time panic of `lexer.tokens[0]`. */
  datatype ReadError =
    | UnexpectedEnd | InvalidEscape | NotAChar | UnrecognizedAtom | UnexpectedQuote
    | UnexpectedBacktick | UnexpectedTilde | ExtraInPair | OutOfRange | InvalidSyntax
    | FloatLiteral | IndexPanic

  datatype Result<+T> = Ok(value: T) | Err(error: ReadError)

  // ---------- atoms ----------

  predicate Digit(c: char) {
    '0' <= c <= '9'
  }

  predicate Digits(s: string) {
    s != "" && forall i | 0 <= i < |s| :: Digit(s[i])
  }

  predicate HexDigit(c: char) {
    Digit(c) || 'a' <= c <= 'f' || 'A' <= c <= 'F'
  }

  function Unsigned(s: string): string {
    if s != "" && s[0] == '-' then s[1..] else s
  }

  predicate DecimalRegex(s: string) {
    Digits(Unsigned(s))
  }

  predicate HexRegex(s: string) {
    |s| > 2 && s[..2] == "0x" && forall i | 2 <= i < |s| :: HexDigit(s[i])
  }

  predicate OctRegex(s: string) {
    |s| > 2 && s[..2] == "0o" && forall i | 2 <= i < |s| :: '0' <= s[i] <= '7'
  }

  predicate BinaryRegex(s: string) {
    |s| > 2 && s[..2] == "0b" && forall i | 2 <= i < |s| :: '0' <= s[i] <= '1'
  }

  /** Alternation binds weaker than the anchors: the first alternative is anchored only at
      the start, the second nowhere, the third only at the end. */
  predicate FloatRegex(s: string) {
    || (exists i | 0 <= i < |Unsigned(s)| :: Unsigned(s)[i] == '.' && Digits(Unsigned(s)[..i]))
    || (exists i | 0 <= i < |s| - 1 :: s[i] == '.' && Digit(s[i + 1]))
    || (exists i | 1 <= i < |s| - 1 ::
          && (s[i] == 'e' || s[i] == 'E') && Digits(Unsigned(s[i + 1..]))
          && (Digit(s[i - 1]) || (s[i - 1] == '.' && i >= 2 && Digit(s[i - 2]))))
  }

  predicate SymbolRegex(s: string) {
    s != "" && forall i | 0 <= i < |s| :: s[i] != '\'' && s[i] != '#'
  }

  predicate CharRegex(s: string) {
    || (|s| == 2 && s[0] == '#' && s[1] != '\n')
    || (|s| == 3 && s[0] == '#' && s[1] == '\\' && s[2] != '\n')
  }

  const BELL: char := '\U{7}'

  function EscapeChar(c: char): Result<char> {
    match c
    case 'n' => Ok('\n')
    case 'r' => Ok('\r')
    case 'a' => Ok(BELL)
    case 't' => Ok('\t')
    case '\\' => Ok('\\')
    case '"' => Ok('"')
    case '\'' => Ok('\'')
    case '#' => Ok('#')
    case _ => Err(InvalidEscape)
  }

  function DecodeChar(atom: string): Result<string> {
    if |atom| == 3 then
      var c := EscapeChar(atom[2]);
      if c.Ok? then Ok([c.value]) else Err(c.error)
    else if |atom| == 2 then Ok(atom[1..])
    else Err(NotAChar)
  }

  function DecodeAtom(atom: string): Result<Token> {
    if atom == "." then Ok(Token(TokenDot, ""))
    else if atom == "nil" then Ok(Token(TokenNil, atom))
    else if atom == "true" || atom == "false" then Ok(Token(TokenBool, atom))
    else if DecimalRegex(atom) then Ok(Token(TokenDecimal, atom))
    else if HexRegex(atom) then Ok(Token(TokenHex, atom[2..]))
    else if OctRegex(atom) then Ok(Token(TokenOct, atom[2..]))
    else if BinaryRegex(atom) then Ok(Token(TokenBinary, atom[2..]))
    else if FloatRegex(atom) then Ok(Token(TokenFloat, atom))
    else if SymbolRegex(atom) then Ok(Token(TokenSymbol, atom))
    else if CharRegex(atom) then
      var c := DecodeChar(atom);
      if c.Ok? then Ok(Token(TokenChar, c.value)) else Err(c.error)
    else Err(UnrecognizedAtom)
  }

  predicate Brace(r: char) {
    r in "()[]{}"
  }

  predicate Space(r: char) {
    r in " \n\t\r"
  }

  function DecodeBrace(r: char): Token {
    match r
    case '(' => Token(TokenLParen, "")
    case ')' => Token(TokenRParen, "")
    case '[' => Token(TokenLSquare, "")
    case ']' => Token(TokenRSquare, "")
    case '{' => Token(TokenLCurly, "")
    case '}' => Token(TokenRCurly, "")
    case _ => END
  }

  // ---------- the state machine ----------

  datatype Mode = LexerNormal | LexerComment | LexerStrLit | LexerStrEscaped | LexerUnquote

  /** The fields of a lexer; `stream` is the input not yet read. */
  datatype Lex = Lex(state: Mode, tokens: seq<Token>, buffer: string, stream: string, linenum: int, finished: bool)

  function NewLex(stream: string): Lex {
    Lex(LexerNormal, [], "", stream, 1, false)
  }

  datatype Answer<+T> = Answer(l: Lex, res: Result<T>)

  function Add(l: Lex, tok: Token): Lex {
    l.(tokens := l.tokens + [tok])
  }

  function DumpBuffer(l: Lex): Answer<()> {
    if l.buffer == "" then Answer(l, Ok(()))
    else
      var tok := DecodeAtom(l.buffer);
      if tok.Ok? then Answer(Add(l.(buffer := ""), tok.value), Ok(())) else Answer(l, Err(tok.error))
  }

  function DumpString(l: Lex): Lex {
    Add(l.(buffer := ""), Token(TokenString, l.buffer))
  }

  function LexString(l: Lex, r: char): Lex {
    if r == '\\' then l.(state := LexerStrEscaped)
    else if r == '"' then DumpString(l).(state := LexerNormal)
    else l.(buffer := l.buffer + [r])
  }

  function LexEscape(l: Lex, r: char): Answer<()> {
    var c := EscapeChar(r);
    if c.Ok? then Answer(l.(buffer := l.buffer + [c.value], state := LexerStrLit), Ok(())) else Answer(l, Err(c.error))
  }

  function LexUnquote(l: Lex, r: char): Lex {
    if r == '@' then Add(l, Token(TokenTildeAt, "")).(state := LexerNormal)
    else Add(l, Token(TokenTilde, "")).(buffer := l.buffer + [r], state := LexerNormal)
  }

  /** The quoting runes may not stand inside an atom. */
  function LexQuote(l: Lex, l': Lex, e: ReadError): Answer<()> {
    if l.buffer != "" then Answer(l, Err(e)) else Answer(l', Ok(()))
  }

  function LexNormal(l: Lex, r: char): Answer<()> {
    if r == '"' then LexQuote(l, l.(state := LexerStrLit), UnexpectedQuote)
    else if r == ';' then Answer(l.(state := LexerComment), Ok(()))
    else if r == '\'' then LexQuote(l, Add(l, Token(TokenQuote, "")), UnexpectedQuote)
    else if r == '`' then LexQuote(l, Add(l, Token(TokenBacktick, "")), UnexpectedBacktick)
    else if r == '~' then LexQuote(l, l.(state := LexerUnquote), UnexpectedTilde)
    else if Brace(r) then
      var d := DumpBuffer(l);
      if d.res.Err? then d else Answer(Add(d.l, DecodeBrace(r)), Ok(()))
    else if Space(r) then DumpBuffer(if r == '\n' then l.(linenum := l.linenum + 1) else l)
    else Answer(l.(buffer := l.buffer + [r]), Ok(()))
  }

  function LexNextRune(l: Lex, r: char): Answer<()> {
    match l.state
    case LexerComment => Answer(if r == '\n' then l.(state := LexerNormal) else l, Ok(()))
    case LexerStrLit => Answer(LexString(l, r), Ok(()))
    case LexerStrEscaped => LexEscape(l, r)
    case LexerUnquote => Answer(LexUnquote(l, r), Ok(()))
    case LexerNormal => LexNormal(l, r)
  }

  // ---------- how much is left to deliver ----------

  /** Bounds the tokens still to come. */
  function Pending(l: Lex): nat {
    if l.finished then 0 else 1 + 2 * |l.stream| + |l.tokens| + (if l.buffer == "" then 0 else 1)
  }

  lemma LexNextRunePending(l: Lex, r: char)
    ensures var l' := LexNextRune(l, r).l;
            l'.stream == l.stream && l'.finished == l.finished && Pending(l') <= Pending(l) + 2
  {
  }

  // ---------- look-ahead ----------

  function Peek(l: Lex): (p: Answer<Token>)
    ensures Pending(p.l) <= Pending(l)
    ensures p.res.Ok? && !p.res.value.typ.TokenEnd? ==> !l.finished && p.l.tokens != [] && p.res.value == p.l.tokens[0]
    decreases |l.stream|
  {
    if l.finished then Answer(l, Ok(END))
    else if l.tokens != [] then Answer(l, Ok(l.tokens[0]))
    else if l.stream == "" then AtEnd(l.(finished := true))
    else
      var l1 := l.(stream := l.stream[1..]);
      LexNextRunePending(l1, l.stream[0]);
      var n := LexNextRune(l1, l.stream[0]);
      if n.res.Err? then Answer(n.l, Err(n.res.error)) else Peek(n.l)
  }

  /** The rest of the buffer is the last token. */
  function AtEnd(l: Lex): Answer<Token> {
    if l.buffer == "" then Answer(l, Ok(END))
    else
      var d := DumpBuffer(l);
      if d.l.tokens == [] then Answer(d.l, Err(IndexPanic)) else Answer(d.l, Ok(d.l.tokens[0]))
  }

  function GetToken(l: Lex): (g: Answer<Token>)
    ensures Pending(g.l) <= Pending(l)
    ensures g.res.Ok? && !g.res.value.typ.TokenEnd? ==> Pending(g.l) < Pending(l)
  {
    var p := Peek(l);
    if p.res.Err? || p.res.value.typ == TokenEnd then Answer(p.l, if p.res.Err? then p.res else Ok(END))
    else Answer(p.l.(tokens := p.l.tokens[1..]), p.res)
  }

  /** A token that was peeked at is got next, unless peeking reached the end of the input. */
  lemma PeekThenGet(l: Lex)
    requires Peek(l).res.Ok? && !Peek(l).res.value.typ.TokenEnd?
    ensures Peek(l).l.finished || GetToken(Peek(l).l).res == Peek(l).res
    ensures Peek(l).l.finished ==> Pending(Peek(l).l) == 0 < Pending(l)
  {
  }
}
