/** The lexer, the parser and the printer as the objects and loops of lexer.go, parser.go and
    expressions.go, each method proved against its specification function. */
module ReaderObjects {
  import opened Sexps
  import opened Instructions
  import opened Encoding
  import opened Symbols
  import opened Lexing
  import P = Parsing
  import Printing

  class Lexer {
    var state: Mode
    var tokens: seq<Token>
    var buffer: string
    var stream: string
    var linenum: int
    var finished: bool

    function Model(): Lex
      reads this
    {
      Lex(state, tokens, buffer, stream, linenum, finished)
    }

    constructor (input: string)
      ensures Model() == NewLex(input)
    {
      state, tokens, buffer, stream, linenum, finished := LexerNormal, [], "", input, 1, false;
    }

    method DumpBuffer() returns (err: Option<ReadError>)
      modifies this
      ensures Model() == Lexing.DumpBuffer(old(Model())).l && err == Failure(Lexing.DumpBuffer(old(Model())).res)
    {
      if |buffer| <= 0 {
        return None;
      }
      var tok := DecodeAtom(buffer);
      if tok.Err? {
        return Some(tok.error);
      }
      buffer := "";
      tokens := tokens + [tok.value];
      err := None;
    }

    method DumpString()
      modifies this
      ensures Model() == Lexing.DumpString(old(Model()))
    {
      var str := buffer;
      buffer := "";
      tokens := tokens + [Token(TokenString, str)];
    }

    method LexNextRune(r: char) returns (err: Option<ReadError>)
      modifies this
      ensures Model() == Lexing.LexNextRune(old(Model()), r).l
              && err == Failure(Lexing.LexNextRune(old(Model()), r).res)
    {
      err := None;
      if state == LexerComment {
        if r == '\n' {
          state := LexerNormal;
        }
      } else if state == LexerStrLit {
        if r == '\\' {
          state := LexerStrEscaped;
        } else if r == '"' {
          DumpString();
          state := LexerNormal;
        } else {
          buffer := buffer + [r];
        }
      } else if state == LexerStrEscaped {
        var c := EscapeChar(r);
        if c.Err? {
          return Some(c.error);
        }
        buffer := buffer + [c.value];
        state := LexerStrLit;
      } else if state == LexerUnquote {
        if r == '@' {
          tokens := tokens + [Token(TokenTildeAt, "")];
        } else {
          tokens := tokens + [Token(TokenTilde, "")];
          buffer := buffer + [r];
        }
        state := LexerNormal;
      } else {
        err := LexNormalRune(r);
      }
    }

    /** The part of `LexNextRune` outside comments, strings and a pending tilde. */
    method LexNormalRune(r: char) returns (err: Option<ReadError>)
      requires state == LexerNormal
      modifies this
      ensures Model() == LexNormal(old(Model()), r).l && err == Failure(LexNormal(old(Model()), r).res)
    {
      err := None;
      if r == '"' {
        if |buffer| > 0 {
          return Some(UnexpectedQuote);
        }
        state := LexerStrLit;
      } else if r == ';' {
        state := LexerComment;
      } else if r == '\'' {
        if |buffer| > 0 {
          return Some(UnexpectedQuote);
        }
        tokens := tokens + [Token(TokenQuote, "")];
      } else if r == '`' {
        if |buffer| > 0 {
          return Some(UnexpectedBacktick);
        }
        tokens := tokens + [Token(TokenBacktick, "")];
      } else if r == '~' {
        if |buffer| > 0 {
          return Some(UnexpectedTilde);
        }
        state := LexerUnquote;
      } else if Brace(r) {
        err := DumpBuffer();
        if err.None? {
          tokens := tokens + [DecodeBrace(r)];
        }
      } else if Space(r) {
        if r == '\n' {
          linenum := linenum + 1;
        }
        err := DumpBuffer();
      } else {
        buffer := buffer + [r];
      }
    }

    method PeekNextToken() returns (tok: Result<Token>)
      modifies this
      ensures Model() == Peek(old(Model())).l && tok == Peek(old(Model())).res
    {
      hide Lexing.LexNextRune;
      ghost var start := Model();
      if finished {
        return Ok(END);
      }
      while |tokens| == 0
        invariant Peek(Model()) == Peek(start) && !finished
        decreases |stream|
      {
        if stream == "" {
          finished := true;
          if |buffer| > 0 {
            ghost var before := Model();
            var err := DumpBuffer();
            if err.Some? {
              assert tokens == [];
              return Err(IndexPanic);
            }
            return Ok(tokens[0]);
          }
          return Ok(END);
        }
        var r := stream[0];
        stream := stream[1..];
        LexNextRunePending(Model(), r);
        var err := LexNextRune(r);
        if err.Some? {
          return Err(err.value);
        }
      }
      tok := Ok(tokens[0]);
    }

    method GetNextToken() returns (tok: Result<Token>)
      modifies this
      ensures Model() == GetToken(old(Model())).l && tok == GetToken(old(Model())).res
    {
      tok := PeekNextToken();
      if tok.Err? {
        return;
      }
      if tok.value.typ == TokenEnd {
        return Ok(END);
      }
      tokens := tokens[1..];
    }
  }

  function Failure<T>(r: Result<T>): Option<ReadError> {
    if r.Err? then Some(r.error) else None
  }

  class Parser {
    const lexer: Lexer
    const env: SymbolTable

    constructor (env: SymbolTable, lexer: Lexer)
      ensures this.env == env && this.lexer == lexer
    {
      this.env, this.lexer := env, lexer;
    }

    method ParseExpression() returns (res: Result<Value>)
      modifies lexer, env
      ensures var p := P.ParseExpression(old(lexer.Model()), old(env.Model()));
              lexer.Model() == p.l && env.Model() == p.t && res == p.res
      decreases Pending(lexer.Model()), 0
    {
      hide GetToken, Pending;
      var tok := lexer.GetNextToken();
      if tok.Err? {
        return Err(tok.error);
      }
      match tok.value.typ
      case TokenLParen => res := ParseList();
      case TokenLSquare => res := ParseArray();
      case TokenLCurly => res := ParseHash();
      case TokenQuote => res := ParsePrefixed("quote");
      case TokenBacktick => res := ParsePrefixed("syntax-quote");
      case TokenTilde => res := ParsePrefixed("unquote");
      case TokenTildeAt => res := ParsePrefixed("unquote-splicing");
      case TokenSymbol =>
        var symbol := env.MakeSymbol(tok.value.str);
        res := Ok(Sym(symbol));
      case TokenNil => res := Ok(Null);
      case TokenBool => res := Ok(Bool(tok.value.str == "true"));
      case TokenDecimal => res := P.IntValue(P.ParseInt(tok.value.str, 10));
      case TokenHex => res := P.IntValue(P.ParseInt(tok.value.str, 16));
      case TokenOct => res := P.IntValue(P.ParseInt(tok.value.str, 8));
      case TokenBinary => res := P.IntValue(P.ParseInt(tok.value.str, 2));
      case TokenChar =>
        if tok.value.str == "" {
          return Err(IndexPanic);
        }
        res := Ok(Char(Bytes(tok.value.str)[0]));
      case TokenString => res := Ok(Str(tok.value.str));
      case TokenFloat => res := Err(FloatLiteral);
      case TokenEnd => res := Ok(End);
      case _ => res := Err(InvalidSyntax);
    }

    method ParsePrefixed(name: string) returns (res: Result<Value>)
      modifies lexer, env
      ensures var p := P.ParseExpression(old(lexer.Model()), old(env.Model()));
              && lexer.Model() == p.l
              && env.Model() == (if p.res.Err? then p.t else P.Prefixed(p.t, name, p.res.value).0)
              && res == if p.res.Err? then p.res else Ok(P.Prefixed(p.t, name, p.res.value).1)
      decreases Pending(lexer.Model()), 1
    {
      res := ParseExpression();
      if res.Ok? {
        var symbol := env.MakeSymbol(name);
        res := Ok(MakeList([Sym(symbol), res.value]));
      }
    }

    method ParseList() returns (res: Result<Value>)
      modifies lexer, env
      ensures var p := P.ParseList(old(lexer.Model()), old(env.Model()));
              lexer.Model() == p.l && env.Model() == p.t && res == p.res
      decreases Pending(lexer.Model()), 1
    {
      hide Peek, GetToken, Pending, P.ParseExpression, P.ParseDotted;
      ghost var l0 := lexer.Model();
      var tok := lexer.PeekNextToken();
      if tok.Err? {
        return Err(tok.error);
      }
      if tok.value.typ == TokenEnd {
        var _ := lexer.GetNextToken();
        return Err(UnexpectedEnd);
      }
      if tok.value.typ == TokenRParen {
        var _ := lexer.GetNextToken();
        return Ok(Null);
      }
      PeekThenGet(l0);
      var expr := ParseExpression();
      if expr.Err? {
        return expr;
      }
      tok := lexer.PeekNextToken();
      if tok.Err? {
        return Err(tok.error);
      }
      if tok.value.typ == TokenDot {
        var _ := lexer.GetNextToken();
        res := ParseDotted(expr.value);
        return;
      }
      var rest := ParseList();
      if rest.Err? {
        return rest;
      }
      res := Ok(Pair(expr.value, rest.value));
    }

    /** What follows the dot of a dotted pair. */
    method ParseDotted(head: Value) returns (res: Result<Value>)
      modifies lexer, env
      ensures var p := P.ParseDotted(old(lexer.Model()), old(env.Model()), head);
              lexer.Model() == p.l && env.Model() == p.t && res == p.res
      decreases Pending(lexer.Model()), 1
    {
      hide GetToken, Pending, P.ParseExpression;
      var expr := ParseExpression();
      if expr.Err? {
        return expr;
      }
      var tok := lexer.GetNextToken();
      if tok.Err? {
        return Err(tok.error);
      }
      if tok.value.typ != TokenRParen {
        return Err(ExtraInPair);
      }
      res := Ok(Pair(head, expr.value));
    }

    /** The loop of `ParseArray` and `ParseHash`. */
    method ParseItems(close: TokenType) returns (arr: Result<seq<Value>>)
      modifies lexer, env
      ensures var p := P.ParseItems(old(lexer.Model()), old(env.Model()), close, []);
              lexer.Model() == p.l && env.Model() == p.t && arr == p.res
      decreases Pending(lexer.Model()), 1
    {
      hide Peek, GetToken, Pending, P.ParseExpression;
      ghost var l0, t0 := lexer.Model(), env.Model();
      var items: seq<Value> := [];
      while true
        invariant P.ParseItems(lexer.Model(), env.Model(), close, items) == P.ParseItems(l0, t0, close, [])
        invariant Pending(lexer.Model()) <= Pending(l0)
        decreases Pending(lexer.Model())
      {
        ghost var l1 := lexer.Model();
        var tok := lexer.PeekNextToken();
        if tok.Err? {
          return Err(tok.error);
        }
        if tok.value.typ == TokenEnd {
          return Err(UnexpectedEnd);
        }
        if tok.value.typ == close {
          var _ := lexer.GetNextToken();
          return Ok(items);
        }
        PeekThenGet(l1);
        var expr := ParseExpression();
        if expr.Err? {
          return Err(expr.error);
        }
        items := items + [expr.value];
      }
    }

    method ParseArray() returns (res: Result<Value>)
      modifies lexer, env
      ensures var p := P.ParseItems(old(lexer.Model()), old(env.Model()), TokenRSquare, []);
              lexer.Model() == p.l && env.Model() == p.t
                  && res == if p.res.Ok? then Ok(Arr(p.res.value)) else Err(p.res.error)
      decreases Pending(lexer.Model()), 2
    {
      var arr := ParseItems(TokenRSquare);
      res := if arr.Ok? then Ok(Arr(arr.value)) else Err(arr.error);
    }

    method ParseHash() returns (res: Result<Value>)
      modifies lexer, env
      ensures var p := P.ParseItems(old(lexer.Model()), old(env.Model()), TokenRCurly, []);
              && lexer.Model() == p.l
              && env.Model() == (if p.res.Ok? then Intern(p.t, "hash").0 else p.t)
              && res == if p.res.Ok? then Ok(Pair(Sym(Intern(p.t, "hash").1), MakeList(p.res.value)))
                 else Err(p.res.error)
      decreases Pending(lexer.Model()), 2
    {
      var arr := ParseItems(TokenRCurly);
      if arr.Err? {
        return Err(arr.error);
      }
      var head := env.MakeSymbol("hash");
      res := Ok(Pair(Sym(head), MakeList(arr.value)));
    }
  }

  /** Reads everything; on an error, the expressions before it. */
  method ParseTokens(env: SymbolTable, lexer: Lexer) returns (expressions: seq<Value>, err: Option<ReadError>)
    modifies lexer, env
    ensures P.Program(expressions, env.Model(), err) == P.ParseTokens(old(lexer.Model()), old(env.Model()), [])
  {
    hide Pending, P.ParseExpression, GetToken;
    ghost var l0, t0 := lexer.Model(), env.Model();
    expressions := [];
    var parser := new Parser(env, lexer);
    while true
      invariant parser.lexer == lexer && parser.env == env
      invariant P.ParseTokens(lexer.Model(), env.Model(), expressions) == P.ParseTokens(l0, t0, [])
      decreases Pending(lexer.Model())
    {
      P.ExpressionShrinks(lexer.Model(), env.Model());
      var expr := parser.ParseExpression();
      if expr.Err? {
        return expressions, Some(expr.error);
      }
      if expr.value == End {
        return expressions, None;
      }
      expressions := expressions + [expr.value];
    }
  }

  // ---------- printing ----------

  method ShowPair(pair: Value, tables: char -> bool) returns (str: string)
    requires pair.Pair?
    ensures str == "(" + Printing.PairString(pair, tables)
    decreases Size(pair), 0
  {
    hide Printing.SexpString, Printing.PairString;
    var p := pair;
    str := "(";
    while p.tail.Pair?
      invariant p.Pair? && Size(p) <= Size(pair)
      invariant str + Printing.PairString(p, tables) == "(" + Printing.PairString(pair, tables)
      decreases p
    {
      var s := Show(p.head, tables);
      HeadString(str, p, tables);
      str := str + s + " ";
      p := p.tail;
    }
    var s := Show(p.head, tables);
    HeadString(str, p, tables);
    str := str + s;
    if p.tail == Null {
      str := str + ")";
    } else {
      var t := Show(p.tail, tables);
      str := str + (" . " + t + ")");
    }
  }

  /** What the printing loop has yet to print after the head of `p`. */
  lemma HeadString(before: string, p: Value, tables: char -> bool)
    requires p.Pair?
    ensures var s := before + Printing.SexpString(p.head, tables);
            before + Printing.PairString(p, tables) ==
            if p.tail.Pair? then s + " " + Printing.PairString(p.tail, tables)
            else if p.tail.Null? then s + ")"
            else s + (" . " + Printing.SexpString(p.tail, tables) + ")")
  {
    hide Printing.SexpString;
    var s := Printing.SexpString(p.head, tables);
    if p.tail.Pair? {
      var more := Printing.PairString(p.tail, tables);
      Printing.Regroup(before, s, " ", more);
    }
  }

  /** Further elements, each after a space. */
  function MoreItems(vs: seq<Value>, tables: char -> bool): string {
    if vs == [] then "" else " " + Printing.ItemsString(vs, tables)
  }

  lemma ItemsThenMore(vs: seq<Value>, tables: char -> bool)
    requires vs != []
    ensures Printing.ItemsString(vs, tables) == Printing.SexpString(vs[0], tables) + MoreItems(vs[1..], tables)
  {
    hide Printing.SexpString;
    var s, more := Printing.SexpString(vs[0], tables), Printing.ItemsString(vs[1..], tables);
    assert s + " " + more == s + (" " + more) && s + "" == s;
  }

  lemma Grouped(a: string, b: string, c: string)
    ensures a + (b + c) == a + b + c
  {
  }

  /** One more element after what was printed so far. */
  lemma MoreString(before: string, arr: seq<Value>, i: nat, tables: char -> bool)
    requires i < |arr|
    ensures before + MoreItems(arr[i..], tables) == before + (" " + Printing.SexpString(arr[i], tables)) +
            MoreItems(arr[i + 1..], tables)
    ensures i == 0 ==>
              before + Printing.ItemsString(arr, tables) ==
              before + Printing.SexpString(arr[0], tables) + MoreItems(arr[1..], tables)
  {
    hide Printing.SexpString, Printing.ItemsString;
    ItemsThenMore(arr[i..], tables);
    var s, rest := Printing.SexpString(arr[i], tables), MoreItems(arr[i + 1..], tables);
    assert arr[i..][1..] == arr[i + 1..] && arr[0..] == arr;
    assert MoreItems(arr[i..], tables) == " " + (s + rest);
    hide MoreItems;
    Grouped(" ", s, rest);
    Grouped(before, " " + s, rest);
    Grouped(before, s, rest);
  }

  method ShowArray(arr: seq<Value>, tables: char -> bool) returns (str: string)
    ensures str == Printing.SexpString(Arr(arr), tables)
    decreases 1 + SizeSeq(arr), 0
  {
    if |arr| == 0 {
      return "[]";
    }
    hide Printing.SexpString, Printing.ItemsString, MoreItems;
    SizeAt(arr, 0);
    var first := Show(arr[0], tables);
    str := "[" + first;
    MoreString("[", arr, 0, tables);
    for i := 1 to |arr|
      invariant str + MoreItems(arr[i..], tables) == "[" + Printing.ItemsString(arr, tables)
    {
      SizeAt(arr, i);
      var s := Show(arr[i], tables);
      MoreString(str, arr, i, tables);
      str := str + (" " + s);
    }
    NoMoreItems(str, arr, tables);
    str := str + "]";
    ArrayString(arr, tables);
  }

  lemma NoMoreItems(before: string, arr: seq<Value>, tables: char -> bool)
    ensures before + MoreItems(arr[|arr|..], tables) == before
  {
  }

  lemma ArrayString(arr: seq<Value>, tables: char -> bool)
    ensures Printing.SexpString(Arr(arr), tables) == "[" + Printing.ItemsString(arr, tables) + "]"
  {
  }

  method Show(v: Value, tables: char -> bool) returns (str: string)
    ensures str == Printing.SexpString(v, tables)
    decreases Size(v), 1
  {
    match v
    case Pair(_, _) => str := ShowPair(v, tables);
      hide Printing.PairString;
    case Arr(es) => str := ShowArray(es, tables);
    case _ => str := Printing.SexpString(v, tables);
  }
}
