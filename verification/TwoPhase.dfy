/** The reader parses while it lexes, one token ahead, and drops a last token that was only
    peeked at. It still reads every input as the two-phase reader below does: lex the whole
    input, then parse the list of tokens. */
module TwoPhase {
  import opened Sexps
  import opened Instructions
  import opened Symbols
  import opened Lexing
  import opened Parsing

  // ---------- phase one ----------

  /** All the tokens still to come, and the error that stops the lexer, if any. */
  function Rest(l: Lex): (seq<Token>, Option<ReadError>)
    decreases |l.stream|
  {
    if l.stream == "" then
      var d := DumpBuffer(l);
      (d.l.tokens, if d.res.Err? then Some(d.res.error) else None)
    else
      var l1 := l.(stream := l.stream[1..]);
      LexNextRunePending(l1, l.stream[0]);
      var n := LexNextRune(l1, l.stream[0]);
      if n.res.Err? then (n.l.tokens, Some(n.res.error)) else Rest(n.l)
  }

  // ---------- phase two ----------

  /** No token marks the end of the input. */
  predicate NoEnd(toks: seq<Token>) {
    forall i | 0 <= i < |toks| :: !toks[i].typ.TokenEnd?
  }

  datatype Taken<+T> = Taken(toks: seq<Token>, t: Names, res: Result<T>)

  function TakeExpression(toks: seq<Token>, stop: Option<ReadError>, t: Names): (p: Taken<Value>)
    ensures |p.toks| <= |toks| && (p.res.Ok? && toks != [] ==> |p.toks| < |toks|)
    ensures NoEnd(toks) ==> NoEnd(p.toks) && (p.res.Ok? && p.res.value.End? ==> toks == [])
    decreases |toks|, 0
  {
    if toks == [] then Taken([], t, if stop.Some? then Err(stop.value) else Ok(End))
    else
      var tok, rest := toks[0], toks[1..];
      if tok.typ.TokenLParen? then TakeList(rest, stop, t)
      else if tok.typ.TokenLSquare? then
        var a := TakeItems(rest, stop, t, TokenRSquare, []);
        Taken(a.toks, a.t, if a.res.Ok? then Ok(Arr(a.res.value)) else Err(a.res.error))
      else if tok.typ.TokenLCurly? then
        var a := TakeItems(rest, stop, t, TokenRCurly, []);
        if a.res.Err? then Taken(a.toks, a.t, Err(a.res.error))
        else Taken(a.toks, Intern(a.t, "hash").0, Ok(Pair(Sym(Intern(a.t, "hash").1), MakeList(a.res.value))))
      else if Prefix(tok.typ).Some? then
        var e := TakeExpression(rest, stop, t);
        if e.res.Err? then e
        else Taken(e.toks, Prefixed(e.t, Prefix(tok.typ).value, e.res.value).0,
                   Ok(Prefixed(e.t, Prefix(tok.typ).value, e.res.value).1))
      else Taken(rest, Atom(tok, t).0, Atom(tok, t).1)
  }

  /** The elements of a list up to its end. */
  function TakeList(toks: seq<Token>, stop: Option<ReadError>, t: Names): (p: Taken<Value>)
    ensures |p.toks| <= |toks| && (NoEnd(toks) ==> NoEnd(p.toks)) && !(p.res.Ok? && p.res.value.End?)
    decreases |toks|, 1
  {
    if toks == [] then Taken([], t, Err(UnexpectedEnd))
    else if toks[0].typ.TokenRParen? then Taken(toks[1..], t, Ok(Null))
    else
      var e := TakeExpression(toks, stop, t);
      if e.res.Err? then e else TakeTail(e.toks, stop, e.t, e.res.value)
  }

  function TakeTail(toks: seq<Token>, stop: Option<ReadError>, t: Names, head: Value): (p: Taken<Value>)
    ensures |p.toks| <= |toks| && (NoEnd(toks) ==> NoEnd(p.toks)) && (p.res.Ok? ==> p.res.value.Pair?)
    decreases |toks|, 2
  {
    if toks != [] && toks[0].typ.TokenDot? then TakeDotted(toks[1..], stop, t, head)
    else
      var r := TakeList(toks, stop, t);
      Taken(r.toks, r.t, if r.res.Ok? then Ok(Pair(head, r.res.value)) else Err(r.res.error))
  }

  function TakeDotted(toks: seq<Token>, stop: Option<ReadError>, t: Names, head: Value): (p: Taken<Value>)
    ensures |p.toks| <= |toks| && (NoEnd(toks) ==> NoEnd(p.toks)) && (p.res.Ok? ==> p.res.value.Pair?)
    decreases |toks|, 1
  {
    var e := TakeExpression(toks, stop, t);
    if e.res.Err? then e
    else if e.toks == [] || !e.toks[0].typ.TokenRParen? then Taken(e.toks, e.t, Err(ExtraInPair))
    else Taken(e.toks[1..], e.t, Ok(Pair(head, e.res.value)))
  }

  function TakeItems(toks: seq<Token>, stop: Option<ReadError>, t: Names, close: TokenType,
                     items: seq<Value>): (p: Taken<seq<Value>>)
    ensures |p.toks| <= |toks| && (NoEnd(toks) ==> NoEnd(p.toks))
    decreases |toks|, 1
  {
    if toks == [] then Taken([], t, Err(UnexpectedEnd))
    else if toks[0].typ == close then Taken(toks[1..], t, Ok(items))
    else
      var e := TakeExpression(toks, stop, t);
      if e.res.Err? then Taken(e.toks, e.t, Err(e.res.error))
          else TakeItems(e.toks, stop, e.t, close, items + [e.res.value])
  }

  function TakeTokens(toks: seq<Token>, stop: Option<ReadError>, t: Names, exprs: seq<Value>): Program
    decreases |toks|
  {
    var e := TakeExpression(toks, stop, t);
    if e.res.Err? then Program(exprs, e.t, Some(e.res.error))
    else if toks == [] || e.res.value == End then Program(exprs, e.t, None)
    else TakeTokens(e.toks, stop, e.t, exprs + [e.res.value])
  }

  function LexThenParse(input: string, t: Names): Program {
    var r := Rest(NewLex(input));
    TakeTokens(r.0, r.1, t, [])
  }

  // ---------- the tokens that are there do not matter to the lexer ----------

  lemma DecodedAtom(atom: string)
    requires DecodeAtom(atom).Ok?
    ensures var typ := DecodeAtom(atom).value.typ;
            !typ.TokenEnd? && !typ.TokenRParen? && !typ.TokenRSquare? && !typ.TokenRCurly? && !typ.TokenLParen?
            && !typ.TokenLSquare? && !typ.TokenLCurly? && Prefix(typ) == None
  {
    hide DecimalRegex, HexRegex, OctRegex, BinaryRegex, FloatRegex, SymbolRegex, CharRegex, DecodeChar;
  }

  lemma DumpBufferNoEnd(l: Lex)
    requires NoEnd(l.tokens)
    ensures NoEnd(DumpBuffer(l).l.tokens)
  {
    hide DecodeAtom;
    if l.buffer != "" && DecodeAtom(l.buffer).Ok? {
      DecodedAtom(l.buffer);
    }
  }

  lemma LexNextRuneNoEnd(l: Lex, r: char)
    requires NoEnd(l.tokens)
    ensures NoEnd(LexNextRune(l, r).l.tokens)
  {
    hide DumpBuffer, EscapeChar;
    DumpBufferNoEnd(l);
    DumpBufferNoEnd(l.(linenum := l.linenum + 1));
  }

  function Before(toks: seq<Token>, l: Lex): Lex {
    l.(tokens := toks + l.tokens)
  }

  lemma DumpBufferBefore(toks: seq<Token>, l: Lex)
    ensures DumpBuffer(Before(toks, l)).l == Before(toks, DumpBuffer(l).l)
    ensures DumpBuffer(Before(toks, l)).res == DumpBuffer(l).res
  {
    hide DecodeAtom;
    if l.buffer != "" && DecodeAtom(l.buffer).Ok? {
      assert toks + l.tokens + [DecodeAtom(l.buffer).value] == toks + (l.tokens + [DecodeAtom(l.buffer).value]);
    }
  }

  lemma AddBefore(toks: seq<Token>, l: Lex, tok: Token)
    ensures Add(Before(toks, l), tok) == Before(toks, Add(l, tok))
  {
    assert toks + l.tokens + [tok] == toks + (l.tokens + [tok]);
  }

  lemma LexNormalBefore(toks: seq<Token>, l: Lex, r: char)
    ensures LexNormal(Before(toks, l), r).l == Before(toks, LexNormal(l, r).l)
    ensures LexNormal(Before(toks, l), r).res == LexNormal(l, r).res
  {
    var d := DumpBuffer(l);
    DumpBufferBefore(toks, l);
    DumpBufferBefore(toks, l.(linenum := l.linenum + 1));
    AddBefore(toks, d.l, DecodeBrace(r));
    AddBefore(toks, l, Token(TokenQuote, ""));
    AddBefore(toks, l, Token(TokenBacktick, ""));
    hide DumpBuffer, DecodeBrace, Add;
  }

  lemma LexNextRuneBefore(toks: seq<Token>, l: Lex, r: char)
    ensures LexNextRune(Before(toks, l), r).l == Before(toks, LexNextRune(l, r).l)
    ensures LexNextRune(Before(toks, l), r).res == LexNextRune(l, r).res
  {
    LexNormalBefore(toks, l, r);
    AddBefore(toks, l.(buffer := ""), Token(TokenString, l.buffer));
    AddBefore(toks, l, Token(TokenTilde, ""));
    AddBefore(toks, l, Token(TokenTildeAt, ""));
    hide LexNormal, EscapeChar, Add;
  }

  lemma {:induction false} RestBefore(toks: seq<Token>, l: Lex)
    ensures Rest(Before(toks, l)).0 == toks + Rest(l).0 && Rest(Before(toks, l)).1 == Rest(l).1
    decreases |l.stream|
  {
    hide LexNextRune, DumpBuffer;
    if l.stream == "" {
      DumpBufferBefore(toks, l);
    } else {
      var l1 := l.(stream := l.stream[1..]);
      LexNextRunePending(l1, l.stream[0]);
      LexNextRuneBefore(toks, l1, l.stream[0]);
      var n := LexNextRune(l1, l.stream[0]);
      if n.res.Ok? {
        RestBefore(toks, n.l);
      }
    }
  }

  // ---------- look-ahead against the list of tokens ----------

  /** The lexer stands before `toks`. Once it has finished it has nothing more to give. */
  predicate Stands(l: Lex, toks: seq<Token>, stop: Option<ReadError>) {
    NoEnd(l.tokens) && if l.finished then toks == [] && stop == None else Rest(l) == (toks, stop)
  }

  /** A last token that the end of the input delimited. */
  ghost predicate LastAtom(toks: seq<Token>, stop: Option<ReadError>) {
    |toks| == 1 && stop == None && exists atom :: DecodeAtom(atom) == Ok(toks[0])
  }

  /** Peeking shows the next token and leaves the lexer where it stood, except that a last
      atom is lost. */
  lemma {:induction false} PeekStands(l: Lex, toks: seq<Token>, stop: Option<ReadError>)
    requires Stands(l, toks, stop)
    ensures var p := Peek(l);
            && NoEnd(p.l.tokens)
            && (p.res.Err? ==> toks == [] && stop != None)
            && (p.res.Ok? && p.res.value.typ.TokenEnd? ==>
                  toks == [] && stop == None && Stands(p.l, toks, stop) && p.res.value == END)
            && (p.res.Ok? && !p.res.value.typ.TokenEnd? ==>
                  && toks != [] && p.res.value == toks[0] && p.l.tokens != [] && p.l.tokens[0] == toks[0]
                  && if p.l.finished then LastAtom(toks, stop) else Stands(p.l, toks, stop))
    decreases |l.stream|
  {
    hide LexNextRune, DecodeAtom;
    if !l.finished {
      if l.tokens != [] {
        var t := l.tokens;
        assert l == Before(t, l.(tokens := []));
        RestBefore(t, l.(tokens := []));
      } else if l.stream == "" {
        if l.buffer != "" && DecodeAtom(l.buffer).Ok? {
          DecodedAtom(l.buffer);
        }
      } else {
        var l1 := l.(stream := l.stream[1..]);
        LexNextRunePending(l1, l.stream[0]);
        LexNextRuneNoEnd(l1, l.stream[0]);
        var n := LexNextRune(l1, l.stream[0]);
        if n.res.Ok? {
          PeekStands(n.l, toks, stop);
        } else {
          LexErrorTokens(l1, l.stream[0]);
        }
      }
    }
  }

  lemma LexErrorTokens(l: Lex, r: char)
    requires LexNextRune(l, r).res.Err?
    ensures LexNextRune(l, r).l.tokens == l.tokens
  {
    hide DecodeAtom, EscapeChar;
  }

  /** Getting a token takes it from the list. */
  lemma GetStands(l: Lex, toks: seq<Token>, stop: Option<ReadError>)
    requires Stands(l, toks, stop)
    ensures var g := GetToken(l);
            && (g.res.Err? ==> toks == [] && stop != None)
            && (g.res.Ok? && g.res.value.typ.TokenEnd? ==> toks == [] && stop == None && Stands(g.l, toks, stop))
            && (g.res.Ok? && !g.res.value.typ.TokenEnd? ==>
                  toks != [] && g.res.value == toks[0] && Stands(g.l, toks[1..], stop))
  {
    hide Rest, Peek, DecodeAtom;
    PeekStands(l, toks, stop);
    var p := Peek(l);
    if p.res.Ok? && !p.res.value.typ.TokenEnd? && !p.l.finished {
      var after := p.l.(tokens := p.l.tokens[1..]);
      assert p.l == Before([toks[0]], after);
      RestBefore([toks[0]], after);
      assert toks[1..] == Rest(after).0;
    }
  }

  // ---------- the parser against the list of tokens ----------

  /** Both fail, or both give the same and stand at the same place. */
  ghost predicate Agree<T(!new)>(p: Parsed<T>, q: Taken<T>, stop: Option<ReadError>) {
    if p.res.Ok? then q.res == p.res && q.t == p.t && Stands(p.l, q.toks, stop) else q.res.Err?
  }

  lemma FinishedFails(l: Lex, t: Names, close: TokenType, items: seq<Value>, head: Value)
    requires l.finished && close != TokenEnd
    ensures ParseExpression(l, t) == Parsed(l, t, Ok(End))
    ensures ParseList(l, t).res.Err? && ParseItems(l, t, close, items).res.Err?
    ensures ParseTail(l, t, head).res.Err? && ParseDotted(l, t, head).res.Err?
  {
    hide Pending;
  }

  /** A list or an array that is still open at a last atom fails. */
  lemma LastAtomFails(toks: seq<Token>, stop: Option<ReadError>, t: Names, close: TokenType, items: seq<Value>)
    requires LastAtom(toks, stop) && close in {TokenRSquare, TokenRCurly}
    ensures TakeList(toks, stop, t).res.Err? && TakeItems(toks, stop, t, close, items).res.Err?
  {
    var atom :| DecodeAtom(atom) == Ok(toks[0]);
    hide DecodeAtom, Atom;
    DecodedAtom(atom);
    var e := TakeExpression(toks, stop, t);
    assert e.toks == [];
    if e.res.Ok? {
      assert TakeTail([], stop, e.t, e.res.value).res.Err?;
      assert TakeItems([], stop, e.t, close, items + [e.res.value]).res.Err?;
    }
  }

  lemma {:induction false} ExpressionAgrees(l: Lex, toks: seq<Token>, stop: Option<ReadError>, t: Names)
    requires Stands(l, toks, stop)
    ensures Agree(ParseExpression(l, t), TakeExpression(toks, stop, t), stop)
    decreases Pending(l), 0
  {
    GetStands(l, toks, stop);
    hide Rest, Atom, Prefixed, Stands, Pending, Intern, ParseList, TakeList, ParseItems, TakeItems;
    var g := GetToken(l);
    if g.res.Ok? && !g.res.value.typ.TokenEnd? {
      var tok, rest := g.res.value, toks[1..];
      hide GetToken;
      if tok.typ.TokenLParen? {
        ListAgrees(g.l, rest, stop, t);
      } else if tok.typ.TokenLSquare? {
        ItemsAgree(g.l, rest, stop, t, TokenRSquare, []);
      } else if tok.typ.TokenLCurly? {
        ItemsAgree(g.l, rest, stop, t, TokenRCurly, []);
      } else if Prefix(tok.typ).Some? {
        ExpressionAgrees(g.l, rest, stop, t);
      }
    }
  }

  lemma {:induction false} ListAgrees(l: Lex, toks: seq<Token>, stop: Option<ReadError>, t: Names)
    requires Stands(l, toks, stop)
    ensures Agree(ParseList(l, t), TakeList(toks, stop, t), stop)
    decreases Pending(l), 1
  {
    PeekStands(l, toks, stop);
    var k := Peek(l);
    if k.res.Ok? && !k.res.value.typ.TokenEnd? {
      PeekThenGet(l);
      hide Rest, Stands, Pending, Peek;
      if k.l.finished {
        FinishedFails(k.l, t, TokenRSquare, [], End);
        LastAtomFails(toks, stop, t, TokenRSquare, []);
      } else if k.res.value.typ.TokenRParen? {
        GetStands(k.l, toks, stop);
      } else {
        hide GetToken;
        ExpressionAgrees(k.l, toks, stop, t);
        var e := ParseExpression(k.l, t);
        hide ParseExpression, TakeExpression;
        if e.res.Ok? {
          TailAgrees(e.l, TakeExpression(toks, stop, t).toks, stop, e.t, e.res.value);
        }
      }
    }
  }

  lemma {:induction false} TailAgrees(l: Lex, toks: seq<Token>, stop: Option<ReadError>, t: Names, head: Value)
    requires Stands(l, toks, stop)
    ensures Agree(ParseTail(l, t, head), TakeTail(toks, stop, t, head), stop)
    decreases Pending(l), 2
  {
    PeekStands(l, toks, stop);
    var k := Peek(l);
    hide Rest, Pending, Peek, Stands, LastAtom, ParseExpression, TakeExpression, ParseItems, TakeItems, ParseDotted,
         ParseList, TakeList;
    if k.res.Ok? {
      if k.l.finished && !k.res.value.typ.TokenEnd? {
        TailLost(l, toks, stop, t, head);
      } else if k.res.value.typ.TokenDot? {
        GetStands(k.l, toks, stop);
        PeekThenGet(l);
        DottedAgrees(GetToken(k.l).l, toks[1..], stop, t, head);
      } else {
        ListAgrees(k.l, toks, stop, t);
      }
    }
  }

  /** Neither parser gets past a list that is still open at a last atom. */
  lemma TailLost(l: Lex, toks: seq<Token>, stop: Option<ReadError>, t: Names, head: Value)
    requires var k := Peek(l); k.res.Ok? && k.l.finished && LastAtom(toks, stop)
    ensures ParseTail(l, t, head).res.Err? && TakeTail(toks, stop, t, head).res.Err?
  {
    var k := Peek(l);
    hide Peek, Pending, ParseExpression, TakeExpression, ParseItems, TakeItems;
    FinishedFails(k.l, t, TokenRSquare, [], head);
    LastAtomFails(toks, stop, t, TokenRSquare, []);
    GetFinished(k.l);
    EmptyFails(t, head);
    assert toks[1..] == [];
    hide ParseDotted, TakeDotted, ParseList, TakeList;
  }

  lemma EmptyFails(t: Names, head: Value)
    ensures TakeDotted([], None, t, head).res.Err?
  {
  }

  lemma GetFinished(l: Lex)
    requires l.finished
    ensures GetToken(l) == Answer(l, Ok(END)) && Peek(l) == Answer(l, Ok(END))
  {
  }

  lemma {:induction false} DottedAgrees(l: Lex, toks: seq<Token>, stop: Option<ReadError>, t: Names, head: Value)
    requires Stands(l, toks, stop)
    ensures Agree(ParseDotted(l, t, head), TakeDotted(toks, stop, t, head), stop)
    decreases Pending(l), 1
  {
    hide Rest, Pending, Stands, GetToken;
    ExpressionAgrees(l, toks, stop, t);
    var e, f := ParseExpression(l, t), TakeExpression(toks, stop, t);
    hide ParseExpression, TakeExpression;
    if e.res.Ok? {
      GetStands(e.l, f.toks, stop);
    }
  }

  lemma {:induction false} ItemsAgree(l: Lex, toks: seq<Token>, stop: Option<ReadError>, t: Names, close: TokenType,
                                      items: seq<Value>)
    requires Stands(l, toks, stop) && close in {TokenRSquare, TokenRCurly}
    ensures Agree(ParseItems(l, t, close, items), TakeItems(toks, stop, t, close, items), stop)
    decreases Pending(l), 1
  {
    PeekStands(l, toks, stop);
    var k := Peek(l);
    if k.res.Ok? && !k.res.value.typ.TokenEnd? {
      PeekThenGet(l);
      hide Rest, Stands, Pending, Peek;
      if k.l.finished {
        FinishedFails(k.l, t, close, items, End);
        FinishedFails(k.l, t, close, items + [End], End);
        LastAtomFails(toks, stop, t, close, items);
      } else if k.res.value.typ == close {
        GetStands(k.l, toks, stop);
      } else {
        hide GetToken;
        ExpressionAgrees(k.l, toks, stop, t);
        var e, f := ParseExpression(k.l, t), TakeExpression(toks, stop, t);
        hide ParseExpression, TakeExpression;
        if e.res.Ok? {
          ItemsAgree(e.l, f.toks, stop, e.t, close, items + [e.res.value]);
        }
      }
    }
  }

  lemma {:induction false} TokensAgree(l: Lex, toks: seq<Token>, stop: Option<ReadError>, t: Names, exprs: seq<Value>)
    requires Stands(l, toks, stop)
    ensures var p, q := ParseTokens(l, t, exprs), TakeTokens(toks, stop, t, exprs);
            p.exprs == q.exprs && (p.err.Some? <==> q.err.Some?) && (p.err.None? ==> p.t == q.t)
    decreases Pending(l)
  {
    ExpressionAgrees(l, toks, stop, t);
    GetStands(l, toks, stop);
    var e, f := ParseExpression(l, t), TakeExpression(toks, stop, t);
    if toks == [] {
    } else if e.res.Ok? && e.res.value != End {
      hide ParseExpression, TakeExpression, Rest, Stands, GetToken, Pending;
      TokensAgree(e.l, f.toks, stop, e.t, exprs + [e.res.value]);
    }
  }

  /** Every input is read as if it were lexed completely before being parsed: the same
      expressions in the same order, an error exactly when there is one, and the same
      symbols. */
  lemma ReadsInTwoPhases(input: string, t: Names)
    ensures ReadProgram(input, t).exprs == LexThenParse(input, t).exprs
    ensures ReadProgram(input, t).err.Some? <==> LexThenParse(input, t).err.Some?
    ensures ReadProgram(input, t).err.None? ==> ReadProgram(input, t).t == LexThenParse(input, t).t
  {
    var r := Rest(NewLex(input));
    TokensAgree(NewLex(input), r.0, r.1, t, []);
  }
}
