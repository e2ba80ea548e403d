/** Exactly which strings, symbols and characters the reader and the printer agree about. */
module Exactness {
  import opened Sexps
  import opened Instructions
  import opened Symbols
  import opened Lexing
  import opened Parsing
  import opened TwoPhase
  import opened Printing

  // ---------- strings ----------

  lemma {:induction false} FeedError(l: Lex, a: string, b: string)
    requires Feed(l, a).res.Err?
    ensures Feed(l, a + b) == Feed(l, a)
    decreases |a|
  {
    hide LexNextRune;
    assert (a + b)[0] == a[0] && (a + b)[1..] == a[1..] + b;
    if LexNextRune(l, a[0]).res.Ok? {
      FeedError(LexNextRune(l, a[0]).l, a[1..], b);
    }
  }

  /** The printer's escapes `\b`, `\f`, `\v`, `\x`, `\u` and `\U` are errors to the lexer. */
  lemma UnreadableChar(l: Lex, c: char, tables: char -> bool)
    requires l.state == LexerStrLit && !ReadableChar(c, tables)
    ensures Feed(l, QuoteChar(c, '"', tables)).res.Err?
  {
    hide LexNormal, LexUnquote, Printable, DumpString, Hex;
    var q := QuoteChar(c, '"', tables);
    assert c != '"' && c != '\\' by {
      QuotesPrint(tables);
    }
    assert |q| >= 2 && q[0] == '\\' && EscapeChar(q[1]).Err?;
    assert q[1..][0] == q[1];
    assert LexNextRune(l, q[0]) == Answer(l.(state := LexerStrEscaped), Ok(()));
    assert LexNextRune(l.(state := LexerStrEscaped), q[1]).res.Err?;
  }

  lemma QuotesPrint(tables: char -> bool)
    ensures Printable('"', tables) && Printable('\\', tables)
  {
  }

  lemma {:induction false} FeedUnreadable(l: Lex, s: string, tables: char -> bool)
    requires l.state == LexerStrLit && !ReadableString(s, tables)
    ensures Feed(l, QuoteBody(s, tables)).res.Err?
    decreases |s|
  {
    hide LexNextRune, ReadableChar;
    var q, more := QuoteChar(s[0], '"', tables), QuoteBody(s[1..], tables);
    if ReadableChar(s[0], tables) {
      QuotedChar(l, s[0], tables);
      FeedAppend(l, q, more);
      assert !ReadableString(s[1..], tables) by {
        if ReadableString(s[1..], tables) {
          forall i | 0 <= i < |s| ensures ReadableChar(s[i], tables) {
            assert i > 0 ==> s[i] == s[1..][i - 1];
          }
        }
      }
      FeedUnreadable(l.(buffer := l.buffer + [s[0]]), s[1..], tables);
    } else {
      UnreadableChar(l, s[0], tables);
      FeedError(l, q, more);
    }
  }

  lemma StopFails(input: string, t: Names)
    requires Rest(NewLex(input)).1.Some?
    ensures ReadProgram(input, t).err.Some?
  {
    hide Rest, TakeExpression, ReadProgram;
    var r := Rest(NewLex(input));
    RestNoEnd(NewLex(input));
    TokensFail(r.0, r.1, t, []);
    ReadsInTwoPhases(input, t);
  }

  lemma {:induction false} RestNoEnd(l: Lex)
    requires NoEnd(l.tokens)
    ensures NoEnd(Rest(l).0)
    decreases |l.stream|
  {
    hide LexNextRune, DumpBuffer;
    if l.stream == "" {
      DumpBufferNoEnd(l);
    } else {
      var l1 := l.(stream := l.stream[1..]);
      LexNextRunePending(l1, l.stream[0]);
      LexNextRuneNoEnd(l1, l.stream[0]);
      var n := LexNextRune(l1, l.stream[0]);
      if n.res.Ok? {
        RestNoEnd(n.l);
      }
    }
  }

  lemma {:induction false} TokensFail(toks: seq<Token>, stop: Option<ReadError>, t: Names, exprs: seq<Value>)
    requires stop.Some? && NoEnd(toks)
    ensures TakeTokens(toks, stop, t, exprs).err.Some?
    decreases |toks|
  {
    hide TakeExpression;
    var e := TakeExpression(toks, stop, t);
    if e.res.Ok? {
      assert toks != [] by {
        assert TakeExpression([], stop, t).res.Err? by {
          NothingLeft(stop, t);
        }
      }
      TokensFail(e.toks, stop, e.t, exprs + [e.res.value]);
    }
  }

  /** A string is read back from its printed form if and only if every character of it is
      printable or one of newline, carriage return, tab and bell. */
  lemma StringExact(s: string, t: Names, tables: char -> bool)
    ensures ReadProgram(SexpString(Str(s), tables), t) == Program([Str(s)], t, None) <==> ReadableString(s, tables)
  {
    if ReadableString(s, tables) {
      RoundTripOne(Str(s), t, tables);
    } else {
      hide ReadProgram, Rest;
      UnreadableText(s, tables);
      StopFails(SexpString(Str(s), tables), t);
    }
  }

  lemma OpenQuote(l: Lex, u: string)
    requires Ready(l)
    ensures Feed(l, "\"" + u) == Feed(l.(state := LexerStrLit), u)
  {
    assert ("\"" + u)[0] == '"' && ("\"" + u)[1..] == u;
    assert LexNextRune(l, '"') == Answer(l.(state := LexerStrLit), Ok(()));
    hide LexNextRune;
  }

  lemma UnreadableText(s: string, tables: char -> bool)
    requires !ReadableString(s, tables)
    ensures Rest(NewLex(SexpString(Str(s), tables))).1.Some?
  {
    hide Feed, Rest, QuoteBody;
    var body := QuoteBody(s, tables);
    var text := SexpString(Str(s), tables);
    var l, l1 := NewLex(""), NewLex("").(state := LexerStrLit);
    FeedUnreadable(l1, s, tables);
    FeedError(l1, body, "\"");
    OpenQuote(l, body + "\"");
    assert text == "\"" + (body + "\"");
    RestFeed(l, text, "");
    assert text + "" == text && l.(stream := text) == NewLex(text);
  }

  // ---------- symbols ----------

  /** How much text tokens hold. */
  function Weight(toks: seq<Token>): nat {
    if toks == [] then 0 else Weight(toks[..|toks| - 1]) + |toks[|toks| - 1].str|
  }

  function Held(l: Lex): nat {
    Weight(l.tokens) + |l.buffer|
  }

  lemma AddHeld(l: Lex, tok: Token)
    ensures Held(Add(l, tok)) == Held(l) + |tok.str|
  {
    assert (l.tokens + [tok])[..|l.tokens|] == l.tokens;
  }

  lemma AtomShrinks(atom: string)
    requires DecodeAtom(atom).Ok?
    ensures |DecodeAtom(atom).value.str| <= |atom|
  {
    hide DecimalRegex, FloatRegex, SymbolRegex, CharRegex, EscapeChar;
    if HexRegex(atom) || OctRegex(atom) || BinaryRegex(atom) {
      assert |atom| > 2;
    }
  }

  lemma DumpHeld(l: Lex)
    ensures DumpBuffer(l).res.Ok? ==> Held(DumpBuffer(l).l) <= Held(l)
  {
    hide DecodeAtom, Weight;
    if l.buffer != "" && DecodeAtom(l.buffer).Ok? {
      AtomShrinks(l.buffer);
      AddHeld(l.(buffer := ""), DecodeAtom(l.buffer).value);
    }
  }

  /** A rune adds at most itself, and a special one in the normal state adds nothing. */
  lemma RuneHeld(l: Lex, r: char)
    requires LexNextRune(l, r).res.Ok?
    ensures Held(LexNextRune(l, r).l) <= Held(l) + 1
    ensures l.state == LexerNormal && Special(r) ==> Held(LexNextRune(l, r).l) <= Held(l)
    ensures l.state == LexerNormal && !Special(r) ==> LexNextRune(l, r).l == l.(buffer := l.buffer + [r])
  {
    if l.state == LexerNormal {
      NormalHeld(l, r);
    } else {
      hide LexNormal, EscapeChar, Weight;
      AddHeld(l.(buffer := ""), Token(TokenString, l.buffer));
      AddHeld(l, Token(TokenTilde, ""));
      AddHeld(l, Token(TokenTildeAt, ""));
      hide Add;
    }
  }

  lemma NormalHeld(l: Lex, r: char)
    requires LexNormal(l, r).res.Ok?
    ensures if Special(r) then Held(LexNormal(l, r).l) <= Held(l) else LexNormal(l, r).l == l.(buffer := l.buffer + [r])
  {
    hide Weight;
    DumpHeld(l);
    DumpHeld(l.(linenum := l.linenum + 1));
    AddHeld(DumpBuffer(l).l, DecodeBrace(r));
    AddHeld(l, Token(TokenQuote, ""));
    AddHeld(l, Token(TokenBacktick, ""));
    hide DumpBuffer, Add;
  }

  lemma {:induction false} RestHeld(l: Lex)
    requires Rest(l).1.None?
    ensures Weight(Rest(l).0) <= Held(l) + |l.stream|
    ensures l.state == LexerNormal && !Plain(l.stream) ==> Weight(Rest(l).0) < Held(l) + |l.stream|
    decreases |l.stream|
  {
    hide LexNextRune, DumpBuffer, Weight, Special;
    if l.stream == "" {
      DumpHeld(l);
      DumpEmptied(l);
    } else {
      var r, l1 := l.stream[0], l.(stream := l.stream[1..]);
      LexNextRunePending(l1, r);
      RuneHeld(l1, r);
      RestHeld(LexNextRune(l1, r).l);
      if l.state == LexerNormal && !Special(r) && !Plain(l.stream) {
        assert !Plain(l1.stream) by {
          var i :| 0 <= i < |l.stream| && Special(l.stream[i]);
          assert l1.stream[i - 1] == l.stream[i];
        }
      }
    }
  }

  lemma DumpEmptied(l: Lex)
    requires DumpBuffer(l).res.Ok?
    ensures Held(DumpBuffer(l).l) == Weight(DumpBuffer(l).l.tokens)
  {
    hide DecodeAtom;
  }

  /** Only one symbol token reads as one symbol. */
  lemma OneSymbolToken(toks: seq<Token>, t: Names, s: Symbol)
    requires NoEnd(toks) && TakeTokens(toks, None, t, []) == Program([Sym(s)], t, None)
    ensures toks == [Token(TokenSymbol, s.name)]
  {
    hide TakeExpression;
    var e := TakeExpression(toks, None, t);
    NothingLeft(None, t);
    assert e.res.Ok? && toks != [];
    assert [] + [e.res.value] == [e.res.value];
    MoreTokens(e.toks, None, e.t, [e.res.value]);
    assert TakeTokens(e.toks, None, e.t, [e.res.value]) == Program([Sym(s)], t, None);
    hide TakeTokens;
    assert [e.res.value][0] == [Sym(s)][0];
    SymbolToken(toks, None, t);
    assert toks == [toks[0]] + toks[1..];
  }

  lemma {:induction false} MoreTokens(toks: seq<Token>, stop: Option<ReadError>, t: Names, exprs: seq<Value>)
    requires NoEnd(toks)
    ensures var p := TakeTokens(toks, stop, t, exprs);
            exprs <= p.exprs && (p.err.None? && toks != [] ==> |p.exprs| > |exprs|)
    decreases |toks|
  {
    hide TakeExpression;
    var e := TakeExpression(toks, stop, t);
    if e.res.Ok? && toks != [] {
      MoreTokens(e.toks, stop, e.t, exprs + [e.res.value]);
    }
  }

  lemma SymbolToken(toks: seq<Token>, stop: Option<ReadError>, t: Names)
    requires NoEnd(toks) && toks != [] && TakeExpression(toks, stop, t).res.Ok?
             && TakeExpression(toks, stop, t).res.value.Sym?
    ensures var e := TakeExpression(toks, stop, t);
            toks[0] == Token(TokenSymbol, e.res.value.sym.name) && e.toks == toks[1..]
  {
    hide TakeItems, ParseInt;
  }

  /** A symbol is read back from its printed form if and only if its name has no special
      character and is classified as a symbol token. */
  lemma SymbolExact(s: Symbol, t: Names, tables: char -> bool)
    requires Interned(t, s)
    ensures ReadProgram(SexpString(Sym(s), tables), t) == Program([Sym(s)], t, None) <==> SymbolName(s.name)
  {
    var name, l := s.name, NewLex(s.name);
    hide ReadProgram, Rest, TakeTokens, DecodeAtom;
    if SymbolName(name) {
      RoundTripOne(Sym(s), t, tables);
    } else if ReadProgram(name, t) == Program([Sym(s)], t, None) {
      ReadsInTwoPhases(name, t);
      RestNoEnd(l);
      StopFails'(name, t);
      OneSymbolToken(Rest(l).0, t, s);
      assert Weight(Rest(l).0) == |name| by {
        assert [Token(TokenSymbol, name)][..0] == [];
      }
      RestHeld(l);
      FeedPlain(NewLex(""), name);
      RestFeed(NewLex(""), name, "");
      assert name + "" == name && "" + name == name && NewLex("").(stream := name) == l;
      PlainRest(l, name);
      assert false;
    }
  }

  lemma StopFails'(input: string, t: Names)
    requires ReadProgram(input, t).err.None?
    ensures Rest(NewLex(input)).1.None?
  {
    hide ReadProgram, Rest;
    if Rest(NewLex(input)).1.Some? {
      StopFails(input, t);
    }
  }

  lemma PlainRest(l: Lex, name: string)
    requires l == NewLex(name) && Plain(name) && Rest(l) == Rest(NewLex("").(buffer := name))
             && Rest(l) == ([Token(TokenSymbol, name)], None)
    ensures DecodeAtom(name) == Ok(Token(TokenSymbol, name))
  {
    hide DecodeAtom;
    var l1 := NewLex("").(buffer := name);
    var d := DumpBuffer(l1);
    assert d.l.tokens == [Token(TokenSymbol, name)] && d.res.Ok?;
    assert name != "";
    assert ([] + [DecodeAtom(name).value])[0] == DecodeAtom(name).value;
  }

  /** In particular every name without digits that is not a keyword and has no special
      character. */
  lemma DigitFreeNames(name: string)
    requires name != "" && Plain(name) && (forall i | 0 <= i < |name| :: !Digit(name[i]) && name[i] != '#')
    requires name !in {".", "nil", "true", "false"}
    ensures SymbolName(name)
  {
    var u := Unsigned(name);
    assert u != "" ==> !Digit(u[0]);
    assert !DecimalRegex(name);
    assert !HexRegex(name) && !OctRegex(name) && !BinaryRegex(name);
    assert !FloatRegex(name);
    assert SymbolRegex(name);
    hide FloatRegex, SymbolRegex, DecimalRegex, HexRegex, OctRegex, BinaryRegex;
  }

  // ---------- characters ----------

  lemma LoneHash()
    ensures DecodeAtom("#").Err?
  {
    assert Unsigned("#") == "#" && !FloatRegex("#") && !SymbolRegex("#") && !CharRegex("#") && !DecimalRegex("#");
    hide FloatRegex, SymbolRegex, CharRegex, DecimalRegex;
  }

  lemma BadAtom(s: string)
    requires 2 <= |s| && s[0] == '#' && s[1] == '\\' && (|s| == 3 ==> EscapeChar(s[2]).Err?) && |s| != 2
    requires forall i | 0 <= i < |s| :: s[i] != '.'
    requires forall i | 0 <= i < |s| - 1 :: s[i] != 'e' && s[i] != 'E'
    ensures DecodeAtom(s).Err?
  {
    assert Unsigned(s) == s && !DecimalRegex(s) && s[..2] != "0x" && s[..2] != "0o" && s[..2] != "0b";
    assert !FloatRegex(s) && !SymbolRegex(s);
    hide FloatRegex, SymbolRegex, DecimalRegex, EscapeChar;
  }

  /** The printed form of a control character. */
  lemma ControlBody(c: int, tables: char -> bool)
    requires (0 <= c < 32 || c == 127) && c !in {7, 9, 10, 13}
    ensures var body := QuoteChar(Rune(c), '\'', tables);
            if c == 8 then body == "\\b" else if c == 12 then body == "\\f" else if c == 11 then body == "\\v"
            else body == ['\\', 'x', HexChar(c / 16), HexChar(c % 16)]
  {
    hide HexChar;
    assert Hex(c / 16, 1) == Hex(c / 16 / 16, 0) + [HexChar(c / 16 % 16)];
    assert Hex(c, 2) == [HexChar(c / 16), HexChar(c % 16)];
  }

  lemma PlainHex(c: int)
    requires 0 <= c < 128
    ensures Digit(HexChar(c / 16)) && !Special(HexChar(c / 16)) && !Special(HexChar(c % 16))
    ensures HexChar(c % 16) != '.' && HexChar(c % 16) != '\''
  {
  }

  lemma ControlString(c: int, tables: char -> bool)
    requires (0 <= c < 32 || c == 127) && c !in {7, 9, 10, 13}
    ensures var s := CharString(c, tables);
            Plain(s) && DecodeAtom(s).Err?
  {
    hide QuoteChar, HexChar, CharString, DecodeAtom, Plain, Digit, Special;
    ControlBody(c, tables);
    PlainHex(c);
    if c == 8 {
      ControlText(c, "\\b", tables);
      ShortControl('b');
    } else if c == 12 {
      ControlText(c, "\\f", tables);
      ShortControl('f');
    } else if c == 11 {
      ControlText(c, "\\v", tables);
      ShortControl('v');
    } else {
      ControlText(c, ['\\', 'x', HexChar(c / 16), HexChar(c % 16)], tables);
      LongControl(HexChar(c / 16), HexChar(c % 16));
    }
  }

  lemma ControlText(c: int, body: string, tables: char -> bool)
    requires QuoteChar(Rune(c), '\'', tables) == body && |body| >= 2 && body[0] == '\\' && body[|body| - 1] != '\''
    ensures CharString(c, tables) == ['#'] + body
  {
    hide QuoteChar;
    TrimQuotes(body);
  }

  lemma ShortControl(k: char)
    requires k in "bfv"
    ensures var s := ['#'] + ['\\', k]; Plain(s) && DecodeAtom(s).Err?
  {
    var s := ['#'] + ['\\', k];
    HashPlain();
    assert !Special(k) && EscapeChar(k).Err? && k != '.';
    hide Special, EscapeChar;
    assert s[0] == '#' && s[1] == '\\' && s[2] == k;
    BadAtom(s);
    hide DecodeAtom;
  }

  lemma HashPlain()
    ensures !Special('#') && !Special('\\') && !Special('x')
  {
  }

  lemma LongControl(h: char, k: char)
    requires Digit(h) && !Special(h) && !Special(k) && k != '.'
    ensures var s := ['#'] + ['\\', 'x', h, k]; Plain(s) && DecodeAtom(s).Err?
  {
    var s := ['#'] + ['\\', 'x', h, k];
    HashPlain();
    hide Special, EscapeChar;
    assert s[0] == '#' && s[1] == '\\' && s[2] == 'x' && s[3] == h && s[4] == k;
    BadAtom(s);
    hide DecodeAtom;
  }

  lemma TrimQuotes(body: string)
    requires body != "" && body[0] != '\'' && body[|body| - 1] != '\''
    ensures TrimRight(TrimLeft("'" + body + "'")) == body
  {
    var quoted := "'" + body + "'";
    assert quoted[1..] == body + "'";
    assert TrimLeft(body + "'") == body + "'";
    assert (body + "'")[..|body|] == body;
    assert TrimRight(body) == body;
  }

  lemma PlainText(s: string)
    requires Plain(s)
    ensures Rest(NewLex(s)) == Rest(NewLex("").(buffer := s))
    ensures DecodeAtom(s).Err? && s != "" ==> Rest(NewLex(s)).1.Some?
    ensures DecodeAtom(s).Ok? && s != "" ==> Rest(NewLex(s)) == ([DecodeAtom(s).value], None)
  {
    FeedPlain(NewLex(""), s);
    RestFeed(NewLex(""), s, "");
    assert s + "" == s && "" + s == s && NewLex("").(stream := s) == NewLex(s);
    hide DecodeAtom;
    assert DecodeAtom(s).Ok? ==> [] + [DecodeAtom(s).value] == [DecodeAtom(s).value];
  }

  lemma LexSpecial(l: Lex, c: char)
    requires l.state == LexerNormal && l.buffer == "#" && Special(c) && c != ';'
    ensures LexNextRune(l, c).res.Err?
  {
    LoneHash();
    hide DecodeAtom;
  }

  /** A special character ends the atom before it. */
  lemma SpecialText(c: char)
    requires Special(c)
    ensures Rest(NewLex(['#', c])).1.Some?
  {
    LoneHash();
    var l := NewLex("").(buffer := "#");
    var l1 := if c == ';' then l.(state := LexerComment) else l;
    FeedHash(c);
    RestFeed(NewLex(""), ['#', c], "");
    assert ['#', c] + "" == ['#', c] && NewLex("").(stream := ['#', c]) == NewLex(['#', c]);
    hide DecodeAtom, Feed;
  }

  lemma FeedHash(c: char)
    requires Special(c)
    ensures var l := NewLex("").(buffer := "#");
            if c == ';' then Feed(NewLex(""), ['#', c]) == Answer(l.(state := LexerComment), Ok(()))
            else Feed(NewLex(""), ['#', c]).res.Err?
  {
    var l := NewLex("").(buffer := "#");
    assert ['#', c][1..] == [c] && [c][1..] == "";
    assert LexNextRune(NewLex(""), '#') == Answer(l, Ok(()));
    if c == ';' {
      assert LexNextRune(l, c) == Answer(l.(state := LexerComment), Ok(()));
      hide LexNextRune;
      assert Feed(l, [c]) == Feed(l.(state := LexerComment), "");
    } else {
      LexSpecial(l, c);
      hide LexNextRune;
    }
  }

  lemma ApostropheText(tables: char -> bool)
    ensures CharString(39, tables) == "#\\" && Plain("#\\")
  {
    var body := QuoteChar('\'', '\'', tables);
    assert body == "\\'";
    hide QuoteChar;
    var quoted := "'" + body + "'";
    assert quoted[1..] == "\\''" && TrimLeft("\\''") == "\\''";
    assert "\\''"[..2] == "\\'" && "\\'"[..1] == "\\" && TrimRight("\\") == "\\";
    assert TrimRight("\\'") == "\\" && TrimRight("\\''") == "\\";
  }

  lemma ApostropheString(t: Names, tables: char -> bool)
    ensures ReadProgram(CharString(39, tables), t).exprs != [Char(39)]
  {
    hide CharString, ReadProgram;
    ApostropheText(tables);
    var s := CharString(39, tables);
    HashAtom(s);
    PlainText(s);
    ReadsInTwoPhases(s, t);
    var tok := Token(TokenChar, "\\");
    assert s[1..] == "\\";
    BackslashValue(t);
  }

  lemma BackslashValue(t: Names)
    ensures TakeTokens([Token(TokenChar, "\\")], None, t, []).exprs == [Char(92)]
  {
    var tok := Token(TokenChar, "\\");
    TakeAtom(tok, [], None, t);
    assert [tok] + [] == [tok];
    NothingLeft(None, t);
    hide TakeExpression;
    assert Encoding.Bytes("\\") == Encoding.Utf8('\\') + Encoding.Bytes("");
    assert TakeTokens([], None, t, [Char(92)]).exprs == [Char(92)];
    var none: seq<Value> := [];
    assert none + [Char(92)] == [Char(92)];
  }

  /** An ASCII character is read back if and only if it is bell, tab, newline, carriage
      return, or visible and not one of the reader's special characters. */
  lemma LiteralExact(c: int, t: Names, tables: char -> bool)
    requires 0 <= c < 128
    ensures ReadProgram(SexpString(Char(c), tables), t) == Program([Char(c)], t, None) <==> ReadableLiteral(c)
  {
    hide ReadProgram, DecodeAtom, Plain, CharString, Rest;
    var s := CharString(c, tables);
    if ReadableLiteral(c) {
      RoundTripOne(Char(c), t, tables);
    } else if c < 32 || c == 127 {
      ControlString(c, tables);
      PlainText(s);
      assert s != "" by {
        EmptyHash(c, tables);
      }
      StopFails(s, t);
    } else if c == 39 {
      ApostropheString(t, tables);
    } else {
      EmptyHash(c, tables);
      SpecialText(c as char);
      StopFails(s, t);
    }
  }

  lemma EmptyHash(c: int, tables: char -> bool)
    requires 0 <= c < 128
    ensures CharString(c, tables) != ""
    ensures 32 <= c < 127 && c != 39 && c != 92 ==> CharString(c, tables) == ['#', c as char]
  {
    if 32 <= c < 127 && c != 39 && c != 92 {
      assert QuoteChar(Rune(c), '\'', tables) == [c as char];
      TrimQuotes([c as char]);
    }
  }
}
