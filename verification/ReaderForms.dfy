/** What the reader does with comments, with its prefixes for quoting, and with numbers in
    other bases. */
module ReaderForms {
  import opened Sexps
  import opened Instructions
  import opened Symbols
  import opened Lexing
  import opened Parsing
  import opened TwoPhase
  import opened Printing
  import opened Exactness

  // ---------- comments ----------

  lemma {:induction false} FeedComment(l: Lex, text: string)
    requires l.state == LexerComment && '\n' !in text
    ensures Feed(l, text + "\n") == Answer(l.(state := LexerNormal), Ok(()))
    decreases |text|
  {
    var all := text + "\n";
    if text == "" {
      assert all == "\n" && all[1..] == "";
    } else {
      assert all[0] == text[0] && text[0] in text && all[1..] == text[1..] + "\n";
      assert LexNextRune(l, text[0]) == Answer(l, Ok(()));
      FeedComment(l, text[1..]);
    }
  }

  /** Wherever it stands outside strings, a comment changes nothing of what is read. It does
      not even end the atom before it. */
  lemma CommentVanishes(l: Lex, text: string, rest: string)
    requires l.state == LexerNormal && '\n' !in text
    ensures Rest(l.(stream := ";" + (text + "\n") + rest)) == Rest(l.(stream := rest))
  {
    var comment, l1 := ";" + (text + "\n"), l.(state := LexerComment);
    FeedComment(l1, text);
    assert comment[0] == ';' && comment[1..] == text + "\n";
    assert LexNextRune(l, ';') == Answer(l1, Ok(()));
    assert Feed(l, comment) == Answer(l, Ok(())) by {
      hide LexNextRune;
      assert l1.(state := LexerNormal) == l;
    }
    hide Feed, Rest;
    RestFeed(l, comment, rest);
  }

  // ---------- quoting ----------

  /** The text and the symbol of a prefix that can stand before any value. */
  function PrefixText(typ: TokenType): string
    requires typ in {TokenQuote, TokenBacktick, TokenTildeAt}
  {
    if typ.TokenQuote? then "'" else if typ.TokenBacktick? then "`" else "~@"
  }

  lemma FeedPrefix(l: Lex, typ: TokenType)
    requires Ready(l) && typ in {TokenQuote, TokenBacktick, TokenTildeAt}
    ensures Feed(l, PrefixText(typ)) == Answer(Give(l, [Tok(typ)]), Ok(()))
  {
    if typ.TokenTildeAt? {
      var l1 := l.(state := LexerUnquote);
      assert "~@"[1..] == "@" && "@"[1..] == "";
      assert LexNextRune(l, '~') == Answer(l1, Ok(()));
      assert LexNextRune(l1, '@') == Answer(Give(l, [Tok(typ)]), Ok(()));
      hide LexNextRune;
      assert Feed(l1, "@") == Feed(Give(l, [Tok(typ)]), "");
    } else {
      var s := PrefixText(typ);
      assert s[1..] == "";
      assert LexNextRune(l, s[0]) == Answer(Give(l, [Tok(typ)]), Ok(()));
    }
  }

  /** Before a printed value a quote reads as the list of `quote` and the value, a backquote
      as that of `syntax-quote`, and a tilde with an at sign as that of `unquote-splicing`. */
  lemma PrefixReads(mark: string, name: string, v: Value, t: Names, tables: char -> bool)
    requires (mark, name) in {("'", "quote"), ("`", "syntax-quote"), ("~@", "unquote-splicing")}
    requires Readable(v, t, tables)
    ensures var (t', s) := Intern(t, name);
            s.name == name && ReadProgram(mark + SexpString(v, tables), t) == Program([MakeList([Sym(s), v])], t', None)
  {
    hide SexpString, Readable, ReadProgram;
    PrefixTyped(if mark == "'" then TokenQuote else if mark == "`" then TokenBacktick else TokenTildeAt, v, t, tables);
  }

  lemma PrefixTyped(typ: TokenType, v: Value, t: Names, tables: char -> bool)
    requires typ in {TokenQuote, TokenBacktick, TokenTildeAt} && Readable(v, t, tables)
    ensures var (t', s) := Intern(t, Prefix(typ).value);
            ReadProgram(PrefixText(typ) + SexpString(v, tables), t) == Program([MakeList([Sym(s), v])], t', None)
  {
    hide SexpString, Readable, Tokens, PrefixText, Feed, Rest, TakeExpression, ParseTokens, Intern;
    var text, l := PrefixText(typ) + SexpString(v, tables), NewLex("");
    var l1 := Give(l, [Tok(typ)]);
    FeedPrefix(l, typ);
    RestItems(l1, [v], t, tables);
    ItemsOne([v], tables);
    hide ItemsString, ItemsTokens;
    assert ItemsString([v], tables) == SexpString(v, tables) && ItemsTokens([v]) == Tokens(v);
    assert l.tokens + [Tok(typ)] == [Tok(typ)];
    RestFeed(l, PrefixText(typ), SexpString(v, tables));
    assert l.(stream := text) == NewLex(text);
    assert Rest(NewLex(text)) == ([Tok(typ)] + Tokens(v), None);
    ReadsInTwoPhases(text, t);
    PrefixTaken(typ, v, t, tables);
  }

  lemma PrefixTaken(typ: TokenType, v: Value, t: Names, tables: char -> bool)
    requires Prefix(typ).Some? && Readable(v, t, tables)
    ensures var (t', s) := Intern(t, Prefix(typ).value);
            TakeTokens([Tok(typ)] + Tokens(v), None, t, []) == Program([MakeList([Sym(s), v])], t', None)
  {
    var (t', s) := Intern(t, Prefix(typ).value);
    var toks, e := [Tok(typ)] + Tokens(v), MakeList([Sym(s), v]);
    assert TakeExpression(toks, None, t) == Taken([], t', Ok(e)) by {
      hide Tokens, Readable;
      assert toks[1..] == Tokens(v) && Tokens(v) + [] == Tokens(v);
      TakeValue(v, [], None, t, tables);
    }
    assert TakeTokens([], None, t', [e]) == Program([e], t', None) by {
      NothingLeft(None, t');
    }
    hide TakeExpression, Tokens, Readable, Intern;
    assert e.Pair? && [] + [e] == [e];
  }

  // ---------- hash literals ----------

  /** Printed values in braces read as the list of `hash` and the values. */
  lemma HashReads(vs: seq<Value>, t: Names, tables: char -> bool)
    requires forall i | 0 <= i < |vs| :: Readable(vs[i], t, tables)
    ensures var (t', s) := Intern(t, "hash");
            ReadProgram("{" + ItemsString(vs, tables) + "}", t) == Program([MakeList([Sym(s)] + vs)], t', None)
  {
    hide Readable, ItemsString, ItemsTokens, Feed, Rest, TakeTokens, ReadProgram;
    var l, text := NewLex(""), "{" + ItemsString(vs, tables) + "}";
    var toks := [Tok(TokenLCurly)] + (ItemsTokens(vs) + [Tok(TokenRCurly)]);
    HashFeeds(l, vs, t, tables);
    RestFeed(l, text, "");
    assert text + "" == text && l.(stream := text) == NewLex(text) && l.tokens + toks == toks;
    AllRead(Give(l, toks));
    ReadsInTwoPhases(text, t);
    HashTaken(vs, t, tables);
  }

  lemma HashFeeds(l: Lex, vs: seq<Value>, t: Names, tables: char -> bool)
    requires Ready(l) && forall i | 0 <= i < |vs| :: Readable(vs[i], t, tables)
    ensures Feed(l, "{" + ItemsString(vs, tables) + "}") ==
            Answer(Give(l, [Tok(TokenLCurly)] + (ItemsTokens(vs) + [Tok(TokenRCurly)])), Ok(()))
  {
    hide Readable, ItemsString, ItemsTokens, Feed;
    var body, l1 := ItemsString(vs, tables) + ['}'], Give(l, [Tok(TokenLCurly)]);
    assert "{" + ItemsString(vs, tables) + "}" == ['{'] + body;
    FeedBrace(l, '{', body);
    FeedItems(l1, vs, '}', t, tables);
    var toks := ItemsTokens(vs) + [Tok(TokenRCurly)];
    assert l1.tokens + toks == l.tokens + ([Tok(TokenLCurly)] + toks);
  }

  lemma AllRead(l: Lex)
    requires Ready(l) && l.stream == ""
    ensures Rest(l) == (l.tokens, None)
  {
  }

  lemma HashTaken(vs: seq<Value>, t: Names, tables: char -> bool)
    requires forall i | 0 <= i < |vs| :: Readable(vs[i], t, tables)
    ensures var (t', s) := Intern(t, "hash");
            TakeTokens([Tok(TokenLCurly)] + (ItemsTokens(vs) + [Tok(TokenRCurly)]), None, t, []) ==
            Program([MakeList([Sym(s)] + vs)], t', None)
  {
    var (t', s) := Intern(t, "hash");
    var rest, e := ItemsTokens(vs) + [Tok(TokenRCurly)], MakeList([Sym(s)] + vs);
    var toks := [Tok(TokenLCurly)] + rest;
    assert TakeExpression(toks, None, t) == Taken([], t', Ok(e)) by {
      hide ItemsTokens, Readable, TakeItems, Intern;
      TakeArray([], vs, TokenRCurly, [], None, t, tables);
      assert [Tok(TokenRCurly)] + [] == [Tok(TokenRCurly)] && [] + vs == vs && toks[1..] == rest;
      assert ([Sym(s)] + vs)[1..] == vs;
    }
    assert TakeTokens([], None, t', [e]) == Program([e], t', None) by {
      NothingLeft(None, t');
    }
    hide TakeExpression, ItemsTokens, Readable, Intern;
    assert e.Pair? && [] + [e] == [e];
  }

  // ---------- unquoting ----------

  /** The rune after a tilde goes straight into the buffer, whatever it is. */
  lemma FeedTilde(l: Lex, s: string)
    requires Ready(l) && s != "" && s[0] != '@'
    ensures Feed(l, "~" + s) == Feed(Give(l, [Tok(TokenTilde)]).(buffer := [s[0]]), s[1..])
  {
    var l1 := l.(state := LexerUnquote);
    assert ("~" + s)[0] == '~' && ("~" + s)[1..] == s;
    assert LexNextRune(l, '~') == Answer(l1, Ok(()));
    assert LexNextRune(l1, s[0]) == Answer(Give(l, [Tok(TokenTilde)]).(buffer := [s[0]]), Ok(()));
    hide LexNextRune;
    assert Feed(l1, s) == Feed(Give(l, [Tok(TokenTilde)]).(buffer := [s[0]]), s[1..]);
  }

  /** An atom that began with `c` is the next token, if there is one. */
  ghost predicate AtomNext(toks: seq<Token>, c: char) {
    toks == [Tok(TokenTilde)]
    || (|toks| > 1 && toks[0] == Tok(TokenTilde)
        && exists atom :: atom != "" && atom[0] == c && DecodeAtom(atom) == Ok(toks[1]))
  }

  lemma {:induction false} FirstAtom(l: Lex)
    requires l.state == LexerNormal || l.state == LexerComment
    requires l.tokens == [Tok(TokenTilde)] && l.buffer != ""
    ensures AtomNext(Rest(l).0, l.buffer[0])
    decreases |l.stream|
  {
    hide DecodeAtom, DecodeBrace;
    if l.stream == "" {
    } else {
      var l1 := l.(stream := l.stream[1..]);
      LexNextRunePending(l1, l.stream[0]);
      var n := LexNextRune(l1, l.stream[0]);
      if n.res.Ok? {
        if n.l.tokens == l.tokens {
          KeepsAtom(l1, l.stream[0]);
          FirstAtom(n.l);
        } else {
          DumpedAtom(l1, l.stream[0]);
          hide LexNextRune, Rest;
          var more := n.l.tokens[2..];
          assert n.l.tokens == n.l.tokens[..2] + more;
          RestBefore(n.l.tokens[..2], n.l.(tokens := more));
        }
      } else {
        LexErrorTokens(l1, l.stream[0]);
      }
    }
  }

  lemma KeepsAtom(l: Lex, r: char)
    requires (l.state == LexerNormal || l.state == LexerComment) && l.buffer != ""
    requires LexNextRune(l, r).res.Ok? && LexNextRune(l, r).l.tokens == l.tokens
    ensures var l' := LexNextRune(l, r).l;
            (l'.state == LexerNormal || l'.state == LexerComment) && l'.buffer != "" && l'.buffer[0] == l.buffer[0]
  {
    hide DecodeAtom, DecodeBrace;
  }

  lemma DumpedAtom(l: Lex, r: char)
    requires (l.state == LexerNormal || l.state == LexerComment) && l.buffer != "" && |l.tokens| == 1
    requires LexNextRune(l, r).res.Ok? && LexNextRune(l, r).l.tokens != l.tokens
    ensures var l' := LexNextRune(l, r).l;
            |l'.tokens| >= 2 && l'.tokens[0] == l.tokens[0] && DecodeAtom(l.buffer) == Ok(l'.tokens[1])
  {
    hide DecodeAtom, DecodeBrace;
  }

  /** The first expression read is the first element of what is read. */
  lemma FirstRead(toks: seq<Token>, t: Names, v: Value)
    requires NoEnd(toks) && toks != [] && TakeTokens(toks, None, t, []).exprs == [v]
             && TakeTokens(toks, None, t, []).err.None?
    ensures TakeExpression(toks, None, t).res == Ok(v)
  {
    hide TakeExpression;
    var e := TakeExpression(toks, None, t);
    assert e.res.Ok?;
    assert [] + [e.res.value] == [e.res.value];
    MoreTokens(e.toks, None, e.t, [e.res.value]);
    assert TakeTokens(e.toks, None, e.t, [e.res.value]).exprs == [v];
    hide TakeTokens;
    assert [e.res.value][0] == [v][0];
  }

  predicate Flat(v: Value) {
    !v.Null? && !v.Pair? && !v.Arr? && !v.Str?
  }

  lemma AtomKinds(atom: string, t: Names)
    requires DecodeAtom(atom).Ok? && atom != "" && atom[0] in "([\""
    ensures var r := Atom(DecodeAtom(atom).value, t).1;
            r.Ok? ==> Flat(r.value)
  {
    hide DecimalRegex, HexRegex, OctRegex, BinaryRegex, FloatRegex, SymbolRegex, CharRegex, DecodeChar, ParseInt;
  }

  /** What a tilde reads as when an atom beginning with `c` follows it. */
  lemma TildeTaken(toks: seq<Token>, c: char, t: Names)
    requires AtomNext(toks, c) && c in "([\""
    ensures var e := TakeExpression(toks, None, t);
            e.res.Ok? ==> e.res.value.Pair? && e.res.value.tail.Pair? && Flat(e.res.value.tail.head)
  {
    hide Atom, DecodeAtom, Intern;
    var rest := toks[1..];
    if rest == [] {
      NothingLeft(None, t);
    } else {
      var atom :| atom != "" && atom[0] == c && DecodeAtom(atom) == Ok(toks[1]);
      DecodedAtom(atom);
      AtomKinds(atom, t);
      TakeAtom(toks[1], rest[1..], None, t);
      assert rest == [toks[1]] + rest[1..];
    }
    var e := TakeExpression(rest, None, t);
    assert TakeExpression(toks, None, t).res ==
      if e.res.Err? then e.res else Ok(Prefixed(e.t, "unquote", e.res.value).1);
    hide TakeExpression;
    if e.res.Ok? {
      TwoList(Sym(Intern(e.t, "unquote").1), e.res.value);
    }
  }

  lemma TwoList(a: Value, b: Value)
    ensures MakeList([a, b]) == Pair(a, Pair(b, Null))
  {
    assert [a, b][1..] == [b] && [b][1..] == [];
    assert MakeList([b]) == Pair(b, MakeList([]));
  }

  lemma OpensWith(v: Value, t: Names, tables: char -> bool)
    requires Readable(v, t, tables)
    ensures SexpString(v, tables) != ""
    ensures !Buffered(v) ==> SexpString(v, tables)[0] in "([\"" && (v.Null? || v.Pair? || v.Arr? || v.Str?)
  {
    hide Plain, DecodeAtom, PairString, ItemsString, QuoteBody;
    if Buffered(v) {
      AtomText(v, t, tables);
    }
  }

  /** A tilde before a value that opens with a bracket or a quotation mark never reads as
      that value unquoted. */
  lemma TildeFails(v: Value, t: Names, tables: char -> bool)
    requires Readable(v, t, tables) && !Buffered(v)
    ensures var (t', s) := Intern(t, "unquote");
            ReadProgram("~" + SexpString(v, tables), t) != Program([MakeList([Sym(s), v])], t', None)
  {
    hide SexpString, Readable, Rest, ReadProgram, TakeTokens, Intern, DecodeAtom, Feed, AtomNext;
    var s, l := SexpString(v, tables), NewLex("");
    var text := "~" + s;
    OpensWith(v, t, tables);
    var l1 := Give(l, [Tok(TokenTilde)]).(buffer := [s[0]]);
    TildeRest(s);
    FirstAtom(l1.(stream := s[1..]));
    assert [] + [Tok(TokenTilde)] == [Tok(TokenTilde)];
    var toks := Rest(NewLex(text)).0;
    assert AtomNext(toks, s[0]);
    TildeTaken(toks, s[0], t);
    ReadsInTwoPhases(text, t);
    var e := MakeList([Sym(Intern(t, "unquote").1), v]);
    TwoList(Sym(Intern(t, "unquote").1), v);
    if ReadProgram(text, t) == Program([e], Intern(t, "unquote").0, None) {
      StopFails'(text, t);
      RestNoEnd(NewLex(text));
      NotEmpty(toks, s[0]);
      FirstRead(toks, t, e);
      assert false;
    }
  }

  lemma NotEmpty(toks: seq<Token>, c: char)
    requires AtomNext(toks, c)
    ensures toks != []
  {
  }

  lemma TildeRest(s: string)
    requires s != "" && s[0] != '@'
    ensures Rest(NewLex("~" + s)) == Rest(Give(NewLex(""), [Tok(TokenTilde)]).(buffer := [s[0]]).(stream := s[1..]))
  {
    hide Rest, Feed;
    var l := NewLex("");
    var l1 := Give(l, [Tok(TokenTilde)]).(buffer := [s[0]]);
    FeedTilde(l, [s[0]]);
    FeedEmpty(l1);
    assert [s[0]][1..] == "" && "~" + s == "~" + [s[0]] + s[1..];
    RestFeed(l, "~" + [s[0]], s[1..]);
    assert l.(stream := "~" + s) == NewLex("~" + s);
  }

  lemma TildeReads(v: Value, t: Names, tables: char -> bool)
    requires Readable(v, t, tables) && Buffered(v) && SexpString(v, tables) != "" && SexpString(v, tables)[0] != '@'
    ensures var (t', s) := Intern(t, "unquote");
            ReadProgram("~" + SexpString(v, tables), t) == Program([MakeList([Sym(s), v])], t', None)
  {
    hide SexpString, Readable, Rest, ReadProgram, TakeTokens, TakeExpression, Intern, DecodeAtom, Feed, Plain, Tokens;
    var s := SexpString(v, tables);
    var text, l1 := "~" + s, Give(NewLex(""), [Tok(TokenTilde)]).(buffer := [s[0]]);
    AtomText(v, t, tables);
    TildeRest(s);
    PlainTail(s);
    FeedPlain(l1, s[1..]);
    RestFeed(l1, s[1..], "");
    assert s[1..] + "" == s[1..] && [s[0]] + s[1..] == s;
    BufferRest(Give(NewLex(""), [Tok(TokenTilde)]), s);
    assert [] + [Tok(TokenTilde)] == [Tok(TokenTilde)];
    ReadsInTwoPhases(text, t);
    PrefixTaken(TokenTilde, v, t, tables);
  }

  lemma PlainTail(s: string)
    requires s != "" && Plain(s)
    ensures Plain(s[1..])
  {
  }

  lemma BufferRest(l: Lex, s: string)
    requires l.stream == "" && s != "" && DecodeAtom(s).Ok?
    ensures Rest(l.(buffer := s)) == (l.tokens + [DecodeAtom(s).value], None)
  {
    hide DecodeAtom;
  }

  /** A tilde before a printed value reads as that value unquoted if and only if the value
      prints as an atom that does not begin with `@`. */
  lemma TildeExact(v: Value, t: Names, tables: char -> bool)
    requires Readable(v, t, tables)
    ensures SexpString(v, tables) != ""
    ensures var (t', s) := Intern(t, "unquote");
            ReadProgram("~" + SexpString(v, tables), t) == Program([MakeList([Sym(s), v])], t', None)
            <==> Buffered(v) && SexpString(v, tables)[0] != '@'
  {
    hide SexpString, Readable, ReadProgram, Intern;
    OpensWith(v, t, tables);
    if !Buffered(v) {
      TildeFails(v, t, tables);
    } else if SexpString(v, tables)[0] != '@' {
      TildeReads(v, t, tables);
    } else {
      SplicingInstead(SexpString(v, tables), v, t);
    }
  }

  lemma SplicingInstead(s: string, v: Value, t: Names)
    requires s != "" && s[0] == '@'
    ensures ReadProgram("~" + s, t) != Program([MakeList([Sym(Intern(t, "unquote").1), v])], Intern(t, "unquote").0,
            None)
  {
    hide Rest, ReadProgram, TakeTokens, Feed, TakeExpression;
    var text, l := "~" + s, NewLex("");
    FeedPrefix(l, TokenTildeAt);
    assert text == "~@" + s[1..] && l.(stream := text) == NewLex(text);
    RestFeed(l, "~@", s[1..]);
    var l1 := l.(stream := s[1..]);
    assert [] + [Tok(TokenTildeAt)] == [Tok(TokenTildeAt)] && [Tok(TokenTildeAt)] + [] == [Tok(TokenTildeAt)];
    RestBefore([Tok(TokenTildeAt)], l1);
    var toks := Rest(NewLex(text)).0;
    assert toks[0] == Tok(TokenTildeAt);
    ReadsInTwoPhases(text, t);
    var e := MakeList([Sym(Intern(t, "unquote").1), v]);
    if ReadProgram(text, t) == Program([e], Intern(t, "unquote").0, None) {
      StopFails'(text, t);
      RestNoEnd(NewLex(text));
      FirstRead(toks, t, e);
      SplicingValue(toks, t);
      assert false;
    }
  }

  lemma SplicingValue(toks: seq<Token>, t: Names)
    requires toks != [] && toks[0] == Tok(TokenTildeAt)
    ensures var e := TakeExpression(toks, None, t);
            e.res.Ok? ==> e.res.value.Pair? && e.res.value.head.Sym? && e.res.value.head.sym.name == "unquote-splicing"
  {
    var e := TakeExpression(toks[1..], None, t);
    assert TakeExpression(toks, None, t).res ==
      if e.res.Err? then e.res else Ok(Prefixed(e.t, "unquote-splicing", e.res.value).1);
    hide TakeExpression;
    if e.res.Ok? {
      TwoList(Sym(Intern(e.t, "unquote-splicing").1), e.res.value);
    }
  }

  // ---------- numbers in other bases ----------

  predicate DigitOf(c: char, base: nat) {
    HexDigit(c) && !Special(c) && c != '-' && (base == 8 ==> '0' <= c <= '7') && (base == 2 ==> '0' <= c <= '1')
  }

  function BasePrefix(base: nat): string {
    if base == 16 then "0x" else if base == 8 then "0o" else "0b"
  }

  lemma NumeralAtom(s: string, base: nat)
    requires base in {2, 8, 16} && s != "" && forall i | 0 <= i < |s| :: DigitOf(s[i], base)
    ensures var a := BasePrefix(base) + s;
            Plain(a) && DecodeAtom(a) == Ok(Token(if base == 16 then TokenHex else if base == 8 then TokenOct
                else TokenBinary, s))
  {
    var a := BasePrefix(base) + s;
    NumeralShape(s, base);
    hide FloatRegex, SymbolRegex, CharRegex, DecodeChar, DecimalRegex, HexRegex, OctRegex, BinaryRegex, Plain, DigitOf;
    assert a[0] == '0' && a[2..] == s;
  }

  lemma NumeralShape(s: string, base: nat)
    requires base in {2, 8, 16} && s != "" && forall i | 0 <= i < |s| :: DigitOf(s[i], base)
    ensures var a := BasePrefix(base) + s;
            && Plain(a) && !DecimalRegex(a) && (base == 16 <==> HexRegex(a)) && (base == 8 <==> OctRegex(a))
            && (base == 2 <==> BinaryRegex(a))
  {
    var a := BasePrefix(base) + s;
    assert a[..2] == BasePrefix(base) && a[0] == '0' && a[1] in "xob";
    assert forall i | 2 <= i < |a| :: a[i] == s[i - 2] && DigitOf(a[i], base);
    assert a[..2][1] == a[1];
    assert Unsigned(a) == a && !DecimalRegex(a);
  }

  /** A string of digits in base 16, 8 or 2, in either case and with any number of leading
      zeros, reads as its positional value if that is below 2 to the 63, and is an error
      otherwise. */
  lemma NumeralExact(s: string, base: nat, t: Names)
    requires base in {2, 8, 16} && s != "" && forall i | 0 <= i < |s| :: DigitOf(s[i], base)
    ensures var n := DigitsValue(s, base);
            var p := ReadProgram(BasePrefix(base) + s, t);
            if n < TWO63 then p == Program([Int(n)], t, None) else p.exprs == [] && p.err.Some?
  {
    hide DecodeAtom, Plain, ReadProgram, DigitsValue, DigitOf;
    NumeralAtom(s, base);
    NotNegative(s, base);
    var tok := DecodeAtom(BasePrefix(base) + s).value;
    OneAtom(BasePrefix(base) + s, tok, t);
    assert s[0] != '-' by {
      NoSign(s[0], base);
    }
    if DigitsValue(s, base) < TWO63 {
      assert Atom(tok, t) == (t, Ok(Int(DigitsValue(s, base))));
      OneToken(tok, DigitsValue(s, base), t);
    } else {
      assert Atom(tok, t) == (t, Err(OutOfRange));
      BadToken(tok, t);
    }
  }

  lemma NoSign(c: char, base: nat)
    requires DigitOf(c, base)
    ensures c != '-'
  {
  }

  /** A text that is one atom. */
  lemma OneAtom(text: string, tok: Token, t: Names)
    requires Plain(text) && text != "" && DecodeAtom(text) == Ok(tok)
    ensures var p, q := ReadProgram(text, t), TakeTokens([tok], None, t, []);
            p.exprs == q.exprs && (p.err.Some? <==> q.err.Some?) && (p.err.None? ==> p == q)
  {
    hide DecodeAtom, Plain, Rest, ReadProgram;
    PlainText(text);
    ReadsInTwoPhases(text, t);
  }

  lemma {:induction false} NotNegative(s: string, base: nat)
    requires forall i | 0 <= i < |s| :: DigitOf(s[i], base)
    ensures DigitsValue(s, base) >= 0
  {
    if s != "" {
      var n := |s| - 1;
      NotNegative(s[..n], base);
      assert DigitOf(s[n], base);
      assert DigitValue(s[n]) >= 0;
      NoLess(DigitsValue(s[..n], base), base);
    }
  }

  lemma NoLess(x: int, base: nat)
    requires x >= 0
    ensures x * base >= 0
  {
  }

  lemma BadToken(tok: Token, t: Names)
    requires tok.typ in {TokenHex, TokenOct, TokenBinary} && Atom(tok, t) == (t, Err(OutOfRange))
    ensures TakeTokens([tok], None, t, []) == Program([], t, Some(OutOfRange))
  {
    hide Atom;
    TakeAtom(tok, [], None, t);
    assert [tok] + [] == [tok];
    hide TakeExpression;
  }

  lemma OneToken(tok: Token, n: int, t: Names)
    requires tok.typ in {TokenHex, TokenOct, TokenBinary} && Atom(tok, t) == (t, Ok(Int(n)))
    ensures TakeTokens([tok], None, t, []) == Program([Int(n)], t, None)
  {
    hide Atom;
    var none: seq<Value> := [];
    TakeAtom(tok, [], None, t);
    assert [tok] + [] == [tok];
    NothingLeft(None, t);
    hide TakeExpression;
    assert TakeTokens([], None, t, [Int(n)]) == Program([Int(n)], t, None);
    assert none + [Int(n)] == [Int(n)];
  }

  // ---------- escapes and the empty list ----------

  /** What the reader makes of each letter behind a backslash. */
  const ESCAPES: map<char, char> :=
    map['n' := '\n', 'r' := '\r', 'a' := '\U{7}', 't' := '\t', '\\' := '\\', '"' := '"', '\'' := '\'',
        '#' := '#']

  lemma LexEscaped(l: Lex, r: char)
    requires Ready(l) && l.stream == "\"\\" + [r] + "\""
    ensures r in ESCAPES ==> Rest(l) == (l.tokens + [Token(TokenString, [ESCAPES[r]])], None)
    ensures r !in ESCAPES ==> Rest(l) == (l.tokens, Some(InvalidEscape))
  {
    var s := l.stream;
    var s1, s2, s3 := s[1..], s[1..][1..], s[1..][1..][1..];
    assert s == "\"\\" + [r] + "\"" && s1 == "\\" + [r] + "\"" && s2 == [r] + "\"" && s3 == "\"" && s3[1..] == "";
    var l1 := l.(state := LexerStrEscaped, stream := s2);
    assert Rest(l) == Rest(l1) by {
      assert LexNextRune(l.(stream := s1), '"') == Answer(l.(state := LexerStrLit, stream := s1), Ok(()));
      assert LexNextRune(l.(state := LexerStrLit, stream := s2), '\\') == Answer(l1, Ok(()));
      hide LexNextRune, DumpBuffer;
    }
    EscapesKnown(r);
    hide EscapeChar;
    if r in ESCAPES {
      var l2 := l.(state := LexerStrLit, stream := s3, buffer := [ESCAPES[r]]);
      assert LexNextRune(l1.(stream := s3), r) == Answer(l2, Ok(()));
      assert LexNextRune(l2.(stream := ""), '"')
          == Answer(Add(l.(stream := ""), Token(TokenString, [ESCAPES[r]])), Ok(()));
      assert Rest(l1) == Rest(l2) by {
        hide LexNextRune, DumpBuffer;
      }
      assert Rest(l2) == Rest(Add(l.(stream := ""), Token(TokenString, [ESCAPES[r]]))) by {
        hide LexNextRune, DumpBuffer;
      }
    } else {
      assert LexNextRune(l1.(stream := s3), r) == Answer(l1.(stream := s3), Err(InvalidEscape));
    }
  }

  lemma EscapesKnown(r: char)
    ensures EscapeChar(r) == if r in ESCAPES then Ok(ESCAPES[r]) else Err(InvalidEscape)
  {
  }

  /** In a string a backslash and one of eight letters read as one rune; any other rune
      behind a backslash is an error. */
  lemma EscapeReads(r: char, t: Names)
    ensures var p := ReadProgram("\"\\" + [r] + "\"", t);
            if r in ESCAPES then p == Program([Str([ESCAPES[r]])], t, None) else p.exprs == [] && p.err.Some?
  {
    var text := "\"\\" + [r] + "\"";
    LexEscaped(NewLex(text), r);
    ReadsInTwoPhases(text, t);
    hide Rest, ReadProgram;
    NothingLeft(Some(InvalidEscape), t);
    if r in ESCAPES {
      var tok, v := Token(TokenString, [ESCAPES[r]]), Str([ESCAPES[r]]);
      assert [] + [tok] == [tok];
      ReadsAs(tok, v, t);
    }
  }

  /** A token that is a value by itself. */
  lemma ReadsAs(tok: Token, v: Value, t: Names)
    requires tok.typ in {TokenNil, TokenBool, TokenString} && Atom(tok, t) == (t, Ok(v)) && !v.End?
    ensures TakeTokens([tok], None, t, []) == Program([v], t, None)
  {
    hide Atom;
    var none: seq<Value> := [];
    TakeAtom(tok, [], None, t);
    assert [tok] + [] == [tok] && none + [v] == [v];
    NothingLeft(None, t);
    hide TakeExpression;
    assert TakeTokens([], None, t, [v]) == Program([v], t, None);
  }

  /** The three words that are no symbols, and the empty list. */
  lemma WordsRead(t: Names)
    ensures ReadProgram("nil", t) == Program([Null], t, None)
    ensures ReadProgram("true", t) == Program([Bool(true)], t, None)
    ensures ReadProgram("false", t) == Program([Bool(false)], t, None)
  {
    hide ReadProgram, Plain, DecodeAtom;
    var n, y, f := Token(TokenNil, "nil"), Token(TokenBool, "true"), Token(TokenBool, "false");
    WordAtoms();
    OneAtom("nil", n, t);
    OneAtom("true", y, t);
    OneAtom("false", f, t);
    ReadsAs(n, Null, t);
    ReadsAs(y, Bool(true), t);
    ReadsAs(f, Bool(false), t);
  }

  lemma WordAtoms()
    ensures Plain("nil") && DecodeAtom("nil") == Ok(Token(TokenNil, "nil"))
    ensures Plain("true") && DecodeAtom("true") == Ok(Token(TokenBool, "true"))
    ensures Plain("false") && DecodeAtom("false") == Ok(Token(TokenBool, "false"))
  {
    hide DecimalRegex, HexRegex, OctRegex, BinaryRegex, FloatRegex, SymbolRegex, CharRegex, DecodeChar;
  }

  /** The quoting marks may not stand inside an atom: each is an error of its own there, and
      nothing is consumed. */
  lemma MarksInAtoms(l: Lex)
    requires l.state == LexerNormal && l.buffer != ""
    ensures LexNextRune(l, '"') == LexNextRune(l, '\'') == Answer(l, Err(UnexpectedQuote))
    ensures LexNextRune(l, '`') == Answer(l, Err(UnexpectedBacktick))
    ensures LexNextRune(l, '~') == Answer(l, Err(UnexpectedTilde))
  {
  }
}
