/** The text that values print as, character by character: which digits, which brackets and
    which escapes. */
module PrintedText {
  import opened Sexps
  import opened Instructions
  import opened Parsing
  import opened Printing

  // ---------- integers ----------

  /** `n` divided by `base`, `i` times. */
  function Shifted(n: int, base: int, i: nat): int
    requires base != 0
    decreases i
  {
    if i == 0 then n else Shifted(n / base, base, i - 1)
  }

  /** A number prints as all its decimal digits, those of the lower powers of ten further to
      the right, with no zero in front. */
  lemma {:induction false} DigitsExact(n: nat)
    ensures ItoaNat(n) != "" && (|ItoaNat(n)| > 1 ==> ItoaNat(n)[0] != '0')
    ensures forall i | 0 <= i < |ItoaNat(n)| ::
              ItoaNat(n)[|ItoaNat(n)| - 1 - i] as int == '0' as int + Shifted(n, 10, i) % 10
    ensures Shifted(n, 10, |ItoaNat(n)|) == 0
    decreases n
  {
    if n < 10 {
      assert Shifted(n / 10, 10, 0) == 0;
    } else {
      var s, front := ItoaNat(n), ItoaNat(n / 10);
      DigitsExact(n / 10);
      NoZero(n);
      forall i | 0 < i < |s| ensures s[|s| - 1 - i] as int == '0' as int + Shifted(n, 10, i) % 10 {
        assert s[|s| - 1 - i] == front[|front| - 1 - (i - 1)];
      }
    }
  }

  lemma {:induction false} NoZero(n: nat)
    requires n > 0
    ensures ItoaNat(n) != "" && ItoaNat(n)[0] != '0'
  {
    if n >= 10 {
      NoZero(n / 10);
    }
  }

  /** A negative number prints as a minus sign before the number without it. */
  lemma SignExact(n: int)
    ensures Itoa(n) == if n < 0 then "-" + ItoaNat(-n) else ItoaNat(n)
    ensures n < 0 <==> Itoa(n)[0] == '-'
  {
    DigitsExact(if n < 0 then -n else n);
    var s := ItoaNat(if n < 0 then -n else n);
    var k := |s| - 1;
    assert s[|s| - 1 - k] as int == '0' as int + Shifted(if n < 0 then -n else n, 10, k) % 10;
    assert s[0] >= '0';
  }

  // ---------- what the reader's digits are worth ----------

  function Pow(base: nat, n: nat): nat {
    if n == 0 then 1 else base * Pow(base, n - 1)
  }

  /** A string of digits is worth the sum of its digits, each times the base to the power of
      its place from the right. */
  lemma {:induction false} WorthExact(s: string, base: nat, i: nat)
    requires i <= |s|
    ensures DigitsValue(s, base) == DigitsValue(s[..i], base) * Pow(base, |s| - i) + DigitsValue(s[i..], base)
    decreases |s|
  {
    if i == |s| {
      assert s[..i] == s && s[i..] == "";
      assert Pow(base, 0) == 1;
    } else {
      var n := |s| - 1;
      var front := s[..n];
      WorthExact(front, base, i);
      assert front[..i] == s[..i] && s[i..][..|s[i..]| - 1] == front[i..] && s[i..][|s[i..]| - 1] == s[n];
      var a, p, b := DigitsValue(s[..i], base), Pow(base, n - i), DigitsValue(front[i..], base);
      assert DigitsValue(s, base) == (a * p + b) * base + DigitValue(s[n]);
      assert Pow(base, |s| - i) == base * p;
      Regroup(a, p, b, base);
    }
  }

  lemma Regroup(a: int, p: int, b: int, c: int)
    ensures (a * p + b) * c == a * (c * p) + b * c
  {
  }

  const DIGITS: string := "0123456789abcdef"

  lemma DigitWorth(d: nat, base: nat)
    requires d < 16
    ensures DigitsValue([DIGITS[d]], base) == d && DigitsValue(["0123456789ABCDEF"[d]], base) == d
  {
    var s, t := [DIGITS[d]], ["0123456789ABCDEF"[d]];
    assert s[..|s| - 1] == "" && t[..|t| - 1] == "" && DigitsValue("", base) == 0;
    assert DigitValue(DIGITS[d]) == d && DigitValue("0123456789ABCDEF"[d]) == d;
  }

  // ---------- strings ----------

  /** Hexadecimal digits in their places, as many as asked for. */
  lemma {:induction false} HexExact(n: nat, width: nat)
    ensures |Hex(n, width)| == width
    ensures forall i | 0 <= i < width :: Hex(n, width)[width - 1 - i] == DIGITS[Shifted(n, 16, i) % 16]
    decreases width
  {
    if width > 0 {
      var front := Hex(n / 16, width - 1);
      HexExact(n / 16, width - 1);
      forall i | 0 < i < width ensures Hex(n, width)[width - 1 - i] == DIGITS[Shifted(n, 16, i) % 16] {
        assert Hex(n, width)[width - 1 - i] == front[width - 2 - (i - 1)];
      }
    }
  }

  /** How one character prints inside a string: quotation mark and backslash behind a
      backslash, a printable character as itself, seven controls by a letter, and everything
      else by its number in two, four or eight hexadecimal digits. */
  lemma EscapesExact(c: char, tables: char -> bool)
    ensures Printable(c, tables) <==> 32 <= c as int <= 126 || (c as int >= 128 && tables(c))
    ensures var s, n := QuoteChar(c, '"', tables), c as int;
            && (c == '"' ==> s == "\\\"") && (c == '\\' ==> s == "\\\\")
            && (c != '"' && c != '\\' && Printable(c, tables) ==> s == [c])
            && (n == 7 ==> s == "\\a") && (n == 8 ==> s == "\\b") && (n == 9 ==> s == "\\t") && (n == 10 ==> s == "\\n")
            && (n == 11 ==> s == "\\v") && (n == 12 ==> s == "\\f") && (n == 13 ==> s == "\\r")
            && (!Printable(c, tables) && !(7 <= n <= 13) ==>
                  s == if n < 0x80 then "\\x" + Hex(n, 2) else if n < 0x10000 then "\\u" + Hex(n, 4)
                      else "\\U" + Hex(n, 8))
  {
  }

  /** A string prints its characters one after another between quotation marks. */
  lemma {:induction false} StringPrints(s: string, t: string, tables: char -> bool)
    ensures QuoteBody(s + t, tables) == QuoteBody(s, tables) + QuoteBody(t, tables)
    decreases |s|
  {
    hide QuoteChar;
    if s == "" {
      assert s + t == t;
    } else {
      assert (s + t)[1..] == s[1..] + t;
      StringPrints(s[1..], t, tables);
    }
  }

  lemma StringMarks(s: string, c: char, tables: char -> bool)
    ensures SexpString(Str(s), tables) == "\"" + QuoteBody(s, tables) + "\""
    ensures QuoteBody("", tables) == "" && QuoteBody([c], tables) == QuoteChar(c, '"', tables)
  {
    hide QuoteChar;
    assert [c][1..] == "";
    assert QuoteBody([c][1..], tables) == "";
  }

  /** No control character and nothing unprintable stands in the text of a string. */
  lemma {:induction false} StringIsPrintable(s: string, tables: char -> bool)
    ensures var text := SexpString(Str(s), tables);
            forall i | 0 <= i < |text| :: Printable(text[i], tables)
  {
    BodyIsPrintable(s, tables);
  }

  lemma {:induction false} BodyIsPrintable(s: string, tables: char -> bool)
    ensures forall i | 0 <= i < |QuoteBody(s, tables)| :: Printable(QuoteBody(s, tables)[i], tables)
    decreases |s|
  {
    if s != "" {
      CharIsPrintable(s[0], tables);
      BodyIsPrintable(s[1..], tables);
      hide QuoteChar, Printable;
    }
  }

  lemma CharIsPrintable(c: char, tables: char -> bool)
    ensures var q := QuoteChar(c, '"', tables); forall i | 0 <= i < |q| :: Printable(q[i], tables)
  {
    var n := c as int;
    if n < 0x110000 {
      HexIsPrintable(n, 2, tables);
      HexIsPrintable(n, 4, tables);
      HexIsPrintable(n, 8, tables);
    }
    hide Hex;
  }

  lemma {:induction false} HexIsPrintable(n: nat, width: nat, tables: char -> bool)
    ensures forall i | 0 <= i < |Hex(n, width)| :: Printable(Hex(n, width)[i], tables)
    decreases width
  {
    if width > 0 {
      HexIsPrintable(n / 16, width - 1, tables);
    }
  }

  // ---------- everything else ----------

  /** The values that print as fixed text, a symbol as its name, and a function by its name. */
  lemma ConstantsPrint(s: Symbol, f: Function, tables: char -> bool)
    ensures SexpString(Null, tables) == "()" && SexpString(Bool(true), tables) == "true"
    ensures SexpString(Bool(false), tables) == "false" && SexpString(Sym(s), tables) == s.name
    ensures SexpString(End, tables) == "End" && SexpString(Marker, tables) == "Marker"
    ensures SexpString(Fun(f), tables) == "fn [" + f.name + "]"
  {
  }

  /** A character prints behind a number sign; a printable one as itself, and the four
      controls that are read back by a letter behind a backslash. A number that is no
      character prints as the replacement character. */
  lemma CharactersPrint(c: int, tables: char -> bool)
    ensures 32 <= c < 127 && c != 39 && c != 92 ==> SexpString(Char(c), tables) == ['#', c as char]
    ensures (c < 0 || 0xD800 <= c < 0xE000 || 0x110000 <= c) && tables('\U{FFFD}') ==>
              SexpString(Char(c), tables) == ['#', '\U{FFFD}']
    ensures c == 7 ==> SexpString(Char(c), tables) == "#\\a"
    ensures c == 9 ==> SexpString(Char(c), tables) == "#\\t"
    ensures c == 10 ==> SexpString(Char(c), tables) == "#\\n"
    ensures c == 13 ==> SexpString(Char(c), tables) == "#\\r"
  {
    if 32 <= c < 127 && c != 39 && c != 92 {
      var r := c as char;
      assert QuoteChar(Rune(c), '\'', tables) == [r];
      TrimmedOne(r);
    } else if (c < 0 || 0xD800 <= c < 0xE000 || 0x110000 <= c) && tables('\U{FFFD}') {
      assert QuoteChar(Rune(c), '\'', tables) == ['\U{FFFD}'];
      TrimmedOne('\U{FFFD}');
    } else if c in {7, 9, 10, 13} {
      var r := if c == 7 then 'a' else if c == 9 then 't' else if c == 10 then 'n' else 'r';
      assert QuoteChar(Rune(c), '\'', tables) == ['\\', r];
      TrimmedTwo(r);
    }
  }

  lemma TrimmedOne(r: char)
    requires r != '\''
    ensures TrimRight(TrimLeft("'" + [r] + "'")) == [r]
  {
    var s := "'" + [r] + "'";
    assert s[1..] == [r] + "'" && TrimLeft([r] + "'") == [r] + "'";
    assert ([r] + "'")[..1] == [r] && TrimRight([r]) == [r];
  }

  lemma TrimmedTwo(r: char)
    requires r != '\''
    ensures TrimRight(TrimLeft("'" + ['\\', r] + "'")) == ['\\', r]
  {
    var s, t := "'" + ['\\', r] + "'", ['\\', r] + "'";
    assert s[1..] == t && TrimLeft(t) == t;
    assert t[..2] == ['\\', r] && TrimRight(['\\', r]) == ['\\', r];
  }

  /** Arrays stand in brackets and lists in parentheses, a pair whose tail is no list with a
      dot; the elements are separated by single spaces. */
  lemma {:induction false} ItemsPrint(vs: seq<Value>, ws: seq<Value>, tables: char -> bool)
    requires vs != [] && ws != []
    ensures ItemsString(vs + ws, tables) == ItemsString(vs, tables) + " " + ItemsString(ws, tables)
    decreases |vs|
  {
    hide SexpString;
    var all := vs + ws;
    if |vs| == 1 {
      assert all[1..] == ws;
    } else {
      assert all[1..] == vs[1..] + ws;
      ItemsPrint(vs[1..], ws, tables);
      var a, b, c := SexpString(vs[0], tables) + " ", ItemsString(vs[1..], tables), " " + ItemsString(ws, tables);
      assert a + (b + c) == a + b + c;
    }
  }

  lemma SequencesPrint(vs: seq<Value>, v: Value, w: Value, tables: char -> bool)
    ensures SexpString(Arr(vs), tables) == "[" + ItemsString(vs, tables) + "]"
    ensures vs != [] ==> SexpString(MakeList(vs), tables) == "(" + ItemsString(vs, tables) + ")"
    ensures ItemsString([], tables) == "" && ItemsString([v], tables) == SexpString(v, tables)
    ensures !w.Pair? && !w.Null? ==>
              SexpString(Pair(v, w), tables) == "(" + SexpString(v, tables) + " . " + SexpString(w, tables) + ")"
  {
    if vs != [] {
      ListPrints(vs, tables);
    }
    hide PairString;
    if !w.Pair? && !w.Null? {
      DottedPrints(v, w, tables);
    }
  }

  lemma DottedPrints(v: Value, w: Value, tables: char -> bool)
    requires !w.Pair? && !w.Null?
    ensures "(" + PairString(Pair(v, w), tables) == "(" + SexpString(v, tables) + " . " + SexpString(w, tables) + ")"
  {
    hide SexpString;
    var a, b := SexpString(v, tables), SexpString(w, tables);
    assert PairString(Pair(v, w), tables) == a + (" . " + b + ")");
    assert "(" + (a + (" . " + b + ")")) == "(" + a + " . " + b + ")";
  }

  lemma {:induction false} ListPrints(vs: seq<Value>, tables: char -> bool)
    requires vs != []
    ensures MakeList(vs).Pair? && "(" + PairString(MakeList(vs), tables) == "(" + ItemsString(vs, tables) + ")"
    ensures PairString(MakeList(vs), tables) == ItemsString(vs, tables) + ")"
    decreases |vs|
  {
    hide SexpString;
    if |vs| == 1 {
      assert vs[1..] == [] && MakeList(vs) == Pair(vs[0], Null);
    } else {
      ListPrints(vs[1..], tables);
      var a, b := SexpString(vs[0], tables) + " ", ItemsString(vs[1..], tables);
      assert MakeList(vs) == Pair(vs[0], MakeList(vs[1..]));
      assert PairString(MakeList(vs), tables) ==
             SexpString(vs[0], tables) + (" " + PairString(MakeList(vs[1..]), tables));
      assert ItemsString(vs, tables) == a + b;
      hide PairString, ItemsString, MakeList;
      assert a + (b + ")") == a + b + ")";
    }
  }
}
