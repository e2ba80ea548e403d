/** Interned symbols: `MakeSymbol` and the tables of an environment it works on. */
module Symbols {
  import opened Sexps

  /** `symtable`, `revsymtable` and `nextsymbol`. */
  datatype Names = Names(sym: map<string, int>, rev: map<int, string>, next: int)

  const NO_NAMES := Names(map[], map[], 1)

  /** The two tables are inverse to each other and number below `next`. */
  ghost predicate OneToOne(t: Names) {
    && (forall name | name in t.sym :: t.sym[name] < t.next && t.sym[name] in t.rev && t.rev[t.sym[name]] == name)
    && (forall n | n in t.rev :: t.rev[n] in t.sym && t.sym[t.rev[n]] == n)
  }

  function Intern(t: Names, name: string): (Names, Symbol) {
    if name in t.sym then (t, Symbol(name, t.sym[name]))
    else (Names(t.sym[name := t.next], t.rev[t.next := name], t.next + 1), Symbol(name, t.next))
  }

  /** `t'` numbers every name of `t` as `t` does. */
  ghost predicate Extends(t: Names, t': Names) {
    forall name | name in t.sym :: name in t'.sym && t'.sym[name] == t.sym[name]
  }

  predicate Interned(t: Names, s: Symbol) {
    s.name in t.sym && t.sym[s.name] == s.num
  }

  lemma MakeSymbolKeeps(t: Names, name: string)
    requires OneToOne(t)
    ensures OneToOne(Intern(t, name).0) && Extends(t, Intern(t, name).0)
    ensures Interned(Intern(t, name).0, Intern(t, name).1)
  {
  }

  /** The numbers in use are those from 1 up to `next`. */
  ghost predicate Dense(t: Names) {
    t.next >= 1 && forall n :: n in t.rev <==> 1 <= n < t.next
  }

  /** Names are numbered from 1 in the order in which they are first seen. */
  lemma NumbersDense(t: Names, name: string)
    requires Dense(t) && OneToOne(t)
    ensures Dense(NO_NAMES) && Dense(Intern(t, name).0)
    ensures Intern(t, name).1.name == name
    ensures if name in t.sym then Intern(t, name) == (t, Symbol(name, t.sym[name]))
            else Intern(t, name).1.num == t.next && Intern(t, name).0.next == t.next + 1
  {
  }

  /** Symbols made one after the other, with any number of others made in between, are the
      same exactly when their names are. */
  lemma SameSymbolSameName(t: Names, a: string, t': Names, b: string)
    requires OneToOne(t) && OneToOne(t') && Extends(Intern(t, a).0, t')
    ensures Intern(t, a).1.num == Intern(t', b).1.num <==> a == b
  {
    MakeSymbolKeeps(t, a);
    MakeSymbolKeeps(t', b);
  }

  class SymbolTable {
    var symtable: map<string, int>
    var revsymtable: map<int, string>
    var nextsymbol: int

    function Model(): Names
      reads this
    {
      Names(symtable, revsymtable, nextsymbol)
    }

    constructor ()
      ensures Model() == NO_NAMES && OneToOne(Model())
    {
      symtable, revsymtable, nextsymbol := map[], map[], 1;
    }

    method MakeSymbol(name: string) returns (symbol: Symbol)
      modifies this
      ensures (Model(), symbol) == Intern(old(Model()), name)
    {
      if name in symtable {
        return Symbol(name, symtable[name]);
      }
      symbol := Symbol(name, nextsymbol);
      symtable := symtable[name := symbol.num];
      revsymtable := revsymtable[symbol.num := name];
      nextsymbol := nextsymbol + 1;
    }
  }
}
