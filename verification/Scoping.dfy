/** Symbol lookup and binding over a stack of scopes (scopes.go). The global scope, which
    every scope stack shares as its element 0, is kept apart from the local ones. */
module Scoping {
  import opened Sexps

  /** `lookupSymbol` below the global scope: the innermost frame binding `s` wins. */
  function LookupLocal<T>(frames: seq<map<int, T>>, s: int): Option<T> {
    if frames == [] then None
    else
      var top := frames[|frames| - 1];
      if s in top then Some(top[s]) else LookupLocal(frames[..|frames| - 1], s)
  }

  function Lookup<T>(glob: map<int, T>, frames: seq<map<int, T>>, s: int): Option<T> {
    match LookupLocal(frames, s)
    case Some(v) => Some(v)
    case None => if s in glob then Some(glob[s]) else None
  }

  /** A name has the value that the innermost scope binding it gives it: the local scopes
      from the last to the first, and then the global one. */
  lemma {:induction false} LookupLocalExact<T>(frames: seq<map<int, T>>, s: int, v: T)
    ensures LookupLocal(frames, s) == Some(v) <==>
            exists i | 0 <= i < |frames| ::
              s in frames[i] && frames[i][s] == v && forall j | i < j < |frames| :: s !in frames[j]
    ensures LookupLocal(frames, s) == None <==> forall i | 0 <= i < |frames| :: s !in frames[i]
  {
    if frames != [] {
      var n := |frames| - 1;
      LookupLocalExact(frames[..n], s, v);
      assert forall i | 0 <= i < n :: frames[..n][i] == frames[i];
    }
  }

  lemma LookupExact<T>(glob: map<int, T>, frames: seq<map<int, T>>, s: int, v: T)
    ensures Lookup(glob, frames, s) == Some(v) <==>
            || (exists i | 0 <= i < |frames| ::
                  s in frames[i] && frames[i][s] == v && forall j | i < j < |frames| :: s !in frames[j])
            || ((forall i | 0 <= i < |frames| :: s !in frames[i]) && s in glob && glob[s] == v)
  {
    LookupLocalExact(frames, s, v);
    hide LookupLocal;
  }

  /** What a name sees in a stack split in two: the upper frames first, then the lower. */
  lemma {:induction false} LookupAppend<T>(lower: seq<map<int, T>>, upper: seq<map<int, T>>, s: int)
    ensures LookupLocal(lower + upper, s) ==
            if LookupLocal(upper, s).Some? then LookupLocal(upper, s) else LookupLocal(lower, s)
  {
    if upper == [] {
      assert lower + upper == lower;
    } else {
      var n := |upper| - 1;
      assert (lower + upper)[..|lower| + n] == lower + upper[..n];
      LookupAppend(lower, upper[..n], s);
    }
  }

  /** All the local bindings visible from the innermost frame, as one frame. */
  function Visible<T>(frames: seq<map<int, T>>): map<int, T> {
    if frames == [] then map[] else Visible(frames[..|frames| - 1]) + frames[|frames| - 1]
  }

  lemma {:induction false} VisibleLookup<T>(frames: seq<map<int, T>>, s: int)
    ensures LookupLocal(frames, s) == if s in Visible(frames) then Some(Visible(frames)[s]) else None
  {
    if frames != [] {
      VisibleLookup(frames[..|frames| - 1], s);
    }
  }

  /** Binding a list of names from the last to the first, as a function's `put`s do. */
  function BindAll<T>(f: map<int, T>, names: seq<Symbol>, vals: seq<T>): map<int, T>
    requires |names| == |vals|
    decreases |names|
  {
    if names == [] then f
    else
      var n := |names| - 1;
      BindAll(f[names[n].num := vals[n]], names[..n], vals[..n])
  }

  function Nums(names: seq<Symbol>): set<int> {
    set i | 0 <= i < |names| :: names[i].num
  }

  lemma {:induction false} BindAllKeys<T>(f: map<int, T>, names: seq<Symbol>, vals: seq<T>)
    requires |names| == |vals|
    ensures BindAll(f, names, vals).Keys == f.Keys + Nums(names)
    decreases |names|
  {
    if names != [] {
      var n := |names| - 1;
      BindAllKeys(f[names[n].num := vals[n]], names[..n], vals[..n]);
      assert Nums(names) == Nums(names[..n]) + {names[n].num};
    }
  }

  /** Rebinding every name leaves nothing of what the names were bound to before. */
  lemma {:induction false} BindAllForgets<T>(f: map<int, T>, g: map<int, T>, names: seq<Symbol>, vals: seq<T>)
    requires |names| == |vals|
    requires f.Keys + Nums(names) == g.Keys + Nums(names)
    requires forall s | s in f && s in g && s !in Nums(names) :: f[s] == g[s]
    ensures BindAll(f, names, vals) == BindAll(g, names, vals)
    decreases |names|
  {
    if names == [] {
      assert Nums(names) == {};
      assert f.Keys == f.Keys + Nums(names) == g.Keys;
      forall s | s in f ensures f[s] == g[s] {
        assert s !in Nums(names);
      }
      assert f == g;
    } else {
      var n := |names| - 1;
      var f', g' := f[names[n].num := vals[n]], g[names[n].num := vals[n]];
      assert Nums(names) == Nums(names[..n]) + {names[n].num};
      assert f'.Keys + Nums(names[..n]) == f.Keys + Nums(names);
      assert g'.Keys + Nums(names[..n]) == g.Keys + Nums(names);
      BindAllForgets(f', g', names[..n], vals[..n]);
    }
  }

  /** A distinct parameter ends up bound to the argument in its own position. */
  lemma {:induction false} BindAllAt<T>(f: map<int, T>, names: seq<Symbol>, vals: seq<T>, i: nat)
    requires |names| == |vals| && i < |names|
    requires forall j | 0 <= j < i :: names[j].num != names[i].num
    ensures names[i].num in BindAll(f, names, vals)
    ensures BindAll(f, names, vals)[names[i].num] == vals[i]
    decreases |names|
  {
    var n := |names| - 1;
    if i == n {
      BindAllOther(f[names[n].num := vals[n]], names[..n], vals[..n], names[n].num);
    } else {
      BindAllAt(f[names[n].num := vals[n]], names[..n], vals[..n], i);
    }
  }

  lemma {:induction false} BindAllOther<T>(f: map<int, T>, names: seq<Symbol>, vals: seq<T>, s: int)
    requires |names| == |vals|
    requires forall j | 0 <= j < |names| :: names[j].num != s
    ensures s in BindAll(f, names, vals) <==> s in f
    ensures s in f ==> BindAll(f, names, vals)[s] == f[s]
    decreases |names|
  {
    if names != [] {
      var n := |names| - 1;
      BindAllOther(f[names[n].num := vals[n]], names[..n], vals[..n], s);
    }
  }
}
