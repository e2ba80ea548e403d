/** The growable stack of stack.go and its data-stack view in datastack.go: `tos` indexes the
    top element of an array that is replaced by a longer one when it is full. */
module Stacks {
  import opened Sexps

  class Stack<T(0)> {
    var tos: int
    var elements: array<T>

    ghost predicate Valid()
      reads this
    {
      -1 <= tos < elements.Length
    }

    ghost function Contents(): (s: seq<T>)
      reads this, elements
      requires Valid()
      ensures |s| == tos + 1
    {
      elements[..tos + 1]
    }

    constructor (size: nat)
      ensures Valid() && Contents() == [] && elements.Length == size && fresh(elements)
    {
      tos := -1;
      elements := new T[size];
    }

    method Top() returns (n: int)
      requires Valid()
      ensures n == |Contents()| - 1
    {
      n := tos;
    }

    method IsEmpty() returns (b: bool)
      requires Valid()
      ensures b <==> Contents() == []
    {
      b := tos < 0;
    }

    method Push(elem: T)
      requires Valid()
      modifies this, elements
      ensures Valid() && Contents() == old(Contents()) + [elem]
      ensures elements == old(elements) || fresh(elements)
    {
      tos := tos + 1;
      if tos == elements.Length {
        // append: a longer array with the old elements
        var longer := new T[tos + 1];
        forall i | 0 <= i < tos {
          longer[i] := elements[i];
        }
        longer[tos] := elem;
        elements := longer;
      } else {
        elements[tos] := elem;
      }
    }

    /** The element `n` below the top. */
    method Get(n: nat) returns (r: Option<T>)
      requires Valid()
      ensures r == if n < |Contents()| then Some(Contents()[|Contents()| - 1 - n]) else None
    {
      if tos - n < 0 {
        return None;
      }
      r := Some(elements[tos - n]);
    }

    method Pop() returns (r: Option<T>)
      requires Valid()
      modifies this`tos
      ensures Valid()
      ensures old(Contents()) == [] ==> r == None && Contents() == []
      ensures old(Contents()) != [] ==>
                r == Some(old(Contents())[|old(Contents())| - 1])
                    && Contents() == old(Contents())[..|old(Contents())| - 1]
    {
      r := Get(0);
      if r.Some? {
        tos := tos - 1;
      }
    }

    method Clone() returns (ret: Stack<T>)
      requires Valid()
      ensures fresh(ret) && fresh(ret.elements) && ret.Valid() && ret.Contents() == Contents()
    {
      ret := new Stack(0);
      ret.tos := tos;
      ret.elements := new T[elements.Length];
      for i := 0 to elements.Length
        invariant fresh(ret) && fresh(ret.elements) && ret.elements.Length == elements.Length && ret.tos == tos
        invariant forall j | 0 <= j < i :: ret.elements[j] == elements[j]
        invariant unchanged(this) && unchanged(elements)
      {
        ret.elements[i] := elements[i];
      }
    }

    /** Pushes all the elements, in order, onto another stack. */
    method PushAllTo(target: Stack<T>) returns (n: int)
      requires Valid() && target.Valid() && target != this && target.elements != elements
      modifies target, target.elements
      ensures target.Valid() && target.Contents() == old(target.Contents()) + Contents() && n == |Contents()|
      ensures target.elements == old(target.elements) || fresh(target.elements)
    {
      if tos < 0 {
        return 0;
      }
      ghost var all := Contents();
      for i := 0 to tos + 1
        invariant Valid() && Contents() == all && unchanged(this) && unchanged(elements)
        invariant target.Valid() && (target.elements == old(target.elements) || fresh(target.elements))
        invariant target.elements != elements
        invariant target.Contents() == old(target.Contents()) + all[..i]
      {
        assert all[..i + 1] == all[..i] + [all[i]];
        target.Push(elements[i]);
      }
      n := tos + 1;
    }

    /** The topmost `n` elements, lowest first. */
    method GetExpressions(n: nat) returns (r: Option<seq<T>>)
      requires Valid()
      ensures r == if n <= |Contents()| then Some(Contents()[|Contents()| - n..]) else None
    {
      var start := tos - n + 1;
      if start < 0 {
        return None;
      }
      var arr: seq<T> := [];
      for i := 0 to n
        invariant arr == Contents()[start..start + i]
      {
        arr := arr + [elements[start + i]];
      }
      assert Contents()[start..start + n] == Contents()[start..];
      r := Some(arr);
    }

    method PopExpressions(n: nat) returns (r: Option<seq<T>>)
      requires Valid()
      modifies this`tos
      ensures Valid()
      ensures n > |old(Contents())| ==> r == None && Contents() == old(Contents())
      ensures n <= |old(Contents())| ==>
                var below := |old(Contents())| - n;
                r == Some(old(Contents())[below..]) && Contents() == old(Contents())[..below]
    {
      r := GetExpressions(n);
      if r.Some? {
        tos := tos - n;
      }
    }
  }
}
