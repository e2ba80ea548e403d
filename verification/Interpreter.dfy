/** From text to value: reading, compiling and running together. */
module Interpreter {
  import opened Sexps
  import opened Instructions
  import opened Symbols
  import opened Machines
  import opened Evaluator
  import opened Translation
  import opened Policies
  import opened Regularity
  import opened Loading
  import opened Programs
  import Parsing
  import Printing

  /** `EvalString` on the text of a program. */
  function EvalText(k: nat, m: Machine, text: string, t: Names): Option<(Value, Machine)> {
    var p := Parsing.ReadProgram(text, t);
    if p.err.Some? then None else EvalString(k, m, p.exprs)
  }

  /** A program that was printed, in whatever way its expressions were obtained, and is read
      back, compiled and run has the value that the language gives the expressions. */
  lemma PrintedProgramRuns(fuel: nat, es: seq<Source>, t: Names, tables: char -> bool, sc: Scopes, loops: Loops,
                           m: Machine)
    returns (k: nat, m': Machine)
    requires forall i | 0 <= i < |es| :: Printing.Readable(es[i], t, tables)
    requires Waiting(m, sc, loops) && CarefulText(m.host, es, loops) && EvalBegin(fuel, es, Free(sc)).Val?
    ensures var r := EvalBegin(fuel, es, Free(sc));
            && EvalText(k, m, Printing.ItemsString(es, tables), t) == Some((TrVal(m.host.arr, r.v), m'))
            && Idle(m', r.sc.(ok := sc.ok))
  {
    hide Idle, EvalBegin, EvalString, TrVal, Printing.Readable, Parsing.ReadProgram, Printing.ItemsString;
    hide CarefulText, SaneTop, Table;
    Printing.RoundTrip(es, t, tables);
    k, m' := TextCorrect(fuel, es, sc, loops, m);
  }
}
