/**
  The complex-Boolean state machine of `_Halting_Machine_/h.py`.

  A complex Boolean is a pair of Boolean components `p` and `q` together with
  the connective written between them. Read as a point of the plane, the four
  component pairs are the complex units: T∧T is 1 (real True), F∧T is i
  (imaginary True), F∧F is -1 (real False) and T∧F is -i (imaginary False).
  Three operations move between these states; the coin flip runs a fixed
  schedule of them.
 */
module ComplexLogic {
  import opened Wrappers

  /** A complex Boolean. The connective is free text, as in the script: the
      operations only ever produce "and" or "or", but a caller may pass any
      string. */
  datatype State = State(p: bool, q: bool, operator: string)

  const And: string := "and"
  const Or: string := "or"

  /** The names of the three operations. */
  const INegation: string := "inegation"
  const IRotation: string := "irotation"
  const Negation: string := "negation"

  predicate IsOperation(operation: string) {
    operation == INegation || operation == IRotation || operation == Negation
  }

  /** The connective after any operation: "and" becomes "or", and every other
      string, "or" included, becomes "and". */
  function SwapOperator(operator: string): (r: string)
    ensures r == And || r == Or
    ensures r != operator
    ensures r == Or <==> operator == And
  {
    if operator == And then Or else And
  }

  /** One step of the machine (`complex_logic`). `inegation` keeps both
      components, `irotation` negates `p` only, `negation` negates both; each
      swaps the connective. Any other operation name gives no state. */
  function Apply(s: State, operation: string): (r: Option<State>)
    ensures r.Some? <==> IsOperation(operation)
    ensures r.Some? ==> (r.value.p != s.p <==> operation != INegation)
    ensures r.Some? ==> (r.value.q != s.q <==> operation == Negation)
    ensures r.Some? ==> r.value.operator == SwapOperator(s.operator)
  {
    if operation == INegation then Some(State(s.p, s.q, SwapOperator(s.operator)))
    else if operation == IRotation then Some(State(!s.p, s.q, SwapOperator(s.operator)))
    else if operation == Negation then Some(State(!s.p, !s.q, SwapOperator(s.operator)))
    else None
  }

  /** Applying a known operation twice gives back the starting state exactly
      when the connective is already "and" or "or"; any other connective comes
      back as "or". */
  lemma ApplyTwiceRestores(s: State, operation: string)
    requires IsOperation(operation)
    ensures Apply(s, operation).Some? && Apply(Apply(s, operation).value, operation).Some?
    ensures var t := Apply(Apply(s, operation).value, operation).value;
      t.p == s.p && t.q == s.q &&
      (t == s <==> s.operator == And || s.operator == Or) &&
      (s.operator != And ==> t.operator == Or)
  {
  }

  /** The states visited when the operations are applied in turn, each fed
      the previous result; `None` as soon as one of them is unknown. */
  function Run(s: State, operations: seq<string>): (r: Option<State>)
    ensures r.Some? <==> forall i :: 0 <= i < |operations| ==> IsOperation(operations[i])
    decreases |operations|
  {
    if operations == [] then Some(s)
    else match Apply(s, operations[0])
      case None => None
      case Some(t) => Run(t, operations[1..])
  }

  /** How many entries of `operations` are `operation`. */
  function CountOf(operations: seq<string>, operation: string): (n: nat)
    ensures n <= |operations|
  {
    if operations == [] then 0
    else (if operations[0] == operation then 1 else 0) + CountOf(operations[1..], operation)
  }

  predicate Odd(n: nat) {
    n % 2 == 1
  }

  /** After a run, `p` has been negated once per operation other than
      `inegation`, `q` once per `negation`, and the connective once per
      operation: it is "and" or "or" after at least one step, and a connective
      that starts as "and" or "or" is back after an even number of steps. */
  lemma {:induction false} RunFlips(s: State, operations: seq<string>)
    requires Run(s, operations).Some?
    ensures var t := Run(s, operations).value;
      && t.p == (s.p != Odd(|operations| - CountOf(operations, INegation)))
      && t.q == (s.q != Odd(CountOf(operations, Negation)))
      && (|operations| > 0 ==> t.operator == And || t.operator == Or)
      && ((s.operator == And || s.operator == Or) ==>
            t.operator == if Odd(|operations|) then SwapOperator(s.operator) else s.operator)
    decreases |operations|
  {
    if operations != [] {
      var t := Apply(s, operations[0]).value;
      RunFlips(t, operations[1..]);
      if |operations[1..]| > 0 {
        assert Run(t, operations[1..]).value.operator in {And, Or};
      }
    }
  }

  /** The schedule of `complex_coinflip`. */
  const Schedule: seq<string> :=
    [INegation, IRotation, Negation, IRotation, INegation, IRotation, Negation, IRotation]

  /** The schedule flips `p` six times, `q` twice and the connective eight
      times, so it returns to its start exactly when the connective starts as
      "and" or "or". */
  lemma ScheduleReturns(s: State)
    ensures Run(s, Schedule).Some?
    ensures Run(s, Schedule) == Some(s) <==> s.operator == And || s.operator == Or
  {
    assert forall i :: 0 <= i < |Schedule| ==> IsOperation(Schedule[i]);
    assert Schedule[8..] == [];
    assert Schedule[7..][1..] == Schedule[8..];
    assert CountOf(Schedule[7..], INegation) == 0 && CountOf(Schedule[7..], Negation) == 0;
    assert Schedule[6..][1..] == Schedule[7..];
    assert CountOf(Schedule[6..], INegation) == 0 && CountOf(Schedule[6..], Negation) == 1;
    assert Schedule[5..][1..] == Schedule[6..];
    assert CountOf(Schedule[5..], INegation) == 0 && CountOf(Schedule[5..], Negation) == 1;
    assert Schedule[4..][1..] == Schedule[5..];
    assert CountOf(Schedule[4..], INegation) == 1 && CountOf(Schedule[4..], Negation) == 1;
    assert Schedule[3..][1..] == Schedule[4..];
    assert CountOf(Schedule[3..], INegation) == 1 && CountOf(Schedule[3..], Negation) == 1;
    assert Schedule[2..][1..] == Schedule[3..];
    assert CountOf(Schedule[2..], INegation) == 1 && CountOf(Schedule[2..], Negation) == 2;
    assert Schedule[1..][1..] == Schedule[2..];
    assert CountOf(Schedule[1..], INegation) == 1 && CountOf(Schedule[1..], Negation) == 2;
    assert Schedule[0..][1..] == Schedule[1..];
    assert CountOf(Schedule[0..], INegation) == 2 && CountOf(Schedule[0..], Negation) == 2;
    assert Schedule[0..] == Schedule;
    RunFlips(s, Schedule);
  }

  /** The four complex units a state's components stand for. */
  datatype Unit = RealTrue | ImaginaryTrue | RealFalse | ImaginaryFalse

  function UnitOf(s: State): Unit {
    if s.p && s.q then RealTrue
    else if !s.p && s.q then ImaginaryTrue
    else if !s.p then RealFalse
    else ImaginaryFalse
  }

  /** Each step of `trace` is the schedule's operation applied to the one before. */
  ghost predicate FollowsSchedule(trace: seq<State>) {
    && |trace| == |Schedule| + 1
    && forall i :: 0 <= i < |Schedule| ==> Apply(trace[i], Schedule[i]) == Some(trace[i + 1])
  }

  /** A trace that follows the schedule ends where the schedule's run ends. */
  lemma {:induction false} StepsAreRun(trace: seq<State>, operations: seq<string>)
    requires |trace| == |operations| + 1
    requires forall i :: 0 <= i < |operations| ==> Apply(trace[i], operations[i]) == Some(trace[i + 1])
    ensures Run(trace[0], operations) == Some(trace[|operations|])
    decreases |operations|
  {
    if operations != [] {
      StepsAreRun(trace[1..], operations[1..]);
    }
  }

  /** Every second state of a scheduled trace, from the start, is a different
      complex unit: the coin flip passes through all four. Starting from
      T∧T it turns 1, i, -1, -i and back to 1. */
  lemma {:induction false} ScheduleVisitsAllUnits(trace: seq<State>)
    requires FollowsSchedule(trace)
    ensures {UnitOf(trace[0]), UnitOf(trace[2]), UnitOf(trace[4]), UnitOf(trace[6])}
         == {RealTrue, ImaginaryTrue, RealFalse, ImaginaryFalse}
    ensures trace[0].p && trace[0].q ==>
      [UnitOf(trace[0]), UnitOf(trace[2]), UnitOf(trace[4]), UnitOf(trace[6]), UnitOf(trace[8])]
        == [RealTrue, ImaginaryTrue, RealFalse, ImaginaryFalse, RealTrue]
  {
    var p, q := trace[0].p, trace[0].q;
    assert Apply(trace[0], Schedule[0]) == Some(trace[1]);
    assert Apply(trace[1], Schedule[1]) == Some(trace[2]);
    assert trace[2].p == !p && trace[2].q == q;
    assert Apply(trace[2], Schedule[2]) == Some(trace[3]);
    assert Apply(trace[3], Schedule[3]) == Some(trace[4]);
    assert trace[4].p == !p && trace[4].q == !q;
    assert Apply(trace[4], Schedule[4]) == Some(trace[5]);
    assert Apply(trace[5], Schedule[5]) == Some(trace[6]);
    assert trace[6].p == p && trace[6].q == !q;
    assert Apply(trace[6], Schedule[6]) == Some(trace[7]);
    assert Apply(trace[7], Schedule[7]) == Some(trace[8]);
    assert trace[8].p == p && trace[8].q == q;
  }

  /** The coin flip (`complex_coinflip`): starting from the two coins joined
      by "and", apply the schedule one operation at a time, each to the
      previous result. Both coins are true unless given. Returns the nine
      states it reports, the start first.
      Every step's operation is known, so no step fails, and the last state
      is the first one again. */
  method CoinFlip(coin1: bool := true, coin2: bool := true) returns (trace: seq<State>)
    ensures FollowsSchedule(trace)
    ensures trace[0] == State(coin1, coin2, And)
    ensures Run(trace[0], Schedule) == Some(trace[|Schedule|])
    ensures trace[|Schedule|] == trace[0]
    ensures {UnitOf(trace[0]), UnitOf(trace[2]), UnitOf(trace[4]), UnitOf(trace[6])}
         == {RealTrue, ImaginaryTrue, RealFalse, ImaginaryFalse}
  {
    var p, q, operator := coin1, coin2, And;
    trace := [State(p, q, operator)];
    for i := 0 to |Schedule|
      invariant |trace| == i + 1
      invariant trace[0] == State(coin1, coin2, And)
      invariant trace[i] == State(p, q, operator)
      invariant forall j :: 0 <= j < i ==> Apply(trace[j], Schedule[j]) == Some(trace[j + 1])
    {
      var result := Apply(State(p, q, operator), Schedule[i]);
      assert IsOperation(Schedule[i]);
      p, q, operator := result.value.p, result.value.q, result.value.operator;
      trace := trace + [State(p, q, operator)];
    }
    StepsAreRun(trace, Schedule);
    ScheduleReturns(trace[0]);
    ScheduleVisitsAllUnits(trace);
  }
}
