/**
 Evaluation of side-effecting boolean predicates.

 Every predicate of the checker may print a notification while it is
 evaluated. Instead of printing, a predicate here returns an `Eval`: its
 boolean outcome together with the notifications it emitted, in order. The
 C# operators `&&` and `||` short-circuit, so the notifications of a right
 operand appear only when that operand is actually evaluated; `And`, `Or`
 and `All` make that observable.
 */
module Evaluation {

  /** The kinds of notification the checker can emit (the message texts are
      locale-dependent resources and are not part of the model). */
  datatype Msg =
    | TempOutOfRange
    | SocOutOfRange
    | ChargeOutOfRange
    | WarningDischarge
    | WarningPeak

  /** The outcome of evaluating a predicate: its value and what it emitted. */
  datatype Eval = Eval(ok: bool, trace: seq<Msg>)

  /** A predicate that emitted nothing. */
  function Quiet(b: bool): Eval {
    Eval(b, [])
  }

  /** `!a`: negation flips the value and keeps the operand's notifications. */
  function Not(a: Eval): (r: Eval)
    ensures r.ok == !a.ok
    ensures r.trace == a.trace
  {
    Eval(!a.ok, a.trace)
  }

  /** `a && b`: `b` is evaluated (and emits) only when `a` holds. The value
      is the plain conjunction; `AndAgreesWithEager` relates the
      notifications to those of both operands. */
  function And(a: Eval, b: Eval): (r: Eval)
    ensures r.ok == (a.ok && b.ok)
  {
    if a.ok then Eval(b.ok, a.trace + b.trace) else a
  }

  /** `a || b`: `b` is evaluated (and emits) only when `a` does not hold.
      The value is the plain disjunction; `OrAgreesWithEager` relates the
      notifications to those of both operands. */
  function Or(a: Eval, b: Eval): (r: Eval)
    ensures r.ok == (a.ok || b.ok)
  {
    if a.ok then a else Eval(b.ok, a.trace + b.trace)
  }

  /** Against evaluating both operands: `a && b` emits a prefix of both
      operands' notifications, cut after `a` exactly when `a` fails. */
  lemma AndAgreesWithEager(a: Eval, b: Eval)
    ensures And(a, b).trace <= a.trace + b.trace
    ensures And(a, b).trace == a.trace + b.trace <==> a.ok || b.trace == []
    ensures a.trace <= And(a, b).trace
    ensures !a.ok ==> And(a, b).trace == a.trace
  {
  }

  /** Against evaluating both operands: `a || b` emits a prefix of both
      operands' notifications, cut after `a` exactly when `a` holds. */
  lemma OrAgreesWithEager(a: Eval, b: Eval)
    ensures Or(a, b).trace <= a.trace + b.trace
    ensures Or(a, b).trace == a.trace + b.trace <==> !a.ok || b.trace == []
    ensures a.trace <= Or(a, b).trace
    ensures a.ok ==> Or(a, b).trace == a.trace
  {
  }

  /** De Morgan for the short-circuit operators: `a || b` evaluates exactly
      like `!(!a && !b)`, notifications included. */
  lemma OrIsDualOfAnd(a: Eval, b: Eval)
    ensures Or(a, b) == Not(And(Not(a), Not(b)))
  {
  }

  /** The notifications of every operand, in order, as if all were evaluated. */
  function Traces(es: seq<Eval>): seq<Msg> {
    if |es| == 0 then [] else es[0].trace + Traces(es[1..])
  }

  predicate AllHold(es: seq<Eval>) {
    forall i :: 0 <= i < |es| ==> es[i].ok
  }

  /** How many operands of a short-circuit conjunction get evaluated: all of
      them when every one holds, otherwise up to and including the first one
      that fails. */
  function Evaluated(es: seq<Eval>): (n: nat)
    ensures n <= |es|
    ensures AllHold(es) ==> n == |es|
    ensures !AllHold(es) ==> 0 < n && !es[n - 1].ok && forall i :: 0 <= i < n - 1 ==> es[i].ok
  {
    if |es| == 0 then 0
    else if !es[0].ok then 1
    else
      var m := Evaluated(es[1..]);
      assert forall i :: 0 < i < |es| ==> es[i] == es[1..][i - 1];
      1 + m
  }

  /** The chain `e0 && e1 && ... && ek` as C# evaluates it: it holds exactly
      when every operand holds, and it emits the notifications of the operands
      up to the first failing one, and of none after it. */
  function All(es: seq<Eval>): (r: Eval)
    ensures r.ok <==> AllHold(es)
    ensures r.trace == Traces(es[..Evaluated(es)])
  {
    if |es| == 0 then Quiet(true)
    else
      var rest := All(es[1..]);
      assert forall i :: 0 < i < |es| ==> es[i] == es[1..][i - 1];
      assert es[..Evaluated(es)][1..] == es[1..][..Evaluated(es) - 1];
      And(es[0], rest)
  }

  /** C# parses `a && b && c` as `(a && b) && c`; the chain over the
      sequence `[a, b, c]` evaluates to the same value and notifications. */
  lemma AllOfThree(a: Eval, b: Eval, c: Eval)
    ensures All([a, b, c]) == And(And(a, b), c)
  {
    AllCons(a, [b, c]);
    AllCons(b, [c]);
    AllCons(c, []);
    assert [a] + [b, c] == [a, b, c];
    assert [b] + [c] == [b, c];
    assert [c] + [] == [c];
  }

  /** One more operand on the left of a chain is one more `&&`. */
  lemma AllCons(e: Eval, es: seq<Eval>)
    ensures All([e] + es) == And(e, All(es))
  {
  }

  /** `a && b` is the two-operand chain, so it inherits the chain's exact
      account of which notifications are emitted. */
  lemma AndIsChainOfTwo(a: Eval, b: Eval)
    ensures And(a, b) == All([a, b])
  {
    AllCons(a, [b]);
    AllCons(b, []);
    assert [a] + [b] == [a, b];
    assert [b] + [] == [b];
  }

  /** Reference definition: the same conjunction with every operand evaluated
      (the non-short-circuit `&` operator). */
  function AllEager(es: seq<Eval>): Eval {
    Eval(AllHold(es), Traces(es))
  }

  lemma {:induction false} TracesAppend(a: seq<Eval>, b: seq<Eval>)
    ensures Traces(a + b) == Traces(a) + Traces(b)
  {
    if |a| == 0 {
      assert a + b == b;
    } else {
      assert (a + b)[1..] == a[1..] + b;
      TracesAppend(a[1..], b);
    }
  }

  /** The notifications of a short-circuit chain are a prefix of those of
      its eager evaluation, and all of them when the chain holds. (That the
      two agree on the value already follows from the contract of `All`; it
      is restated here for reference.) */
  lemma {:induction false} ShortCircuitAgreesWithEager(es: seq<Eval>)
    ensures All(es).ok == AllEager(es).ok
    ensures All(es).trace <= AllEager(es).trace
    ensures All(es).ok ==> All(es).trace == AllEager(es).trace
  {
    var n := Evaluated(es);
    assert es == es[..n] + es[n..];
    TracesAppend(es[..n], es[n..]);
  }
}
