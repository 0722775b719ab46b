/** What every step keeps and adds, a whole run keeps and adds up. */
module Runs {

  ghost function SumAlong<S, C>(flow: (S, C) -> int, states: seq<S>, commands: seq<C>, n: nat): int
    requires n <= |commands| <= |states|
  {
    if n == 0 then 0 else SumAlong(flow, states, commands, n - 1) + flow(states[n - 1], commands[n - 1])
  }

  lemma {:induction false} Balances<S(!new), C(!new)>(step: (S, C, S) -> bool, inv: S -> bool, wealth: S -> int,
                                                    flow: (S, C) -> int, states: seq<S>, commands: seq<C>, n: nat)
    requires forall s, c, s' :: inv(s) && step(s, c, s') ==> inv(s') && wealth(s') == wealth(s) + flow(s, c)
    requires |states| == |commands| + 1 && n <= |commands| && inv(states[0])
    requires forall i :: 0 <= i < |commands| ==> step(states[i], commands[i], states[i + 1])
    ensures inv(states[n]) && wealth(states[n]) == wealth(states[0]) + SumAlong(flow, states, commands, n)
  {
    if n > 0 {
      Balances(step, inv, wealth, flow, states, commands, n - 1);
      assert step(states[n - 1], commands[n - 1], states[n - 1 + 1]);
    }
  }
}
