/**
 * An ordered chain of lookup rules: each rule either yields a definite
 * value or abstains, and the first rule that yields one decides. The
 * middleware's `if / else if` chains and `??` chains are instances.
 */
module Precedence {
  import opened Js

  /** The value of the first rule that yields one, or `None` when every
      rule abstains. */
  function FirstOf<T>(rules: seq<Option<T>>): (r: Option<T>)
    ensures r.None? <==> forall i | 0 <= i < |rules| :: rules[i].None?
    ensures r.Some? ==> exists i | 0 <= i < |rules| :: rules[i] == r
  {
    if |rules| == 0 then None
    else if rules[0].Some? then rules[0]
    else
      var r := FirstOf(rules[1..]);
      assert forall i | 1 <= i < |rules| :: rules[i] == rules[1..][i - 1];
      r
  }

  /** Rule `i` decides exactly when it yields a value and every rule before
      it abstains. */
  lemma {:induction false} FirstOfAt<T>(rules: seq<Option<T>>, i: nat)
    requires i < |rules| && rules[i].Some?
    requires forall j | 0 <= j < i :: rules[j].None?
    ensures FirstOf(rules) == rules[i]
  {
    if i > 0 {
      FirstOfAt(rules[1..], i - 1);
    }
  }

  /** A chain made of two parts consults the second part only when the
      first abstains throughout. */
  lemma {:induction false} FirstOfAppend<T>(front: seq<Option<T>>, back: seq<Option<T>>)
    ensures FirstOf(front + back) == if FirstOf(front).Some? then FirstOf(front) else FirstOf(back)
  {
    if |front| > 0 {
      assert (front + back)[1..] == front[1..] + back;
      FirstOfAppend(front[1..], back);
    } else {
      assert front + back == back;
    }
  }

  /** Once a prefix of the chain decides, the rules after it cannot change
      the outcome, whatever they yield. */
  lemma {:induction false} LaterRulesIgnored<T>(front: seq<Option<T>>, back1: seq<Option<T>>, back2: seq<Option<T>>)
    requires FirstOf(front).Some?
    ensures FirstOf(front + back1) == FirstOf(front + back2) == FirstOf(front)
  {
    FirstOfAppend(front, back1);
    FirstOfAppend(front, back2);
  }
}
