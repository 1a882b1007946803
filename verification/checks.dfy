/** The calculators' validation pattern: an ordered list of rules, each
    pushing its message onto `errors` when it is violated. */
module Checks {
  import opened Lists

  datatype Rule = Rule(violated: bool, message: string)

  function Messages(rules: seq<Rule>): seq<string> {
    seq(|rules|, i requires 0 <= i < |rules| => rules[i].message)
  }

  /** The messages of the violated rules, in rule order. */
  function Collect(rules: seq<Rule>): (errors: seq<string>)
    ensures |errors| <= |rules|
    ensures errors == [] <==> forall i | 0 <= i < |rules| :: !rules[i].violated
    ensures forall m :: m in errors <==>
      exists i | 0 <= i < |rules| :: rules[i].violated && rules[i].message == m
    ensures IsSubsequence(errors, Messages(rules))
  {
    if rules == [] then []
    else
      var rest := Collect(rules[1..]);
      assert Messages(rules) == [rules[0].message] + Messages(rules[1..]);
      assert forall i | 1 <= i < |rules| :: rules[i] == rules[1..][i - 1];
      if rules[0].violated then
        [rules[0].message] + rest
      else
        SubsequenceSkipHead(rest, Messages(rules));
        rest
  }
}
