/** Permission rules: the first rule that fits decides, and with no fitting rule the answer is to
    ask. */
module Permission {
  import opened Wrappers

  datatype Decision = Allow | Ask | Deny

  /** A decision for a tool, possibly restricted to scopes with a prefix. */
  datatype Rule = Rule(tool: string, scopePrefix: Option<string>, decision: Decision)

  predicate Fits(scopePrefix: Option<string>, scope: string) {
    scopePrefix.None? || scopePrefix.value <= scope
  }

  predicate Matches(rule: Rule, tool: string, scope: string) {
    rule.tool == tool && Fits(rule.scopePrefix, scope)
  }

  function Evaluate(rules: seq<Rule>, tool: string, scope: string): Decision {
    if rules == [] then Ask
    else if Matches(rules[0], tool, scope) then rules[0].decision
    else Evaluate(rules[1..], tool, scope)
  }

  /** Overrides are checked first, in the order given. */
  function Overlay(rules: seq<Rule>, overrides: seq<Rule>): seq<Rule> {
    overrides + rules
  }

  /** The decision is that of the least matching index, and asking needs either such a rule or no
      match at all. */
  lemma {:induction false} FirstMatchDecides(rules: seq<Rule>, tool: string, scope: string, i: nat)
    requires i <= |rules|
    requires forall j :: 0 <= j < i ==> !Matches(rules[j], tool, scope)
    ensures i < |rules| && Matches(rules[i], tool, scope) ==> Evaluate(rules, tool, scope) == rules[i].decision
    ensures i == |rules| ==> Evaluate(rules, tool, scope) == Ask
  {
    if i > 0 {
      FirstMatchDecides(rules[1..], tool, scope, i - 1);
    }
  }

  /** An overlay answers from the overrides where one of them matches, else from the base. */
  lemma {:induction false} OverlayDecides(rules: seq<Rule>, overrides: seq<Rule>, tool: string, scope: string)
    ensures Evaluate(Overlay(rules, overrides), tool, scope)
            == if exists i :: 0 <= i < |overrides| && Matches(overrides[i], tool, scope)
               then Evaluate(overrides, tool, scope) else Evaluate(rules, tool, scope)
  {
    if overrides == [] {
      assert Overlay(rules, overrides) == rules;
    } else {
      OverlayDecides(rules, overrides[1..], tool, scope);
      assert Overlay(rules, overrides)[1..] == Overlay(rules, overrides[1..]);
      if Matches(overrides[0], tool, scope) {
      } else if exists i :: 0 <= i < |overrides| && Matches(overrides[i], tool, scope) {
        var i :| 0 <= i < |overrides| && Matches(overrides[i], tool, scope);
        assert Matches(overrides[1..][i - 1], tool, scope);
      }
    }
  }
}
