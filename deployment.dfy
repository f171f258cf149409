/**
 * The RBACValidator of pkg/controller/deployment/rbac_validator.go: the
 * operator's granted rules, fixed at construction, and the methods that scan
 * them with the same loops and early returns as the Go code. Each method is
 * proved equal to the specification function of its module.
 */
module Deployment {
  import opened Wrappers
  import opened Strings
  import opened Policy
  import opened Validation
  import opened Annotation

  class RBACValidator {
    /** The operator's granted rules; nil in Go is the empty sequence. Never changed. */
    const operatorRules: seq<PolicyRule>

    /** NewRBACValidator. */
    constructor (operatorRules: seq<PolicyRule>)
      ensures this.operatorRules == operatorRules
    {
      this.operatorRules := operatorRules;
    }

    /** sliceContains: for each required value, scan `available` for "*" or that value. */
    method SliceContains(available: seq<string>, required: seq<string>) returns (contained: bool)
      ensures contained == Contains(available, required)
    {
      for i := 0 to |required|
        invariant forall k :: 0 <= k < i ==> Matches(available, required[k])
      {
        var found := false;
        for j := 0 to |available|
          invariant !found ==> forall l :: 0 <= l < j ==> available[l] != Wildcard && available[l] != required[i]
          invariant found ==> Matches(available, required[i])
        {
          if available[j] == Wildcard || available[j] == required[i] {
            found := true;
            break;
          }
        }
        if !found {
          assert required[i] in required && !Matches(available, required[i]);
          return false;
        }
      }
      return true;
    }

    /** ruleCovers: groups, then resources, then verbs, then names when both sides list some. */
    method RuleCovers(opRule: PolicyRule, reqRule: PolicyRule) returns (covers: bool)
      ensures covers == Covers(opRule, reqRule)
    {
      var ok := SliceContains(opRule.apiGroups, reqRule.apiGroups);
      if !ok {
        return false;
      }
      ok := SliceContains(opRule.resources, reqRule.resources);
      if !ok {
        return false;
      }
      ok := SliceContains(opRule.verbs, reqRule.verbs);
      if !ok {
        return false;
      }
      if |reqRule.resourceNames| > 0 && |opRule.resourceNames| > 0 {
        ok := SliceContains(opRule.resourceNames, reqRule.resourceNames);
        if !ok {
          return false;
        }
      }
      return true;
    }

    /** operatorCanGrant: the first granted rule that covers the request ends the scan. */
    method OperatorCanGrant(rule: PolicyRule) returns (can: bool)
      ensures can == CanGrant(operatorRules, rule)
    {
      for i := 0 to |operatorRules|
        invariant forall k :: 0 <= k < i ==> !Covers(operatorRules[k], rule)
      {
        var covers := RuleCovers(operatorRules[i], rule);
        if covers {
          return true;
        }
      }
      return false;
    }

    /** ValidateRoleCreation: nil (None) or an error for the first rule that cannot be granted. */
    method ValidateRoleCreation(role: Role) returns (err: Option<RoleError>)
      ensures err == Validate(operatorRules, role)
    {
      for i := 0 to |role.rules|
        invariant FirstUngranted(operatorRules, role.rules) == FirstUngranted(operatorRules, role.rules[i..])
      {
        assert role.rules[i..][1..] == role.rules[i + 1..];
        var can := OperatorCanGrant(role.rules[i]);
        if !can {
          return Some(RoleError(role.name, role.rules[i]));
        }
      }
      return None;
    }

    /** ValidateAllRoles: append the error of each failing role. */
    method ValidateAllRoles(roles: seq<Role>) returns (errors: seq<RoleError>)
      ensures errors == ValidateAll(operatorRules, roles)
    {
      errors := [];
      for i := 0 to |roles|
        invariant errors == ValidateAll(operatorRules, roles[..i])
      {
        var err := ValidateRoleCreation(roles[i]);
        assert roles[..i + 1] == roles[..i] + [roles[i]];
        ValidateAllAppend(operatorRules, roles[..i], [roles[i]]);
        assert [roles[i]][1..] == [];
        if err.Some? {
          errors := errors + [err.value];
        }
      }
      assert roles[..|roles|] == roles;
    }

    /** GetMissingPermissions: append each rule that cannot be granted. */
    method GetMissingPermissions(role: Role) returns (missing: seq<PolicyRule>)
      ensures missing == Missing(operatorRules, role.rules)
    {
      missing := [];
      for i := 0 to |role.rules|
        invariant missing == Missing(operatorRules, role.rules[..i])
      {
        var rule := role.rules[i];
        var can := OperatorCanGrant(rule);
        assert role.rules[..i + 1] == role.rules[..i] + [rule];
        MissingAppend(operatorRules, role.rules[..i], [rule]);
        assert [rule][1..] == [];
        if !can {
          missing := missing + [rule];
        }
      }
      assert role.rules[..|role.rules|] == role.rules;
    }

    /**
     * SuggestKubebuilderAnnotation: one marker per rule, in order, built piece
     * by piece; the granted rules are not consulted.
     */
    method SuggestKubebuilderAnnotation(missingRules: seq<PolicyRule>) returns (suggestions: seq<string>)
      ensures |suggestions| == |missingRules|
      ensures forall k :: 0 <= k < |missingRules| ==> suggestions[k] == Render(missingRules[k])
      ensures suggestions == Suggestions(missingRules)
    {
      suggestions := [];
      for i := 0 to |missingRules|
        invariant |suggestions| == i
        invariant forall k :: 0 <= k < i ==> suggestions[k] == Render(missingRules[k])
      {
        var rule := missingRules[i];
        var apiGroups := Join(rule.apiGroups, ";");
        if apiGroups == "" {
          apiGroups := CoreGroupToken;
        }
        var resources := Join(rule.resources, ";");
        var verbs := Join(rule.verbs, ";");
        var suggestion := MarkerPrefix + "groups=" + apiGroups + ",resources=" + resources + ",verbs=" + verbs;
        if |rule.resourceNames| > 0 {
          var resourceNames := Join(rule.resourceNames, ";");
          suggestion := suggestion + ",resourceNames=" + resourceNames;
        }
        suggestions := suggestions + [suggestion];
      }
    }
  }
}
