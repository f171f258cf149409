/**
 * The cases of the validator's unit and end-to-end tests, stated as lemmas
 * about the model: the cert-manager token-request role before and after the
 * operator was granted serviceaccounts/token.
 */
module Scenarios {
  import opened Wrappers
  import opened Strings
  import opened Policy
  import opened Validation
  import opened Annotation

  const TokenRequestRoleName: string := "cert-manager-tokenrequest"

  /** The rule of the cert-manager-tokenrequest role: create a token for the cert-manager service account. */
  const TokenRequest: PolicyRule := PolicyRule([""], ["serviceaccounts/token"], ["create"], ["cert-manager"])

  /** The same request without a resource name. */
  const UnnamedTokenRequest: PolicyRule := PolicyRule([""], ["serviceaccounts/token"], ["create"], [])

  const TokenRequestRole: Role := Role(TokenRequestRoleName, [TokenRequest])

  /** The operator's core-group rule, held before and after the fix: service accounts, but not their token sub-resource. */
  const CoreRule: PolicyRule := PolicyRule(
    [""],
    ["configmaps", "events", "namespaces", "pods", "secrets", "serviceaccounts", "services"],
    ["create", "delete", "get", "list", "patch", "update", "watch"],
    [])

  /** The operator's rule in the first unit-test case: service accounts and config maps, but not the token sub-resource. */
  const TableRuleBeforeFix: PolicyRule := PolicyRule(
    [""],
    ["serviceaccounts", "configmaps"],
    ["get", "list", "create", "update", "patch", "delete"],
    [])

  /** The rule the fix added. */
  const TokenRule: PolicyRule := UnnamedTokenRequest

  /** Before the fix the token request is rejected, and the error names the role and the rule. */
  lemma TokenRequestRejectedBeforeFix(ruleText: string)
    ensures Validate([TableRuleBeforeFix], TokenRequestRole) == Some(RoleError(TokenRequestRoleName, TokenRequest))
    ensures HasSubstring(Message(Validate([TableRuleBeforeFix], TokenRequestRole).value, ruleText), "missing permissions for")
  {
    CoversNoSubresourceInference(TableRuleBeforeFix, TokenRequest, "serviceaccounts/token");
    MessageMentions(RoleError(TokenRequestRoleName, TokenRequest), ruleText);
  }

  /** The pre-fix rule covers no request for serviceaccounts/token, whatever its names. */
  lemma NotCoveredBeforeFix(rule: PolicyRule)
    requires "serviceaccounts/token" in rule.resources
    ensures !CanGrant([CoreRule], rule)
  {
    CoversNoSubresourceInference(CoreRule, rule, "serviceaccounts/token");
  }

  /** After the fix the unnamed token rule covers the named request and the role passes. */
  lemma TokenRequestAcceptedAfterFix()
    ensures Validate([CoreRule, TokenRule], TokenRequestRole) == None
    ensures Missing([CoreRule, TokenRule], TokenRequestRole.rules) == []
  {
    assert Covers(TokenRule, TokenRequest);
    assert CanGrant([CoreRule, TokenRule], TokenRequest) by {
      assert TokenRule in [CoreRule, TokenRule];
    }
    ValidatePassesIff([CoreRule, TokenRule], TokenRequestRole);
    MissingAgreesWithValidate([CoreRule, TokenRule], TokenRequestRole);
  }

  /** Listing the sub-resource beside its base resource is enough. */
  lemma SubresourceListedAccepted()
    ensures var granted := PolicyRule([""], ["serviceaccounts", "serviceaccounts/token", "configmaps"],
                                      ["get", "list", "create", "update", "patch", "delete"], []);
            Validate([granted], TokenRequestRole) == None
  {
    var granted := PolicyRule([""], ["serviceaccounts", "serviceaccounts/token", "configmaps"],
                              ["get", "list", "create", "update", "patch", "delete"], []);
    assert Covers(granted, TokenRequest);
    assert granted in [granted];
    ValidatePassesIff([granted], TokenRequestRole);
  }

  /** A token rule with the wrong verbs does not cover the request. */
  lemma WrongVerbRejected()
    ensures var granted := PolicyRule([""], ["serviceaccounts/token"], ["get", "list"], []);
            var role := Role(TokenRequestRoleName, [UnnamedTokenRequest]);
            Validate([granted], role) == Some(RoleError(TokenRequestRoleName, UnnamedTokenRequest))
  {
    var granted := PolicyRule([""], ["serviceaccounts/token"], ["get", "list"], []);
    assert "create" in UnnamedTokenRequest.verbs && !Matches(granted.verbs, "create");
    assert !CanGrant([granted], UnnamedTokenRequest);
  }

  /** The all-wildcard rule covers the token request. */
  lemma WildcardAccepted()
    ensures Validate([PolicyRule([Wildcard], [Wildcard], [Wildcard], [])], Role(TokenRequestRoleName, [UnnamedTokenRequest])) == None
  {
    var granted := PolicyRule([Wildcard], [Wildcard], [Wildcard], []);
    CoversWildcardRule(UnnamedTokenRequest);
    assert granted in [granted];
    ValidatePassesIff([granted], Role(TokenRequestRoleName, [UnnamedTokenRequest]));
  }

  /** GetMissingPermissions returns the one uncovered token rule, verbatim. */
  lemma MissingTokenRule()
    ensures Missing([PolicyRule([""], ["configmaps"], ["get", "list"], [])], [UnnamedTokenRequest]) == [UnnamedTokenRequest]
  {
    var granted := PolicyRule([""], ["configmaps"], ["get", "list"], []);
    CoversNoSubresourceInference(granted, UnnamedTokenRequest, "serviceaccounts/token");
    assert !CanGrant([granted], UnnamedTokenRequest);
  }

  /** The suggestion for the unnamed token rule, as the unit test expects it. */
  lemma SuggestUnnamedTokenRule()
    ensures Render(UnnamedTokenRequest) == "//+kubebuilder:rbac:groups=\"\",resources=serviceaccounts/token,verbs=create"
  {
    GroupsValueQuoted([""]);
    assert GroupsValue([""]) == "\"\"";
    assert Join(["serviceaccounts/token"], ";") == "serviceaccounts/token";
    assert Join(["create"], ";") == "create";
    assert "//+kubebuilder:rbac:" + "groups=" == "//+kubebuilder:rbac:groups=";
    assert "//+kubebuilder:rbac:groups=" + "\"\"" == "//+kubebuilder:rbac:groups=\"\"";
    assert "//+kubebuilder:rbac:groups=\"\"" + ",resources=" == "//+kubebuilder:rbac:groups=\"\",resources=";
    assert "//+kubebuilder:rbac:groups=\"\",resources=" + "serviceaccounts/token"
      == "//+kubebuilder:rbac:groups=\"\",resources=serviceaccounts/token";
    assert "//+kubebuilder:rbac:groups=\"\",resources=serviceaccounts/token" + ",verbs="
      == "//+kubebuilder:rbac:groups=\"\",resources=serviceaccounts/token,verbs=";
    assert "//+kubebuilder:rbac:groups=\"\",resources=serviceaccounts/token,verbs=" + "create"
      == "//+kubebuilder:rbac:groups=\"\",resources=serviceaccounts/token,verbs=create";
  }

  /** The suggestion for the named token rule ends with the resourceNames clause. */
  lemma SuggestNamedTokenRule()
    ensures Render(TokenRequest) ==
      "//+kubebuilder:rbac:groups=\"\",resources=serviceaccounts/token,verbs=create,resourceNames=cert-manager"
  {
    SuggestUnnamedTokenRule();
    assert Join(["cert-manager"], ";") == "cert-manager";
    assert Render(TokenRequest) == Render(UnnamedTokenRequest) + ",resourceNames=" + "cert-manager";
    assert "//+kubebuilder:rbac:groups=\"\",resources=serviceaccounts/token,verbs=create" + ",resourceNames="
      == "//+kubebuilder:rbac:groups=\"\",resources=serviceaccounts/token,verbs=create,resourceNames=";
    assert "//+kubebuilder:rbac:groups=\"\",resources=serviceaccounts/token,verbs=create,resourceNames=" + "cert-manager"
      == "//+kubebuilder:rbac:groups=\"\",resources=serviceaccounts/token,verbs=create,resourceNames=cert-manager";
  }

  /**
   * Roles that fail, pass and fail again produce exactly two errors, the
   * first role's and then the third's.
   */
  lemma AggregateKeepsOrder()
    ensures var a := Role("a", [TokenRequest]);
            var b := Role("b", [PolicyRule([""], ["pods"], ["get"], [])]);
            var c := Role("c", [PolicyRule([""], ["serviceaccounts/token"], ["create"], [])]);
            ValidateAll([CoreRule], [a, b, c]) == [RoleError("a", TokenRequest), RoleError("c", UnnamedTokenRequest)]
  {
    var a := Role("a", [TokenRequest]);
    var b := Role("b", [PolicyRule([""], ["pods"], ["get"], [])]);
    var c := Role("c", [UnnamedTokenRequest]);
    NotCoveredBeforeFix(TokenRequest);
    NotCoveredBeforeFix(UnnamedTokenRequest);
    assert CanGrant([CoreRule], b.rules[0]) by {
      assert Covers(CoreRule, b.rules[0]);
      assert CoreRule in [CoreRule];
    }
    ValidatePassesIff([CoreRule], b);
    assert Validate([CoreRule], a) == Some(RoleError("a", TokenRequest));
    assert Validate([CoreRule], c) == Some(RoleError("c", UnnamedTokenRequest));
    assert [a, b, c][1..] == [b, c] && [b, c][1..] == [c] && [c][1..] == [];
    assert ValidateAll([CoreRule], [c]) == [RoleError("c", UnnamedTokenRequest)];
    assert ValidateAll([CoreRule], [b, c]) == [RoleError("c", UnnamedTokenRequest)];
  }

  /** The operator's RBAC rule of the end-to-end scenario: it manages roles and bindings. */
  const RbacRule: PolicyRule := PolicyRule(
    ["rbac.authorization.k8s.io"],
    ["roles", "rolebindings", "clusterroles", "clusterrolebindings"],
    ["create", "delete", "get", "list", "patch", "update", "watch"],
    [])

  /**
   * The end-to-end scenario before the fix: the role is rejected, the one
   * missing rule is the request itself, and its suggestion is the named marker.
   */
  lemma EndToEndBeforeFix()
    ensures Validate([CoreRule, RbacRule], TokenRequestRole) == Some(RoleError(TokenRequestRoleName, TokenRequest))
    ensures Missing([CoreRule, RbacRule], TokenRequestRole.rules) == [TokenRequest]
    ensures Suggestions(Missing([CoreRule, RbacRule], TokenRequestRole.rules)) ==
      ["//+kubebuilder:rbac:groups=\"\",resources=serviceaccounts/token,verbs=create,resourceNames=cert-manager"]
  {
    var before := [CoreRule, RbacRule];
    assert !Covers(CoreRule, TokenRequest) by {
      CoversNoSubresourceInference(CoreRule, TokenRequest, "serviceaccounts/token");
    }
    assert !Covers(RbacRule, TokenRequest) by {
      assert "" in TokenRequest.apiGroups && !Matches(RbacRule.apiGroups, "");
    }
    assert !CanGrant(before, TokenRequest);
    assert Missing(before, TokenRequestRole.rules) == [TokenRequest];
    SuggestNamedTokenRule();
  }

  /** The end-to-end scenario after the fix: with the token rule among three the role passes. */
  lemma EndToEndAfterFix()
    ensures Validate([CoreRule, TokenRule, RbacRule], TokenRequestRole) == None
  {
    var after := [CoreRule, TokenRule, RbacRule];
    assert Covers(TokenRule, TokenRequest);
    assert TokenRule in after;
    ValidatePassesIff(after, TokenRequestRole);
  }
}
