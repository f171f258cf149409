/**
 * RBAC policy rules and the coverage relation of the permission-coverage
 * validator (pkg/controller/deployment/rbac_validator.go): when one granted
 * rule is enough to grant a requested rule, and when a list of granted rules is.
 */
module Policy {
  import opened Wrappers

  /**
   * rbacv1.PolicyRule, as far as the validator reads it: four independent lists
   * of strings (its fifth field, NonResourceURLs, is never read). The empty group ""
   * is the core API group; a resource may be a compound token such as
   * "serviceaccounts/token"; an empty resourceNames list means "every object".
   * Go's nil and empty slices are both the empty sequence.
   */
  datatype PolicyRule = PolicyRule(
    apiGroups: seq<string>,
    resources: seq<string>,
    verbs: seq<string>,
    resourceNames: seq<string>)

  /** rbacv1.Role, reduced to the two fields the validator reads. */
  datatype Role = Role(name: string, rules: seq<PolicyRule>)

  /** The one value that matches anything, and only on the granted side. */
  const Wildcard: string := "*"

  /** One step of the inner loop of sliceContains: `x` is matched by `available`. */
  predicate Matches(available: seq<string>, x: string)
  {
    Wildcard in available || x in available
  }

  /** sliceContains: every required string is matched by `available`, compared as plain strings. */
  predicate Contains(available: seq<string>, required: seq<string>)
  {
    forall x :: x in required ==> Matches(available, x)
  }

  /**
   * ruleCovers: groups, resources and verbs are each contained; resource names
   * are compared only when both rules list some.
   */
  predicate Covers(granted: PolicyRule, requested: PolicyRule)
  {
    && Contains(granted.apiGroups, requested.apiGroups)
    && Contains(granted.resources, requested.resources)
    && Contains(granted.verbs, requested.verbs)
    && (|requested.resourceNames| > 0 && |granted.resourceNames| > 0 ==>
          Contains(granted.resourceNames, requested.resourceNames))
  }

  /** operatorCanGrant: some single granted rule covers the requested rule. */
  predicate CanGrant(granted: seq<PolicyRule>, rule: PolicyRule)
  {
    exists g :: g in granted && Covers(g, rule)
  }

  // ---------------------------------------------------------------------
  // Containment

  /** Containment as sets: nothing is required, the granted side holds "*", or every required value is listed. */
  lemma ContainsAsSets(available: seq<string>, required: seq<string>)
    ensures Contains(available, required) <==>
      required == [] || Wildcard in available || (set x | x in required) <= (set x | x in available)
  {
    var req, avail := set x | x in required, set x | x in available;
    if Contains(available, required) && required != [] && Wildcard !in available {
      assert req <= avail;
    }
    if required != [] && Wildcard !in available && req <= avail {
      forall x | x in required ensures Matches(available, x) {
        assert x in req;
      }
    }
  }

  /** "*" is special only on the granted side: a required "*" needs a granted "*". */
  lemma ContainsRequiredWildcard(available: seq<string>)
    ensures Contains(available, [Wildcard]) <==> Wildcard in available
    ensures Wildcard in available ==> forall required :: Contains(available, required)
  {
    assert Wildcard in [Wildcard];
  }

  /** Nothing is contained in an empty list except the empty list. */
  lemma ContainsNothingGranted(required: seq<string>)
    ensures Contains([], required) <==> required == []
  {
    if required != [] {
      assert required[0] in required;
    }
  }

  /** Containment is a preorder: reflexive and transitive, even with wildcards. */
  lemma ContainsPreorder(a: seq<string>, b: seq<string>, c: seq<string>)
    ensures Contains(a, a)
    ensures Contains(a, b) && Contains(b, c) ==> Contains(a, c)
  {
  }

  // ---------------------------------------------------------------------
  // Coverage of one rule by one rule

  /** A rule always covers itself (exact-match sufficiency). */
  lemma CoversReflexive(rule: PolicyRule)
    ensures Covers(rule, rule)
  {
  }

  /** A rule with "*" for groups, resources and verbs and no names covers every rule. */
  lemma CoversWildcardRule(requested: PolicyRule)
    ensures Covers(PolicyRule([Wildcard], [Wildcard], [Wildcard], []), requested)
  {
  }

  /**
   * Resource tokens are opaque: a requested token (say "pods/exec") that the
   * granted rule neither lists nor wildcards is not covered, whatever else the
   * granted rule lists (say "pods").
   */
  lemma CoversNoSubresourceInference(granted: PolicyRule, requested: PolicyRule, token: string)
    requires token in requested.resources
    requires token !in granted.resources && Wildcard !in granted.resources
    ensures !Covers(granted, requested)
  {
  }

  /** A granted rule without names ignores the names of the request. */
  lemma CoversUnnamedGrant(granted: PolicyRule, requested: PolicyRule, names: seq<string>)
    requires granted.resourceNames == []
    ensures Covers(granted, requested) <==> Covers(granted, requested.(resourceNames := names))
  {
  }

  /** A request without names ignores the names of the granted rule. */
  lemma CoversUnnamedRequest(granted: PolicyRule, requested: PolicyRule, names: seq<string>)
    requires requested.resourceNames == []
    ensures Covers(granted, requested) <==> Covers(granted.(resourceNames := names), requested)
  {
  }

  /** When both rules list names, the granted names must contain the requested ones. */
  lemma CoversBothNamed(granted: PolicyRule, requested: PolicyRule)
    requires granted.resourceNames != [] && requested.resourceNames != []
    ensures Covers(granted, requested) ==> Contains(granted.resourceNames, requested.resourceNames)
  {
  }

  // ---------------------------------------------------------------------
  // Coverage of one rule by a list of granted rules

  /** With no granted rules nothing can be granted, not even a rule with all lists empty. */
  lemma CanGrantNothingGranted(rule: PolicyRule)
    ensures !CanGrant([], rule)
  {
  }

  /** Granting more rules, before or after, never loses coverage. */
  lemma CanGrantMonotone(granted: seq<PolicyRule>, extra: seq<PolicyRule>, rule: PolicyRule)
    requires CanGrant(granted, rule)
    ensures CanGrant(granted + extra, rule) && CanGrant(extra + granted, rule)
  {
  }

  /** The order of the granted rules does not matter: any reordering grants the same rules. */
  lemma CanGrantOrderFree(granted: seq<PolicyRule>, reordered: seq<PolicyRule>, rule: PolicyRule)
    requires multiset(granted) == multiset(reordered)
    ensures CanGrant(granted, rule) <==> CanGrant(reordered, rule)
  {
    forall g
      ensures g in granted <==> g in reordered
    {
      assert g in granted <==> g in multiset(granted);
      assert g in reordered <==> g in multiset(reordered);
    }
  }

  /** A granted list that holds a rule equal to the request grants it. */
  lemma CanGrantListed(granted: seq<PolicyRule>, rule: PolicyRule)
    requires rule in granted
    ensures CanGrant(granted, rule)
  {
  }

  // ---------------------------------------------------------------------
  // What a rule lets a caller do

  /** One API request: a group, a resource token, a verb and, when it targets one object, its name. */
  datatype Access = Access(group: string, resource: string, verb: string, name: Option<string>)

  /** The accesses a rule allows, read with the validator's own wildcard convention. */
  predicate Permits(rule: PolicyRule, a: Access)
  {
    && Matches(rule.apiGroups, a.group)
    && Matches(rule.resources, a.resource)
    && Matches(rule.verbs, a.verb)
    && (rule.resourceNames == [] || (a.name.Some? && Matches(rule.resourceNames, a.name.value)))
  }

  /**
   * Coverage is sound, except in one case: a covered request allows nothing
   * the granted rule does not, provided the granted rule is not name-restricted
   * while the request is unrestricted.
   */
  lemma CoversSound(granted: PolicyRule, requested: PolicyRule, a: Access)
    requires Covers(granted, requested)
    requires requested.resourceNames == [] ==> granted.resourceNames == []
    requires Permits(requested, a)
    ensures Permits(granted, a)
  {
  }

  /**
   * The excluded case is real: a grant restricted to one secret covers a
   * request for every secret, so a role built from the request could read
   * secrets the operator itself cannot.
   */
  lemma CoversNamedGrantEscalates()
    ensures var granted := PolicyRule([""], ["secrets"], ["get"], ["cert-manager"]);
            var requested := PolicyRule([""], ["secrets"], ["get"], []);
            var a := Access("", "secrets", "get", Some("other"));
            Covers(granted, requested) && Permits(requested, a) && !Permits(granted, a)
  {
  }

  /**
   * Coverage is not transitive: a name-restricted grant covers an unrestricted
   * rule, which covers a request for another name.
   */
  lemma CoversNotTransitive()
    ensures var a := PolicyRule([""], ["secrets"], ["get"], ["x"]);
            var b := PolicyRule([""], ["secrets"], ["get"], []);
            var c := PolicyRule([""], ["secrets"], ["get"], ["y"]);
            Covers(a, b) && Covers(b, c) && !Covers(a, c)
  {
    var a := PolicyRule([""], ["secrets"], ["get"], ["x"]);
    var b := PolicyRule([""], ["secrets"], ["get"], []);
    var c := PolicyRule([""], ["secrets"], ["get"], ["y"]);
    CoversUnnamedRequest(b, b, a.resourceNames);
    CoversReflexive(b);
    CoversUnnamedGrant(b, b, c.resourceNames);
    assert "y" in c.resourceNames && !Matches(a.resourceNames, "y");
  }

  /**
   * Each requested rule must fit inside one granted rule: two granted rules
   * that together allow every access of the request do not grant it.
   */
  lemma CanGrantIsPerRule()
    ensures var get := PolicyRule([""], ["pods"], ["get"], []);
            var list := PolicyRule([""], ["pods"], ["list"], []);
            var both := PolicyRule([""], ["pods"], ["get", "list"], []);
            && !CanGrant([get, list], both)
            && forall a :: Permits(both, a) ==> Permits(get, a) || Permits(list, a)
  {
    var get := PolicyRule([""], ["pods"], ["get"], []);
    var list := PolicyRule([""], ["pods"], ["list"], []);
    var both := PolicyRule([""], ["pods"], ["get", "list"], []);
    assert !Covers(get, both) by { assert "list" in both.verbs && !Matches(get.verbs, "list"); }
    assert !Covers(list, both) by { assert "get" in both.verbs && !Matches(list.verbs, "get"); }
  }
}
