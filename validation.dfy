/**
 * Whole-role validation, aggregate validation and missing-permission
 * extraction: the specification functions the validator's methods are proved
 * against, and what they promise.
 */
module Validation {
  import opened Wrappers
  import opened Policy

  /** The error ValidateRoleCreation returns: the role's name and the first rule it cannot grant. */
  datatype RoleError = RoleError(roleName: string, rule: PolicyRule)

  /**
   * The error's text. The rendering of the rule's lists by Go's fmt package
   * is not part of this model: it is passed in as `ruleText`.
   */
  function Message(e: RoleError, ruleText: string): string
  {
    "operator cannot create role " + e.roleName + ": missing permissions for " + ruleText
  }

  /** `t` occurs in `s` as a contiguous piece. */
  predicate HasSubstring(s: string, t: string)
  {
    exists i :: 0 <= i <= |s| && t <= s[i..]
  }

  /** The first rule of `rules`, in order, that `granted` cannot grant. */
  function FirstUngranted(granted: seq<PolicyRule>, rules: seq<PolicyRule>): Option<PolicyRule>
  {
    if rules == [] then None
    else if !CanGrant(granted, rules[0]) then Some(rules[0])
    else FirstUngranted(granted, rules[1..])
  }

  /** ValidateRoleCreation: no error, or the role's name with its first ungrantable rule. */
  function Validate(granted: seq<PolicyRule>, role: Role): Option<RoleError>
  {
    match FirstUngranted(granted, role.rules)
    case None => None
    case Some(rule) => Some(RoleError(role.name, rule))
  }

  /** ValidateAllRoles: one error per failing role, in input order. */
  function ValidateAll(granted: seq<PolicyRule>, roles: seq<Role>): seq<RoleError>
  {
    if roles == [] then []
    else
      var here := match Validate(granted, roles[0]) case None => [] case Some(e) => [e];
      here + ValidateAll(granted, roles[1..])
  }

  /** GetMissingPermissions: the rules `granted` cannot grant, verbatim and in order. */
  function Missing(granted: seq<PolicyRule>, rules: seq<PolicyRule>): seq<PolicyRule>
  {
    if rules == [] then []
    else (if CanGrant(granted, rules[0]) then [] else [rules[0]]) + Missing(granted, rules[1..])
  }

  /** `a` can be obtained from `b` by deleting elements. */
  predicate IsSubsequence<T(==)>(a: seq<T>, b: seq<T>)
  {
    a == [] || (b != [] && (IsSubsequence(a, b[1..]) || (a[0] == b[0] && IsSubsequence(a[1..], b[1..]))))
  }

  // ---------------------------------------------------------------------
  // Single-role validation

  /** The error text carries the role's name and the phrase "missing permissions for". */
  lemma MessageMentions(e: RoleError, ruleText: string)
    ensures HasSubstring(Message(e, ruleText), "missing permissions for")
    ensures HasSubstring(Message(e, ruleText), e.roleName)
  {
    var head, phrase := "operator cannot create role ", "missing permissions for";
    var m := Message(e, ruleText);
    assert m == head + (e.roleName + (": " + (phrase + " " + ruleText)));
    assert m[|head|..] == e.roleName + (": " + (phrase + " " + ruleText));
    var k := |head| + |e.roleName| + 2;
    assert m[k..] == phrase + " " + ruleText;
  }

  /** A role passes exactly when every one of its rules can be granted; a role without rules always passes. */
  lemma {:induction false} ValidatePassesIff(granted: seq<PolicyRule>, role: Role)
    ensures Validate(granted, role) == None <==>
      forall i :: 0 <= i < |role.rules| ==> CanGrant(granted, role.rules[i])
    decreases |role.rules|
  {
    if role.rules != [] {
      var tail := Role(role.name, role.rules[1..]);
      ValidatePassesIff(granted, tail);
      if CanGrant(granted, role.rules[0]) {
        forall i | 0 <= i < |tail.rules| ensures tail.rules[i] == role.rules[i + 1] { }
      }
    }
  }

  /**
   * A failing role's error names the role and the first rule, in input
   * order, that cannot be granted: every rule before it can be.
   */
  lemma {:induction false} ValidateReportsFirst(granted: seq<PolicyRule>, role: Role)
    requires Validate(granted, role) != None
    ensures Validate(granted, role).value.roleName == role.name
    ensures exists i :: 0 <= i < |role.rules|
              && role.rules[i] == Validate(granted, role).value.rule
              && !CanGrant(granted, role.rules[i])
              && (forall j :: 0 <= j < i ==> CanGrant(granted, role.rules[j]))
    decreases |role.rules|
  {
    if CanGrant(granted, role.rules[0]) {
      var tail := Role(role.name, role.rules[1..]);
      ValidateReportsFirst(granted, tail);
      var i :| 0 <= i < |tail.rules|
        && tail.rules[i] == Validate(granted, tail).value.rule
        && !CanGrant(granted, tail.rules[i])
        && forall j :: 0 <= j < i ==> CanGrant(granted, tail.rules[j]);
      assert role.rules[i + 1] == tail.rules[i];
      forall j | 0 <= j < i + 1 ensures CanGrant(granted, role.rules[j]) {
        if j > 0 { assert role.rules[j] == tail.rules[j - 1]; }
      }
    } else {
      assert role.rules[0] == Validate(granted, role).value.rule;
    }
  }

  // ---------------------------------------------------------------------
  // Missing permissions

  /** Missing distributes over concatenation: it filters each element on its own, in order. */
  lemma {:induction false} MissingAppend(granted: seq<PolicyRule>, a: seq<PolicyRule>, b: seq<PolicyRule>)
    ensures Missing(granted, a + b) == Missing(granted, a) + Missing(granted, b)
    decreases |a|
  {
    if a == [] {
      assert a + b == b;
    } else {
      assert (a + b)[0] == a[0] && (a + b)[1..] == a[1..] + b;
      MissingAppend(granted, a[1..], b);
    }
  }

  /** Missing keeps its input's order: it is a subsequence of the requested rules. */
  lemma {:induction false} MissingIsSubsequence(granted: seq<PolicyRule>, rules: seq<PolicyRule>)
    ensures IsSubsequence(Missing(granted, rules), rules)
    decreases |rules|
  {
    if rules != [] {
      MissingIsSubsequence(granted, rules[1..]);
      var m := Missing(granted, rules);
      if !CanGrant(granted, rules[0]) {
        assert m[0] == rules[0] && m[1..] == Missing(granted, rules[1..]);
      } else {
        assert m == Missing(granted, rules[1..]);
      }
    }
  }

  /**
   * Missing holds each ungrantable rule as often as the request does,
   * duplicates included, and no grantable rule at all.
   */
  lemma {:induction false} MissingCounts(granted: seq<PolicyRule>, rules: seq<PolicyRule>, rule: PolicyRule)
    ensures multiset(Missing(granted, rules))[rule] ==
      if CanGrant(granted, rule) then 0 else multiset(rules)[rule]
    decreases |rules|
  {
    if rules != [] {
      MissingCounts(granted, rules[1..], rule);
      assert rules == [rules[0]] + rules[1..];
    }
  }

  /** Extracting the missing rules a second time changes nothing. */
  lemma {:induction false} MissingIdempotent(granted: seq<PolicyRule>, rules: seq<PolicyRule>)
    ensures Missing(granted, Missing(granted, rules)) == Missing(granted, rules)
    decreases |rules|
  {
    if rules != [] {
      MissingIdempotent(granted, rules[1..]);
      var m := Missing(granted, rules);
      if !CanGrant(granted, rules[0]) {
        assert m[0] == rules[0] && m[1..] == Missing(granted, rules[1..]);
      } else {
        assert m == Missing(granted, rules[1..]);
      }
    }
  }

  /**
   * Missing and Validate agree: nothing is missing exactly when the role
   * passes, and otherwise the first missing rule is the one the error reports.
   */
  lemma {:induction false} MissingAgreesWithValidate(granted: seq<PolicyRule>, role: Role)
    ensures Missing(granted, role.rules) == [] <==> Validate(granted, role) == None
    ensures Validate(granted, role) != None ==>
      Missing(granted, role.rules)[0] == Validate(granted, role).value.rule
    decreases |role.rules|
  {
    if role.rules != [] {
      MissingAgreesWithValidate(granted, Role(role.name, role.rules[1..]));
    }
  }

  // ---------------------------------------------------------------------
  // Aggregate validation

  /** ValidateAll distributes over concatenation of the role list. */
  lemma {:induction false} ValidateAllAppend(granted: seq<PolicyRule>, a: seq<Role>, b: seq<Role>)
    ensures ValidateAll(granted, a + b) == ValidateAll(granted, a) + ValidateAll(granted, b)
    decreases |a|
  {
    if a == [] {
      assert a + b == b;
    } else {
      assert (a + b)[0] == a[0] && (a + b)[1..] == a[1..] + b;
      ValidateAllAppend(granted, a[1..], b);
    }
  }

  /**
   * At most one error per role, none exactly when every role passes, and each
   * error is the one Validate reports for some role of the input.
   */
  lemma {:induction false} ValidateAllReports(granted: seq<PolicyRule>, roles: seq<Role>)
    ensures |ValidateAll(granted, roles)| <= |roles|
    ensures ValidateAll(granted, roles) == [] <==>
      forall i :: 0 <= i < |roles| ==> Validate(granted, roles[i]) == None
    ensures forall e :: e in ValidateAll(granted, roles) ==>
      exists i :: 0 <= i < |roles| && Validate(granted, roles[i]) == Some(e)
    decreases |roles|
  {
    if roles != [] {
      var tail := roles[1..];
      ValidateAllReports(granted, tail);
      forall e | e in ValidateAll(granted, roles)
        ensures exists i :: 0 <= i < |roles| && Validate(granted, roles[i]) == Some(e)
      {
        if e in ValidateAll(granted, tail) {
          var i :| 0 <= i < |tail| && Validate(granted, tail[i]) == Some(e);
          assert roles[i + 1] == tail[i];
        } else {
          assert Validate(granted, roles[0]) == Some(e);
        }
      }
      if Validate(granted, roles[0]) == None {
        forall i | 0 <= i < |tail| ensures tail[i] == roles[i + 1] { }
      }
    }
  }

  /** A validated role grants nothing the operator lacks, unless a name-restricted grant covered an unrestricted rule. */
  lemma ValidatedRoleIsSound(granted: seq<PolicyRule>, role: Role, a: Access)
    requires Validate(granted, role) == None
    requires forall g, r :: g in granted && r in role.rules && g.resourceNames != [] && r.resourceNames == [] ==> !Covers(g, r)
    ensures (exists r :: r in role.rules && Permits(r, a)) ==>
            (exists g :: g in granted && Permits(g, a))
  {
    ValidatePassesIff(granted, role);
    if r :| r in role.rules && Permits(r, a) {
      var i :| 0 <= i < |role.rules| && role.rules[i] == r;
      assert CanGrant(granted, r);
      var g :| g in granted && Covers(g, r);
      CoversSound(g, r, a);
    }
  }
}
