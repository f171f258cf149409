/**
 * Rendering missing rules as kubebuilder RBAC markers, the suggestion a
 * developer pastes above a controller, and reading such a marker back.
 */
module Annotation {
  import opened Wrappers
  import opened Strings
  import opened Policy
  import opened Validation

  const MarkerPrefix: string := "//+kubebuilder:rbac:"
  /** The two-character token `""` that stands for the core API group. */
  const CoreGroupToken: string := "\"\""

  /** The groups value: the joined groups, or `""` when that join is empty. */
  function GroupsValue(groups: seq<string>): string
  {
    var joined := Join(groups, ";");
    if joined == "" then CoreGroupToken else joined
  }

  /** The marker for one rule: groups, resources, verbs and, only when there are names, resourceNames. */
  function Render(rule: PolicyRule): string
  {
    var base := MarkerPrefix + "groups=" + GroupsValue(rule.apiGroups)
      + ",resources=" + Join(rule.resources, ";") + ",verbs=" + Join(rule.verbs, ";");
    if |rule.resourceNames| > 0 then base + ",resourceNames=" + Join(rule.resourceNames, ";")
    else base
  }

  /** SuggestKubebuilderAnnotation: one marker per rule, in order. */
  function Suggestions(rules: seq<PolicyRule>): seq<string>
  {
    seq(|rules|, i requires 0 <= i < |rules| => Render(rules[i]))
  }

  // ---------------------------------------------------------------------
  // Reading a marker back

  /** The rest of `field` after `key`, when `field` starts with `key`. */
  function StripKey(field: string, key: string): Option<string>
  {
    if key <= field then Some(field[|key|..]) else None
  }

  /** A groups value: `""` is the core group, anything else a `;`-separated list. */
  function ParseGroups(value: string): seq<string>
  {
    if value == CoreGroupToken then [""] else Split(value, ';')
  }

  /** Reads back a marker of the shape Render produces. */
  function Parse(marker: string): Option<PolicyRule>
  {
    if !(MarkerPrefix <= marker) then None
    else
      var fields := Split(marker[|MarkerPrefix|..], ',');
      if |fields| != 3 && |fields| != 4 then None
      else
        var groups := StripKey(fields[0], "groups=");
        var resources := StripKey(fields[1], "resources=");
        var verbs := StripKey(fields[2], "verbs=");
        var names := if |fields| == 4 then StripKey(fields[3], "resourceNames=") else Some("");
        if groups.None? || resources.None? || verbs.None? || names.None? then None
        else
          Some(PolicyRule(
            ParseGroups(groups.value),
            Split(resources.value, ';'),
            Split(verbs.value, ';'),
            if |fields| == 4 then Split(names.value, ';') else []))
  }

  /** Reads back every marker, failing if one does not parse. */
  function ParseAll(markers: seq<string>): Option<seq<PolicyRule>>
  {
    if markers == [] then Some([])
    else
      match (Parse(markers[0]), ParseAll(markers[1..]))
      case (Some(r), Some(rs)) => Some([r] + rs)
      case _ => None
  }

  /** What a marker denotes: empty groups are written as, and read back as, the core group. */
  function Canonical(rule: PolicyRule): PolicyRule
  {
    if rule.apiGroups == [] then rule.(apiGroups := [""]) else rule
  }

  /** No value holds a separator of the marker syntax; there are resources and verbs. */
  predicate Renderable(rule: PolicyRule)
  {
    && rule.resources != [] && rule.verbs != []
    && (forall x :: x in rule.apiGroups ==> ',' !in x && ';' !in x && '"' !in x)
    && (forall x :: x in rule.resources ==> ',' !in x && ';' !in x)
    && (forall x :: x in rule.verbs ==> ',' !in x && ';' !in x)
    && (forall x :: x in rule.resourceNames ==> ',' !in x && ';' !in x)
  }

  // ---------------------------------------------------------------------
  // Properties of the rendering

  /** The core-group token is written exactly when the groups are empty or the core group alone. */
  lemma GroupsValueQuoted(groups: seq<string>)
    ensures GroupsValue(groups) == CoreGroupToken <==> groups == [] || groups == [""] || Join(groups, ";") == CoreGroupToken
    ensures groups == [] || groups == [""] ==> GroupsValue(groups) == CoreGroupToken
    ensures groups != [] && groups != [""] ==> GroupsValue(groups) == Join(groups, ";")
  {
  }

  /** A values list joined with `;`, read back. */
  lemma ListRoundTrip(xs: seq<string>)
    requires xs != []
    requires forall x :: x in xs ==> ',' !in x && ';' !in x
    ensures ',' !in Join(xs, ";") && Split(Join(xs, ";"), ';') == xs
  {
    JoinAvoids(xs, ";", ',');
    SplitJoin(xs, ';');
  }

  /** The groups value, read back, gives the canonical groups. */
  lemma GroupsRoundTrip(groups: seq<string>)
    requires forall x :: x in groups ==> ',' !in x && ';' !in x && '"' !in x
    ensures ',' !in GroupsValue(groups)
    ensures ParseGroups(GroupsValue(groups)) == Canonical(PolicyRule(groups, [], [], [])).apiGroups
  {
    JoinEmptyIff(groups, ";");
    if Join(groups, ";") != "" {
      JoinAvoids(groups, ";", '"');
      assert '"' in CoreGroupToken;
      ListRoundTrip(groups);
    }
  }

  /** The comma-separated fields of a rule's marker, in the order Render writes them. */
  function Fields(rule: PolicyRule): seq<string>
  {
    ["groups=" + GroupsValue(rule.apiGroups), "resources=" + Join(rule.resources, ";"),
     "verbs=" + Join(rule.verbs, ";")]
    + if |rule.resourceNames| > 0 then ["resourceNames=" + Join(rule.resourceNames, ";")] else []
  }

  /** A marker is the prefix followed by its fields joined with commas. */
  lemma RenderIsJoin(rule: PolicyRule)
    ensures Render(rule) == MarkerPrefix + Join(Fields(rule), ",")
  {
    var g, r, v := GroupsValue(rule.apiGroups), Join(rule.resources, ";"), Join(rule.verbs, ";");
    if |rule.resourceNames| > 0 {
      var n := Join(rule.resourceNames, ";");
      assert Fields(rule) == ["groups=" + g, "resources=" + r, "verbs=" + v, "resourceNames=" + n];
      NamedIsJoin(g, r, v, n);
    } else {
      assert Fields(rule) == ["groups=" + g, "resources=" + r, "verbs=" + v];
      BaseIsJoin(g, r, v);
    }
  }

  /** The three mandatory fields as Render writes them. */
  lemma BaseIsJoin(g: string, r: string, v: string)
    ensures MarkerPrefix + "groups=" + g + ",resources=" + r + ",verbs=" + v ==
            MarkerPrefix + Join(["groups=" + g, "resources=" + r, "verbs=" + v], ",")
  {
    JoinThree("groups=" + g, "resources=" + r, "verbs=" + v);
  }

  /** All four fields as Render writes them. */
  lemma NamedIsJoin(g: string, r: string, v: string, n: string)
    ensures MarkerPrefix + "groups=" + g + ",resources=" + r + ",verbs=" + v + ",resourceNames=" + n ==
            MarkerPrefix + Join(["groups=" + g, "resources=" + r, "verbs=" + v, "resourceNames=" + n], ",")
  {
    JoinFour("groups=" + g, "resources=" + r, "verbs=" + v, "resourceNames=" + n);
  }

  /** Three fields joined with commas. */
  lemma JoinThree(f0: string, f1: string, f2: string)
    ensures Join([f0, f1, f2], ",") == f0 + "," + (f1 + "," + f2)
  {
    assert [f0, f1, f2][1..] == [f1, f2];
    assert [f1, f2][1..] == [f2];
    assert Join([f2], ",") == f2;
    assert Join([f1, f2], ",") == f1 + "," + f2;
  }

  /** Four fields joined with commas. */
  lemma JoinFour(f0: string, f1: string, f2: string, f3: string)
    ensures Join([f0, f1, f2, f3], ",") == f0 + "," + (f1 + "," + (f2 + "," + f3))
  {
    assert [f0, f1, f2, f3][1..] == [f1, f2, f3];
    JoinThree(f1, f2, f3);
  }

  /** Under Renderable no field holds a comma. */
  lemma FieldsCommaFree(rule: PolicyRule)
    requires Renderable(rule)
    ensures forall f :: f in Fields(rule) ==> ',' !in f
  {
    var fs := Fields(rule);
    GroupsRoundTrip(rule.apiGroups);
    JoinAvoids(rule.resources, ";", ',');
    JoinAvoids(rule.verbs, ";", ',');
    JoinAvoids(rule.resourceNames, ";", ',');
    KeyedCommaFree("groups=", GroupsValue(rule.apiGroups));
    KeyedCommaFree("resources=", Join(rule.resources, ";"));
    KeyedCommaFree("verbs=", Join(rule.verbs, ";"));
    KeyedCommaFree("resourceNames=", Join(rule.resourceNames, ";"));
    forall i | 0 <= i < |fs| ensures ',' !in fs[i] { }
  }

  /** A key followed by a comma-free value holds no comma; no key does. */
  lemma KeyedCommaFree(key: string, value: string)
    requires key in {"groups=", "resources=", "verbs=", "resourceNames="}
    requires ',' !in value
    ensures ',' !in key + value
  {
  }

  /** Stripping a key from `key + value` gives the value. */
  lemma StripKeyConcat(key: string, value: string)
    ensures StripKey(key + value, key) == Some(value)
  {
  }

  /** Every renderable rule is read back from its marker, up to the core-group spelling. */
  lemma RenderParse(rule: PolicyRule)
    requires Renderable(rule)
    ensures Parse(Render(rule)) == Some(Canonical(rule))
  {
    var fs := Fields(rule);
    RenderIsJoin(rule);
    FieldsCommaFree(rule);
    SplitJoin(fs, ',');
    var marker := Render(rule);
    assert marker[|MarkerPrefix|..] == Join(fs, ",");
    assert Split(marker[|MarkerPrefix|..], ',') == fs;
    StripKeyConcat("groups=", GroupsValue(rule.apiGroups));
    StripKeyConcat("resources=", Join(rule.resources, ";"));
    StripKeyConcat("verbs=", Join(rule.verbs, ";"));
    GroupsRoundTrip(rule.apiGroups);
    ListRoundTrip(rule.resources);
    ListRoundTrip(rule.verbs);
    if |rule.resourceNames| > 0 {
      StripKeyConcat("resourceNames=", Join(rule.resourceNames, ";"));
      ListRoundTrip(rule.resourceNames);
    }
  }

  /** A rule's canonical form covers it: asking for the core group where no group was listed only widens the grant. */
  lemma CanonicalCovers(rule: PolicyRule)
    ensures Covers(Canonical(rule), rule)
  {
  }

  /** What the marker of a renderable rule is read back as covers that rule. */
  lemma MarkerCovers(rule: PolicyRule)
    requires Renderable(rule)
    ensures Parse(Render(rule)).Some? && Covers(Parse(Render(rule)).value, rule)
  {
    RenderParse(rule);
  }

  /**
   * Granting the operator what the suggestions read back as makes the role
   * pass: the markers are enough to close every gap GetMissingPermissions finds.
   */
  lemma SuggestionsCloseGap(granted: seq<PolicyRule>, role: Role)
    requires forall r :: r in Missing(granted, role.rules) ==> Renderable(r)
    ensures ParseAll(Suggestions(Missing(granted, role.rules))).Some?
    ensures Validate(granted + ParseAll(Suggestions(Missing(granted, role.rules))).value, role) == None
  {
    var missing := Missing(granted, role.rules);
    var parsed := ParseAllCanonical(missing);
    forall i | 0 <= i < |role.rules| ensures CanGrant(granted + parsed, role.rules[i]) {
      var rule := role.rules[i];
      if CanGrant(granted, rule) {
        CanGrantMonotone(granted, parsed, rule);
      } else {
        MissingCounts(granted, role.rules, rule);
        assert rule in multiset(role.rules);
        assert rule in missing;
        var k :| 0 <= k < |missing| && missing[k] == rule;
        assert parsed[k] == Canonical(rule);
        CanonicalCovers(rule);
        assert parsed[k] in granted + parsed;
      }
    }
    ValidatePassesIff(granted + parsed, role);
  }

  /** The suggestions for renderable rules read back as their canonical forms, one per rule. */
  lemma {:induction false} ParseAllCanonical(rules: seq<PolicyRule>) returns (parsed: seq<PolicyRule>)
    requires forall r :: r in rules ==> Renderable(r)
    ensures ParseAll(Suggestions(rules)) == Some(parsed)
    ensures |parsed| == |rules| && forall k :: 0 <= k < |rules| ==> parsed[k] == Canonical(rules[k])
    decreases |rules|
  {
    if rules == [] {
      parsed := [];
    } else {
      var markers := Suggestions(rules);
      assert markers[1..] == Suggestions(rules[1..]);
      var rest := ParseAllCanonical(rules[1..]);
      RenderParse(rules[0]);
      parsed := [Canonical(rules[0])] + rest;
    }
  }
}
