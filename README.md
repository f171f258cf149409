# RBAC permission-coverage validator, in Dafny

This project models the RBAC validator of the cert-manager operator
(`pkg/controller/deployment/rbac_validator.go`). The validator holds the
`PolicyRule`s the operator has been granted. Before the operator creates a
role, the validator decides whether that role asks for more than the operator
holds: creating it would then be a privilege escalation. It also lists the
rules that are not covered and renders them as `//+kubebuilder:rbac:` markers,
which a developer adds to the operator's controller to request the missing
permissions.

Layout, one module per concept:

- `wrappers.dfy` (`Wrappers`): `Option`, standing for a Go `error` that may be nil.
- `strings.dfy` (`Strings`): `Join`, which is Go's `strings.Join`, and `Split`, an
  inverse used only to state the round trip of a marker.
- `policy.dfy` (`Policy`): the `PolicyRule` and `Role` values and the coverage
  relation. `Contains` is `sliceContains`, `Covers` is `ruleCovers` and
  `CanGrant` is `operatorCanGrant`. The module also gives a reading of what a
  rule allows (`Access`, `Permits`), used to state when coverage is sound.
- `validation.dfy` (`Validation`): the specification functions `Validate`,
  `ValidateAll` and `Missing`, the structured error `RoleError`, and what they promise.
- `annotation.dfy` (`Annotation`): `Render`, the marker string for one rule, and
  `Parse`, which reads a marker back. For every `Renderable` rule it proves
  the round trip, and that granting the parsed suggestions closes the gap.
  A rule is `Renderable` when its resources and verbs are non-empty, no
  value holds `,` or `;`, and no group holds `"`.
- `deployment.dfy` (`Deployment`): `class RBACValidator`. Its `operatorRules`
  field is a `const`: it is set by the constructor (`NewRBACValidator`) and
  never changed. Each method has the loops and early returns of the Go code
  and is proved equal to the specification function.
- `scenarios.dfy` (`Scenarios`): the cases of the unit and end-to-end tests,
  stated as lemmas. They cover the cert-manager token-request role before and
  after the operator was granted `serviceaccounts/token`.

Behaviour of the code that is easy to get wrong:

- Resource names are compared only when both rules list some
  (`rbac_validator.go:62`). So a granted rule restricted to some names also
  covers a request for every object. A stricter reading, in which a
  name-restricted grant does not cover an unrestricted request, is not what
  the code does. `CoversUnnamedRequest`
  states what the code does. `CoversNamedGrantEscalates` shows the
  consequence: a request that this rule covers allows an access the granted
  rule does not. `CoversSound` and `ValidatedRoleIsSound` prove that, for
  resource rules, this is the only way coverage lets a role allow more than
  the operator holds.
- The core-group token `""` is written whenever the joined groups are
  empty. That happens for no groups and for the single group `""`, not only
  for an empty group list.

## Model

| member | source | states |
|---|---|---|
| `Strings.JoinEmptyIff` | pkg/controller/deployment/rbac_validator.go:123-126 | A `;`-join is empty exactly for no elements or the single element `""`, which are the cases that get the core-group token |
| `Strings.JoinAvoids` | pkg/controller/deployment/rbac_validator.go:123-135 | A character found in neither the elements nor the separator is not in the join |
| `Strings.SplitJoin` | pkg/controller/deployment/rbac_validator.go:123-135 | Splitting a join gives back the original non-empty list when no element contains the separator |
| `Strings.JoinSplit` | pkg/controller/deployment/rbac_validator.go:123-135 | Joining the pieces of a split gives back the original string |
| `Policy.ContainsAsSets` | pkg/controller/deployment/rbac_validator.go:72-86 | Containment holds iff nothing is required, or the granted list holds `*`, or every required value is listed |
| `Policy.ContainsRequiredWildcard` | pkg/controller/deployment/rbac_validator.go:76 | `*` is a wildcard only on the granted side; a required `*` needs a granted `*` |
| `Policy.ContainsNothingGranted` | pkg/controller/deployment/rbac_validator.go:72-86 | An empty granted list contains only the empty requirement |
| `Policy.ContainsPreorder` | pkg/controller/deployment/rbac_validator.go:72-86 | Containment is reflexive and transitive, wildcards included |
| `Policy.CoversReflexive` | pkg/controller/deployment/rbac_validator.go:45-69 | Every rule covers itself (exact-match sufficiency) |
| `Policy.CoversWildcardRule` | pkg/controller/deployment/rbac_validator.go:45-69 | The rule with `*` groups, resources and verbs and no names covers every rule |
| `Policy.CoversNoSubresourceInference` | pkg/controller/deployment/rbac_validator.go:51-54 | A requested resource token that the grant neither lists nor wildcards is not covered, so `serviceaccounts` does not imply `serviceaccounts/token` |
| `Policy.CoversUnnamedGrant` | pkg/controller/deployment/rbac_validator.go:61-66 | A granted rule without names ignores the request's names |
| `Policy.CoversUnnamedRequest` | pkg/controller/deployment/rbac_validator.go:61-66 | A request without names ignores the granted rule's names, so a name-restricted grant covers it |
| `Policy.CoversBothNamed` | pkg/controller/deployment/rbac_validator.go:61-66 | When both rules list names, coverage requires name containment |
| `Policy.CanGrantNothingGranted` | pkg/controller/deployment/rbac_validator.go:35-42 | With no granted rules nothing is grantable, not even a rule with all lists empty |
| `Policy.CanGrantMonotone` | pkg/controller/deployment/rbac_validator.go:35-42 | Adding granted rules before or after never loses coverage |
| `Policy.CanGrantOrderFree` | pkg/controller/deployment/rbac_validator.go:35-42 | Reordering the granted rules (any list with the same multiset) does not change whether a rule is grantable |
| `Policy.CanGrantListed` | pkg/controller/deployment/rbac_validator.go:35-42 | A request that appears among the granted rules is grantable |
| `Policy.CoversSound` | pkg/controller/deployment/rbac_validator.go:45-69 | A covered request allows no access beyond the granted rule, unless a name-restricted grant covers an unrestricted request |
| `Policy.CoversNamedGrantEscalates` | pkg/controller/deployment/rbac_validator.go:61-66 | The excluded case does happen: a grant for one secret covers a request for all secrets |
| `Policy.CoversNotTransitive` | pkg/controller/deployment/rbac_validator.go:61-66 | Because of that asymmetry, coverage between rules is not transitive |
| `Policy.CanGrantIsPerRule` | pkg/controller/deployment/rbac_validator.go:35-42 | A request must fit inside one granted rule; two rules that together allow it do not grant it |
| `Validation.MessageMentions` | pkg/controller/deployment/rbac_validator.go:27-28 | The error text contains `missing permissions for` and the role's name |
| `Validation.ValidatePassesIff` | pkg/controller/deployment/rbac_validator.go:24-32 | A role passes iff every one of its rules is grantable; a role without rules passes |
| `Validation.ValidateReportsFirst` | pkg/controller/deployment/rbac_validator.go:24-32 | A failing role's error carries its name and the first ungrantable rule; all earlier rules are grantable |
| `Validation.MissingAppend` | pkg/controller/deployment/rbac_validator.go:106-116 | The missing-rule filter distributes over concatenation, so it keeps input order |
| `Validation.MissingIsSubsequence` | pkg/controller/deployment/rbac_validator.go:106-116 | The missing rules are a subsequence of the requested rules, returned verbatim |
| `Validation.MissingCounts` | pkg/controller/deployment/rbac_validator.go:106-116 | Each ungrantable rule appears as often as in the request, duplicates kept; no grantable rule appears |
| `Validation.MissingIdempotent` | pkg/controller/deployment/rbac_validator.go:106-116 | Filtering the missing rules again returns the same list |
| `Validation.MissingAgreesWithValidate` | pkg/controller/deployment/rbac_validator.go:106-116 | Nothing is missing iff the role validates; otherwise the first missing rule is the one in the error |
| `Validation.ValidateAllAppend` | pkg/controller/deployment/rbac_validator.go:95-103 | Aggregate validation distributes over concatenation of the role list, so errors come in role order |
| `Validation.ValidateAllReports` | pkg/controller/deployment/rbac_validator.go:95-103 | At most one error per role; no errors iff every role passes; each error is the one some input role reports |
| `Validation.ValidatedRoleIsSound` | pkg/controller/deployment/rbac_validator.go:24-42 | A validated role allows nothing the operator lacks, provided no name-restricted granted rule covers an unrestricted rule of the role |
| `Annotation.GroupsValueQuoted` | pkg/controller/deployment/rbac_validator.go:123-126 | The groups value is the `""` token for no groups or `[""]`, and the plain `;`-join otherwise |
| `Annotation.RenderParse` | pkg/controller/deployment/rbac_validator.go:119-143 | For a `Renderable` rule (non-empty resources and verbs, no `,` or `;` in any value, no `"` in groups), reading its marker gives back the rule, with empty groups read as the core group |
| `Annotation.CanonicalCovers` | pkg/controller/deployment/rbac_validator.go:123-126 | A rule's canonical form (empty groups read as the core group) covers the rule |
| `Annotation.MarkerCovers` | pkg/controller/deployment/rbac_validator.go:119-143 | For a `Renderable` rule, the rule its marker is read back as covers it |
| `Annotation.ParseAllCanonical` | pkg/controller/deployment/rbac_validator.go:119-143 | For `Renderable` rules, the suggestion list is read back one rule per marker, in order |
| `Annotation.SuggestionsCloseGap` | pkg/controller/deployment/rbac_validator_test.go:314-335 | When every missing rule is `Renderable`, granting the rules its suggestions read back as makes the role pass |
| `Deployment.RBACValidator.constructor` | pkg/controller/deployment/rbac_validator.go:17-21 | The validator stores the granted rules it is given; nil is the empty list |
| `Deployment.RBACValidator.SliceContains` | pkg/controller/deployment/rbac_validator.go:72-86 | The nested scan with its `found` flag returns exactly `Contains` |
| `Deployment.RBACValidator.RuleCovers` | pkg/controller/deployment/rbac_validator.go:45-69 | The chain of early returns returns exactly `Covers` |
| `Deployment.RBACValidator.OperatorCanGrant` | pkg/controller/deployment/rbac_validator.go:35-42 | The scan with early return returns exactly `CanGrant` over the stored rules |
| `Deployment.RBACValidator.ValidateRoleCreation` | pkg/controller/deployment/rbac_validator.go:24-32 | Returns no error or the error for the first ungrantable rule, exactly `Validate` |
| `Deployment.RBACValidator.ValidateAllRoles` | pkg/controller/deployment/rbac_validator.go:95-103 | The appending loop returns exactly `ValidateAll` |
| `Deployment.RBACValidator.GetMissingPermissions` | pkg/controller/deployment/rbac_validator.go:106-116 | The appending loop returns exactly `Missing` |
| `Deployment.RBACValidator.SuggestKubebuilderAnnotation` | pkg/controller/deployment/rbac_validator.go:119-143 | One marker per input rule, in order, each equal to `Render` of that rule, so the result is exactly `Suggestions`; the granted rules are not read |
| `Scenarios.TokenRequestRejectedBeforeFix` | pkg/controller/deployment/rbac_validator_test.go:18-40 | With only the `serviceaccounts` and `configmaps` rule of that case, the token-request role fails; the error names the role and the rule, and its text contains `missing permissions for` |
| `Scenarios.NotCoveredBeforeFix` | pkg/controller/deployment/rbac_validator_test.go:155-162 | The operator's rule from before the fix grants no request for `serviceaccounts/token` |
| `Scenarios.TokenRequestAcceptedAfterFix` | pkg/controller/deployment/rbac_validator_test.go:187-221 | After the fix the unnamed token rule covers the named request; the role passes and nothing is missing |
| `Scenarios.SubresourceListedAccepted` | pkg/controller/deployment/rbac_validator_test.go:41-62 | Listing the sub-resource beside its base resource is enough |
| `Scenarios.WrongVerbRejected` | pkg/controller/deployment/rbac_validator_test.go:84-105 | A token rule with only `get` and `list` does not cover `create` |
| `Scenarios.WildcardAccepted` | pkg/controller/deployment/rbac_validator_test.go:106-126 | The all-wildcard rule covers the token request |
| `Scenarios.MissingTokenRule` | pkg/controller/deployment/rbac_validator_test.go:224-257 | The one uncovered token rule is returned verbatim |
| `Scenarios.SuggestUnnamedTokenRule` | pkg/controller/deployment/rbac_validator_test.go:259-279 | The exact marker string the unit test expects |
| `Scenarios.SuggestNamedTokenRule` | pkg/controller/deployment/rbac_validator.go:134-137 | A rule with names gets the `,resourceNames=` clause, with the exact string |
| `Scenarios.AggregateKeepsOrder` | pkg/controller/deployment/rbac_validator.go:95-103 | For roles that fail, pass and fail, the result is exactly the first and third roles' errors, in that order |
| `Scenarios.EndToEndBeforeFix` | test/e2e/rbac_validation_test.go:262-311 | The operator from before the fix rejects the role; the missing rule is the request itself, and its suggestion is the named marker |
| `Scenarios.EndToEndAfterFix` | test/e2e/rbac_validation_test.go:313-358 | With the token rule added among three rules, the role passes |

## Left out

- `formatPolicyRule` and the `%v` rendering of `fmt.Errorf`: this is Go's `fmt` slice printing. `Message` takes the rendered rule as a parameter, and the error value carries the role name and the rule itself.
- The unused `createdRoles` field, and every `ObjectMeta` field of a role except `Name` (such as `Namespace`): the validator never reads them.
- Deployment.RBACValidator.constructor: `NewRBACValidator` keeps the caller's slice without copying it, so later writes by the caller to its elements are seen by the validator. The model stores an immutable sequence, a value, and does not capture that aliasing.
- `NonResourceURLs`: the validator never reads this field of `rbacv1.PolicyRule`, so it is not modelled; the soundness lemmas speak only of resource access. A rule that lists only non-resource URLs has empty groups and resources, which any granted rule contains.
- Go's distinction between nil and empty slices: both are the empty sequence, for inputs and for results.
- Deployment.RBACValidator.SuggestKubebuilderAnnotation: in Go it also works on a nil `*RBACValidator`. Dafny methods need a non-null receiver. The contract does not mention `operatorRules`, which states the same independence.
- Go strings are byte sequences; here they are `seq<char>`. Only equality and concatenation are used, so this makes no difference.
- The end-to-end test file's cluster access, environment and file probing, asset loading and YAML parsing: these are I/O and foreign libraries. Its wildcard and dangerous-verb scans are test heuristics, not validator behaviour.
- `Permits` reads `*` in `resourceNames` as a wildcard, following the validator's own convention. Kubernetes itself does not do this. The soundness lemmas are stated in this reading.
