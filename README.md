# Optimizely Java SDK: audience evaluation and flag decisions in Dafny

This project models three parts of the Optimizely Java SDK and proves properties about them:

- **Audience condition trees.** `AudienceIdCondition`, `UserAttribute`, `AndCondition`, `OrCondition` and `NotCondition` are evaluated in three-valued logic: true, false, or unknown (Java `null`). AND and OR short-circuit. An exception from a leaf stops the enclosing evaluation (`condition_tree.dfy`). The cases of `AudienceConditionEvaluationTest` are restated as lemmas (`condition_cases.dfy`).
- **The audience resolver `ExperimentUtils`.** It covers:
  - whether an experiment is running;
  - the implicit OR over an experiment's audience ids;
  - the condition-tree path and its caught exceptions;
  - `doesUserMeetAudienceConditions`, which combines the two paths (`experiment_utils.dfy`).
- **Decision orchestration in `OptimizelyUserContext`.** A user context is a class holding a user id and an attribute map that `setAttribute` updates in place. `decide`, `decideForKeys` and `decideAll` are methods that send impressions and publish notifications through the host `Optimizely` object (`user_context.dfy`). `getDecisionVariableMap` is a loop proved against the function `ResolveVariables`. `decide` is proved against the function `Decided`, which states what the decision, the impression and the notification are. The properties are lemmas about those functions.

The decision reasons log, the decide options and the `toReport` filter are in `decision_reasons.dfy`. `Option` is in `nullable.dfy`.

Collaborators whose code is not part of this model are parameters:

- the concrete match strategies (a `Matcher` function);
- the decision service `getVariationForFeature` (an `Allocator` function);
- `convertStringToType` (a `Converter` function);
- the project configuration.

The impression dispatcher and the notification center are modelled as append-only sequences on the `Optimizely` object.

## Model

| member | source | states |
|---|---|---|
| DecisionReasons.LogInfo | core-api/src/main/java/com/optimizely/ab/internal/ExperimentUtils.java:56 | an info reason is appended to a present log; a null log stays null |
| DecisionReasons.LogError | core-api/src/main/java/com/optimizely/ab/internal/ExperimentUtils.java:172 | an error reason is appended to a present log; a null log stays null |
| DecisionReasons.ToReport | core-api/src/main/java/com/optimizely/ab/optimizelyusercontext/OptimizelyUserContext.java:150 | with INCLUDE_REASONS, every reason's message in log order; without it, exactly the error messages (a message is reported iff an error with it is in the log) |
| DecisionReasons.ToReportAppend | core-api/src/main/java/com/optimizely/ab/optimizelyusercontext/OptimizelyUserContext.java:150 | reporting a log built in two parts is reporting each part, in order |
| ConditionTree.Evaluate | core-api/src/test/java/com/optimizely/ab/config/audience/AudienceConditionEvaluationTest.java:64-215 | an audience id with no audience is unknown; a leaf is its match; an empty OR is false and an empty AND is true |
| ConditionTree.EvaluateOr | core-api/src/test/java/com/optimizely/ab/config/audience/AudienceConditionEvaluationTest.java:131-172 | an empty OR is false; true only if some operand is true; an exception is the exception of some operand |
| ConditionTree.EvaluateAnd | core-api/src/test/java/com/optimizely/ab/config/audience/AudienceConditionEvaluationTest.java:174-215 | an empty AND is true; false only if some operand is false; an exception is the exception of some operand |
| ConditionTree.InvertInvolution | core-api/src/test/java/com/optimizely/ab/config/audience/AudienceConditionEvaluationTest.java:108-129 | ternary negation is its own inverse and maps unknown only to unknown |
| ConditionTree.ExactMatch | core-api/src/test/java/com/optimizely/ab/config/audience/AudienceConditionEvaluationTest.java:64-103 | the legacy match never yields unknown; a non-null expected value matches iff the attribute is present and equal; a null expected value matches iff the attribute is absent or null |
| ConditionTree.EvaluateLeaf | core-api/src/main/java/com/optimizely/ab/config/audience/match/UnexpectedValueTypeException.java:20-30 | without a match name the leaf is the exact match; an unexpected value type from a strategy gives unknown; the leaf throws iff its strategy raises another exception |
| ConditionTree.NotInverts | core-api/src/test/java/com/optimizely/ab/config/audience/AudienceConditionEvaluationTest.java:105-129 | NOT inverts its operand's result and passes its exception through |
| ConditionTree.OrIsKleeneDisjunction | core-api/src/test/java/com/optimizely/ab/config/audience/AudienceConditionEvaluationTest.java:131-172 | with no throwing operand, OR is true iff some operand is true, false iff all are false, and unknown otherwise |
| ConditionTree.AndIsKleeneConjunction | core-api/src/test/java/com/optimizely/ab/config/audience/AudienceConditionEvaluationTest.java:174-215 | with no throwing operand, AND is false iff some operand is false, true iff all are true, and unknown otherwise |
| ConditionTree.OrIsKleeneFold | core-api/src/test/java/com/optimizely/ab/config/audience/AudienceConditionEvaluationTest.java:131-172 | with no throwing operand, OR returns the Kleene disjunction (`Or3`) of its operands' results folded right from false |
| ConditionTree.AndIsKleeneFold | core-api/src/test/java/com/optimizely/ab/config/audience/AudienceConditionEvaluationTest.java:174-215 | with no throwing operand, AND returns the Kleene conjunction (`And3`) of its operands' results folded right from true |
| ConditionTree.OrVisited | core-api/src/test/java/com/optimizely/ab/config/audience/AudienceConditionEvaluationTest.java:148-150 | OR evaluates at least one and at most all of its operands |
| ConditionTree.AndVisited | core-api/src/test/java/com/optimizely/ab/config/audience/AudienceConditionEvaluationTest.java:212-214 | AND evaluates at least one and at most all of its operands |
| ConditionTree.OrIgnoresUnvisited | core-api/src/test/java/com/optimizely/ab/config/audience/AudienceConditionEvaluationTest.java:146-150 | operands after the point where OR stops cannot change its outcome, whatever they are |
| ConditionTree.AndIgnoresUnvisited | core-api/src/test/java/com/optimizely/ab/config/audience/AudienceConditionEvaluationTest.java:210-214 | operands after the point where AND stops cannot change its outcome, whatever they are |
| ConditionTree.OrShortCircuit | core-api/src/test/java/com/optimizely/ab/config/audience/AudienceConditionEvaluationTest.java:134-172 | a true first operand is the only one evaluated and makes OR true; all-false operands are each evaluated and make it false |
| ConditionTree.AndShortCircuit | core-api/src/test/java/com/optimizely/ab/config/audience/AudienceConditionEvaluationTest.java:177-215 | a false first operand is the only one evaluated and makes AND false; all-true operands are each evaluated and make it true |
| ConditionCases.UserAttributeEvaluateTrue | core-api/src/test/java/com/optimizely/ab/config/audience/AudienceConditionEvaluationTest.java:64-85 | equal string, nested map, boolean, double and integer attributes match |
| ConditionCases.UserAttributeEvaluateFalse | core-api/src/test/java/com/optimizely/ab/config/audience/AudienceConditionEvaluationTest.java:90-103 | a different value and an absent attribute do not match |
| ConditionCases.NullValueEvaluate | core-api/src/test/java/com/optimizely/ab/config/audience/AudienceConditionEvaluationTest.java:225-239 | a null expected value matches an empty map and a null value but not the empty string |
| ConditionCases.NotConditionEvaluate | core-api/src/test/java/com/optimizely/ab/config/audience/AudienceConditionEvaluationTest.java:108-129 | NOT of a false leaf is true and NOT of a true leaf is false |
| ConditionCases.OrConditionEvaluate | core-api/src/test/java/com/optimizely/ab/config/audience/AudienceConditionEvaluationTest.java:134-172 | OR(true, false) is true after one operand; OR(false, false) is false after two |
| ConditionCases.AndConditionEvaluate | core-api/src/test/java/com/optimizely/ab/config/audience/AudienceConditionEvaluationTest.java:177-215 | AND(true, true) is true after two operands; AND(false, true) is false after one |
| ConditionCases.TernaryPropagation | core-api/src/test/java/com/optimizely/ab/config/audience/AudienceConditionEvaluationTest.java:134-215 | with an unknown operand, AND with true is unknown, AND with false is false, OR with false is unknown, OR with true is true |
| ExperimentUtils.FormatBoolean | core-api/src/main/java/com/optimizely/ab/internal/ExperimentUtils.java:141 | `%b` prints "true" only for true; unknown (null) prints "false" |
| ExperimentUtils.IsExperimentActive | core-api/src/main/java/com/optimizely/ab/internal/ExperimentUtils.java:51-61 | the result is the experiment's running flag; only a stopped experiment logs the "not running" info |
| ExperimentUtils.ImplicitOr | core-api/src/main/java/com/optimizely/ab/internal/ExperimentUtils.java:129-135 | an OR with one audience-id condition per id, in order |
| ExperimentUtils.EvaluateAudience | core-api/src/main/java/com/optimizely/ab/internal/ExperimentUtils.java:115-144 | empty ids admit the user without evaluating anything; otherwise the implicit OR's outcome, logged as info when it returns; an exception escapes with the log unchanged |
| ExperimentUtils.ImplicitOrSemantics | core-api/src/main/java/com/optimizely/ab/internal/ExperimentUtils.java:129-139 | the implicit OR is true iff some id names a configured audience that is true, and false iff every id names a configured audience that is false |
| ExperimentUtils.EvaluateAudienceConditions | core-api/src/main/java/com/optimizely/ab/internal/ExperimentUtils.java:156-175 | no tree gives null; a tree's result is returned and logged as info; a caught exception gives null and logs "Condition invalid: " with its message |
| ExperimentUtils.DoesUserMeetAudienceConditions | core-api/src/main/java/com/optimizely/ab/internal/ExperimentUtils.java:79-94 | with a tree, the user qualifies iff it is true; without one, iff the ids are empty or their OR is true; it throws iff the OR path throws; the caller's log is untouched |
| ExperimentUtils.EmptyAudienceAdmitsEveryone | core-api/src/main/java/com/optimizely/ab/internal/ExperimentUtils.java:124-127 | an experiment with no ids and no tree admits every attribute map |
| UserContext.FlagKeyInvalidMessage | core-api/src/main/java/com/optimizely/ab/optimizelyusercontext/OptimizelyUserContext.java:299-301 | the FLAG_KEY_INVALID template with the key between its quotes |
| UserContext.VariableValueInvalidMessage | core-api/src/main/java/com/optimizely/ab/optimizelyusercontext/OptimizelyUserContext.java:303-305 | the VARIABLE_VALUE_INVALID template with the variable key between its quotes |
| UserContext.FlagKeyInvalidMessageInjective | core-api/src/main/java/com/optimizely/ab/optimizelyusercontext/OptimizelyUserContext.java:44 | two flag keys with the same FLAG_KEY_INVALID message are equal |
| UserContext.ErrorDecision | core-api/src/main/java/com/optimizely/ab/optimizelyusercontext/OptimizelyUserContext.java:93-101 | an error decision has no variation, no rule, no variables, is disabled and carries the one message |
| UserContext.AllOptions | core-api/src/main/java/com/optimizely/ab/optimizelyusercontext/OptimizelyUserContext.java:293-297 | the defaults followed by the call's options; an option is present iff it is in either |
| UserContext.RawValue | core-api/src/main/java/com/optimizely/ab/optimizelyusercontext/OptimizelyUserContext.java:313-319 | the variation's override when the flag is enabled and one exists, the default value otherwise |
| UserContext.ConversionErrorsAppend | core-api/src/main/java/com/optimizely/ab/optimizelyusercontext/OptimizelyUserContext.java:312-329 | the errors for a list extended by one variable are the old errors followed by that variable's |
| UserContext.ConversionErrorsListFailures | core-api/src/main/java/com/optimizely/ab/optimizelyusercontext/OptimizelyUserContext.java:321-323 | each variable whose value does not convert has its VARIABLE_VALUE_INVALID error listed |
| UserContext.ConversionErrorsSound | core-api/src/main/java/com/optimizely/ab/optimizelyusercontext/OptimizelyUserContext.java:321-323 | every listed entry is an error naming a variable whose value does not convert |
| UserContext.ConversionErrorsExactly | core-api/src/main/java/com/optimizely/ab/optimizelyusercontext/OptimizelyUserContext.java:321-323 | the list holds only errors, and an error is listed iff some variable with that key fails to convert |
| UserContext.ResolveVariables | core-api/src/main/java/com/optimizely/ab/optimizelyusercontext/OptimizelyUserContext.java:307-332 | the log grows by exactly one error per failed conversion, in declaration order |
| UserContext.ResolveVariablesKeys | core-api/src/main/java/com/optimizely/ab/optimizelyusercontext/OptimizelyUserContext.java:312-328 | the map has an entry for a key iff some declared variable has that key |
| UserContext.ResolveVariablesValues | core-api/src/main/java/com/optimizely/ab/optimizelyusercontext/OptimizelyUserContext.java:312-328 | each key holds the converted raw value of the last variable with it, or null when conversion fails |
| UserContext.ResolveVariablesMapIgnoresLog | core-api/src/main/java/com/optimizely/ab/optimizelyusercontext/OptimizelyUserContext.java:312-328 | the variable map does not depend on the log the errors are appended to |
| UserContext.VariableMapAsWritten | core-api/src/main/java/com/optimizely/ab/optimizelyusercontext/OptimizelyUserContext.java:307-332 | the code as written throws only with a null log and a non-empty variable list; when it returns, its log is null iff the given one was |
| UserContext.VariableMapAsWrittenCharacterised | core-api/src/main/java/com/optimizely/ab/optimizelyusercontext/OptimizelyUserContext.java:321-323 | with a log, the code as written agrees with `ResolveVariables`; with a null log, it throws iff some variable fails to convert, and otherwise returns `ResolveVariables`' map and a null log |
| UserContext.NullReasonsLogThrows | core-api/src/main/java/com/optimizely/ab/optimizelyusercontext/OptimizelyUserContext.java:140-145 | with no options, a flag whose one variable fails to convert throws in the code as written |
| UserContext.Decided | core-api/src/main/java/com/optimizely/ab/optimizelyusercontext/OptimizelyUserContext.java:90-178 | no configuration and an unknown key give error decisions with no effects. Otherwise: enabled iff the chosen variation enables the feature; variation and rule keys from the allocation; an impression iff a feature test chose a variation and DISABLE_DECISION_EVENT is absent; no variables with EXCLUDE_VARIABLES; one notification mirroring the decision |
| UserContext.DecideResolvesVariables | core-api/src/main/java/com/optimizely/ab/optimizelyusercontext/OptimizelyUserContext.java:139-146 | without EXCLUDE_VARIABLES the decision has exactly the flag's variable keys, each resolved from the chosen variation |
| UserContext.DecideReportsConversionErrors | core-api/src/main/java/com/optimizely/ab/optimizelyusercontext/OptimizelyUserContext.java:139-150 | every variable that fails to convert appears in the reported reasons, with or without INCLUDE_REASONS |
| UserContext.DecidedLog | core-api/src/main/java/com/optimizely/ab/optimizelyusercontext/OptimizelyUserContext.java:106-150 | the reported reasons are `toReport` of the allocator's reasons (only with INCLUDE_REASONS), then the "not included in an experiment" info for a non-feature-test variation, then the conversion errors (none with EXCLUDE_VARIABLES) |
| UserContext.DecideReasonsWithIncludeReasons | core-api/src/main/java/com/optimizely/ab/optimizelyusercontext/OptimizelyUserContext.java:106-150 | with INCLUDE_REASONS the reported reasons are the allocator's messages, then the "not included in an experiment" info when the variation came from a rollout, then the conversion errors unless EXCLUDE_VARIABLES; a rollout variation always reports that info |
| UserContext.DecideReasonsWithoutIncludeReasons | core-api/src/main/java/com/optimizely/ab/optimizelyusercontext/OptimizelyUserContext.java:106-150 | without INCLUDE_REASONS the reported reasons are exactly the conversion errors (none with EXCLUDE_VARIABLES); allocator reasons and infos are dropped |
| UserContext.DecidedAsWritten | core-api/src/main/java/com/optimizely/ab/optimizelyusercontext/OptimizelyUserContext.java:90-178 | `decide` as written: when it throws, no notification is published; when it returns for a known flag, a notification is |
| UserContext.DecidedAsWrittenCharacterised | core-api/src/main/java/com/optimizely/ab/optimizelyusercontext/OptimizelyUserContext.java:106-166 | `decide` as written throws iff the flag is known, INCLUDE_REASONS and EXCLUDE_VARIABLES are both absent and some variable fails to convert; it then has already sent `Decided`'s impression and publishes no notification; otherwise it does exactly what `Decided` states |
| UserContext.DecideThrowsAfterImpression | core-api/src/main/java/com/optimizely/ab/optimizelyusercontext/OptimizelyUserContext.java:116-145 | a feature-test variation with one unconvertible variable and no options: `decide` as written throws after sending the impression, with no notification, while `Decided` reports the VARIABLE_VALUE_INVALID message |
| UserContext.CollectDecisions | core-api/src/main/java/com/optimizely/ab/optimizelyusercontext/OptimizelyUserContext.java:210-219 | only requested keys appear, each with its own decision; with ENABLED_FLAGS_ONLY (default or per call) a key appears iff requested and enabled, otherwise iff requested |
| UserContext.DecideForKeysStep | core-api/src/main/java/com/optimizely/ab/optimizelyusercontext/OptimizelyUserContext.java:214-219 | one more key extends the collected decisions, impressions and notifications by that key's decision, impression and notification |
| UserContext.OneNotificationPerKnownKey | core-api/src/main/java/com/optimizely/ab/optimizelyusercontext/OptimizelyUserContext.java:214-219 | one notification per requested key that names a flag, in request order |
| UserContext.DecideKeysWith | core-api/src/main/java/com/optimizely/ab/optimizelyusercontext/OptimizelyUserContext.java:214-219 | the loop over a per-key `decide` that stops at the first key that throws: at most one impression and one notification per key, and the key that throws publishes none |
| UserContext.DecideKeysWithThrowsAtKey | core-api/src/main/java/com/optimizely/ab/optimizelyusercontext/OptimizelyUserContext.java:214-219 | a key whose `decide` throws makes the loop throw |
| UserContext.DecideKeysWithStops | core-api/src/main/java/com/optimizely/ab/optimizelyusercontext/OptimizelyUserContext.java:214-219 | a loop that throws does so at the first key whose `decide` throws; the keys before it completed, and the effects are theirs plus that key's impression |
| UserContext.DecideKeysAsWritten | core-api/src/main/java/com/optimizely/ab/optimizelyusercontext/OptimizelyUserContext.java:200-222 | `decideForKeys` as written, with a configuration: at most one impression and one notification per key, none published by a key that throws |
| UserContext.DecideKeysAsWrittenThrows | core-api/src/main/java/com/optimizely/ab/optimizelyusercontext/OptimizelyUserContext.java:214-219 | `decideForKeys` as written throws iff `decide` as written throws for some key |
| UserContext.DecideKeysAsWrittenStops | core-api/src/main/java/com/optimizely/ab/optimizelyusercontext/OptimizelyUserContext.java:214-219 | when it throws, it does so at the first such key, after the impressions of the keys before it and that key's own impression, and after the notifications of the keys before it only |
| UserContext.DecideKeysAsWrittenReturns | core-api/src/main/java/com/optimizely/ab/optimizelyusercontext/OptimizelyUserContext.java:210-221 | when it returns, it returns `CollectDecisions`' map and sends `ImpressionsFor`'s impressions and `NotificationsFor`'s notifications |
| UserContext.FlagKeys | core-api/src/main/java/com/optimizely/ab/optimizelyusercontext/OptimizelyUserContext.java:249-251 | the flag keys in declaration order |
| UserContext.Optimizely.SendImpression | core-api/src/main/java/com/optimizely/ab/optimizelyusercontext/OptimizelyUserContext.java:121-126 | appends exactly the impression |
| UserContext.Optimizely.SendNotification | core-api/src/main/java/com/optimizely/ab/optimizelyusercontext/OptimizelyUserContext.java:166 | appends exactly the notification |
| UserContext.OptimizelyUserContext.constructor | core-api/src/main/java/com/optimizely/ab/optimizelyusercontext/OptimizelyUserContext.java:47-53 | the context holds the host, the user id and its own copy of the attributes |
| UserContext.OptimizelyUserContext.SetAttribute | core-api/src/main/java/com/optimizely/ab/optimizelyusercontext/OptimizelyUserContext.java:77-79 | puts or overwrites exactly one key |
| UserContext.OptimizelyUserContext.CopyAttributes | core-api/src/main/java/com/optimizely/ab/optimizelyusercontext/OptimizelyUserContext.java:289-291 | the copy has the same keys and values as the attributes |
| UserContext.OptimizelyUserContext.GetDecisionVariableMap | core-api/src/main/java/com/optimizely/ab/optimizelyusercontext/OptimizelyUserContext.java:307-332 | the loop builds the map and the log that `ResolveVariables` describes |
| UserContext.OptimizelyUserContext.Decide | core-api/src/main/java/com/optimizely/ab/optimizelyusercontext/OptimizelyUserContext.java:90-178 | returns `Decided`'s decision for the state at the call, sends its impression if any, and publishes its notification if any |
| UserContext.OptimizelyUserContext.DecideForKeys | core-api/src/main/java/com/optimizely/ab/optimizelyusercontext/OptimizelyUserContext.java:200-222 | with no configuration: an empty map and no effects; otherwise the `CollectDecisions` map, with the impressions and notifications of each key in order |
| UserContext.OptimizelyUserContext.DecideAll | core-api/src/main/java/com/optimizely/ab/optimizelyusercontext/OptimizelyUserContext.java:240-254 | `DecideForKeys` over every flag key in declaration order; with no configuration, an empty map and no effects |
| UserContext.AttributeCopiesAreIndependent | core-api/src/main/java/com/optimizely/ab/optimizelyusercontext/OptimizelyUserContext.java:47-53 | a copy taken before `setAttribute` keeps the old attributes while the context gets the new key |

Where the SDK's documentation and the code differ, the model follows the code and its tests:

- **Absent attribute.** An absent attribute with a non-null expected value is false, as `userAttributeUnknownAttribute` asserts, not unknown.
- **Error decisions.** For a missing configuration or an unknown flag key, `decide` returns before publishing a notification.

## Left out

- The evaluation rules of the condition classes (`AndCondition`, `OrCondition`, `NotCondition`, `UserAttribute`, `AudienceIdCondition`) are taken from the cases of `AudienceConditionEvaluationTest` and the SDK's documented three-valued semantics, not from the classes' own code.
- DecisionReasons.ToReport: the code of `DecisionReasons` is not part of this model; its one use (line 150) only shows that it receives the merged options. Reporting only the errors without INCLUDE_REASONS follows the SDK's documented reasons contract. Keeping infos and errors in one log, reported in the order they were added, is an assumption of the model: a `DecisionReasons` that keeps them in two lists would report the errors first. `UserContext.DecideReasonsWithIncludeReasons` and `UserContext.DecidedLog` state that single-log order and depend on this assumption.
- `OptimizelyDecision.createErrorDecision` is modelled from its call sites as a decision with no variation, no rule, no variables and the one message.
- ConditionTree.Evaluate: requires that no audience definition refers to another audience by id. Without that, the Java evaluation need not terminate. Nested audience references are therefore not modelled.
- ConditionTree.EvaluateLeaf: the concrete match strategies (exact, exists, substring, numeric and semantic-version comparisons) are a `Matcher` parameter. Only the legacy exact match is modelled.
- Numbers are `Int` (unbounded integers) and `Dbl` (mathematical reals), which equality keeps apart. Lost are the distinctions Java makes within each: `Integer` against `Long`, `Float` against `Double`, and NaN and −0.0.
- The `Decision` record holds the user id. In the SDK the decision holds the user context itself (lines 95, 100 and 176), so later `setAttribute` calls show through a decision already returned; the model does not capture that aliasing.
- `DecisionService.getVariationForFeature`, `Optimizely.convertStringToType`, `sendImpression` and the notification center are collaborators, not modelled code. The allocator is a function of the copied attribute map, so aliasing through it is not modelled.
- The conversion of `OptimizelyJSON` values to maps (line 324) is left to the `Converter`: its results are already plain values.
- The `OptimizelyJSON` wrapper of the variable map is not modelled; the decision holds the map itself.
- Logging to the SLF4J logger is not modelled, since it has no effect on results.
- `trackEvent` only forwards to `Optimizely.track`, whose code is not part of this model.
- `equals` and `hashCode` are not modelled. Dafny compares datatypes structurally, and the class is compared by reference.
- The one-argument overloads of `decide`, `decideForKeys` and `decideAll` pass empty options, and the five-argument overloads in `ExperimentUtils` pass a null log. They are not modelled separately. `trackEvent(eventName)` (lines 283-285) passes an empty event-tag map to `trackEvent`, which is not modelled.
- `getAttributes` returns the live map, so a caller can change it without `setAttribute`. The model keeps the attributes in a field that only `setAttribute` changes.
- UserContext.OptimizelyUserContext.Decide: uses the always-logged variable map (see Findings), so its contract states the corrected behaviour. `DecidedAsWritten` and `DecidedAsWrittenCharacterised` state the code as written.
- UserContext.Decided: states the corrected behaviour. In the code as written, without INCLUDE_REASONS and EXCLUDE_VARIABLES, a variable that fails to convert throws NullPointerException after the impression was sent, and no decision or notification follows (`DecidedAsWritten`).
- UserContext.DecideResolvesVariables: states the corrected behaviour, with a failed conversion stored as null. Without INCLUDE_REASONS, the code as written throws instead (`DecidedAsWrittenCharacterised`).
- UserContext.DecidedLog: states the log of the corrected `decide`. Without INCLUDE_REASONS and EXCLUDE_VARIABLES, when a variable fails to convert, the code as written throws at line 323 instead of returning a decision with that log (`DecidedAsWrittenCharacterised`).
- UserContext.CollectDecisions: states the map of the corrected `decideForKeys`. Without INCLUDE_REASONS and EXCLUDE_VARIABLES, the code as written throws out of the loop at lines 214-219 at the first known key with a variable that fails to convert, and returns no map (`DecideKeysAsWrittenThrows`).
- UserContext.OneNotificationPerKnownKey: counts the notifications of the corrected `decideForKeys`. In the code as written, notifications stop before the first key whose `decide` throws (`DecideKeysAsWrittenStops`).
- UserContext.OptimizelyUserContext.DecideForKeys: calls the corrected `Decide`. As written, without INCLUDE_REASONS and EXCLUDE_VARIABLES, it throws at the first known key with a variable that fails to convert. By then the earlier keys' impressions and notifications, and that key's impression, have been sent (`DecideKeysAsWrittenStops`); otherwise it does what its contract states (`DecideKeysAsWrittenReturns`).
- UserContext.OptimizelyUserContext.DecideAll: calls `DecideForKeys` over every flag key (line 253), so as written it throws in the same way, with `DecideKeysAsWritten` over `FlagKeys` describing it.
- UserContext.DecideReasonsWithoutIncludeReasons: states the corrected behaviour, where conversion errors are reported. Without INCLUDE_REASONS, the code as written throws on the first failed conversion, so whenever it returns it reports no reasons at all (`DecidedAsWrittenCharacterised`).

## Findings

| source | as written | input that shows it | evidently intended | confidence | as-written member | corrected member |
|---|---|---|---|---|---|---|
| core-api/src/main/java/com/optimizely/ab/optimizelyusercontext/OptimizelyUserContext.java:140-145 | without INCLUDE_REASONS, `decide` passes a null reasons log to `getDecisionVariableMap`. A variable whose value does not convert then calls `addError` on null (line 323), which throws NullPointerException out of `decide`. | `decide(key, [])` for a flag with one variable whose raw value the converter rejects | the conversion error is recorded in the decision's log. Errors are reported even without INCLUDE_REASONS, so it appears in the reasons, and the decision is returned with that variable null | medium (not executed) | UserContext.DecidedAsWrittenCharacterised | UserContext.DecideReportsConversionErrors |
