/**
 * Decision orchestration (`OptimizelyUserContext`): a user id and a mutable attribute
 * map, and the `decide`, `decideForKeys` and `decideAll` operations that turn a flag
 * key into a decision record.
 *
 * The collaborators the context calls are fields of the `Optimizely` host object:
 * the configuration (`getProjectConfig`), the default decide options, the decision
 * service (`getVariationForFeature`), the type converter (`convertStringToType`),
 * and two append-only records of the impressions sent (`sendImpression`) and of the
 * notifications published (`notificationCenter.send`).
 */
module UserContext {
  import opened Nullable
  import opened ConditionTree
  import opened DecisionReasons
  import opened ExperimentUtils

  datatype FeatureVariable = FeatureVariable(id: string, key: string, varType: string, defaultValue: string)

  /** A variation: its key, whether it turns the feature on, and raw overrides by variable id. */
  datatype Variation = Variation(id: string, key: string, featureEnabled: bool, variableUsages: map<string, string>)

  datatype FeatureFlag = FeatureFlag(id: string, key: string, variables: seq<FeatureVariable>)

  /** The parts of a configuration the context reads: the flags in declaration order and by key. */
  datatype ProjectConfig = ProjectConfig(featureFlags: seq<FeatureFlag>, featureKeyMapping: map<string, FeatureFlag>)

  datatype DecisionSource = FeatureTest | Rollout

  datatype FeatureDecision = FeatureDecision(
    experiment: Option<Experiment>,
    variation: Option<Variation>,
    decisionSource: DecisionSource)

  /**
   * `getVariationForFeature(flag, userId, attributes, config, options, reasons)`: the
   * decision and the reasons it would add to a log it is given.
   */
  type Allocator = (FeatureFlag, string, map<string, Value>, ProjectConfig, seq<DecideOption>) -> (FeatureDecision, Log)

  /** `convertStringToType(value, type)`: `None` is the null it returns on failure. */
  type Converter = (string, string) -> Option<Value>

  datatype Decision = Decision(
    variationKey: Option<string>,
    enabled: bool,
    variables: map<string, Value>,
    ruleKey: Option<string>,
    flagKey: string,
    userId: string,
    reasons: seq<string>)

  datatype Impression = Impression(
    config: ProjectConfig,
    experiment: Option<Experiment>,
    userId: string,
    attributes: map<string, Value>,
    variation: Variation)

  datatype DecisionNotification = DecisionNotification(
    userId: string,
    attributes: map<string, Value>,
    flagKey: string,
    enabled: bool,
    variables: map<string, Value>,
    variationKey: Option<string>,
    ruleKey: Option<string>,
    reasons: seq<string>,
    decisionEventDispatched: bool)

  function AsSeq<T>(o: Option<T>): seq<T> {
    if o.Some? then [o.value] else []
  }

  /** A non-empty list holds what its prefix holds and its last element, and nothing else. */
  lemma InitOrLast<T>(xs: seq<T>)
    requires xs != []
    ensures forall x :: x in xs <==> x in xs[..|xs| - 1] || x == xs[|xs| - 1]
  {
    assert xs == xs[..|xs| - 1] + [xs[|xs| - 1]];
  }

  lemma AppendAssociative<T>(a: seq<T>, b: seq<T>, c: seq<T>)
    ensures a + b + c == a + (b + c)
  {
  }

  // ---------------------------------------------------------------------------
  // Messages

  const SdkNotReady := "Optimizely SDK not configured properly yet."

  /** `getFlagKeyInvalidMessage`: the FLAG_KEY_INVALID message for a key. */
  function FlagKeyInvalidMessage(flagKey: string): (m: string)
    ensures |m| == |flagKey| + 29
    ensures m[..27] == "No flag was found for key \"" && m[|m| - 2..] == "\"."
    ensures m[27..|m| - 2] == flagKey
  {
    "No flag was found for key \"" + flagKey + "\"."
  }

  /** `getVariableValueInvalidMessage`: the VARIABLE_VALUE_INVALID message for a variable key. */
  function VariableValueInvalidMessage(variableKey: string): (m: string)
    ensures |m| == |variableKey| + 51
    ensures m[..24] == "Variable value for key \"" && m[|m| - 27..] == "\" is invalid or wrong type."
    ensures m[24..|m| - 27] == variableKey
  {
    "Variable value for key \"" + variableKey + "\" is invalid or wrong type."
  }

  function NotInExperimentMessage(userId: string, flagKey: string): string {
    "The user \"" + userId + "\" is not included in an experiment for flag \"" + flagKey + "\"."
  }

  /** Distinct flag keys give distinct FLAG_KEY_INVALID messages: the message names its key. */
  lemma FlagKeyInvalidMessageInjective(a: string, b: string)
    requires FlagKeyInvalidMessage(a) == FlagKeyInvalidMessage(b)
    ensures a == b
  {
    var m := FlagKeyInvalidMessage(a);
    assert a == m[27..|m| - 2];
  }

  /** `createErrorDecision`: no variation, disabled, no variables, no rule, the one message. */
  function ErrorDecision(flagKey: string, userId: string, message: string): (d: Decision)
    ensures d.variationKey.None? && !d.enabled && d.variables == map[] && d.ruleKey.None?
    ensures d.flagKey == flagKey && d.userId == userId && d.reasons == [message]
  {
    Decision(None, false, map[], None, flagKey, userId, [message])
  }

  /** `getAllOptions`: the default options followed by the call's options. */
  function AllOptions(defaults: seq<DecideOption>, options: seq<DecideOption>): (r: seq<DecideOption>)
    ensures |r| == |defaults| + |options|
    ensures r[..|defaults|] == defaults && r[|defaults|..] == options
    ensures forall o :: o in r <==> o in defaults || o in options
  {
    defaults + options
  }

  // ---------------------------------------------------------------------------
  // Variable resolution

  /**
   * The raw value of a variable: the variation's override when the flag is enabled
   * and the variation has one for the variable's id, the default value otherwise.
   */
  function RawValue(v: FeatureVariable, variation: Option<Variation>, featureEnabled: bool): (raw: string)
    requires featureEnabled ==> variation.Some?
    ensures featureEnabled && v.id in variation.value.variableUsages ==> raw == variation.value.variableUsages[v.id]
    ensures !(featureEnabled && v.id in variation.value.variableUsages) ==> raw == v.defaultValue
  {
    if featureEnabled && v.id in variation.value.variableUsages then variation.value.variableUsages[v.id]
    else v.defaultValue
  }

  /** A failed conversion is stored as null. */
  function ConvertedOrNull(converted: Option<Value>): Value {
    if converted.Some? then converted.value else Null
  }

  /** No later variable of the list has the same key as the one at index `i`. */
  predicate LastWithKey(vars: seq<FeatureVariable>, i: int)
    requires 0 <= i < |vars|
  {
    forall j :: i < j < |vars| ==> vars[j].key != vars[i].key
  }

  /** One VARIABLE_VALUE_INVALID error per variable whose value does not convert, in order. */
  function ConversionErrors(vars: seq<FeatureVariable>, variation: Option<Variation>, featureEnabled: bool,
                            convert: Converter): Log
    requires featureEnabled ==> variation.Some?
  {
    if vars == [] then []
    else
      var failed := convert(RawValue(vars[0], variation, featureEnabled), vars[0].varType).None?;
      (if failed then [Error(VariableValueInvalidMessage(vars[0].key))] else [])
        + ConversionErrors(vars[1..], variation, featureEnabled, convert)
  }

  lemma {:induction false} ConversionErrorsAppend(vars: seq<FeatureVariable>, v: FeatureVariable,
                                                  variation: Option<Variation>, featureEnabled: bool,
                                                  convert: Converter)
    requires featureEnabled ==> variation.Some?
    ensures ConversionErrors(vars + [v], variation, featureEnabled, convert)
            == ConversionErrors(vars, variation, featureEnabled, convert)
               + ConversionErrors([v], variation, featureEnabled, convert)
  {
    if vars == [] {
      assert vars + [v] == [v];
    } else {
      assert (vars + [v])[1..] == vars[1..] + [v];
      ConversionErrorsAppend(vars[1..], v, variation, featureEnabled, convert);
    }
  }

  /** Every variable whose value does not convert has its error in the list. */
  lemma {:induction false} ConversionErrorsListFailures(vars: seq<FeatureVariable>, i: int,
                                                        variation: Option<Variation>, featureEnabled: bool,
                                                        convert: Converter)
    requires featureEnabled ==> variation.Some?
    requires 0 <= i < |vars|
    requires convert(RawValue(vars[i], variation, featureEnabled), vars[i].varType).None?
    ensures Error(VariableValueInvalidMessage(vars[i].key)) in ConversionErrors(vars, variation, featureEnabled, convert)
  {
    if i > 0 {
      ConversionErrorsListFailures(vars[1..], i - 1, variation, featureEnabled, convert);
    }
  }

  /**
   * The variable map `getDecisionVariableMap` builds, and the log after it: one error
   * reason appended per variable whose value does not convert, in declaration order.
   * `ResolveVariablesKeys` and `ResolveVariablesValues` state what the map holds.
   */
  function ResolveVariables(vars: seq<FeatureVariable>, variation: Option<Variation>, featureEnabled: bool,
                            convert: Converter, log: Log): (r: (map<string, Value>, Log))
    requires featureEnabled ==> variation.Some?
    ensures r.1 == log + ConversionErrors(vars, variation, featureEnabled, convert)
    decreases |vars|
  {
    if vars == [] then (map[], log)
    else
      var init := vars[..|vars| - 1];
      var v := vars[|vars| - 1];
      var (values, reasons) := ResolveVariables(init, variation, featureEnabled, convert, log);
      var converted := convert(RawValue(v, variation, featureEnabled), v.varType);
      ConversionErrorsAppend(init, v, variation, featureEnabled, convert);
      assert init + [v] == vars;
      (values[v.key := ConvertedOrNull(converted)],
       if converted.None? then reasons + [Error(VariableValueInvalidMessage(v.key))] else reasons)
  }

  /** The map has exactly one entry per declared variable key. */
  lemma {:induction false} ResolveVariablesKeys(vars: seq<FeatureVariable>, variation: Option<Variation>,
                                                featureEnabled: bool, convert: Converter, log: Log)
    requires featureEnabled ==> variation.Some?
    ensures forall k :: k in ResolveVariables(vars, variation, featureEnabled, convert, log).0
                        <==> exists i :: 0 <= i < |vars| && vars[i].key == k
    decreases |vars|
  {
    if vars != [] {
      var init := vars[..|vars| - 1];
      var v := vars[|vars| - 1];
      var values := ResolveVariables(vars, variation, featureEnabled, convert, log).0;
      var initValues := ResolveVariables(init, variation, featureEnabled, convert, log).0;
      ResolveVariablesKeys(init, variation, featureEnabled, convert, log);
      assert values.Keys == initValues.Keys + {v.key};
      forall k
        ensures k in values <==> exists i :: 0 <= i < |vars| && vars[i].key == k
      {
        if k in initValues {
          var i :| 0 <= i < |init| && init[i].key == k;
          assert vars[i].key == k;
        }
        if exists i :: 0 <= i < |vars| && vars[i].key == k {
          var i :| 0 <= i < |vars| && vars[i].key == k;
          if i < |init| {
            assert init[i].key == k;
          }
        }
      }
    }
  }

  /**
   * The entry for a key holds the converted raw value of the last variable with that
   * key, or null when that conversion fails.
   */
  lemma {:induction false} ResolveVariablesValues(vars: seq<FeatureVariable>, variation: Option<Variation>,
                                                  featureEnabled: bool, convert: Converter, log: Log, i: int)
    requires featureEnabled ==> variation.Some?
    requires 0 <= i < |vars| && LastWithKey(vars, i)
    ensures vars[i].key in ResolveVariables(vars, variation, featureEnabled, convert, log).0
    ensures ResolveVariables(vars, variation, featureEnabled, convert, log).0[vars[i].key]
            == ConvertedOrNull(convert(RawValue(vars[i], variation, featureEnabled), vars[i].varType))
    decreases |vars|
  {
    var init := vars[..|vars| - 1];
    if i < |init| {
      assert vars[|vars| - 1].key != vars[i].key;
      assert init[i] == vars[i];
      assert LastWithKey(init, i) by {
        forall j | i < j < |init|
          ensures init[j].key != init[i].key
        {
          assert init[j] == vars[j];
        }
      }
      ResolveVariablesValues(init, variation, featureEnabled, convert, log, i);
    }
  }

  /** The map does not depend on the log the reasons are appended to. */
  lemma {:induction false} ResolveVariablesMapIgnoresLog(vars: seq<FeatureVariable>, variation: Option<Variation>,
                                                         featureEnabled: bool, convert: Converter, a: Log, b: Log)
    requires featureEnabled ==> variation.Some?
    ensures ResolveVariables(vars, variation, featureEnabled, convert, a).0
            == ResolveVariables(vars, variation, featureEnabled, convert, b).0
    decreases |vars|
  {
    if vars != [] {
      ResolveVariablesMapIgnoresLog(vars[..|vars| - 1], variation, featureEnabled, convert, a, b);
    }
  }

  /**
   * `getDecisionVariableMap` as written: the log may be null (`None`), and a failed
   * conversion then calls `addError` on it, which throws a NullPointerException.
   */
  function VariableMapAsWritten(vars: seq<FeatureVariable>, variation: Option<Variation>, featureEnabled: bool,
                                convert: Converter, reasons: Option<Log>): (r: Outcome<(map<string, Value>, Option<Log>)>)
    requires featureEnabled ==> variation.Some?
    ensures r.Threw? ==> reasons.None? && vars != []
    ensures r.Returned? ==> (r.value.1.Some? <==> reasons.Some?)
    decreases |vars|
  {
    if vars == [] then Returned((map[], reasons))
    else
      var v := vars[|vars| - 1];
      match VariableMapAsWritten(vars[..|vars| - 1], variation, featureEnabled, convert, reasons)
      case Threw(msg) => Threw(msg)
      case Returned((values, log)) =>
        var converted := convert(RawValue(v, variation, featureEnabled), v.varType);
        if converted.None? && log.None? then Threw("NullPointerException")
        else Returned((values[v.key := ConvertedOrNull(converted)],
                       if converted.None? then LogError(log, VariableValueInvalidMessage(v.key)) else log))
  }

  /**
   * With a log, the code as written agrees with `ResolveVariables`; with a null log it
   * throws exactly when some variable fails to convert.
   */
  lemma {:induction false} VariableMapAsWrittenCharacterised(vars: seq<FeatureVariable>, variation: Option<Variation>,
                                                             featureEnabled: bool, convert: Converter,
                                                             reasons: Option<Log>)
    requires featureEnabled ==> variation.Some?
    ensures reasons.Some? ==>
              var resolved := ResolveVariables(vars, variation, featureEnabled, convert, reasons.value);
              VariableMapAsWritten(vars, variation, featureEnabled, convert, reasons)
                == Returned((resolved.0, Some(resolved.1)))
    ensures reasons.None? ==>
              (VariableMapAsWritten(vars, variation, featureEnabled, convert, reasons).Threw?
               <==> ConversionErrors(vars, variation, featureEnabled, convert) != [])
    ensures reasons.None? && VariableMapAsWritten(vars, variation, featureEnabled, convert, reasons).Returned? ==>
              VariableMapAsWritten(vars, variation, featureEnabled, convert, reasons).value
                == (ResolveVariables(vars, variation, featureEnabled, convert, []).0, None)
    decreases |vars|
  {
    if vars != [] {
      var init := vars[..|vars| - 1];
      var v := vars[|vars| - 1];
      VariableMapAsWrittenCharacterised(init, variation, featureEnabled, convert, reasons);
      ConversionErrorsAppend(init, v, variation, featureEnabled, convert);
      assert init + [v] == vars;
    }
  }

  /**
   * The null log passed when INCLUDE_REASONS is absent makes a failed conversion throw:
   * a flag whose single variable does not convert, decided with no options.
   */
  lemma NullReasonsLogThrows()
    ensures var variable := FeatureVariable("1", "count", "integer", "many");
            var rejectAll: Converter := (raw: string, varType: string) => None;
            var allOptions := AllOptions([], []);
            var reasons: Option<Log> := if IncludeReasons in allOptions then Some([]) else None;
            VariableMapAsWritten([variable], None, false, rejectAll, reasons).Threw?
  {
  }

  // ---------------------------------------------------------------------------
  // The decision for one flag key

  /** What `decide` reads: the configuration, the default options, the user id and attributes. */
  datatype Snapshot = Snapshot(
    config: Option<ProjectConfig>,
    defaultDecideOptions: seq<DecideOption>,
    userId: string,
    attributes: map<string, Value>)

  /** The decision `decide` returns, the impression it sends and the notification it publishes. */
  datatype DecideResult = DecideResult(
    decision: Decision,
    impression: Option<Impression>,
    notification: Option<DecisionNotification>)

  function NotificationFor(d: Decision, attributes: map<string, Value>, sentEvent: bool): DecisionNotification {
    DecisionNotification(d.userId, attributes, d.flagKey, d.enabled, d.variables, d.variationKey,
                         d.ruleKey, d.reasons, sentEvent)
  }

  /**
   * `decide(key, options)` as a function of what it reads. Without a configuration,
   * and for an unknown flag key, it returns an error decision at once: no allocation,
   * impression or notification. Otherwise it allocates, sends an impression iff a
   * feature test chose a variation and DISABLE_DECISION_EVENT is absent, reports the
   * flag enabled iff the chosen variation enables the feature, resolves the variables
   * unless EXCLUDE_VARIABLES is given, and publishes one notification that mirrors
   * the decision.
   */
  function Decided(s: Snapshot, decisionService: Allocator, convert: Converter,
                   key: string, options: seq<DecideOption>): (r: DecideResult)
    ensures r.decision.flagKey == key && r.decision.userId == s.userId
    ensures s.config.None? ==> r == DecideResult(ErrorDecision(key, s.userId, SdkNotReady), None, None)
    ensures s.config.Some? && key !in s.config.value.featureKeyMapping ==>
              r == DecideResult(ErrorDecision(key, s.userId, FlagKeyInvalidMessage(key)), None, None)
    ensures s.config.Some? && key in s.config.value.featureKeyMapping ==>
              var config := s.config.value;
              var flag := config.featureKeyMapping[key];
              var allOptions := AllOptions(s.defaultDecideOptions, options);
              var flagDecision := decisionService(flag, s.userId, s.attributes, config, allOptions).0;
              var variation := flagDecision.variation;
              && (r.decision.enabled <==> variation.Some? && variation.value.featureEnabled)
              && r.decision.variationKey == (if variation.Some? then Some(variation.value.key) else None)
              && r.decision.ruleKey
                   == (if flagDecision.experiment.Some? then Some(flagDecision.experiment.value.key) else None)
              && (r.impression.Some? <==>
                    variation.Some? && flagDecision.decisionSource == FeatureTest
                    && DisableDecisionEvent !in s.defaultDecideOptions && DisableDecisionEvent !in options)
              && (r.impression.Some? ==>
                    r.impression.value == Impression(config, flagDecision.experiment, s.userId, s.attributes,
                                                     variation.value))
              && (ExcludeVariables in allOptions ==> r.decision.variables == map[])
              && r.notification == Some(NotificationFor(r.decision, s.attributes, r.impression.Some?))
  {
    if s.config.None? then DecideResult(ErrorDecision(key, s.userId, SdkNotReady), None, None)
    else if key !in s.config.value.featureKeyMapping then
      DecideResult(ErrorDecision(key, s.userId, FlagKeyInvalidMessage(key)), None, None)
    else
      var config := s.config.value;
      var flag := config.featureKeyMapping[key];
      var allOptions := AllOptions(s.defaultDecideOptions, options);
      var includeReasons := IncludeReasons in allOptions;
      var (flagDecision, serviceReasons) := decisionService(flag, s.userId, s.attributes, config, allOptions);
      var variation := flagDecision.variation;
      var afterService: Log := if includeReasons then serviceReasons else [];
      var sentEvent := variation.Some? && flagDecision.decisionSource == FeatureTest
                       && DisableDecisionEvent !in allOptions;
      var afterSource := if variation.Some? && flagDecision.decisionSource != FeatureTest
                         then afterService + [Info(NotInExperimentMessage(s.userId, key))]
                         else afterService;
      var flagEnabled := variation.Some? && variation.value.featureEnabled;
      var (variableMap, decisionReasons) :=
        if ExcludeVariables in allOptions then (map[], afterSource)
        else ResolveVariables(flag.variables, variation, flagEnabled, convert, afterSource);
      var reasonsToReport := ToReport(decisionReasons, allOptions);
      var variationKey := if variation.Some? then Some(variation.value.key) else None;
      var ruleKey := if flagDecision.experiment.Some? then Some(flagDecision.experiment.value.key) else None;
      var decision := Decision(variationKey, flagEnabled, variableMap, ruleKey, key, s.userId, reasonsToReport);
      DecideResult(
        decision,
        if sentEvent then Some(Impression(config, flagDecision.experiment, s.userId, s.attributes, variation.value))
        else None,
        Some(NotificationFor(decision, s.attributes, sentEvent)))
  }

  /**
   * Every variable that fails to convert is reported in the decision's reasons, with
   * or without INCLUDE_REASONS (the log is always present in this model).
   */
  lemma DecideReportsConversionErrors(s: Snapshot, decisionService: Allocator, convert: Converter,
                                      key: string, options: seq<DecideOption>, i: int)
    requires s.config.Some? && key in s.config.value.featureKeyMapping
    requires ExcludeVariables !in AllOptions(s.defaultDecideOptions, options)
    requires 0 <= i < |s.config.value.featureKeyMapping[key].variables|
    requires var config := s.config.value;
             var flag := config.featureKeyMapping[key];
             var variation := decisionService(flag, s.userId, s.attributes, config,
                                              AllOptions(s.defaultDecideOptions, options)).0.variation;
             var enabled := variation.Some? && variation.value.featureEnabled;
             convert(RawValue(flag.variables[i], variation, enabled), flag.variables[i].varType).None?
    ensures VariableValueInvalidMessage(s.config.value.featureKeyMapping[key].variables[i].key)
              in Decided(s, decisionService, convert, key, options).decision.reasons
  {
    var config := s.config.value;
    var flag := config.featureKeyMapping[key];
    var allOptions := AllOptions(s.defaultDecideOptions, options);
    var (flagDecision, serviceReasons) := decisionService(flag, s.userId, s.attributes, config, allOptions);
    var variation := flagDecision.variation;
    var afterService: Log := if IncludeReasons in allOptions then serviceReasons else [];
    var afterSource := if variation.Some? && flagDecision.decisionSource != FeatureTest
                       then afterService + [Info(NotInExperimentMessage(s.userId, key))]
                       else afterService;
    var flagEnabled := variation.Some? && variation.value.featureEnabled;
    var errors := ConversionErrors(flag.variables, variation, flagEnabled, convert);
    var message := VariableValueInvalidMessage(flag.variables[i].key);
    ConversionErrorsListFailures(flag.variables, i, variation, flagEnabled, convert);
    ToReportAppend(afterSource, errors, allOptions);
    var j :| 0 <= j < |errors| && errors[j] == Error(message);
    assert message in ToReport(errors, allOptions);
  }

  /**
   * With a known flag and without EXCLUDE_VARIABLES, the decision holds one variable per
   * declared key: the converted override of the chosen variation when the flag is
   * enabled and the variation overrides it, the converted default otherwise, and null
   * when that value does not convert.
   */
  lemma DecideResolvesVariables(s: Snapshot, decisionService: Allocator, convert: Converter,
                                key: string, options: seq<DecideOption>)
    requires s.config.Some? && key in s.config.value.featureKeyMapping
    requires ExcludeVariables !in AllOptions(s.defaultDecideOptions, options)
    ensures var flag := s.config.value.featureKeyMapping[key];
            var variables := Decided(s, decisionService, convert, key, options).decision.variables;
            forall k :: k in variables <==> exists i :: 0 <= i < |flag.variables| && flag.variables[i].key == k
    ensures var flag := s.config.value.featureKeyMapping[key];
            var variation := decisionService(flag, s.userId, s.attributes, s.config.value,
                                             AllOptions(s.defaultDecideOptions, options)).0.variation;
            var enabled := variation.Some? && variation.value.featureEnabled;
            var variables := Decided(s, decisionService, convert, key, options).decision.variables;
            forall i :: 0 <= i < |flag.variables| && LastWithKey(flag.variables, i) ==>
              && flag.variables[i].key in variables
              && variables[flag.variables[i].key]
                   == ConvertedOrNull(convert(RawValue(flag.variables[i], variation, enabled), flag.variables[i].varType))
  {
    var config := s.config.value;
    var flag := config.featureKeyMapping[key];
    var allOptions := AllOptions(s.defaultDecideOptions, options);
    var (flagDecision, serviceReasons) := decisionService(flag, s.userId, s.attributes, config, allOptions);
    var variation := flagDecision.variation;
    var afterService: Log := if IncludeReasons in allOptions then serviceReasons else [];
    var afterSource := if variation.Some? && flagDecision.decisionSource != FeatureTest
                       then afterService + [Info(NotInExperimentMessage(s.userId, key))]
                       else afterService;
    var flagEnabled := variation.Some? && variation.value.featureEnabled;
    ResolveVariablesKeys(flag.variables, variation, flagEnabled, convert, afterSource);
    forall i | 0 <= i < |flag.variables| && LastWithKey(flag.variables, i)
      ensures var values := ResolveVariables(flag.variables, variation, flagEnabled, convert, afterSource).0;
              && flag.variables[i].key in values
              && values[flag.variables[i].key]
                   == ConvertedOrNull(convert(RawValue(flag.variables[i], variation, flagEnabled),
                                              flag.variables[i].varType))
    {
      ResolveVariablesValues(flag.variables, variation, flagEnabled, convert, afterSource, i);
    }
  }

  /** Every entry of the list is an error naming a variable whose value does not convert. */
  lemma {:induction false} ConversionErrorsSound(vars: seq<FeatureVariable>, variation: Option<Variation>,
                                                 featureEnabled: bool, convert: Converter)
    requires featureEnabled ==> variation.Some?
    ensures forall e :: e in ConversionErrors(vars, variation, featureEnabled, convert) ==>
              e.Error? && exists i :: 0 <= i < |vars| && e.message == VariableValueInvalidMessage(vars[i].key)
                                      && convert(RawValue(vars[i], variation, featureEnabled), vars[i].varType).None?
  {
    if vars != [] {
      var rest := vars[1..];
      ConversionErrorsSound(rest, variation, featureEnabled, convert);
      var tail := ConversionErrors(rest, variation, featureEnabled, convert);
      forall e | e in tail
        ensures exists i :: 0 <= i < |vars| && e.message == VariableValueInvalidMessage(vars[i].key)
                            && convert(RawValue(vars[i], variation, featureEnabled), vars[i].varType).None?
      {
        var i :| 0 <= i < |rest| && e.message == VariableValueInvalidMessage(rest[i].key)
                 && convert(RawValue(rest[i], variation, featureEnabled), rest[i].varType).None?;
        assert rest[i] == vars[i + 1];
      }
    }
  }

  /** The errors listed are exactly those of the variables whose value does not convert. */
  lemma ConversionErrorsExactly(vars: seq<FeatureVariable>, variation: Option<Variation>,
                                featureEnabled: bool, convert: Converter)
    requires featureEnabled ==> variation.Some?
    ensures forall e :: e in ConversionErrors(vars, variation, featureEnabled, convert) ==> e.Error?
    ensures forall m :: Error(m) in ConversionErrors(vars, variation, featureEnabled, convert) <==>
              exists i :: 0 <= i < |vars| && m == VariableValueInvalidMessage(vars[i].key)
                          && convert(RawValue(vars[i], variation, featureEnabled), vars[i].varType).None?
  {
    ConversionErrorsSound(vars, variation, featureEnabled, convert);
    forall m, i | 0 <= i < |vars| && m == VariableValueInvalidMessage(vars[i].key)
                  && convert(RawValue(vars[i], variation, featureEnabled), vars[i].varType).None?
      ensures Error(m) in ConversionErrors(vars, variation, featureEnabled, convert)
    {
      ConversionErrorsListFailures(vars, i, variation, featureEnabled, convert);
    }
  }

  /**
   * Without INCLUDE_REASONS, a decision for a known flag reports exactly the
   * conversion errors of its variables, and nothing when EXCLUDE_VARIABLES is given:
   * the allocator's reasons and the "not included in an experiment" info are dropped.
   */
  lemma DecideReasonsWithoutIncludeReasons(s: Snapshot, decisionService: Allocator, convert: Converter,
                                           key: string, options: seq<DecideOption>)
    requires s.config.Some? && key in s.config.value.featureKeyMapping
    requires IncludeReasons !in AllOptions(s.defaultDecideOptions, options)
    ensures ExcludeVariables in AllOptions(s.defaultDecideOptions, options) ==>
              Decided(s, decisionService, convert, key, options).decision.reasons == []
    ensures ExcludeVariables !in AllOptions(s.defaultDecideOptions, options) ==>
              var flag := s.config.value.featureKeyMapping[key];
              var variation := decisionService(flag, s.userId, s.attributes, s.config.value,
                                               AllOptions(s.defaultDecideOptions, options)).0.variation;
              var enabled := variation.Some? && variation.value.featureEnabled;
              forall m :: m in Decided(s, decisionService, convert, key, options).decision.reasons <==>
                exists i :: 0 <= i < |flag.variables| && m == VariableValueInvalidMessage(flag.variables[i].key)
                            && convert(RawValue(flag.variables[i], variation, enabled), flag.variables[i].varType).None?
  {
    var config := s.config.value;
    var flag := config.featureKeyMapping[key];
    var allOptions := AllOptions(s.defaultDecideOptions, options);
    var flagDecision := decisionService(flag, s.userId, s.attributes, config, allOptions).0;
    var variation := flagDecision.variation;
    var afterSource: Log := if variation.Some? && flagDecision.decisionSource != FeatureTest
                            then [Info(NotInExperimentMessage(s.userId, key))]
                            else [];
    assert forall m :: Error(m) !in afterSource;
    var reasons := Decided(s, decisionService, convert, key, options).decision.reasons;
    if ExcludeVariables in allOptions {
      assert reasons == ToReport(afterSource, allOptions);
    } else {
      var flagEnabled := variation.Some? && variation.value.featureEnabled;
      var errors := ConversionErrors(flag.variables, variation, flagEnabled, convert);
      assert reasons == ToReport(afterSource + errors, allOptions);
      ConversionErrorsExactly(flag.variables, variation, flagEnabled, convert);
      assert forall m :: Error(m) in afterSource + errors <==> Error(m) in errors;
    }
  }

  /**
   * The log behind a decision for a known flag, in the order it is written: the
   * allocator's reasons (only with INCLUDE_REASONS), the "not included in an
   * experiment" info for a variation from a source other than a feature test, and the
   * conversion errors (none with EXCLUDE_VARIABLES).
   */
  lemma DecidedLog(s: Snapshot, decisionService: Allocator, convert: Converter,
                   key: string, options: seq<DecideOption>)
    requires s.config.Some? && key in s.config.value.featureKeyMapping
    ensures var flag := s.config.value.featureKeyMapping[key];
            var allOptions := AllOptions(s.defaultDecideOptions, options);
            var allocation := decisionService(flag, s.userId, s.attributes, s.config.value, allOptions);
            var variation := allocation.0.variation;
            var enabled := variation.Some? && variation.value.featureEnabled;
            var afterService: Log := if IncludeReasons in allOptions then allocation.1 else [];
            var notIncluded: Log := if variation.Some? && allocation.0.decisionSource != FeatureTest
                                    then [Info(NotInExperimentMessage(s.userId, key))] else [];
            var errors: Log := if ExcludeVariables in allOptions then []
                               else ConversionErrors(flag.variables, variation, enabled, convert);
            Decided(s, decisionService, convert, key, options).decision.reasons
              == ToReport(afterService + notIncluded + errors, allOptions)
  {
    var flag := s.config.value.featureKeyMapping[key];
    var allOptions := AllOptions(s.defaultDecideOptions, options);
    var allocation := decisionService(flag, s.userId, s.attributes, s.config.value, allOptions);
    var afterService: Log := if IncludeReasons in allOptions then allocation.1 else [];
    var variation := allocation.0.variation;
    var notIncluded: Log := if variation.Some? && allocation.0.decisionSource != FeatureTest
                            then [Info(NotInExperimentMessage(s.userId, key))] else [];
    var afterSource := if notIncluded == [] then afterService else afterService + notIncluded;
    assert afterSource == afterService + notIncluded;
    var reasons := Decided(s, decisionService, convert, key, options).decision.reasons;
    if ExcludeVariables in allOptions {
      assert afterSource + [] == afterSource;
      assert reasons == ToReport(afterSource, allOptions);
    } else {
      var enabled := variation.Some? && variation.value.featureEnabled;
      var resolved := ResolveVariables(flag.variables, variation, enabled, convert, afterSource);
      assert resolved.1 == afterSource + ConversionErrors(flag.variables, variation, enabled, convert);
      assert reasons == ToReport(resolved.1, allOptions);
    }
  }

  /**
   * With INCLUDE_REASONS, a decision for a known flag reports every reason in the
   * order it was logged: the allocator's reasons, then the "not included in an
   * experiment" info when a variation came from a source other than a feature test,
   * then one error per variable that does not convert (none with EXCLUDE_VARIABLES).
   */
  lemma DecideReasonsWithIncludeReasons(s: Snapshot, decisionService: Allocator, convert: Converter,
                                        key: string, options: seq<DecideOption>)
    requires s.config.Some? && key in s.config.value.featureKeyMapping
    requires IncludeReasons in AllOptions(s.defaultDecideOptions, options)
    ensures var flag := s.config.value.featureKeyMapping[key];
            var allOptions := AllOptions(s.defaultDecideOptions, options);
            var allocation := decisionService(flag, s.userId, s.attributes, s.config.value, allOptions);
            var variation := allocation.0.variation;
            var enabled := variation.Some? && variation.value.featureEnabled;
            var notIncluded: Log := if variation.Some? && allocation.0.decisionSource != FeatureTest
                                    then [Info(NotInExperimentMessage(s.userId, key))] else [];
            var errors: Log := if ExcludeVariables in allOptions then []
                               else ConversionErrors(flag.variables, variation, enabled, convert);
            Decided(s, decisionService, convert, key, options).decision.reasons
              == Messages(allocation.1) + Messages(notIncluded) + Messages(errors)
    ensures var flag := s.config.value.featureKeyMapping[key];
            var allocation := decisionService(flag, s.userId, s.attributes, s.config.value,
                                              AllOptions(s.defaultDecideOptions, options));
            allocation.0.variation.Some? && allocation.0.decisionSource != FeatureTest ==>
              NotInExperimentMessage(s.userId, key) in Decided(s, decisionService, convert, key, options).decision.reasons
  {
    var flag := s.config.value.featureKeyMapping[key];
    var allOptions := AllOptions(s.defaultDecideOptions, options);
    var allocation := decisionService(flag, s.userId, s.attributes, s.config.value, allOptions);
    var variation := allocation.0.variation;
    var enabled := variation.Some? && variation.value.featureEnabled;
    var notIncluded: Log := if variation.Some? && allocation.0.decisionSource != FeatureTest
                            then [Info(NotInExperimentMessage(s.userId, key))] else [];
    var errors: Log := if ExcludeVariables in allOptions then []
                       else ConversionErrors(flag.variables, variation, enabled, convert);
    DecidedLog(s, decisionService, convert, key, options);
    MessagesAppend(allocation.1, notIncluded);
    MessagesAppend(allocation.1 + notIncluded, errors);
    var reasons := Decided(s, decisionService, convert, key, options).decision.reasons;
    assert reasons == Messages(allocation.1) + Messages(notIncluded) + Messages(errors);
    if notIncluded != [] {
      assert reasons[|allocation.1|] == NotInExperimentMessage(s.userId, key);
    }
  }

  // ---------------------------------------------------------------------------
  // The decision for one flag key as written

  /**
   * What `decide` does as written: its decision or the exception it throws, the
   * impression it sent and the notification it published. An exception can escape
   * after the impression was sent, and then no notification follows.
   */
  datatype DecideEffects = DecideEffects(
    outcome: Outcome<Decision>,
    impression: Option<Impression>,
    notification: Option<DecisionNotification>)

  /**
   * `decide(key, options)` as written: without INCLUDE_REASONS the variable map is
   * built with a null log, so a variable that does not convert throws.
   */
  function DecidedAsWritten(s: Snapshot, decisionService: Allocator, convert: Converter,
                            key: string, options: seq<DecideOption>): (r: DecideEffects)
    ensures r.outcome.Threw? ==> r.notification.None?
    ensures r.outcome.Returned? ==>
              (r.notification.Some? || s.config.None? || key !in s.config.value.featureKeyMapping)
  {
    if s.config.None? then DecideEffects(Returned(ErrorDecision(key, s.userId, SdkNotReady)), None, None)
    else if key !in s.config.value.featureKeyMapping then
      DecideEffects(Returned(ErrorDecision(key, s.userId, FlagKeyInvalidMessage(key))), None, None)
    else
      var config := s.config.value;
      var flag := config.featureKeyMapping[key];
      var allOptions := AllOptions(s.defaultDecideOptions, options);
      var includeReasons := IncludeReasons in allOptions;
      var (flagDecision, serviceReasons) := decisionService(flag, s.userId, s.attributes, config, allOptions);
      var variation := flagDecision.variation;
      var afterService: Log := if includeReasons then serviceReasons else [];
      var sentEvent := variation.Some? && flagDecision.decisionSource == FeatureTest
                       && DisableDecisionEvent !in allOptions;
      var impression :=
        if sentEvent then Some(Impression(config, flagDecision.experiment, s.userId, s.attributes, variation.value))
        else None;
      var afterSource := if variation.Some? && flagDecision.decisionSource != FeatureTest
                         then afterService + [Info(NotInExperimentMessage(s.userId, key))]
                         else afterService;
      var flagEnabled := variation.Some? && variation.value.featureEnabled;
      var variables: Outcome<(map<string, Value>, Log)> :=
        if ExcludeVariables in allOptions then Returned((map[], afterSource))
        else
          match VariableMapAsWritten(flag.variables, variation, flagEnabled, convert,
                                     if includeReasons then Some(afterSource) else None)
          case Threw(msg) => Threw(msg)
          case Returned((values, log)) => Returned((values, if log.Some? then log.value else afterSource));
      match variables
      case Threw(msg) => DecideEffects(Threw(msg), impression, None)
      case Returned((variableMap, decisionReasons)) =>
        var reasonsToReport := ToReport(decisionReasons, allOptions);
        var variationKey := if variation.Some? then Some(variation.value.key) else None;
        var ruleKey := if flagDecision.experiment.Some? then Some(flagDecision.experiment.value.key) else None;
        var decision := Decision(variationKey, flagEnabled, variableMap, ruleKey, key, s.userId, reasonsToReport);
        DecideEffects(Returned(decision), impression, Some(NotificationFor(decision, s.attributes, sentEvent)))
  }

  /**
   * `decide` as written throws exactly when the flag is known, neither INCLUDE_REASONS
   * nor EXCLUDE_VARIABLES is given, and some variable does not convert; the impression
   * is then already sent and no notification is published. In every other case it
   * does what `Decided` states.
   */
  lemma DecidedAsWrittenCharacterised(s: Snapshot, decisionService: Allocator, convert: Converter,
                                      key: string, options: seq<DecideOption>)
    ensures var r := DecidedAsWritten(s, decisionService, convert, key, options);
            var allOptions := AllOptions(s.defaultDecideOptions, options);
            r.outcome.Threw? <==>
              && s.config.Some? && key in s.config.value.featureKeyMapping
              && IncludeReasons !in allOptions && ExcludeVariables !in allOptions
              && var flag := s.config.value.featureKeyMapping[key];
                 var variation := decisionService(flag, s.userId, s.attributes, s.config.value, allOptions).0.variation;
                 var enabled := variation.Some? && variation.value.featureEnabled;
                 ConversionErrors(flag.variables, variation, enabled, convert) != []
    ensures var r := DecidedAsWritten(s, decisionService, convert, key, options);
            var d := Decided(s, decisionService, convert, key, options);
            r.outcome.Threw? ==> r.impression == d.impression && r.notification.None?
    ensures var r := DecidedAsWritten(s, decisionService, convert, key, options);
            var d := Decided(s, decisionService, convert, key, options);
            r.outcome.Returned? ==> r == DecideEffects(Returned(d.decision), d.impression, d.notification)
  {
    if s.config.Some? && key in s.config.value.featureKeyMapping {
      var config := s.config.value;
      var flag := config.featureKeyMapping[key];
      var allOptions := AllOptions(s.defaultDecideOptions, options);
      var includeReasons := IncludeReasons in allOptions;
      var (flagDecision, serviceReasons) := decisionService(flag, s.userId, s.attributes, config, allOptions);
      var variation := flagDecision.variation;
      var afterService: Log := if includeReasons then serviceReasons else [];
      var afterSource := if variation.Some? && flagDecision.decisionSource != FeatureTest
                         then afterService + [Info(NotInExperimentMessage(s.userId, key))]
                         else afterService;
      var flagEnabled := variation.Some? && variation.value.featureEnabled;
      if ExcludeVariables !in allOptions {
        var reasons: Option<Log> := if includeReasons then Some(afterSource) else None;
        VariableMapAsWrittenCharacterised(flag.variables, variation, flagEnabled, convert, reasons);
        ResolveVariablesMapIgnoresLog(flag.variables, variation, flagEnabled, convert, [], afterSource);
        var errors := ConversionErrors(flag.variables, variation, flagEnabled, convert);
        if !includeReasons && errors == [] {
          assert afterSource + errors == afterSource;
        }
      }
    }
  }

  /**
   * A counterexample for `decide` as written: a feature test picks a variation whose
   * one variable does not convert, and `decide(key, [])` throws after sending the
   * impression, without a notification. The intended `Decided` returns a decision
   * that reports the conversion error.
   */
  lemma DecideThrowsAfterImpression()
    ensures var variable := FeatureVariable("v1", "count", "integer", "many");
            var flag := FeatureFlag("f1", "checkout", [variable]);
            var config := ProjectConfig([flag], map["checkout" := flag]);
            var experiment := Experiment("e1", "checkout_test", true, [], None);
            var variation := Variation("a", "treatment", true, map[]);
            var allocate: Allocator :=
              (f: FeatureFlag, u: string, a: map<string, Value>, c: ProjectConfig, o: seq<DecideOption>) =>
                (FeatureDecision(Some(experiment), Some(variation), FeatureTest), []);
            var rejectAll: Converter := (raw: string, varType: string) => None;
            var s := Snapshot(Some(config), [], "user1", map[]);
            var asWritten := DecidedAsWritten(s, allocate, rejectAll, "checkout", []);
            && asWritten.outcome.Threw?
            && asWritten.impression == Some(Impression(config, Some(experiment), "user1", map[], variation))
            && asWritten.notification.None?
            && Decided(s, allocate, rejectAll, "checkout", []).decision.reasons
                 == [VariableValueInvalidMessage("count")]
  {
  }

  // ---------------------------------------------------------------------------
  // Several flag keys

  /**
   * The map `decideForKeys` builds once a configuration is present: the keys in order,
   * each decided with the call's options, and kept unless ENABLED_FLAGS_ONLY (among the
   * default or the call's options) applies and the decision is disabled.
   */
  function CollectDecisions(s: Snapshot, decisionService: Allocator, convert: Converter,
                            keys: seq<string>, options: seq<DecideOption>): (m: map<string, Decision>)
    ensures forall k :: k in m ==> k in keys
    ensures forall k :: k in m ==> m[k] == Decided(s, decisionService, convert, k, options).decision
    ensures EnabledFlagsOnly in AllOptions(s.defaultDecideOptions, options) ==>
              forall k :: k in m <==> k in keys && Decided(s, decisionService, convert, k, options).decision.enabled
    ensures EnabledFlagsOnly !in AllOptions(s.defaultDecideOptions, options) ==>
              forall k :: k in m <==> k in keys
    decreases |keys|
  {
    if keys == [] then map[]
    else
      var init := keys[..|keys| - 1];
      var key := keys[|keys| - 1];
      var m := CollectDecisions(s, decisionService, convert, init, options);
      var decision := Decided(s, decisionService, convert, key, options).decision;
      InitOrLast(keys);
      if EnabledFlagsOnly !in AllOptions(s.defaultDecideOptions, options) || decision.enabled
      then
        assert forall k :: k in m[key := decision] <==> k in m || k == key;
        m[key := decision]
      else
        assert key !in m || key in init;
        m
  }

  /** The impressions `decideForKeys` sends, key by key. */
  function ImpressionsFor(s: Snapshot, decisionService: Allocator, convert: Converter,
                          keys: seq<string>, options: seq<DecideOption>): seq<Impression>
    decreases |keys|
  {
    if keys == [] then []
    else ImpressionsFor(s, decisionService, convert, keys[..|keys| - 1], options)
         + AsSeq(Decided(s, decisionService, convert, keys[|keys| - 1], options).impression)
  }

  /** The notifications `decideForKeys` publishes, key by key. */
  function NotificationsFor(s: Snapshot, decisionService: Allocator, convert: Converter,
                            keys: seq<string>, options: seq<DecideOption>): seq<DecisionNotification>
    decreases |keys|
  {
    if keys == [] then []
    else NotificationsFor(s, decisionService, convert, keys[..|keys| - 1], options)
         + AsSeq(Decided(s, decisionService, convert, keys[|keys| - 1], options).notification)
  }

  /**
   * One more key: the decision, impression and notification of `keys[i]` extend what
   * `decideForKeys` has collected for `keys[..i]` to what it collects for `keys[..i + 1]`.
   */
  lemma DecideForKeysStep(s: Snapshot, decisionService: Allocator, convert: Converter,
                          keys: seq<string>, i: int, options: seq<DecideOption>, r: DecideResult,
                          base: seq<Impression>, impressions: seq<Impression>, impressions': seq<Impression>,
                          published: seq<DecisionNotification>, notifications: seq<DecisionNotification>,
                          notifications': seq<DecisionNotification>,
                          decisions: map<string, Decision>, decisions': map<string, Decision>)
    requires 0 <= i < |keys|
    requires r == Decided(s, decisionService, convert, keys[i], options)
    requires impressions == base + ImpressionsFor(s, decisionService, convert, keys[..i], options)
    requires impressions' == impressions + AsSeq(r.impression)
    requires notifications == published + NotificationsFor(s, decisionService, convert, keys[..i], options)
    requires notifications' == notifications + AsSeq(r.notification)
    requires decisions == CollectDecisions(s, decisionService, convert, keys[..i], options)
    requires decisions' == if EnabledFlagsOnly !in AllOptions(s.defaultDecideOptions, options) || r.decision.enabled
                           then decisions[keys[i] := r.decision] else decisions
    ensures impressions' == base + ImpressionsFor(s, decisionService, convert, keys[..i + 1], options)
    ensures notifications' == published + NotificationsFor(s, decisionService, convert, keys[..i + 1], options)
    ensures decisions' == CollectDecisions(s, decisionService, convert, keys[..i + 1], options)
  {
    assert keys[..i + 1][..i] == keys[..i];
    AppendAssociative(base, ImpressionsFor(s, decisionService, convert, keys[..i], options), AsSeq(r.impression));
    AppendAssociative(published, NotificationsFor(s, decisionService, convert, keys[..i], options),
                      AsSeq(r.notification));
  }

  /**
   * With a configuration, `decideForKeys` publishes one notification per known key, in
   * the order of the keys, and none for an unknown key.
   */
  lemma {:induction false} OneNotificationPerKnownKey(s: Snapshot, decisionService: Allocator, convert: Converter,
                                                      keys: seq<string>, options: seq<DecideOption>)
    requires s.config.Some?
    ensures |NotificationsFor(s, decisionService, convert, keys, options)|
            == |KnownKeys(keys, s.config.value.featureKeyMapping)|
    ensures forall i :: 0 <= i < |KnownKeys(keys, s.config.value.featureKeyMapping)| ==>
              NotificationsFor(s, decisionService, convert, keys, options)[i].flagKey
                == KnownKeys(keys, s.config.value.featureKeyMapping)[i]
    decreases |keys|
  {
    if keys != [] {
      OneNotificationPerKnownKey(s, decisionService, convert, keys[..|keys| - 1], options);
    }
  }

  /** The keys of the list that name a flag of the mapping, in order. */
  function KnownKeys(keys: seq<string>, mapping: map<string, FeatureFlag>): seq<string>
    decreases |keys|
  {
    if keys == [] then []
    else KnownKeys(keys[..|keys| - 1], mapping) + (if keys[|keys| - 1] in mapping then [keys[|keys| - 1]] else [])
  }

  // ---------------------------------------------------------------------------
  // Several flag keys as written

  /** What `decideForKeys` does as written: its map or the exception, and the effects up to then. */
  datatype KeysEffects = KeysEffects(
    outcome: Outcome<map<string, Decision>>,
    impressions: seq<Impression>,
    notifications: seq<DecisionNotification>)

  /**
   * The loop of `decideForKeys` (lines 214-219) over a per-key `decide`: it stops at
   * the first key whose decision throws, keeping the effects of the keys before it
   * and that key's impression. At most one impression and one notification per key,
   * and the key that throws publishes none.
   */
  function DecideKeysWith(decide: string -> DecideEffects, keys: seq<string>, enabledOnly: bool): (r: KeysEffects)
    ensures |r.impressions| <= |keys| && |r.notifications| <= |keys|
    ensures r.outcome.Threw? ==> |r.notifications| < |keys|
    decreases |keys|
  {
    if keys == [] then KeysEffects(Returned(map[]), [], [])
    else
      var before := DecideKeysWith(decide, keys[..|keys| - 1], enabledOnly);
      if before.outcome.Threw? then before
      else
        var key := keys[|keys| - 1];
        var d := decide(key);
        var impressions := before.impressions + AsSeq(d.impression);
        match d.outcome
        case Threw(msg) => KeysEffects(Threw(msg), impressions, before.notifications)
        case Returned(decision) =>
          var m := before.outcome.value;
          KeysEffects(Returned(if !enabledOnly || decision.enabled then m[key := decision] else m),
                      impressions,
                      before.notifications + AsSeq(d.notification))
  }

  /** A key whose `decide` throws makes the loop throw. */
  lemma {:induction false} DecideKeysWithThrowsAtKey(decide: string -> DecideEffects, keys: seq<string>,
                                                     enabledOnly: bool, i: int)
    requires 0 <= i < |keys|
    ensures decide(keys[i]).outcome.Threw? ==> DecideKeysWith(decide, keys, enabledOnly).outcome.Threw?
    decreases |keys|
  {
    var n := |keys| - 1;
    if i < n {
      assert keys[..n][i] == keys[i];
      DecideKeysWithThrowsAtKey(decide, keys[..n], enabledOnly, i);
    }
  }

  /**
   * When the loop throws, it throws at the first key whose `decide` throws: the keys
   * before it completed, and the effects are theirs plus that key's impression.
   */
  lemma {:induction false} DecideKeysWithStops(decide: string -> DecideEffects, keys: seq<string>, enabledOnly: bool)
    requires DecideKeysWith(decide, keys, enabledOnly).outcome.Threw?
    ensures var r := DecideKeysWith(decide, keys, enabledOnly);
            exists j :: 0 <= j < |keys|
              && decide(keys[j]).outcome.Threw?
              && (forall k :: 0 <= k < j ==> decide(keys[k]).outcome.Returned?)
              && DecideKeysWith(decide, keys[..j], enabledOnly).outcome.Returned?
              && r.impressions == DecideKeysWith(decide, keys[..j], enabledOnly).impressions
                                  + AsSeq(decide(keys[j]).impression)
              && r.notifications == DecideKeysWith(decide, keys[..j], enabledOnly).notifications
    decreases |keys|
  {
    var n := |keys| - 1;
    var init := keys[..n];
    var before := DecideKeysWith(decide, init, enabledOnly);
    if before.outcome.Threw? {
      DecideKeysWithStops(decide, init, enabledOnly);
      var j :| 0 <= j < n
               && decide(init[j]).outcome.Threw?
               && (forall k :: 0 <= k < j ==> decide(init[k]).outcome.Returned?)
               && DecideKeysWith(decide, init[..j], enabledOnly).outcome.Returned?
               && before.impressions == DecideKeysWith(decide, init[..j], enabledOnly).impressions
                                        + AsSeq(decide(init[j]).impression)
               && before.notifications == DecideKeysWith(decide, init[..j], enabledOnly).notifications;
      assert init[..j] == keys[..j];
      assert forall k :: 0 <= k <= j ==> init[k] == keys[k];
    } else {
      assert keys[..n] == init;
      forall k | 0 <= k < n
        ensures decide(keys[k]).outcome.Returned?
      {
        assert init[k] == keys[k];
        DecideKeysWithThrowsAtKey(decide, init, enabledOnly, k);
      }
    }
  }

  /** The loop of `decideForKeys` as written, over `decide` as written. */
  function DecideKeysAsWritten(s: Snapshot, decisionService: Allocator, convert: Converter,
                               keys: seq<string>, options: seq<DecideOption>): (r: KeysEffects)
    ensures |r.impressions| <= |keys| && |r.notifications| <= |keys|
    ensures r.outcome.Threw? ==> |r.notifications| < |keys|
  {
    DecideKeysWith(k => DecidedAsWritten(s, decisionService, convert, k, options), keys,
                   EnabledFlagsOnly in AllOptions(s.defaultDecideOptions, options))
  }

  /**
   * When the loop of `decideForKeys` as written returns, it does exactly what
   * `CollectDecisions`, `ImpressionsFor` and `NotificationsFor` state.
   */
  lemma {:induction false} DecideKeysAsWrittenReturns(s: Snapshot, decisionService: Allocator, convert: Converter,
                                                      keys: seq<string>, options: seq<DecideOption>)
    requires DecideKeysAsWritten(s, decisionService, convert, keys, options).outcome.Returned?
    ensures DecideKeysAsWritten(s, decisionService, convert, keys, options)
            == KeysEffects(Returned(CollectDecisions(s, decisionService, convert, keys, options)),
                           ImpressionsFor(s, decisionService, convert, keys, options),
                           NotificationsFor(s, decisionService, convert, keys, options))
    decreases |keys|
  {
    if keys != [] {
      var init := keys[..|keys| - 1];
      DecideKeysAsWrittenReturns(s, decisionService, convert, init, options);
      DecidedAsWrittenCharacterised(s, decisionService, convert, keys[|keys| - 1], options);
    }
  }

  /** The loop of `decideForKeys` as written throws iff `decide` as written throws for some key. */
  lemma DecideKeysAsWrittenThrows(s: Snapshot, decisionService: Allocator, convert: Converter,
                                  keys: seq<string>, options: seq<DecideOption>)
    ensures DecideKeysAsWritten(s, decisionService, convert, keys, options).outcome.Threw? <==>
              exists i :: 0 <= i < |keys| && DecidedAsWritten(s, decisionService, convert, keys[i], options).outcome.Threw?
  {
    var decide := k => DecidedAsWritten(s, decisionService, convert, k, options);
    var enabledOnly := EnabledFlagsOnly in AllOptions(s.defaultDecideOptions, options);
    if DecideKeysWith(decide, keys, enabledOnly).outcome.Threw? {
      DecideKeysWithStops(decide, keys, enabledOnly);
    }
    forall i | 0 <= i < |keys|
      ensures decide(keys[i]).outcome.Threw? ==> DecideKeysWith(decide, keys, enabledOnly).outcome.Threw?
    {
      DecideKeysWithThrowsAtKey(decide, keys, enabledOnly, i);
    }
  }

  /**
   * When the loop of `decideForKeys` as written throws, it does so at the first key
   * whose `decide` throws, after the impressions of the keys before it and that key's
   * own impression, and after the notifications of the keys before it only.
   */
  lemma DecideKeysAsWrittenStops(s: Snapshot, decisionService: Allocator, convert: Converter,
                                 keys: seq<string>, options: seq<DecideOption>)
    requires DecideKeysAsWritten(s, decisionService, convert, keys, options).outcome.Threw?
    ensures var r := DecideKeysAsWritten(s, decisionService, convert, keys, options);
            exists j :: 0 <= j < |keys|
              && DecidedAsWritten(s, decisionService, convert, keys[j], options).outcome.Threw?
              && (forall k :: 0 <= k < j ==>
                    DecidedAsWritten(s, decisionService, convert, keys[k], options).outcome.Returned?)
              && r.impressions == ImpressionsFor(s, decisionService, convert, keys[..j], options)
                                  + AsSeq(Decided(s, decisionService, convert, keys[j], options).impression)
              && r.notifications == NotificationsFor(s, decisionService, convert, keys[..j], options)
  {
    var decide := k => DecidedAsWritten(s, decisionService, convert, k, options);
    var enabledOnly := EnabledFlagsOnly in AllOptions(s.defaultDecideOptions, options);
    DecideKeysWithStops(decide, keys, enabledOnly);
    var j :| 0 <= j < |keys|
             && decide(keys[j]).outcome.Threw?
             && (forall k :: 0 <= k < j ==> decide(keys[k]).outcome.Returned?)
             && DecideKeysWith(decide, keys[..j], enabledOnly).outcome.Returned?
             && DecideKeysWith(decide, keys, enabledOnly).impressions
                  == DecideKeysWith(decide, keys[..j], enabledOnly).impressions + AsSeq(decide(keys[j]).impression)
             && DecideKeysWith(decide, keys, enabledOnly).notifications
                  == DecideKeysWith(decide, keys[..j], enabledOnly).notifications;
    DecideKeysAsWrittenReturns(s, decisionService, convert, keys[..j], options);
    DecidedAsWrittenCharacterised(s, decisionService, convert, keys[j], options);
  }

  /** The keys of the flags, in declaration order. */
  function FlagKeys(flags: seq<FeatureFlag>): (keys: seq<string>)
    ensures |keys| == |flags|
    ensures forall i :: 0 <= i < |flags| ==> keys[i] == flags[i].key
  {
    seq(|flags|, i requires 0 <= i < |flags| => flags[i].key)
  }

  // ---------------------------------------------------------------------------
  // The host object and the user context

  /** The parts of the `Optimizely` client the user context calls. */
  class Optimizely {
    var config: Option<ProjectConfig>
    var defaultDecideOptions: seq<DecideOption>
    const decisionService: Allocator
    const convertStringToType: Converter
    /** Every impression sent so far, oldest first. */
    var impressions: seq<Impression>
    /** Every decision notification published so far, oldest first. */
    var notifications: seq<DecisionNotification>

    constructor(config: Option<ProjectConfig>, defaultDecideOptions: seq<DecideOption>,
                decisionService: Allocator, convertStringToType: Converter)
      ensures this.config == config && this.defaultDecideOptions == defaultDecideOptions
      ensures this.decisionService == decisionService && this.convertStringToType == convertStringToType
      ensures impressions == [] && notifications == []
    {
      this.config := config;
      this.defaultDecideOptions := defaultDecideOptions;
      this.decisionService := decisionService;
      this.convertStringToType := convertStringToType;
      impressions := [];
      notifications := [];
    }

    /** `sendImpression`: records the impression. */
    method SendImpression(impression: Impression)
      modifies this`impressions
      ensures impressions == old(impressions) + [impression]
    {
      impressions := impressions + [impression];
    }

    /** `notificationCenter.send`: records the notification. */
    method SendNotification(notification: DecisionNotification)
      modifies this`notifications
      ensures notifications == old(notifications) + [notification]
    {
      notifications := notifications + [notification];
    }
  }

  class OptimizelyUserContext {
    const userId: string
    var attributes: map<string, Value>
    const optimizely: Optimizely

    /** Takes its own copy of the attribute map. */
    constructor(optimizely: Optimizely, userId: string, attributes: map<string, Value>)
      ensures this.optimizely == optimizely && this.userId == userId && this.attributes == attributes
    {
      this.optimizely := optimizely;
      this.userId := userId;
      this.attributes := attributes;
    }

    /** `setAttribute`: puts or overwrites one key. */
    method SetAttribute(key: string, value: Value)
      modifies this`attributes
      ensures attributes == old(attributes)[key := value]
    {
      attributes := attributes[key := value];
    }

    /** `copyAttributes`: a copy of the current attributes. */
    function CopyAttributes(): (copy: map<string, Value>)
      reads this
      ensures copy.Keys == attributes.Keys
      ensures forall k :: k in copy ==> copy[k] == attributes[k]
    {
      attributes
    }

    function Observed(): Snapshot
      reads this, optimizely
    {
      Snapshot(optimizely.config, optimizely.defaultDecideOptions, userId, attributes)
    }

    /**
     * `getDecisionVariableMap`, always given a log: fills the map variable by variable
     * and appends an error reason for each value that does not convert.
     */
    method GetDecisionVariableMap(flag: FeatureFlag, variation: Option<Variation>, featureEnabled: bool,
                                  decisionReasons: Log) returns (valuesMap: map<string, Value>, reasons: Log)
      requires featureEnabled ==> variation.Some?
      ensures (valuesMap, reasons)
              == ResolveVariables(flag.variables, variation, featureEnabled, optimizely.convertStringToType,
                                  decisionReasons)
    {
      valuesMap := map[];
      reasons := decisionReasons;
      for i := 0 to |flag.variables|
        invariant (valuesMap, reasons)
                  == ResolveVariables(flag.variables[..i], variation, featureEnabled,
                                      optimizely.convertStringToType, decisionReasons)
      {
        var variable := flag.variables[i];
        var value := variable.defaultValue;
        if featureEnabled {
          var usages := variation.value.variableUsages;
          if variable.id in usages {
            value := usages[variable.id];
          }
        }
        var convertedValue := optimizely.convertStringToType(value, variable.varType);
        if convertedValue.None? {
          reasons := reasons + [Error(VariableValueInvalidMessage(variable.key))];
        }
        valuesMap := valuesMap[variable.key := ConvertedOrNull(convertedValue)];
        assert flag.variables[..i + 1][..i] == flag.variables[..i];
      }
      assert flag.variables[..|flag.variables|] == flag.variables;
    }

    /** `decide(key, options)`. */
    method Decide(key: string, options: seq<DecideOption>) returns (decision: Decision)
      modifies optimizely`impressions, optimizely`notifications
      ensures var r := Decided(old(Observed()), optimizely.decisionService, optimizely.convertStringToType,
                               key, options);
              && decision == r.decision
              && optimizely.impressions == old(optimizely.impressions) + AsSeq(r.impression)
              && optimizely.notifications == old(optimizely.notifications) + AsSeq(r.notification)
    {
      var projectConfig := optimizely.config;
      if projectConfig.None? {
        return ErrorDecision(key, userId, SdkNotReady);
      }
      var config := projectConfig.value;
      if key !in config.featureKeyMapping {
        return ErrorDecision(key, userId, FlagKeyInvalidMessage(key));
      }
      var flag := config.featureKeyMapping[key];

      var allOptions := AllOptions(optimizely.defaultDecideOptions, options);
      var sentEvent := false;
      var flagEnabled := false;
      var decisionReasons: Log := [];
      var includeReasons := IncludeReasons in allOptions;

      var copiedAttributes := CopyAttributes();
      var allocation := optimizely.decisionService(flag, userId, copiedAttributes, config, allOptions);
      var flagDecision := allocation.0;
      if includeReasons {
        decisionReasons := allocation.1;
      }

      if flagDecision.variation.Some? {
        if flagDecision.decisionSource == FeatureTest {
          if DisableDecisionEvent !in allOptions {
            optimizely.SendImpression(
              Impression(config, flagDecision.experiment, userId, copiedAttributes, flagDecision.variation.value));
            sentEvent := true;
          }
        } else {
          decisionReasons := decisionReasons + [Info(NotInExperimentMessage(userId, key))];
        }
        if flagDecision.variation.value.featureEnabled {
          flagEnabled := true;
        }
      }

      var variableMap := map[];
      if ExcludeVariables !in allOptions {
        variableMap, decisionReasons := GetDecisionVariableMap(flag, flagDecision.variation, flagEnabled, decisionReasons);
      }

      var reasonsToReport := ToReport(decisionReasons, allOptions);
      var variationKey := if flagDecision.variation.Some? then Some(flagDecision.variation.value.key) else None;
      var ruleKey := if flagDecision.experiment.Some? then Some(flagDecision.experiment.value.key) else None;

      decision := Decision(variationKey, flagEnabled, variableMap, ruleKey, key, userId, reasonsToReport);
      optimizely.SendNotification(NotificationFor(decision, copiedAttributes, sentEvent));
    }

    /** `decideForKeys(keys, options)`: passes the call's own options to `decide`, filters on the merged ones. */
    method DecideForKeys(keys: seq<string>, options: seq<DecideOption>) returns (decisionMap: map<string, Decision>)
      modifies optimizely`impressions, optimizely`notifications
      ensures var s := old(Observed());
              var ds := optimizely.decisionService;
              var convert := optimizely.convertStringToType;
              if s.config.None?
              then decisionMap == map[]
                   && optimizely.impressions == old(optimizely.impressions)
                   && optimizely.notifications == old(optimizely.notifications)
              else decisionMap == CollectDecisions(s, ds, convert, keys, options)
                   && optimizely.impressions
                        == old(optimizely.impressions) + ImpressionsFor(s, ds, convert, keys, options)
                   && optimizely.notifications
                        == old(optimizely.notifications) + NotificationsFor(s, ds, convert, keys, options)
    {
      decisionMap := map[];
      if optimizely.config.None? {
        return;
      }
      if keys == [] {
        return;
      }
      var allOptions := AllOptions(optimizely.defaultDecideOptions, options);
      ghost var s := Observed();
      for i := 0 to |keys|
        invariant Observed() == s
        invariant decisionMap
                  == CollectDecisions(s, optimizely.decisionService, optimizely.convertStringToType, keys[..i], options)
        invariant optimizely.impressions
                  == old(optimizely.impressions)
                     + ImpressionsFor(s, optimizely.decisionService, optimizely.convertStringToType, keys[..i], options)
        invariant optimizely.notifications
                  == old(optimizely.notifications)
                     + NotificationsFor(s, optimizely.decisionService, optimizely.convertStringToType, keys[..i], options)
      {
        var key := keys[i];
        ghost var impressions := optimizely.impressions;
        ghost var notifications := optimizely.notifications;
        ghost var decisions := decisionMap;
        var decision := Decide(key, options);
        if EnabledFlagsOnly !in allOptions || decision.enabled {
          decisionMap := decisionMap[key := decision];
        }
        DecideForKeysStep(s, optimizely.decisionService, optimizely.convertStringToType, keys, i, options,
                          Decided(s, optimizely.decisionService, optimizely.convertStringToType, key, options),
                          old(optimizely.impressions), impressions, optimizely.impressions,
                          old(optimizely.notifications), notifications, optimizely.notifications,
                          decisions, decisionMap);
      }
      assert keys[..|keys|] == keys;
    }

    /** `decideAll(options)`: `decideForKeys` over the flag keys in declaration order. */
    method DecideAll(options: seq<DecideOption>) returns (decisionMap: map<string, Decision>)
      modifies optimizely`impressions, optimizely`notifications
      ensures var s := old(Observed());
              var ds := optimizely.decisionService;
              var convert := optimizely.convertStringToType;
              if s.config.None?
              then decisionMap == map[]
                   && optimizely.impressions == old(optimizely.impressions)
                   && optimizely.notifications == old(optimizely.notifications)
              else var keys := FlagKeys(s.config.value.featureFlags);
                   decisionMap == CollectDecisions(s, ds, convert, keys, options)
                   && optimizely.impressions
                        == old(optimizely.impressions) + ImpressionsFor(s, ds, convert, keys, options)
                   && optimizely.notifications
                        == old(optimizely.notifications) + NotificationsFor(s, ds, convert, keys, options)
    {
      decisionMap := map[];
      if optimizely.config.None? {
        return;
      }
      var allFlags := optimizely.config.value.featureFlags;
      var allFlagKeys: seq<string> := [];
      for i := 0 to |allFlags|
        invariant |allFlagKeys| == i
        invariant forall j :: 0 <= j < i ==> allFlagKeys[j] == allFlags[j].key
      {
        allFlagKeys := allFlagKeys + [allFlags[i].key];
      }
      assert allFlagKeys == FlagKeys(allFlags);
      decisionMap := DecideForKeys(allFlagKeys, options);
    }
  }

  /**
   * The constructor and `copyAttributes` take copies: once taken, a copy does not see a
   * later `setAttribute`, while the context does.
   */
  method AttributeCopiesAreIndependent(optimizely: Optimizely, userId: string,
                                       attributes: map<string, Value>, key: string, value: Value)
    returns (context: OptimizelyUserContext, copy: map<string, Value>)
    ensures copy == attributes
    ensures context.attributes == attributes[key := value]
  {
    context := new OptimizelyUserContext(optimizely, userId, attributes);
    copy := context.CopyAttributes();
    context.SetAttribute(key, value);
  }
}
