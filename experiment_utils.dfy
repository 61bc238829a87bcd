/**
 * The audience resolver (`ExperimentUtils`): whether an experiment is running and
 * whether a user's attributes qualify for its audience.
 *
 * The configuration argument of the Java methods is represented by the map of
 * audience definitions that `AudienceIdCondition` looks up, and the concrete match
 * strategies by a `Matcher`.
 */
module ExperimentUtils {
  import opened Nullable
  import opened ConditionTree
  import opened DecisionReasons

  datatype Experiment = Experiment(
    id: string,
    key: string,
    active: bool,
    audienceIds: seq<string>,
    audienceConditions: Option<Condition>)

  /** A result together with the reasons log it leaves behind (`None` is a null log). */
  datatype Logged<T> = Logged(value: T, reasons: Option<Log>)

  function NotRunningMessage(experimentKey: string): string {
    "Experiment \"" + experimentKey + "\" is not running."
  }

  /** Java's `%b`: a null `Boolean` prints as "false". */
  function FormatBoolean(r: MatchResult): (s: string)
    ensures s == "true" <==> r == True
    ensures s == "false" <==> r != True
  {
    if r == True then "true" else "false"
  }

  function EvaluatedMessage(entityType: string, loggingKey: string, r: MatchResult): string {
    "Audiences for " + entityType + " \"" + loggingKey + "\" collectively evaluated to " + FormatBoolean(r) + "."
  }

  function ConditionInvalidMessage(message: string): string {
    "Condition invalid: " + message
  }

  /**
   * `isExperimentActive`: exactly the experiment's running flag; a stopped experiment
   * adds the "not running" info reason when a log is present.
   */
  function IsExperimentActive(experiment: Experiment, options: seq<DecideOption>,
                              reasons: Option<Log>): (r: Logged<bool>)
    ensures r.value == experiment.active
    ensures r.value ==> r.reasons == reasons
    ensures !r.value ==> r.reasons == LogInfo(reasons, NotRunningMessage(experiment.key))
  {
    if !experiment.active then Logged(false, LogInfo(reasons, NotRunningMessage(experiment.key)))
    else Logged(true, reasons)
  }

  /** The implicit OR that `evaluateAudience` builds: one audience-id condition per id, in order. */
  function ImplicitOr(audienceIds: seq<string>): (c: Condition)
    ensures c.Or? && |c.operands| == |audienceIds|
    ensures forall i :: 0 <= i < |audienceIds| ==> c.operands[i] == AudienceId(audienceIds[i])
  {
    Or(seq(|audienceIds|, i requires 0 <= i < |audienceIds| => AudienceId(audienceIds[i])))
  }

  /**
   * `evaluateAudience`: an experiment without audience ids admits everyone before any
   * condition is built; otherwise the implicit OR is evaluated. An exception from the
   * evaluation is not caught here: it escapes before anything is logged.
   */
  function EvaluateAudience(audiences: map<string, Condition>, experiment: Experiment,
                            attributes: map<string, Value>, entityType: string, loggingKey: string,
                            matcher: Matcher, options: seq<DecideOption>,
                            reasons: Option<Log>): (r: Logged<Outcome<MatchResult>>)
    requires FlatAudiences(audiences)
    ensures experiment.audienceIds == [] ==> r == Logged(Returned(True), reasons)
    ensures experiment.audienceIds != [] ==>
              r.value == Evaluate(ImplicitOr(experiment.audienceIds), audiences, attributes, matcher)
    ensures experiment.audienceIds != [] && r.value.Returned? ==>
              r.reasons == LogInfo(reasons, EvaluatedMessage(entityType, loggingKey, r.value.value))
    ensures r.value.Threw? ==> r.reasons == reasons
  {
    if experiment.audienceIds == [] then Logged(Returned(True), reasons)
    else
      var implicitOr := ImplicitOr(experiment.audienceIds);
      match Evaluate(implicitOr, audiences, attributes, matcher)
      case Threw(msg) => Logged(Threw(msg), reasons)
      case Returned(result) =>
        Logged(Returned(result), LogInfo(reasons, EvaluatedMessage(entityType, loggingKey, result)))
  }

  /**
   * When no referenced audience throws, the implicit OR over a non-empty id list is
   * `True` iff some id names a configured audience that evaluates `True`, and `False`
   * iff every id names a configured audience that evaluates `False` (an unconfigured
   * id is `Unknown`).
   */
  lemma ImplicitOrSemantics(audiences: map<string, Condition>, audienceIds: seq<string>,
                            attributes: map<string, Value>, matcher: Matcher)
    requires FlatAudiences(audiences)
    requires forall i :: 0 <= i < |audienceIds| ==>
               Evaluate(AudienceId(audienceIds[i]), audiences, attributes, matcher).Returned?
    ensures Evaluate(ImplicitOr(audienceIds), audiences, attributes, matcher) == Returned(True)
            <==> exists i :: 0 <= i < |audienceIds| && audienceIds[i] in audiences
                   && Evaluate(audiences[audienceIds[i]], audiences, attributes, matcher) == Returned(True)
    ensures Evaluate(ImplicitOr(audienceIds), audiences, attributes, matcher) == Returned(False)
            <==> forall i :: 0 <= i < |audienceIds| ==>
                   (audienceIds[i] in audiences
                    && Evaluate(audiences[audienceIds[i]], audiences, attributes, matcher) == Returned(False))
  {
    var cs := ImplicitOr(audienceIds).operands;
    assert forall i :: 0 <= i < |cs| ==> Evaluate(cs[i], audiences, attributes, matcher).Returned?;
    OrIsKleeneDisjunction(cs, audiences, attributes, matcher);
  }

  /**
   * `evaluateAudienceConditions`: null when the experiment has no condition tree;
   * otherwise the tree's result, logged as an info reason. An exception from the tree
   * is caught, logged as an error reason, and gives null.
   */
  function EvaluateAudienceConditions(audiences: map<string, Condition>, experiment: Experiment,
                                      attributes: map<string, Value>, entityType: string, loggingKey: string,
                                      matcher: Matcher, options: seq<DecideOption>,
                                      reasons: Option<Log>): (r: Logged<MatchResult>)
    requires FlatAudiences(audiences)
    ensures experiment.audienceConditions.None? ==> r == Logged(Unknown, reasons)
    ensures experiment.audienceConditions.Some? ==>
              var outcome := Evaluate(experiment.audienceConditions.value, audiences, attributes, matcher);
              if outcome.Threw?
              then r == Logged(Unknown, LogError(reasons, ConditionInvalidMessage(outcome.message)))
              else r == Logged(outcome.value, LogInfo(reasons, EvaluatedMessage(entityType, loggingKey, outcome.value)))
  {
    match experiment.audienceConditions
    case None => Logged(Unknown, reasons)
    case Some(conditions) =>
      match Evaluate(conditions, audiences, attributes, matcher)
      case Threw(msg) => Logged(Unknown, LogError(reasons, ConditionInvalidMessage(msg)))
      case Returned(result) =>
        Logged(result, LogInfo(reasons, EvaluatedMessage(entityType, loggingKey, result)))
  }

  /**
   * `doesUserMeetAudienceConditions`: with a condition tree, the user qualifies iff
   * the tree evaluates to `True` (unknown and a caught exception both exclude); without
   * one, iff the audience ids are empty or their implicit OR is `True`, and an
   * exception from that OR escapes. The options and the reasons log are not passed on:
   * the helpers are called with none, so the caller's log is left as it was.
   */
  function DoesUserMeetAudienceConditions(audiences: map<string, Condition>, experiment: Experiment,
                                          attributes: map<string, Value>, entityType: string,
                                          loggingKey: string, matcher: Matcher,
                                          options: seq<DecideOption>,
                                          reasons: Option<Log>): (r: Logged<Outcome<bool>>)
    requires FlatAudiences(audiences)
    ensures r.reasons == reasons
    ensures experiment.audienceConditions.Some? ==>
              r.value == Returned(Evaluate(experiment.audienceConditions.value, audiences, attributes, matcher)
                                    == Returned(True))
    ensures experiment.audienceConditions.None? ==>
              (r.value == Returned(true) <==>
                 experiment.audienceIds == []
                 || Evaluate(ImplicitOr(experiment.audienceIds), audiences, attributes, matcher) == Returned(True))
    ensures r.value.Threw? <==>
              experiment.audienceConditions.None? && experiment.audienceIds != []
              && Evaluate(ImplicitOr(experiment.audienceIds), audiences, attributes, matcher).Threw?
  {
    if experiment.audienceConditions.Some? then
      var resolveReturn :=
        EvaluateAudienceConditions(audiences, experiment, attributes, entityType, loggingKey, matcher, [], None);
      Logged(Returned(resolveReturn.value == True), reasons)
    else
      var resolveReturn :=
        EvaluateAudience(audiences, experiment, attributes, entityType, loggingKey, matcher, [], None);
      match resolveReturn.value
      case Threw(msg) => Logged(Threw(msg), reasons)
      case Returned(result) => Logged(Returned(result == True), reasons)
  }

  /** An experiment with neither audience ids nor a condition tree admits every attribute map. */
  lemma EmptyAudienceAdmitsEveryone(audiences: map<string, Condition>, experiment: Experiment,
                                    attributes: map<string, Value>, matcher: Matcher)
    requires FlatAudiences(audiences)
    requires experiment.audienceConditions.None? && experiment.audienceIds == []
    ensures DoesUserMeetAudienceConditions(audiences, experiment, attributes, "experiment",
                                           experiment.key, matcher, [], None).value == Returned(true)
    ensures DoesUserMeetAudienceConditions(audiences, experiment, map[], "experiment",
                                           experiment.key, matcher, [], None).value == Returned(true)
  {
  }
}
