/**
 * The decide options a caller can pass and the per-decision reasons log
 * (`OptimizelyDecideOption` and `DecisionReasons`).
 *
 * A reasons log is an ordered, append-only sequence of info and error messages.
 * A parameter of type `Option<Log>` stands for a `DecisionReasons` reference that
 * may be null: helpers that receive `None` only write to the logger, which is
 * not modelled.
 */
module DecisionReasons {
  import opened Nullable

  datatype DecideOption =
    | DisableDecisionEvent
    | EnabledFlagsOnly
    | IgnoreUserProfileService
    | IncludeReasons
    | ExcludeVariables

  datatype Reason = Info(message: string) | Error(message: string)

  type Log = seq<Reason>

  /** `logInfo(logger, reasons, ...)`: appends an info message when a log is present. */
  function LogInfo(reasons: Option<Log>, message: string): (r: Option<Log>)
    ensures r.Some? <==> reasons.Some?
    ensures reasons.Some? ==> r.value == reasons.value + [Info(message)]
  {
    match reasons
    case None => None
    case Some(log) => Some(log + [Info(message)])
  }

  /** `logError(logger, reasons, ...)`: appends an error message when a log is present. */
  function LogError(reasons: Option<Log>, message: string): (r: Option<Log>)
    ensures r.Some? <==> reasons.Some?
    ensures reasons.Some? ==> r.value == reasons.value + [Error(message)]
  {
    match reasons
    case None => None
    case Some(log) => Some(log + [Error(message)])
  }

  /** The messages of a log, in log order. */
  function Messages(log: Log): (r: seq<string>)
    ensures |r| == |log|
    ensures forall i :: 0 <= i < |log| ==> r[i] == log[i].message
  {
    seq(|log|, i requires 0 <= i < |log| => log[i].message)
  }

  lemma MessagesAppend(a: Log, b: Log)
    ensures Messages(a + b) == Messages(a) + Messages(b)
  {
    assert forall i :: 0 <= i < |a + b| ==> Messages(a + b)[i] == (Messages(a) + Messages(b))[i];
  }

  /** The messages of the errors of a log, in log order. */
  function ErrorMessages(log: Log): (r: seq<string>)
    ensures forall m :: m in r <==> Error(m) in log
  {
    if log == [] then []
    else
      assert forall m :: Error(m) in log <==> log[0] == Error(m) || Error(m) in log[1..];
      (if log[0].Error? then [log[0].message] else []) + ErrorMessages(log[1..])
  }

  /**
   * The messages of a log that a decision reports: every message, in order, when
   * INCLUDE_REASONS is among the options; otherwise only the error messages.
   */
  function ToReport(log: Log, options: seq<DecideOption>): (r: seq<string>)
    ensures |r| <= |log|
    ensures IncludeReasons in options ==> r == Messages(log)
    ensures IncludeReasons !in options ==> r == ErrorMessages(log)
    ensures IncludeReasons !in options ==> forall m :: m in r <==> Error(m) in log
  {
    if log == [] then []
    else
      var head := if log[0].Error? || IncludeReasons in options then [log[0].message] else [];
      var rest := ToReport(log[1..], options);
      assert forall m :: Error(m) in log <==> log[0] == Error(m) || Error(m) in log[1..];
      head + rest
  }

  /** Reporting a log that grew by appending reports the old messages followed by the new ones. */
  lemma {:induction false} ToReportAppend(a: Log, b: Log, options: seq<DecideOption>)
    ensures ToReport(a + b, options) == ToReport(a, options) + ToReport(b, options)
  {
    if a == [] {
      assert a + b == b;
    } else {
      assert (a + b)[1..] == a[1..] + b;
      ToReportAppend(a[1..], b, options);
    }
  }
}
