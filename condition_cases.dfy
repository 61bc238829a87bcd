/**
 * The behaviour that `AudienceConditionEvaluationTest` pins down, stated over the
 * condition-tree model: exact matching of typed values, NOT, OR and AND with their
 * short-circuiting, null-value matching, and the ternary propagation rules.
 */
module ConditionCases {
  import opened Nullable
  import opened ConditionTree

  /** The string attributes the test cases evaluate against. */
  function UserAttributes(): map<string, Value> {
    map["browser_type" := Str("chrome"), "device_type" := Str("Android")]
  }

  /** The typed attributes: a boolean, a double, an integer and a nested map. */
  function TypedUserAttributes(): map<string, Value> {
    map["is_firefox" := Bool(true), "num_counts" := Dbl(3.55), "num_size" := Int(3),
        "meta_data" := Nested(UserAttributes())]
  }

  /** A legacy leaf as the test builds it: name, kind "custom_dimension", expected value. */
  function Dimension(name: string, expected: Value): Condition {
    UserAttribute(name, "custom_dimension", None, expected)
  }

  /** The concrete strategies are never consulted by legacy leaves; any matcher serves. */
  function AnyMatcher(): Matcher {
    (m: string, e: Value, a: Option<Value>) => Matched(Unknown)
  }

  /** No audiences are configured in these cases. */
  function NoAudiences(): map<string, Condition> {
    map[]
  }

  function Eval(c: Condition, attributes: map<string, Value>): Outcome<MatchResult> {
    Evaluate(c, NoAudiences(), attributes, AnyMatcher())
  }

  /** Exact matching is true for an equal string, nested map, boolean, double and integer. */
  lemma UserAttributeEvaluateTrue()
    ensures Eval(Dimension("browser_type", Str("chrome")), UserAttributes()) == Returned(True)
    ensures Eval(Dimension("meta_data", Nested(UserAttributes())), TypedUserAttributes()) == Returned(True)
    ensures Eval(Dimension("is_firefox", Bool(true)), TypedUserAttributes()) == Returned(True)
    ensures Eval(Dimension("num_counts", Dbl(3.55)), TypedUserAttributes()) == Returned(True)
    ensures Eval(Dimension("num_size", Int(3)), TypedUserAttributes()) == Returned(True)
  {
  }

  /** A present attribute with another value, and an absent attribute, do not match. */
  lemma UserAttributeEvaluateFalse()
    ensures Eval(Dimension("browser_type", Str("firefox")), UserAttributes()) == Returned(False)
    ensures Eval(Dimension("unknown_dim", Str("unknown")), UserAttributes()) == Returned(False)
  {
  }

  /** A null expected value matches an empty map and a null value, but not the empty string. */
  lemma NullValueEvaluate()
    ensures Eval(UserAttribute("attribute_name", "attribute_type", None, Null), map[]) == Returned(True)
    ensures Eval(UserAttribute("attribute_name", "attribute_type", None, Null),
                 map["attribute_name" := Null]) == Returned(True)
    ensures Eval(UserAttribute("attribute_name", "attribute_type", None, Null),
                 map["attribute_name" := Str("")]) == Returned(False)
  {
  }

  /** NOT turns its operand's false into true and true into false. */
  lemma NotConditionEvaluate()
    ensures Eval(Not(Dimension("browser_type", Str("firefox"))), UserAttributes()) == Returned(True)
    ensures Eval(Not(Dimension("browser_type", Str("chrome"))), UserAttributes()) == Returned(False)
  {
  }

  /**
   * An OR whose first operand is true is true after evaluating only that operand; one
   * whose operands are all false is false after evaluating both.
   */
  lemma OrConditionEvaluate()
    ensures var cs := [Dimension("browser_type", Str("chrome")), Dimension("browser_type", Str("firefox"))];
            Eval(Or(cs), UserAttributes()) == Returned(True)
            && OrVisited(cs, NoAudiences(), UserAttributes(), AnyMatcher()) == 1
    ensures var cs := [Dimension("browser_type", Str("opera")), Dimension("browser_type", Str("firefox"))];
            Eval(Or(cs), UserAttributes()) == Returned(False)
            && OrVisited(cs, NoAudiences(), UserAttributes(), AnyMatcher()) == 2
  {
  }

  /**
   * An AND whose operands are all true is true after evaluating both; one whose first
   * operand is false is false after evaluating only that operand.
   */
  lemma AndConditionEvaluate()
    ensures var cs := [Dimension("browser_type", Str("chrome")), Dimension("device_type", Str("Android"))];
            Eval(And(cs), UserAttributes()) == Returned(True)
            && AndVisited(cs, NoAudiences(), UserAttributes(), AnyMatcher()) == 2
    ensures var cs := [Dimension("browser_type", Str("firefox")), Dimension("device_type", Str("Android"))];
            Eval(And(cs), UserAttributes()) == Returned(False)
            && AndVisited(cs, NoAudiences(), UserAttributes(), AnyMatcher()) == 1
  {
  }

  /**
   * Ternary propagation, with an unconfigured audience as the unknown operand:
   * AND(unknown, true) is unknown, AND(unknown, false) is false, OR(unknown, false)
   * is unknown and OR(unknown, true) is true.
   */
  lemma TernaryPropagation()
    ensures Eval(And([AudienceId("missing"), Dimension("browser_type", Str("chrome"))]), UserAttributes())
              == Returned(Unknown)
    ensures Eval(And([AudienceId("missing"), Dimension("browser_type", Str("firefox"))]), UserAttributes())
              == Returned(False)
    ensures Eval(Or([AudienceId("missing"), Dimension("browser_type", Str("firefox"))]), UserAttributes())
              == Returned(Unknown)
    ensures Eval(Or([AudienceId("missing"), Dimension("browser_type", Str("chrome"))]), UserAttributes())
              == Returned(True)
  {
  }
}
