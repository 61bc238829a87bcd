/**
 * Audience condition trees and their three-valued evaluation against a user's
 * attributes (`Condition`, `AudienceIdCondition`, `UserAttribute`, `AndCondition`,
 * `OrCondition`, `NotCondition`).
 *
 * The Java evaluators return a `Boolean` that may be null; here `Unknown` stands
 * for null. An exception that escapes a leaf is the `Threw` outcome: it stops the
 * evaluation of every enclosing node, as a Java exception does.
 */
module ConditionTree {
  import opened Nullable

  /** An attribute value: the types a host application puts in a user's attribute map. */
  datatype Value =
    | Null
    | Str(s: string)
    | Bool(b: bool)
    | Int(i: int)
    | Dbl(d: real)
    | Nested(fields: map<string, Value>)

  /** The result of evaluating a condition; `Unknown` is the Java null. */
  datatype MatchResult = True | False | Unknown

  /** A Java call that either returns a value or throws an exception with a message. */
  datatype Outcome<T> = Returned(value: T) | Threw(message: string)

  /**
   * What a match strategy other than the legacy exact match reports: a result,
   * an `UnexpectedValueTypeException`, or any other exception.
   */
  datatype MatchOutcome = Matched(result: MatchResult) | UnexpectedValueType | Raised(message: string)

  /** A named match strategy applied to (match name, expected value, the user's value if present). */
  type Matcher = (string, Value, Option<Value>) -> MatchOutcome

  /**
   * A condition tree. A leaf's `kind` is its condition type ("custom_dimension",
   * "attribute_type", ...); evaluation does not look at it.
   */
  datatype Condition =
    | AudienceId(id: string)
    | UserAttribute(name: string, kind: string, matchType: Option<string>, expected: Value)
    | And(operands: seq<Condition>)
    | Or(operands: seq<Condition>)
    | Not(operand: Condition)

  /** Whether a tree mentions an audience by id anywhere. */
  predicate RefersToAudience(c: Condition) {
    match c
    case AudienceId(_) => true
    case UserAttribute(_, _, _, _) => false
    case And(cs) => AnyRefersToAudience(cs)
    case Or(cs) => AnyRefersToAudience(cs)
    case Not(c') => RefersToAudience(c')
  }

  predicate AnyRefersToAudience(cs: seq<Condition>) {
    exists i :: 0 <= i < |cs| && RefersToAudience(cs[i])
  }

  /** The audience definitions of a configuration are trees of attribute conditions. */
  predicate FlatAudiences(audiences: map<string, Condition>) {
    forall id :: id in audiences ==> !RefersToAudience(audiences[id])
  }

  function Rank(c: Condition): nat {
    if RefersToAudience(c) then 1 else 0
  }

  function RankAll(cs: seq<Condition>): nat {
    if AnyRefersToAudience(cs) then 1 else 0
  }

  lemma RankAllTail(cs: seq<Condition>)
    requires cs != []
    ensures RankAll(cs[1..]) <= RankAll(cs)
  {
    if AnyRefersToAudience(cs[1..]) {
      var j :| 0 <= j < |cs[1..]| && RefersToAudience(cs[1..][j]);
      assert RefersToAudience(cs[j + 1]);
    }
  }

  /** Ternary negation: `Unknown` stays `Unknown`. */
  function Invert(r: MatchResult): MatchResult {
    match r
    case True => False
    case False => True
    case Unknown => Unknown
  }

  lemma InvertInvolution(r: MatchResult)
    ensures Invert(Invert(r)) == r
    ensures Invert(r) == Unknown <==> r == Unknown
  {
  }

  function Lookup(attributes: map<string, Value>, name: string): Option<Value> {
    if name in attributes then Some(attributes[name]) else None
  }

  /**
   * The legacy exact match: a null expected value matches an absent attribute and
   * an attribute mapped to null; any other expected value matches only an equal
   * value. It never yields `Unknown`.
   */
  function ExactMatch(expected: Value, actual: Option<Value>): (r: MatchResult)
    ensures r != Unknown
    ensures expected != Null ==> (r == True <==> actual == Some(expected))
    ensures expected == Null ==> (r == True <==> actual == None || actual == Some(Null))
  {
    if expected == Null then
      if actual == None || actual == Some(Null) then True else False
    else if actual == Some(expected) then True else False
  }

  /**
   * A `UserAttribute` leaf. Without a match name it is the exact match; with one it
   * asks the named strategy, turning an `UnexpectedValueTypeException` into
   * `Unknown` and letting any other exception escape.
   */
  function EvaluateLeaf(name: string, matchType: Option<string>, expected: Value,
                        attributes: map<string, Value>, matcher: Matcher): (r: Outcome<MatchResult>)
    ensures matchType.None? ==> r == Returned(ExactMatch(expected, Lookup(attributes, name)))
    ensures matchType.Some? && matcher(matchType.value, expected, Lookup(attributes, name)).UnexpectedValueType?
            ==> r == Returned(Unknown)
    ensures r.Threw? <==> matchType.Some? && matcher(matchType.value, expected, Lookup(attributes, name)).Raised?
  {
    match matchType
    case None => Returned(ExactMatch(expected, Lookup(attributes, name)))
    case Some(m) =>
      match matcher(m, expected, Lookup(attributes, name))
      case Matched(r) => Returned(r)
      case UnexpectedValueType => Returned(Unknown)
      case Raised(msg) => Threw(msg)
  }

  /**
   * `condition.evaluate(config, attributes)`. An audience id is looked up in the
   * configuration's audiences; a missing audience evaluates to `Unknown`.
   */
  function Evaluate(c: Condition, audiences: map<string, Condition>,
                    attributes: map<string, Value>, matcher: Matcher): (r: Outcome<MatchResult>)
    requires FlatAudiences(audiences)
    ensures c.AudienceId? && c.id !in audiences ==> r == Returned(Unknown)
    ensures c.UserAttribute? ==> r == EvaluateLeaf(c.name, c.matchType, c.expected, attributes, matcher)
    ensures c.Or? && c.operands == [] ==> r == Returned(False)
    ensures c.And? && c.operands == [] ==> r == Returned(True)
    decreases Rank(c), c
  {
    match c
    case AudienceId(id) =>
      if id in audiences then Evaluate(audiences[id], audiences, attributes, matcher)
      else Returned(Unknown)
    case UserAttribute(name, _, matchType, expected) =>
      EvaluateLeaf(name, matchType, expected, attributes, matcher)
    case And(cs) => EvaluateAnd(cs, audiences, attributes, matcher)
    case Or(cs) => EvaluateOr(cs, audiences, attributes, matcher)
    case Not(c') =>
      match Evaluate(c', audiences, attributes, matcher)
      case Threw(msg) => Threw(msg)
      case Returned(r) => Returned(Invert(r))
  }

  /**
   * `OrCondition.evaluate`: operands in order; returns `True` at the first `True`,
   * otherwise `Unknown` if some operand was `Unknown`, else `False`.
   */
  function EvaluateOr(cs: seq<Condition>, audiences: map<string, Condition>,
                      attributes: map<string, Value>, matcher: Matcher): (r: Outcome<MatchResult>)
    requires FlatAudiences(audiences)
    ensures cs == [] ==> r == Returned(False)
    ensures r == Returned(True) ==>
              exists i :: 0 <= i < |cs| && Evaluate(cs[i], audiences, attributes, matcher) == Returned(True)
    ensures r.Threw? ==>
              exists i :: 0 <= i < |cs| && Evaluate(cs[i], audiences, attributes, matcher) == r
    decreases RankAll(cs), cs
  {
    if cs == [] then Returned(False)
    else
      match Evaluate(cs[0], audiences, attributes, matcher)
      case Threw(msg) => Threw(msg)
      case Returned(True) => Returned(True)
      case Returned(first) =>
        RankAllTail(cs);
        match EvaluateOr(cs[1..], audiences, attributes, matcher)
        case Threw(msg) => Threw(msg)
        case Returned(rest) => Returned(if rest == False then first else rest)
  }

  /**
   * `AndCondition.evaluate`: operands in order; returns `False` at the first `False`,
   * otherwise `Unknown` if some operand was `Unknown`, else `True`.
   */
  function EvaluateAnd(cs: seq<Condition>, audiences: map<string, Condition>,
                       attributes: map<string, Value>, matcher: Matcher): (r: Outcome<MatchResult>)
    requires FlatAudiences(audiences)
    ensures cs == [] ==> r == Returned(True)
    ensures r == Returned(False) ==>
              exists i :: 0 <= i < |cs| && Evaluate(cs[i], audiences, attributes, matcher) == Returned(False)
    ensures r.Threw? ==>
              exists i :: 0 <= i < |cs| && Evaluate(cs[i], audiences, attributes, matcher) == r
    decreases RankAll(cs), cs
  {
    if cs == [] then Returned(True)
    else
      match Evaluate(cs[0], audiences, attributes, matcher)
      case Threw(msg) => Threw(msg)
      case Returned(False) => Returned(False)
      case Returned(first) =>
        RankAllTail(cs);
        match EvaluateAnd(cs[1..], audiences, attributes, matcher)
        case Threw(msg) => Threw(msg)
        case Returned(rest) => Returned(if rest == True then first else rest)
  }

  /** NOT returns the inverse of its operand's result and lets its exception through. */
  lemma NotInverts(c: Condition, audiences: map<string, Condition>,
                   attributes: map<string, Value>, matcher: Matcher)
    requires FlatAudiences(audiences)
    ensures var inner := Evaluate(c, audiences, attributes, matcher);
            Evaluate(Not(c), audiences, attributes, matcher)
              == if inner.Threw? then inner else Returned(Invert(inner.value))
  {
  }

  // ---------------------------------------------------------------------------
  // Kleene's three-valued connectives, as an independent reference for OR and AND

  function Or3(a: MatchResult, b: MatchResult): MatchResult {
    if a == True || b == True then True
    else if a == Unknown || b == Unknown then Unknown
    else False
  }

  function And3(a: MatchResult, b: MatchResult): MatchResult {
    if a == False || b == False then False
    else if a == Unknown || b == Unknown then Unknown
    else True
  }

  /** Kleene disjunction of a list of results: `False` for the empty list. */
  function OrFold(rs: seq<MatchResult>): MatchResult {
    if rs == [] then False else Or3(rs[0], OrFold(rs[1..]))
  }

  /** Kleene conjunction of a list of results: `True` for the empty list. */
  function AndFold(rs: seq<MatchResult>): MatchResult {
    if rs == [] then True else And3(rs[0], AndFold(rs[1..]))
  }

  /** No operand of the list throws when evaluated. */
  predicate NoneThrow(cs: seq<Condition>, audiences: map<string, Condition>,
                      attributes: map<string, Value>, matcher: Matcher)
    requires FlatAudiences(audiences)
  {
    forall i :: 0 <= i < |cs| ==> Evaluate(cs[i], audiences, attributes, matcher).Returned?
  }

  /**
   * When no operand throws, an OR is `True` iff some operand is `True`, `False` iff
   * every operand is `False`, and `Unknown` otherwise.
   */
  lemma {:induction false} OrIsKleeneDisjunction(cs: seq<Condition>, audiences: map<string, Condition>,
                                                 attributes: map<string, Value>, matcher: Matcher)
    requires FlatAudiences(audiences)
    requires NoneThrow(cs, audiences, attributes, matcher)
    ensures EvaluateOr(cs, audiences, attributes, matcher).Returned?
    ensures EvaluateOr(cs, audiences, attributes, matcher) == Returned(True)
            <==> exists i :: 0 <= i < |cs| && Evaluate(cs[i], audiences, attributes, matcher) == Returned(True)
    ensures EvaluateOr(cs, audiences, attributes, matcher) == Returned(False)
            <==> forall i :: 0 <= i < |cs| ==> Evaluate(cs[i], audiences, attributes, matcher) == Returned(False)
  {
    if cs != [] {
      var tail := cs[1..];
      assert forall i :: 0 <= i < |tail| ==> tail[i] == cs[i + 1];
      var first := Evaluate(cs[0], audiences, attributes, matcher);
      if first != Returned(True) {
        OrIsKleeneDisjunction(tail, audiences, attributes, matcher);
        var rest := EvaluateOr(tail, audiences, attributes, matcher);
        assert EvaluateOr(cs, audiences, attributes, matcher) == Returned(Or3(first.value, rest.value));
        if exists i :: 0 <= i < |cs| && Evaluate(cs[i], audiences, attributes, matcher) == Returned(True) {
          var i :| 0 <= i < |cs| && Evaluate(cs[i], audiences, attributes, matcher) == Returned(True);
          assert Evaluate(tail[i - 1], audiences, attributes, matcher) == Returned(True);
        }
      }
    }
  }

  /**
   * When no operand throws, an AND is `False` iff some operand is `False`, `True` iff
   * every operand is `True`, and `Unknown` otherwise.
   */
  lemma {:induction false} AndIsKleeneConjunction(cs: seq<Condition>, audiences: map<string, Condition>,
                                                  attributes: map<string, Value>, matcher: Matcher)
    requires FlatAudiences(audiences)
    requires NoneThrow(cs, audiences, attributes, matcher)
    ensures EvaluateAnd(cs, audiences, attributes, matcher).Returned?
    ensures EvaluateAnd(cs, audiences, attributes, matcher) == Returned(False)
            <==> exists i :: 0 <= i < |cs| && Evaluate(cs[i], audiences, attributes, matcher) == Returned(False)
    ensures EvaluateAnd(cs, audiences, attributes, matcher) == Returned(True)
            <==> forall i :: 0 <= i < |cs| ==> Evaluate(cs[i], audiences, attributes, matcher) == Returned(True)
  {
    if cs != [] {
      var tail := cs[1..];
      assert forall i :: 0 <= i < |tail| ==> tail[i] == cs[i + 1];
      var first := Evaluate(cs[0], audiences, attributes, matcher);
      if first != Returned(False) {
        AndIsKleeneConjunction(tail, audiences, attributes, matcher);
        var rest := EvaluateAnd(tail, audiences, attributes, matcher);
        assert EvaluateAnd(cs, audiences, attributes, matcher) == Returned(And3(first.value, rest.value));
        if exists i :: 0 <= i < |cs| && Evaluate(cs[i], audiences, attributes, matcher) == Returned(False) {
          var i :| 0 <= i < |cs| && Evaluate(cs[i], audiences, attributes, matcher) == Returned(False);
          assert Evaluate(tail[i - 1], audiences, attributes, matcher) == Returned(False);
        }
      }
    }
  }

  /**
   * When the operands evaluate to the results `rs`, OR evaluates to their Kleene
   * disjunction: short-circuiting changes which operands are evaluated, not the result.
   */
  lemma {:induction false} OrIsKleeneFold(cs: seq<Condition>, rs: seq<MatchResult>,
                                          audiences: map<string, Condition>,
                                          attributes: map<string, Value>, matcher: Matcher)
    requires FlatAudiences(audiences)
    requires |rs| == |cs|
    requires forall i :: 0 <= i < |cs| ==> Evaluate(cs[i], audiences, attributes, matcher) == Returned(rs[i])
    ensures EvaluateOr(cs, audiences, attributes, matcher) == Returned(OrFold(rs))
  {
    if cs != [] {
      var tail := cs[1..];
      assert forall i :: 0 <= i < |tail| ==> tail[i] == cs[i + 1];
      OrIsKleeneFold(tail, rs[1..], audiences, attributes, matcher);
    }
  }

  /** The AND counterpart of `OrIsKleeneFold`: AND evaluates to the Kleene conjunction. */
  lemma {:induction false} AndIsKleeneFold(cs: seq<Condition>, rs: seq<MatchResult>,
                                           audiences: map<string, Condition>,
                                           attributes: map<string, Value>, matcher: Matcher)
    requires FlatAudiences(audiences)
    requires |rs| == |cs|
    requires forall i :: 0 <= i < |cs| ==> Evaluate(cs[i], audiences, attributes, matcher) == Returned(rs[i])
    ensures EvaluateAnd(cs, audiences, attributes, matcher) == Returned(AndFold(rs))
  {
    if cs != [] {
      var tail := cs[1..];
      assert forall i :: 0 <= i < |tail| ==> tail[i] == cs[i + 1];
      AndIsKleeneFold(tail, rs[1..], audiences, attributes, matcher);
    }
  }

  // ---------------------------------------------------------------------------
  // Short-circuiting: how many operands an OR or an AND evaluates

  /** The number of operands an OR evaluates: it stops after the first that is `True` or throws. */
  function OrVisited(cs: seq<Condition>, audiences: map<string, Condition>,
                     attributes: map<string, Value>, matcher: Matcher): (n: nat)
    requires FlatAudiences(audiences)
    ensures n <= |cs|
    ensures cs != [] ==> 1 <= n
  {
    if cs == [] then 0
    else
      match Evaluate(cs[0], audiences, attributes, matcher)
      case Threw(_) => 1
      case Returned(True) => 1
      case Returned(_) => 1 + OrVisited(cs[1..], audiences, attributes, matcher)
  }

  /** The number of operands an AND evaluates: it stops after the first that is `False` or throws. */
  function AndVisited(cs: seq<Condition>, audiences: map<string, Condition>,
                      attributes: map<string, Value>, matcher: Matcher): (n: nat)
    requires FlatAudiences(audiences)
    ensures n <= |cs|
    ensures cs != [] ==> 1 <= n
  {
    if cs == [] then 0
    else
      match Evaluate(cs[0], audiences, attributes, matcher)
      case Threw(_) => 1
      case Returned(False) => 1
      case Returned(_) => 1 + AndVisited(cs[1..], audiences, attributes, matcher)
  }

  /**
   * Operands an OR does not evaluate cannot influence it: when it stops early, any
   * operands may follow the evaluated ones (even ones that would throw) and the
   * result is the same.
   */
  lemma {:induction false} OrIgnoresUnvisited(cs: seq<Condition>, others: seq<Condition>,
                                              audiences: map<string, Condition>,
                                              attributes: map<string, Value>, matcher: Matcher)
    requires FlatAudiences(audiences)
    requires OrVisited(cs, audiences, attributes, matcher) < |cs|
    ensures var n := OrVisited(cs, audiences, attributes, matcher);
            EvaluateOr(cs[..n] + others, audiences, attributes, matcher)
              == EvaluateOr(cs, audiences, attributes, matcher)
  {
    var n := OrVisited(cs, audiences, attributes, matcher);
    var cs' := cs[..n] + others;
    assert cs' != [] && cs'[0] == cs[0];
    var first := Evaluate(cs[0], audiences, attributes, matcher);
    if first.Returned? && first.value != True {
      assert n == 1 + OrVisited(cs[1..], audiences, attributes, matcher);
      assert cs'[1..] == cs[1..][..n - 1] + others;
      OrIgnoresUnvisited(cs[1..], others, audiences, attributes, matcher);
      assert EvaluateOr(cs'[1..], audiences, attributes, matcher) == EvaluateOr(cs[1..], audiences, attributes, matcher);
    }
  }

  /** The AND counterpart of `OrIgnoresUnvisited`. */
  lemma {:induction false} AndIgnoresUnvisited(cs: seq<Condition>, others: seq<Condition>,
                                               audiences: map<string, Condition>,
                                               attributes: map<string, Value>, matcher: Matcher)
    requires FlatAudiences(audiences)
    requires AndVisited(cs, audiences, attributes, matcher) < |cs|
    ensures var n := AndVisited(cs, audiences, attributes, matcher);
            EvaluateAnd(cs[..n] + others, audiences, attributes, matcher)
              == EvaluateAnd(cs, audiences, attributes, matcher)
  {
    var n := AndVisited(cs, audiences, attributes, matcher);
    var cs' := cs[..n] + others;
    assert cs' != [] && cs'[0] == cs[0];
    var first := Evaluate(cs[0], audiences, attributes, matcher);
    if first.Returned? && first.value != False {
      assert n == 1 + AndVisited(cs[1..], audiences, attributes, matcher);
      assert cs'[1..] == cs[1..][..n - 1] + others;
      AndIgnoresUnvisited(cs[1..], others, audiences, attributes, matcher);
      assert EvaluateAnd(cs'[1..], audiences, attributes, matcher) == EvaluateAnd(cs[1..], audiences, attributes, matcher);
    }
  }

  /**
   * An OR whose first operand is `True` evaluates that operand alone and is `True`,
   * whatever follows; one whose operands are all `False` evaluates every operand once
   * and is `False`.
   */
  lemma {:induction false} OrShortCircuit(cs: seq<Condition>, audiences: map<string, Condition>,
                                          attributes: map<string, Value>, matcher: Matcher)
    requires FlatAudiences(audiences)
    ensures cs != [] && Evaluate(cs[0], audiences, attributes, matcher) == Returned(True) ==>
              OrVisited(cs, audiences, attributes, matcher) == 1
              && EvaluateOr(cs, audiences, attributes, matcher) == Returned(True)
    ensures (forall i :: 0 <= i < |cs| ==> Evaluate(cs[i], audiences, attributes, matcher) == Returned(False)) ==>
              OrVisited(cs, audiences, attributes, matcher) == |cs|
              && EvaluateOr(cs, audiences, attributes, matcher) == Returned(False)
  {
    if cs != [] && forall i :: 0 <= i < |cs| ==> Evaluate(cs[i], audiences, attributes, matcher) == Returned(False) {
      var tail := cs[1..];
      assert forall i :: 0 <= i < |tail| ==> tail[i] == cs[i + 1];
      OrShortCircuit(tail, audiences, attributes, matcher);
    }
  }

  /**
   * An AND whose first operand is `False` evaluates that operand alone and is `False`,
   * whatever follows; one whose operands are all `True` evaluates every operand once
   * and is `True`.
   */
  lemma {:induction false} AndShortCircuit(cs: seq<Condition>, audiences: map<string, Condition>,
                                           attributes: map<string, Value>, matcher: Matcher)
    requires FlatAudiences(audiences)
    ensures cs != [] && Evaluate(cs[0], audiences, attributes, matcher) == Returned(False) ==>
              AndVisited(cs, audiences, attributes, matcher) == 1
              && EvaluateAnd(cs, audiences, attributes, matcher) == Returned(False)
    ensures (forall i :: 0 <= i < |cs| ==> Evaluate(cs[i], audiences, attributes, matcher) == Returned(True)) ==>
              AndVisited(cs, audiences, attributes, matcher) == |cs|
              && EvaluateAnd(cs, audiences, attributes, matcher) == Returned(True)
  {
    if cs != [] && forall i :: 0 <= i < |cs| ==> Evaluate(cs[i], audiences, attributes, matcher) == Returned(True) {
      var tail := cs[1..];
      assert forall i :: 0 <= i < |tail| ==> tail[i] == cs[i + 1];
      AndShortCircuit(tail, audiences, attributes, matcher);
    }
  }
}
