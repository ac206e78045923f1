/**
 * The rules a questionnaire carries: after an answer, every rule whose conditions hold on the
 * answers contributes its actions, keyed by the rule's name.
 */
module QuestionnaireRuleEvaluator {
  import opened Wrappers
  import opened Text
  import opened ElementValues
  import Triggers
  import Seqs

  datatype LogicalOperator = And | Or

  datatype Comparator = EqualsTo | NotEqualsTo

  /** A condition on the answer to the element named `fieldName`; `expectedJson` is the JSON text of the expected value. */
  datatype Condition = Condition(fieldName: string, comparator: Comparator, expectedJson: string)

  datatype ConditionGroup = ConditionGroup(operator: LogicalOperator, conditions: seq<Condition>)

  datatype Action =
    | PutNotificationTrigger(triggerId: int)
    | OpenQuestionnaire(eventQuestionnaireTriggerId: int)
    | UpdateNextNotificationTrigger(triggerName: string, toStatus: Triggers.Status,
                                    requireSameTimeBucket: bool, maxDistanceMinutes: int)

  datatype QuestionnaireRule = QuestionnaireRule(name: string, conditions: ConditionGroup, actions: seq<Action>)

  /** `elementValueAsString`: the answer as text, or None for no value and for the kinds without an answer. */
  function ElementValueAsString(v: Option<ElementValue>): (s: Option<string>)
    ensures s.None? <==> v.None? || v.value.content.NoAnswer?
  {
    match v
    case None => None
    case Some(value) =>
      match value.content
      case RadioGroupValue(index) => Some(IntToString(index))
      case CheckboxGroupValue(values) => Some(ListToString(values))
      case SliderValue(text) => Some(text)
      case TextEntryValue(text) => Some(text)
      case QuantityEntryValue(quantity) => Some(quantity)
      case SocialNetworkEntryValue(entries) => Some(ListToString(entries))
      case ButtonGroupValue(button) => Some(button)
      case TimeInputValue(text) => Some(text)
      case NoAnswer(_) => None
  }

  /** Kotlin's `trimStart('"')`. */
  function TrimStartQuotes(s: string): (r: string)
    ensures |r| <= |s| && r == s[|s| - |r|..]
    ensures forall i :: 0 <= i < |s| - |r| ==> s[i] == '"'
    ensures |r| > 0 ==> r[0] != '"'
  {
    if |s| > 0 && s[0] == '"' then TrimStartQuotes(s[1..]) else s
  }

  /** Kotlin's `trimEnd('"')`. */
  function TrimEndQuotes(s: string): (r: string)
    ensures |r| <= |s| && r == s[..|r|]
    ensures forall i :: |r| <= i < |s| ==> s[i] == '"'
    ensures |r| > 0 ==> r[|r| - 1] != '"'
  {
    if |s| > 0 && s[|s| - 1] == '"' then TrimEndQuotes(s[..|s| - 1]) else s
  }

  /** Kotlin's `trim('"')`; the result neither starts nor ends with a quote. */
  function TrimQuotes(s: string): (r: string)
    ensures |r| > 0 ==> r[0] != '"' && r[|r| - 1] != '"'
  {
    TrimEndQuotes(TrimStartQuotes(s))
  }

  /** `trim('"')` leaves the part of `s` between a run of quotes at its start and one at its end. */
  lemma TrimQuotesStrips(s: string)
    ensures exists i, j :: 0 <= i <= j <= |s| && TrimQuotes(s) == s[i..j]
                           && (forall k :: 0 <= k < i ==> s[k] == '"')
                           && (forall k :: j <= k < |s| ==> s[k] == '"')
  {
    var front := TrimStartQuotes(s);
    var r := TrimEndQuotes(front);
    var i := |s| - |front|;
    var j := i + |r|;
    assert r == s[i..j];
    assert forall k :: 0 <= k < i ==> s[k] == '"';
    assert forall k :: j <= k < |s| ==> s[k] == front[k - i] == '"';
  }

  function HasName(fieldName: string): ((int, ElementValue)) -> bool
  {
    (e: (int, ElementValue)) => e.1.elementName == fieldName
  }

  /** The answer text of the first entry whose element is named `fieldName`. */
  function ValueOf(values: ValueMap, fieldName: string): Option<string>
  {
    var entry := Seqs.Find(values, HasName(fieldName));
    ElementValueAsString(if entry.Some? then Some(entry.value.1) else None)
  }

  /** A condition holds only on an answer; it then compares the answer with the unquoted expected text. */
  predicate ConditionHolds(values: ValueMap, c: Condition)
  {
    match ValueOf(values, c.fieldName)
    case None => false
    case Some(v) =>
      match c.comparator
      case EqualsTo => v == TrimQuotes(c.expectedJson)
      case NotEqualsTo => v != TrimQuotes(c.expectedJson)
  }

  /** Whether a rule fires: all of its conditions for And, any of them for Or. */
  predicate RuleFires(values: ValueMap, rule: QuestionnaireRule)
  {
    var cs := rule.conditions.conditions;
    match rule.conditions.operator
    case And => forall i :: 0 <= i < |cs| ==> ConditionHolds(values, cs[i])
    case Or => exists i :: 0 <= i < |cs| && ConditionHolds(values, cs[i])
  }

  /** The firing test of `evaluate` on the given answers. */
  function FiringOn(values: ValueMap): QuestionnaireRule -> bool
  {
    rule => RuleFires(values, rule)
  }

  /** The map built by going through the rules in order, recording the actions of each that passes `fires`. */
  function ActionsOf(rules: seq<QuestionnaireRule>, fires: QuestionnaireRule -> bool): map<string, seq<Action>>
    decreases |rules|
  {
    if |rules| == 0 then map[]
    else
      var before := ActionsOf(rules[..|rules| - 1], fires);
      var rule := rules[|rules| - 1];
      if fires(rule) then before[rule.name := rule.actions] else before
  }

  /** The map that `evaluate` returns after the given rules. */
  function RuleActions(rules: seq<QuestionnaireRule>, values: ValueMap): map<string, seq<Action>>
  {
    ActionsOf(rules, FiringOn(values))
  }

  /** Rule i is named `name` and fires. */
  predicate FiresAs(rules: seq<QuestionnaireRule>, fires: QuestionnaireRule -> bool, name: string, i: int)
  {
    0 <= i < |rules| && rules[i].name == name && fires(rules[i])
  }

  /** Rule i is the last rule named `name` that fires. */
  predicate LastFiringAs(rules: seq<QuestionnaireRule>, fires: QuestionnaireRule -> bool, name: string, i: int)
  {
    FiresAs(rules, fires, name, i) && forall j :: i < j < |rules| ==> !FiresAs(rules, fires, name, j)
  }

  /**
   * The result has a key exactly for the names of the rules that fire, and under each name the
   * actions of the last rule with that name that fires. With `fires` the firing test on some
   * answers, this is what `evaluate` returns.
   */
  lemma {:induction false} RuleActionsContents(rules: seq<QuestionnaireRule>, fires: QuestionnaireRule -> bool, name: string)
    ensures name in ActionsOf(rules, fires) <==> exists i :: FiresAs(rules, fires, name, i)
    ensures name in ActionsOf(rules, fires) ==>
      exists i :: LastFiringAs(rules, fires, name, i) && ActionsOf(rules, fires)[name] == rules[i].actions
    decreases |rules|
  {
    if |rules| > 0 {
      var n := |rules| - 1;
      var init := rules[..n];
      RuleActionsContents(init, fires, name);
      if FiresAs(rules, fires, name, n) {
        assert LastFiringAs(rules, fires, name, n);
      } else {
        assert (name in ActionsOf(rules, fires)) == (name in ActionsOf(init, fires));
        assert name in ActionsOf(init, fires) ==> ActionsOf(rules, fires)[name] == ActionsOf(init, fires)[name];
        InitFiring(rules, init, fires, name);
      }
    }
  }

  /** When the last rule does not fire under `name`, the firings under `name` are those of the other rules. */
  lemma InitFiring(rules: seq<QuestionnaireRule>, init: seq<QuestionnaireRule>, fires: QuestionnaireRule -> bool, name: string)
    requires |rules| > 0 && init == rules[..|rules| - 1]
    requires !FiresAs(rules, fires, name, |rules| - 1)
    ensures (exists i :: FiresAs(rules, fires, name, i)) <==> (exists i :: FiresAs(init, fires, name, i))
    ensures forall i :: LastFiringAs(init, fires, name, i) ==> LastFiringAs(rules, fires, name, i)
  {
    forall i ensures FiresAs(init, fires, name, i) <==> FiresAs(rules, fires, name, i) {
      if 0 <= i < |init| {
        assert init[i] == rules[i];
      }
    }
  }

  /** A condition on an element that has no answer is false, whatever its comparator. */
  lemma ConditionOnMissingAnswer(values: ValueMap, c: Condition)
    requires forall i :: 0 <= i < |values| ==> values[i].1.elementName != c.fieldName
    ensures !ConditionHolds(values, c)
  {
  }

  /** With no answers, no rule with conditions fires, so a rule set of such rules yields nothing. */
  lemma {:induction false} NoAnswersNoActions(rules: seq<QuestionnaireRule>)
    requires forall i :: 0 <= i < |rules| ==> |rules[i].conditions.conditions| > 0
    ensures RuleActions(rules, []) == map[]
    decreases |rules|
  {
    if |rules| > 0 {
      NoAnswersNoActions(rules[..|rules| - 1]);
      var cs := rules[|rules| - 1].conditions.conditions;
      assert !ConditionHolds([], cs[0]);
    }
  }

  /** The evaluator built with the study's rules. */
  class Evaluator {
    var rules: seq<QuestionnaireRule>

    constructor (rules: seq<QuestionnaireRule>)
      ensures this.rules == rules
    {
      this.rules := rules;
    }

    /** `evaluate`: goes through the rules in order and records the actions of each that fires. */
    method Evaluate(values: ValueMap) returns (ruleActions: map<string, seq<Action>>)
      ensures ruleActions == RuleActions(rules, values)
    {
      ruleActions := map[];
      for i := 0 to |rules|
        invariant ruleActions == ActionsOf(rules[..i], FiringOn(values))
      {
        var rule := rules[i];
        assert rules[..i + 1][..i] == rules[..i];
        if RuleFires(values, rule) {
          ruleActions := ruleActions[rule.name := rule.actions];
        }
      }
      assert rules[..|rules|] == rules;
    }
  }

  const Answer1: ElementValue := ElementValue(1, "answer1", ButtonGroupValue("Yes"))

  /** The JSON text of the string "Yes" reads as Yes once unquoted. */
  lemma QuotedYes()
    ensures TrimQuotes("\"Yes\"") == "Yes"
  {
    assert "\"Yes\""[1..] == "Yes\"";
    assert TrimStartQuotes("\"Yes\"") == "Yes\"";
    assert "Yes\""[..3] == "Yes";
    assert TrimEndQuotes("Yes\"") == "Yes";
  }

  /** The entry compared is the first whose element is named `fieldName`, wherever it stands. */
  lemma ValueOfFirst(values: ValueMap, fieldName: string, i: int)
    requires 0 <= i < |values| && values[i].1.elementName == fieldName
    requires forall j :: 0 <= j < i ==> values[j].1.elementName != fieldName
    ensures ValueOf(values, fieldName) == ElementValueAsString(Some(values[i].1))
  {
    var p := HasName(fieldName);
    assert p(values[i]);
    var found := Seqs.Find(values, p);
    var k :| 0 <= k < |values| && values[k] == found.value && p(values[k]) && forall j :: 0 <= j < k ==> !p(values[j]);
    assert k == i;
  }

  lemma SingleRule(rule: QuestionnaireRule, values: ValueMap)
    ensures RuleActions([rule], values) == if RuleFires(values, rule) then map[rule.name := rule.actions] else map[]
  {
    var fires := FiringOn(values);
    assert ActionsOf([rule], fires) == if fires(rule) then map[rule.name := rule.actions] else map[] by {
      assert [rule][..0] == [];
      assert ActionsOf([], fires) == map[];
    }
    assert fires(rule) == RuleFires(values, rule);
  }

  /** A lone rule with one condition on an answer equal to the expected text. */
  lemma SingleConditionOnEqualAnswer(values: ValueMap, ruleName: string, c: Condition, actions: seq<Action>)
    requires ValueOf(values, c.fieldName) == Some(TrimQuotes(c.expectedJson))
    ensures RuleActions([QuestionnaireRule(ruleName, ConditionGroup(And, [c]), actions)], values)
            == if c.comparator == EqualsTo then map[ruleName := actions] else map[]
  {
    var rule := QuestionnaireRule(ruleName, ConditionGroup(And, [c]), actions);
    assert RuleFires(values, rule) <==> ConditionHolds(values, c) by {
      assert rule.conditions.conditions[0] == c;
    }
    SingleRule(rule, values);
  }

  /** The answer Yes to `answer1` reads as the unquoted JSON text "Yes". */
  lemma YesAnswerMatches()
    ensures ValueOf([(1, Answer1)], "answer1") == Some(TrimQuotes("\"Yes\""))
  {
    var values: ValueMap := [(1, Answer1)];
    ValueOfFirst(values, "answer1", 0);
    assert ValueOf(values, "answer1") == Some("Yes") by {
      assert values[0].1.content == ButtonGroupValue("Yes");
    }
    QuotedYes();
  }

  /** An equals condition on a matching answer fires, and its rule's actions are returned. */
  lemma EqualsExample()
    ensures RuleActions([QuestionnaireRule("Test Rule", ConditionGroup(And, [Condition("answer1", EqualsTo, "\"Yes\"")]),
                                           [OpenQuestionnaire(1)])], [(1, Answer1)])
            == map["Test Rule" := [OpenQuestionnaire(1)]]
  {
    var c := Condition("answer1", EqualsTo, "\"Yes\"");
    YesAnswerMatches();
    SingleConditionOnEqualAnswer([(1, Answer1)], "Test Rule", c, [OpenQuestionnaire(1)]);
  }

  /** A not-equals condition on the same answer does not fire: nothing is returned. */
  lemma NotEqualsExample()
    ensures RuleActions([QuestionnaireRule("Test Rule", ConditionGroup(And, [Condition("answer1", NotEqualsTo, "\"Yes\"")]),
                                           [OpenQuestionnaire(1)])], [(1, Answer1)])
            == map[]
  {
    var c := Condition("answer1", NotEqualsTo, "\"Yes\"");
    YesAnswerMatches();
    SingleConditionOnEqualAnswer([(1, Answer1)], "Test Rule", c, [OpenQuestionnaire(1)]);
  }
}
