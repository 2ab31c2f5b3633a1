/**
 * The permission engine: which rule decides, what it permits, and what the model may still lower.
 * `collate` stands for the collation order of rule ids; ids it cannot tell apart are ties.
 */
module PermissionEngine {
  import opened Wrappers
  import opened Sorting
  import opened Text

  datatype Effect = Allow | RequireApproval | Deny

  datatype Action = Ignore | Draft | Reply | Act | Human

  /** A field of the policy file or of the model's answer before it is checked. */
  datatype Raw<T> = Absent | Known(value: T) | Unknown

  datatype Rule = Rule(id: string, intents: seq<string>, effect: Raw<Effect>, action: Raw<Action>, priority: real,
                       channels: Option<seq<string>>, minConfidence: Option<real>, reasonCode: Option<string>, capability: string)

  datatype Policy = Policy(rules: seq<Rule>, minConfidence: real, defaultEffect: Raw<Effect>, defaultAction: Raw<Action>)

  /** `confidence.None?` is a confidence that is not a finite number. */
  datatype ModelDecision = ModelDecision(intent: string, confidence: Option<real>, requestedAction: Raw<Action>, reply: string)

  datatype Reason = MatchedRule | NoMatchingRule | LowConfidence | ModelRequestedLessAutonomy | PolicyDenied | ApprovalRequired

  datatype Permission = Permission(action: Action, effect: Effect, reason: Reason, reasonCode: Option<string>,
                                   matchedRuleId: Option<string>, requiresApproval: bool, intendedAction: Option<Action>)

  datatype Error = RuleIdRequired | IntentRequired | InvalidEffect | ActionRequired | InvalidAction | InvalidChannels
                 | InvalidConfidence | DefaultActionRequired

  type Answer = Result<Permission, Error>

  // ---------------------------------------------------------------- validation

  predicate HasBlank(ss: seq<string>) {
    exists i :: 0 <= i < |ss| && Trim(ss[i]) == ""
  }

  function ValidateRule(r: Rule): Option<Error> {
    if Trim(r.id) == "" then Some(RuleIdRequired)
    else if r.intents == [] || HasBlank(r.intents) then Some(IntentRequired)
    else if !r.effect.Known? then Some(InvalidEffect)
    else if r.effect.value != Deny && r.action.Absent? then Some(ActionRequired)
    else if r.action.Unknown? then Some(InvalidAction)
    else if r.channels.Some? && HasBlank(r.channels.value) then Some(InvalidChannels)
    else if r.minConfidence.Some? && !(0.0 <= r.minConfidence.value <= 1.0) then Some(InvalidConfidence)
    else None
  }

  function ValidateRules(rules: seq<Rule>): Option<Error> {
    if rules == [] then None
    else if ValidateRule(rules[0]).Some? then ValidateRule(rules[0])
    else ValidateRules(rules[1..])
  }

  function DefaultEffect(p: Policy): Raw<Effect> {
    if p.defaultEffect.Absent? then Known(Deny) else p.defaultEffect
  }

  // ---------------------------------------------------------------- choosing the rule

  predicate Matches(r: Rule, m: ModelDecision, channel: string, confidence: real) {
    && m.intent in r.intents
    && (r.channels.Some? && r.channels.value != [] ==> channel in r.channels.value)
    && (r.minConfidence.Some? ==> confidence >= r.minConfidence.value)
  }

  function Matching(rules: seq<Rule>, m: ModelDecision, channel: string, confidence: real): seq<Rule> {
    if rules == [] then []
    else (if Matches(rules[0], m, channel, confidence) then [rules[0]] else []) + Matching(rules[1..], m, channel, confidence)
  }

  function EffectRank(e: Raw<Effect>): int {
    if !e.Known? then 0 else match e.value case Allow => 1 case RequireApproval => 2 case Deny => 3
  }

  /** The comparator of the sort is negative. */
  predicate Before(a: Rule, b: Rule, collate: string -> real) {
    if EffectRank(a.effect) != EffectRank(b.effect) then EffectRank(a.effect) > EffectRank(b.effect)
    else if a.priority != b.priority then a.priority > b.priority
    else collate(a.id) < collate(b.id)
  }

  function By(collate: string -> real): (Rule, Rule) -> bool {
    (a, b) => Before(a, b, collate)
  }

  function SelectRule(rules: seq<Rule>, m: ModelDecision, channel: string, confidence: real, collate: string -> real): Option<Rule> {
    var sorted := Sort(Matching(rules, m, channel, confidence), By(collate));
    if sorted == [] then None else Some(sorted[0])
  }

  // ---------------------------------------------------------------- what the rule permits

  /** How much autonomy an action is; `Human` and `Ignore` are none. */
  function Authority(a: Action): nat {
    match a case Draft => 1 case Reply => 2 case Act => 3 case _ => 0
  }

  datatype Ceiling = Ceiling(action: Action, downgraded: bool)

  function ApplyModelCeiling(policyAction: Action, requested: Raw<Action>): Result<Ceiling, Error> {
    match requested
    case Absent => Success(Ceiling(policyAction, false))
    case Unknown => Failure(InvalidAction)
    case Known(a) =>
      if policyAction == Human || policyAction == Ignore then Success(Ceiling(policyAction, false))
      else if a == Human || a == Ignore || Authority(a) < Authority(policyAction) then Success(Ceiling(a, true))
      else Success(Ceiling(policyAction, false))
  }

  function OrElse(code: Option<string>, fallback: string): Option<string> {
    if code.Some? then code else Some(fallback)
  }

  function Denied(r: Rule): Permission {
    Permission(Human, Deny, PolicyDenied, OrElse(r.reasonCode, "policy_denied"), Some(r.id), false, None)
  }

  function ByRule(r: Rule, m: ModelDecision): Answer {
    if !r.effect.Known? then Failure(InvalidEffect)
    else if r.effect.value == Deny then Success(Denied(r))
    else if !r.action.Known? then Failure(InvalidAction)
    else if r.effect.value == RequireApproval then
      Success(Permission(Human, RequireApproval, ApprovalRequired, OrElse(r.reasonCode, "approval_required"),
                         Some(r.id), true, Some(r.action.value)))
    else match ApplyModelCeiling(r.action.value, m.requestedAction)
      case Failure(e) => Failure(e)
      case Success(c) =>
        Success(Permission(c.action, Allow, if c.downgraded then ModelRequestedLessAutonomy else MatchedRule,
                           if c.downgraded then Some("model_requested_less_autonomy") else OrElse(r.reasonCode, "matched_rule"),
                           Some(r.id), false, None))
  }

  /** An allowing default is not lowered by the model's request. */
  function ByDefault(p: Policy): Answer {
    var effect := DefaultEffect(p);
    if !effect.Known? then Failure(InvalidEffect)
    else if effect.value == Deny then Success(Permission(Human, Deny, NoMatchingRule, Some("no_matching_rule"), None, false, None))
    else if p.defaultAction.Absent? then Failure(DefaultActionRequired)
    else if p.defaultAction.Unknown? then Failure(InvalidAction)
    else if effect.value == RequireApproval then
      Success(Permission(Human, RequireApproval, ApprovalRequired, Some("default_approval_required"),
                         None, true, Some(p.defaultAction.value)))
    else Success(Permission(p.defaultAction.value, Allow, NoMatchingRule, Some("default_allow"), None, false, None))
  }

  predicate Confident(p: Policy, m: ModelDecision) {
    m.confidence.Some? && m.confidence.value >= p.minConfidence
  }

  function Evaluate(p: Policy, m: ModelDecision, channel: string, collate: string -> real): Answer {
    if !DefaultEffect(p).Known? then Failure(InvalidEffect)
    else if ValidateRules(p.rules).Some? then Failure(ValidateRules(p.rules).value)
    else if !Confident(p, m) then Success(Permission(Human, Deny, LowConfidence, Some("low_confidence"), None, false, None))
    else match SelectRule(p.rules, m, channel, m.confidence.value, collate)
      case None => ByDefault(p)
      case Some(r) => ByRule(r, m)
  }

  // ---------------------------------------------------------------- the sort's first rule

  lemma BeforeIsAnOrder(collate: string -> real)
    ensures StrictWeakOrder(By(collate))
  {
  }

  lemma {:induction false} MatchingIsTheFilter(rules: seq<Rule>, m: ModelDecision, channel: string, c: real, r: Rule)
    ensures multiset(Matching(rules, m, channel, c))[r] == if Matches(r, m, channel, c) then multiset(rules)[r] else 0
  {
    if rules != [] {
      MatchingIsTheFilter(rules[1..], m, channel, c, r);
      assert rules == [rules[0]] + rules[1..];
    }
  }

  lemma {:induction false} ValidateRulesIs(rules: seq<Rule>)
    ensures ValidateRules(rules).None? <==> forall r :: r in rules ==> ValidateRule(r).None?
  {
    if rules != [] {
      ValidateRulesIs(rules[1..]);
      assert rules == [rules[0]] + rules[1..];
    }
  }

  /** A rule that matches and that no other matching rule comes before. */
  ghost predicate Decides(rules: seq<Rule>, r: Rule, m: ModelDecision, channel: string, c: real, collate: string -> real) {
    && r in rules && Matches(r, m, channel, c)
    && forall s :: s in rules && Matches(s, m, channel, c) ==> !Before(s, r, collate)
  }

  lemma SelectedDecides(rules: seq<Rule>, m: ModelDecision, channel: string, c: real, collate: string -> real)
    ensures match SelectRule(rules, m, channel, c, collate)
            case Some(r) => Decides(rules, r, m, channel, c, collate)
            case None => forall r :: r in rules ==> !Matches(r, m, channel, c)
  {
    var ms := Matching(rules, m, channel, c);
    forall r: Rule ensures r in ms <==> r in rules && Matches(r, m, channel, c) {
      MatchingIsTheFilter(rules, m, channel, c, r);
      assert r in ms <==> r in multiset(ms);
      assert r in rules <==> r in multiset(rules);
    }
    if ms != [] {
      BeforeIsAnOrder(collate);
      var i := SortPutsTheFirstTopFirst(ms, By(collate));
    }
  }

  // ---------------------------------------------------------------- the order of declaration

  predicate SameAnswer(a: Answer, b: Answer) {
    a == b || (a.Failure? && b.Failure?)
  }

  /** Rules that tie for the decision permit the same. */
  ghost predicate TiesAgree(rules: seq<Rule>, m: ModelDecision, channel: string, c: real, collate: string -> real) {
    forall r, s :: Decides(rules, r, m, channel, c, collate) && Decides(rules, s, m, channel, c, collate) ==>
      SameAnswer(ByRule(r, m), ByRule(s, m))
  }

  /** The policy is rejected or the model unsure, so that no rule is consulted. */
  predicate NoRuleConsulted(p: Policy, m: ModelDecision) {
    !DefaultEffect(p).Known? || ValidateRules(p.rules).Some? || !Confident(p, m)
  }

  ghost predicate OrderIsIrrelevant(p: Policy, m: ModelDecision, channel: string, collate: string -> real) {
    forall rules: seq<Rule> :: multiset(rules) == multiset(p.rules) ==>
      SameAnswer(Evaluate(p.(rules := rules), m, channel, collate), Evaluate(p, m, channel, collate))
  }

  lemma SameElements(rules: seq<Rule>, others: seq<Rule>)
    requires multiset(rules) == multiset(others)
    ensures forall r :: r in rules <==> r in others
    ensures ValidateRules(rules).Some? == ValidateRules(others).Some?
  {
    forall r: Rule ensures r in rules <==> r in others {
      assert r in rules <==> r in multiset(rules);
      assert r in others <==> r in multiset(others);
    }
    ValidateRulesIs(rules);
    ValidateRulesIs(others);
  }

  /**
   * Declaration order changes nothing exactly when no two tied rules would decide differently:
   * for every policy, answer of the model and collation, all orders give the same permission, or
   * all fail, if and only if no rule is consulted or the rules that tie for the decision agree.
   */
  lemma OrderMattersOnlyForTies(p: Policy, m: ModelDecision, channel: string, collate: string -> real)
    ensures OrderIsIrrelevant(p, m, channel, collate) <==>
      NoRuleConsulted(p, m) || TiesAgree(p.rules, m, channel, m.confidence.value, collate)
  {
    if NoRuleConsulted(p, m) || TiesAgree(p.rules, m, channel, m.confidence.value, collate) {
      forall rules: seq<Rule> | multiset(rules) == multiset(p.rules)
        ensures SameAnswer(Evaluate(p.(rules := rules), m, channel, collate), Evaluate(p, m, channel, collate))
      {
        SameElements(rules, p.rules);
        if !NoRuleConsulted(p, m) {
          SelectedDecides(rules, m, channel, m.confidence.value, collate);
          SelectedDecides(p.rules, m, channel, m.confidence.value, collate);
        }
      }
    } else {
      var c := m.confidence.value;
      var r, s :| Decides(p.rules, r, m, channel, c, collate) && Decides(p.rules, s, m, channel, c, collate)
        && !SameAnswer(ByRule(r, m), ByRule(s, m));
      var first := PutFirst(p, r, m, channel, collate);
      var second := PutFirst(p, s, m, channel, collate);
      assert !SameAnswer(Evaluate(p.(rules := first), m, channel, collate), Evaluate(p, m, channel, collate))
          || !SameAnswer(Evaluate(p.(rules := second), m, channel, collate), Evaluate(p, m, channel, collate));
    }
  }

  /** Any of the tied rules decides when it is declared first. */
  lemma PutFirst(p: Policy, r: Rule, m: ModelDecision, channel: string, collate: string -> real) returns (rules: seq<Rule>)
    requires !NoRuleConsulted(p, m) && Decides(p.rules, r, m, channel, m.confidence.value, collate)
    ensures multiset(rules) == multiset(p.rules) && Evaluate(p.(rules := rules), m, channel, collate) == ByRule(r, m)
  {
    var c := m.confidence.value;
    var i :| 0 <= i < |p.rules| && p.rules[i] == r;
    rules := [r] + (p.rules[..i] + p.rules[i + 1..]);
    assert p.rules == p.rules[..i] + [r] + p.rules[i + 1..];
    SameElements(rules, p.rules);
    var ms := Matching(rules, m, channel, c);
    assert ms[0] == r;
    forall s | s in ms ensures !Before(s, r, collate) {
      MatchingIsTheFilter(rules, m, channel, c, s);
      assert s in multiset(ms) && s in multiset(rules);
    }
    BeforeIsAnOrder(collate);
    var k := SortPutsTheFirstTopFirst(ms, By(collate));
  }

  /** Ids all different, and told apart by the collation. */
  ghost predicate IdsDistinct(rules: seq<Rule>, collate: string -> real) {
    forall i, j :: 0 <= i < j < |rules| ==> collate(rules[i].id) != collate(rules[j].id)
  }

  /** With distinct ids declaration order never changes authority. */
  lemma DistinctIdsMakeOrderIrrelevant(p: Policy, m: ModelDecision, channel: string, collate: string -> real)
    requires IdsDistinct(p.rules, collate)
    ensures OrderIsIrrelevant(p, m, channel, collate)
  {
    OrderMattersOnlyForTies(p, m, channel, collate);
    if !NoRuleConsulted(p, m) {
      var c := m.confidence.value;
      forall r, s | Decides(p.rules, r, m, channel, c, collate) && Decides(p.rules, s, m, channel, c, collate) ensures r == s {
        var i :| 0 <= i < |p.rules| && p.rules[i] == r;
        var j :| 0 <= j < |p.rules| && p.rules[j] == s;
        assert !Before(r, s, collate) && !Before(s, r, collate);
        assert i == j;
      }
    }
  }

  /** Two rules that share an id, an effect and a priority: the one declared first decides. */
  lemma DuplicateIdsMakeOrderMatter(collate: string -> real)
    ensures var reply := Rule("r", ["buy"], Known(Allow), Known(Reply), 0.0, None, None, None, "");
            var p := Policy([reply, reply.(action := Known(Act))], 0.8, Absent, Absent);
            !OrderIsIrrelevant(p, ModelDecision("buy", Some(1.0), Absent, ""), "whatsapp", collate)
  {
    var reply := Rule("r", ["buy"], Known(Allow), Known(Reply), 0.0, None, None, None, "");
    var act := reply.(action := Known(Act));
    var p := Policy([reply, act], 0.8, Absent, Absent);
    var m := ModelDecision("buy", Some(1.0), Absent, "");
    OrderMattersOnlyForTies(p, m, "whatsapp", collate);
    ValidateRulesIs(p.rules);
    assert reply in p.rules && act in p.rules;
    assert Decides(p.rules, reply, m, "whatsapp", 1.0, collate) && Decides(p.rules, act, m, "whatsapp", 1.0, collate);
  }

  // ---------------------------------------------------------------- what a permission can be

  function EffectOf(e: Effect): int { EffectRank(Known(e)) }

  /** The rule lists the intent, and neither its channels nor its own confidence floor exclude the message. */
  lemma MatchesWhen(r: Rule, m: ModelDecision, channel: string, c: real)
    ensures Matches(r, m, channel, c) <==>
      && (exists i :: 0 <= i < |r.intents| && r.intents[i] == m.intent)
      && (r.channels == None || r.channels == Some([]) || exists i :: 0 <= i < |r.channels.value| && r.channels.value[i] == channel)
      && (r.minConfidence == None || c - r.minConfidence.value >= 0.0)
  {
  }

  ghost predicate SomeMatch(rules: seq<Rule>, m: ModelDecision, channel: string, c: real, e: Effect) {
    exists r :: r in rules && Matches(r, m, channel, c) && r.effect == Known(e)
  }

  /** What a model may ask for, and from which allowed action it then lowers: request and rule. */
  const LOWERINGS: set<(Action, Action)> := {
    (Draft, Reply), (Draft, Act), (Reply, Act),
    (Human, Draft), (Human, Reply), (Human, Act), (Ignore, Draft), (Ignore, Reply), (Ignore, Act)
  }

  predicate Lowers(requested: Raw<Action>, allowed: Raw<Action>) {
    requested.Known? && allowed.Known? && (requested.value, allowed.value) in LOWERINGS
  }

  /** Among the matching rules of its own effect the rule has the highest priority, and then the first id. */
  ghost predicate TopOfItsEffect(rules: seq<Rule>, r: Rule, m: ModelDecision, channel: string, c: real, collate: string -> real) {
    forall s :: s in rules && Matches(s, m, channel, c) && s.effect == r.effect ==>
      s.priority < r.priority || (s.priority == r.priority && collate(r.id) <= collate(s.id))
  }

  /** The decision of the rule that was chosen. */
  ghost predicate IsRuled(got: Permission, r: Rule, m: ModelDecision) {
    && Known(got.effect) == r.effect && got.matchedRuleId == Some(r.id)
    && match got.effect
       case Deny => got.action == Human && got.intendedAction == None
       case RequireApproval => got.action == Human && got.intendedAction.Some? && Known(got.intendedAction.value) == r.action
       case Allow => Known(got.action) == (if Lowers(m.requestedAction, r.action) then m.requestedAction else r.action)
                     && got.intendedAction == None
  }

  /** The decision of the policy's default, which denies when nothing is said. */
  ghost predicate IsDefault(got: Permission, p: Policy) {
    && Known(got.effect) == (if p.defaultEffect == Absent then Known(Deny) else p.defaultEffect) && got.matchedRuleId == None
    && match got.effect
       case Deny => got.action == Human && got.intendedAction == None
       case RequireApproval => got.action == Human && got.intendedAction.Some? && Known(got.intendedAction.value) == p.defaultAction
       case Allow => Known(got.action) == p.defaultAction && got.intendedAction == None
  }

  lemma CeilingIsTheTable(allowed: Action, requested: Raw<Action>)
    requires ApplyModelCeiling(allowed, requested).Success?
    ensures var c := ApplyModelCeiling(allowed, requested).value;
      && c.downgraded == Lowers(requested, Known(allowed))
      && Known(c.action) == if c.downgraded then requested else Known(allowed)
  {
    if requested.Known? {
      var a := requested.value;
      assert a.Ignore? || a.Draft? || a.Reply? || a.Act? || a.Human?;
      assert allowed.Ignore? || allowed.Draft? || allowed.Reply? || allowed.Act? || allowed.Human?;
    }
  }

  /**
   * What is permitted, for every policy that is not rejected: one matching `deny` denies, else one
   * matching `require_approval` asks for approval, else one matching `allow` allows, by the rule of
   * that effect with the highest priority and the first id; the model can lower an allowed action
   * by the listed pairs only; without a matching rule the default holds, and without the
   * confidence asked for nothing is permitted.
   */
  lemma PermissionIs(p: Policy, m: ModelDecision, channel: string, collate: string -> real)
    requires Evaluate(p, m, channel, collate).Success?
    ensures var got := Evaluate(p, m, channel, collate).value;
      if m.confidence == None || m.confidence.value < p.minConfidence then
        got == Permission(Human, Deny, LowConfidence, Some("low_confidence"), None, false, None)
      else
        var c := m.confidence.value;
        var deny, ask, allow := SomeMatch(p.rules, m, channel, c, Deny), SomeMatch(p.rules, m, channel, c, RequireApproval),
                                SomeMatch(p.rules, m, channel, c, Allow);
        if !deny && !ask && !allow then (forall r :: r in p.rules ==> !Matches(r, m, channel, c)) && IsDefault(got, p)
        else
          && got.effect == (if deny then Deny else if ask then RequireApproval else Allow)
          && exists r :: r in p.rules && Matches(r, m, channel, c) && TopOfItsEffect(p.rules, r, m, channel, c, collate)
               && IsRuled(got, r, m)
  {
    if Confident(p, m) {
      var c := m.confidence.value;
      SelectedDecides(p.rules, m, channel, c, collate);
      ValidateRulesIs(p.rules);
      match SelectRule(p.rules, m, channel, c, collate)
      case None => assert IsDefault(Evaluate(p, m, channel, collate).value, p);
      case Some(r) => RuledIs(p, m, channel, collate, r);
    }
  }

  lemma RuledIs(p: Policy, m: ModelDecision, channel: string, collate: string -> real, r: Rule)
    requires Evaluate(p, m, channel, collate).Success? && Confident(p, m)
    requires Decides(p.rules, r, m, channel, m.confidence.value, collate)
    requires Evaluate(p, m, channel, collate) == ByRule(r, m)
    ensures var got, c := Evaluate(p, m, channel, collate).value, m.confidence.value;
      && TopOfItsEffect(p.rules, r, m, channel, c, collate) && IsRuled(got, r, m)
      && SomeMatch(p.rules, m, channel, c, got.effect)
      && (got.effect != Deny ==> !SomeMatch(p.rules, m, channel, c, Deny))
      && (got.effect == Allow ==> !SomeMatch(p.rules, m, channel, c, RequireApproval))
  {
    var c := m.confidence.value;
    forall s | s in p.rules && Matches(s, m, channel, c) ensures !Before(s, r, collate) { }
    if r.action.Known? && r.effect == Known(Allow) { CeilingIsTheTable(r.action.value, m.requestedAction); }
  }

  /** What rejects a policy: an unknown default effect, or one rule with a defect, whatever else it says. */
  ghost predicate IsDefective(r: Rule) {
    || (forall i :: 0 <= i < |r.id| ==> IsSpace(r.id[i]))
    || |r.intents| == 0 || (exists s :: s in r.intents && Trim(s) == "")
    || !r.effect.Known? || r.action == Unknown || (r.action == Absent && r.effect != Known(Deny))
    || (r.channels.Some? && exists s :: s in r.channels.value && Trim(s) == "")
    || (r.minConfidence.Some? && (r.minConfidence.value < 0.0 || r.minConfidence.value > 1.0))
  }

  lemma DefectiveIff(r: Rule)
    ensures ValidateRule(r).Some? <==> IsDefective(r)
  {
    TrimIsEmptyIff(r.id);
  }

  /** The defect that is reported: the first in this order, of the first defective rule. */
  lemma RuleErrorsAre(r: Rule)
    ensures ValidateRule(r) == Some(RuleIdRequired) <==> AllSpace(r.id)
    ensures var id, noIntent := AllSpace(r.id), r.intents == [] || HasBlank(r.intents);
      && (ValidateRule(r) == Some(IntentRequired) <==> !id && noIntent)
      && (ValidateRule(r) == Some(InvalidEffect) <==> !id && !noIntent && !r.effect.Known?)
      && (ValidateRule(r) == Some(ActionRequired) <==> !id && !noIntent && r.effect in {Known(Allow), Known(RequireApproval)} && r.action == Absent)
      && (ValidateRule(r) == Some(InvalidAction) <==> !id && !noIntent && r.effect.Known? && r.action == Unknown)
      && (ValidateRule(r) in {Some(InvalidChannels), Some(InvalidConfidence)} ==> !id && !noIntent && r.effect.Known? && r.action != Unknown)
      && (ValidateRule(r) == Some(InvalidChannels) ==> r.channels.Some? && HasBlank(r.channels.value))
      && (ValidateRule(r) == Some(InvalidConfidence) ==> r.minConfidence.Some? && !(0.0 <= r.minConfidence.value <= 1.0))
      && ValidateRule(r) != Some(DefaultActionRequired)
  {
    TrimIsEmptyIff(r.id);
  }

  lemma {:induction false} FirstDefectIsReported(rules: seq<Rule>)
    ensures match ValidateRules(rules)
            case None => forall i :: 0 <= i < |rules| ==> ValidateRule(rules[i]) == None
            case Some(e) => exists i :: 0 <= i < |rules| && ValidateRule(rules[i]) == Some(e) && forall j :: 0 <= j < i ==> ValidateRule(rules[j]) == None
  {
    if rules != [] && ValidateRule(rules[0]) == None {
      FirstDefectIsReported(rules[1..]);
      if ValidateRules(rules).Some? {
        var i :| 0 <= i < |rules[1..]| && ValidateRule(rules[1..][i]) == ValidateRules(rules)
          && forall j :: 0 <= j < i ==> ValidateRule(rules[1..][j]) == None;
        assert rules[i + 1] == rules[1..][i];
        forall j | 0 <= j < i + 1 ensures ValidateRule(rules[j]) == None { if j > 0 { assert rules[j] == rules[1..][j - 1]; } }
      }
    }
  }

  /** Which error a failed evaluation is. */
  lemma EvaluationErrorsAre(p: Policy, m: ModelDecision, channel: string, collate: string -> real)
    requires Evaluate(p, m, channel, collate).Failure?
    ensures var e, defect := Evaluate(p, m, channel, collate).error, ValidateRules(p.rules);
      if p.defaultEffect == Unknown then e == InvalidEffect
      else if defect.Some? then e == defect.value
      else e in {InvalidAction, DefaultActionRequired}
           && (e == DefaultActionRequired <==> SelectRule(p.rules, m, channel, m.confidence.value, collate) == None && p.defaultAction == Absent)
  {
    ValidateRulesIs(p.rules);
    if Confident(p, m) { SelectedDecides(p.rules, m, channel, m.confidence.value, collate); }
  }

  /**
   * The evaluation fails exactly when the policy is defective, or, for a message that is sure
   * enough, the decision rests on an action that is missing or unknown.
   */
  lemma EvaluationFailsIff(p: Policy, m: ModelDecision, channel: string, collate: string -> real)
    ensures Evaluate(p, m, channel, collate).Failure? <==>
      || p.defaultEffect == Unknown || (exists r :: r in p.rules && IsDefective(r))
      || (Confident(p, m) && match SelectRule(p.rules, m, channel, m.confidence.value, collate)
                             case None => p.defaultEffect in {Known(Allow), Known(RequireApproval)} && !p.defaultAction.Known?
                             case Some(r) => r.effect == Known(Allow) && m.requestedAction == Unknown)
  {
    ValidateRulesIs(p.rules);
    forall r | r in p.rules ensures ValidateRule(r).Some? <==> IsDefective(r) { DefectiveIff(r); }
    if Confident(p, m) { SelectedDecides(p.rules, m, channel, m.confidence.value, collate); }
  }

  /**
   * The strictest matching rule has its way: the effect is the greatest among the matching rules,
   * or the default when none matches; anything but a hand-over to a human needs `Allow`; and the
   * granted authority is the rule's, lowered to the request where that asks for less.
   */
  lemma StrictestEffectWins(p: Policy, m: ModelDecision, channel: string, collate: string -> real)
    requires Evaluate(p, m, channel, collate).Success? && Confident(p, m)
    ensures var got := Evaluate(p, m, channel, collate).value; var c := m.confidence.value;
      && (forall r :: r in p.rules && Matches(r, m, channel, c) ==> EffectRank(r.effect) <= EffectOf(got.effect))
      && (got.action != Human ==> got.effect == Allow)
      && (got.effect == RequireApproval <==> got.requiresApproval)
      && match SelectRule(p.rules, m, channel, c, collate)
         case None =>
           && (forall r :: r in p.rules ==> !Matches(r, m, channel, c))
           && Known(got.effect) == DefaultEffect(p) && got.matchedRuleId == None
         case Some(r) =>
           && r in p.rules && Matches(r, m, channel, c) && r.effect == Known(got.effect) && got.matchedRuleId == Some(r.id)
           && (got.effect == Allow ==> Authority(got.action) == Granted(r.action, m.requestedAction))
           && (got.effect == Allow && got.action != r.action.value ==> Known(got.action) == m.requestedAction)
  {
    SelectedDecides(p.rules, m, channel, m.confidence.value, collate);
  }

  /** The lesser of the rule's authority and the requested one. */
  function Granted(action: Raw<Action>, requested: Raw<Action>): nat {
    var own := if action.Known? then Authority(action.value) else 0;
    if requested.Known? && Authority(requested.value) < own then Authority(requested.value) else own
  }

  /** A rule allowed more than was granted. */
  predicate Lowered(got: Permission, p: Policy, m: ModelDecision, channel: string, collate: string -> real)
    requires m.confidence.Some?
  {
    var r := SelectRule(p.rules, m, channel, m.confidence.value, collate);
    got.effect == Allow && r.Some? && Known(got.action) != r.value.action
  }

  /** The stated reason is the true one, and an intended action is only kept for approval. */
  lemma ReasonsAreTruthful(p: Policy, m: ModelDecision, channel: string, collate: string -> real)
    requires Evaluate(p, m, channel, collate).Success?
    ensures var got := Evaluate(p, m, channel, collate).value;
      && (got.reason == LowConfidence <==> !Confident(p, m))
      && (got.reason == PolicyDenied <==> got.effect == Deny && got.matchedRuleId.Some?)
      && (got.reason == ApprovalRequired <==> got.effect == RequireApproval)
      && (got.intendedAction.Some? <==> got.requiresApproval)
      && (got.reason == ModelRequestedLessAutonomy <==> Confident(p, m) && Lowered(got, p, m, channel, collate))
      && (got.reason == NoMatchingRule <==> Confident(p, m) && got.matchedRuleId == None && got.effect != RequireApproval)
      && (got.reason == ModelRequestedLessAutonomy ==> got.reasonCode == Some("model_requested_less_autonomy"))
  {
    if Confident(p, m) { StrictestEffectWins(p, m, channel, collate); }
  }

  /** The code is the rule's own where it has one and had its way, and otherwise names the case. */
  lemma ReasonCodesAre(p: Policy, m: ModelDecision, channel: string, collate: string -> real)
    requires Evaluate(p, m, channel, collate).Success?
    ensures var got := Evaluate(p, m, channel, collate).value;
      match got.reason
      case LowConfidence => got.reasonCode == Some("low_confidence")
      case ModelRequestedLessAutonomy => got.reasonCode == Some("model_requested_less_autonomy")
      case NoMatchingRule => got.reasonCode == Some(if got.effect == Deny then "no_matching_rule" else "default_allow")
      case _ =>
        if got.matchedRuleId == None then got.reason == ApprovalRequired && got.reasonCode == Some("default_approval_required")
        else exists r :: r in p.rules && Some(r.id) == got.matchedRuleId && Matches(r, m, channel, m.confidence.value)
               && got.reasonCode == if r.reasonCode.Some? then r.reasonCode
                                    else Some(match got.reason case PolicyDenied => "policy_denied"
                                              case ApprovalRequired => "approval_required" case _ => "matched_rule")
  {
    if Confident(p, m) {
      SelectedDecides(p.rules, m, channel, m.confidence.value, collate);
      var got := Evaluate(p, m, channel, collate).value;
      match SelectRule(p.rules, m, channel, m.confidence.value, collate)
      case None =>
      case Some(r) => assert r in p.rules && Some(r.id) == got.matchedRuleId;
    }
  }

  /** A sure denial: whatever else matches, a matching deny rule leaves the message to a human. */
  lemma DenyIsFinal(p: Policy, m: ModelDecision, channel: string, collate: string -> real, r: Rule)
    requires r in p.rules && r.effect == Known(Deny) && m.confidence.Some? && Matches(r, m, channel, m.confidence.value)
    ensures Evaluate(p, m, channel, collate).Success? ==>
      Evaluate(p, m, channel, collate).value.action == Human && Evaluate(p, m, channel, collate).value.effect == Deny
  {
    if Evaluate(p, m, channel, collate).Success? && Confident(p, m) { StrictestEffectWins(p, m, channel, collate); }
  }
}
