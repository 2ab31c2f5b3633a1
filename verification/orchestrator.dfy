/** What the supervisor does with a permission: send, run a rule's capability, or neither. */
module Orchestrator {
  import opened Wrappers
  import opened Text
  import opened PermissionEngine

  datatype Mode = Live | Shadow | Simulation

  datatype Tenant = Tenant(policy: Policy, shadowMode: bool)

  /** `model` is the model gateway's answer, or `None` when it threw. */
  datatype Request = Request(tenant: Tenant, customerId: string, channel: string, mode: Option<string>, model: Option<ModelDecision>)

  datatype Outbound = Outbound(customerId: string, text: string)

  datatype Why = EmptyReply | ActionGatewayUnavailable | ActionFailed

  datatype Handled =
    | Dry(mode: Mode, wouldAction: Action)
    | Replied
    | Acted
    | ToHuman(why: Why)
    | Plain(action: Action)

  datatype Failed = InvalidExecutionMode | ModelFailed | PolicyFailed(error: Error) | SendFailed

  function ParseMode(s: string): Option<Mode> {
    if s == "live" then Some(Live) else if s == "shadow" then Some(Shadow) else if s == "simulation" then Some(Simulation) else None
  }

  function ResolveMode(t: Tenant, requested: Option<string>): Option<Mode> {
    var mode := if requested.None? then Some(Live) else ParseMode(requested.value);
    if mode.None? || mode.value == Simulation then mode else if t.shadowMode then Some(Shadow) else mode
  }

  /** `rules.find`: the first rule that has the id; no rule has the id null. */
  function FindRule(rules: seq<Rule>, id: Option<string>): Option<Rule> {
    if id.None? || rules == [] then None
    else if rules[0].id == id.value then Some(rules[0])
    else FindRule(rules[1..], id)
  }

  // ---------------------------------------------------------------- what one request may do outside

  /** The permission of a live request, if it gets that far. */
  function LivePermission(q: Request, collate: string -> real): Option<Permission> {
    if ResolveMode(q.tenant, q.mode) != Some(Live) || q.model.None? then None
    else match Evaluate(q.tenant.policy, q.model.value, q.channel, collate)
      case Failure(_) => None
      case Success(p) => Some(p)
  }

  function Sends(q: Request, collate: string -> real): seq<Outbound> {
    var p := LivePermission(q, collate);
    if p.Some? && p.value.action == Reply && Trim(q.model.value.reply) != "" then [Outbound(q.customerId, q.model.value.reply)] else []
  }

  function Executions(q: Request, collate: string -> real): seq<Option<Rule>> {
    var p := LivePermission(q, collate);
    if p.Some? && p.value.action == Act then [FindRule(q.tenant.policy.rules, p.value.matchedRuleId)] else []
  }

  /** What each answer says about the request it answers. */
  ghost predicate Explains(r: Result<Handled, Failed>, q: Request, collate: string -> real, hasActionGateway: bool) {
    var p := LivePermission(q, collate);
    match r
    case Failure(InvalidExecutionMode) => ResolveMode(q.tenant, q.mode) == None
    case Failure(ModelFailed) => q.model == None
    case Failure(PolicyFailed(e)) => q.model.Some? && Evaluate(q.tenant.policy, q.model.value, q.channel, collate) == Failure(e)
    case Failure(SendFailed) => Sends(q, collate) != []
    case Success(Dry(mode, wouldAction)) =>
      && ResolveMode(q.tenant, q.mode) == Some(mode) && mode != Live && q.model.Some?
      && Evaluate(q.tenant.policy, q.model.value, q.channel, collate).Success?
      && Evaluate(q.tenant.policy, q.model.value, q.channel, collate).value.action == wouldAction
    case Success(Replied) => Sends(q, collate) != []
    case Success(Acted) => Executions(q, collate) != [] && hasActionGateway
    case Success(ToHuman(EmptyReply)) => p.Some? && p.value.action == Reply && Sends(q, collate) == []
    case Success(ToHuman(ActionGatewayUnavailable)) => Executions(q, collate) != [] && !hasActionGateway
    case Success(ToHuman(ActionFailed)) => Executions(q, collate) != [] && hasActionGateway
    case Success(Plain(action)) => p.Some? && p.value.action == action && action != Reply && action != Act
  }

  class Supervisor {
    /** Calls of the channel's sender and of the action gateway, and the audit log. */
    var sent: seq<Outbound>
    var executed: seq<Option<Rule>>
    var audit: seq<Handled>
    const hasActionGateway: bool

    constructor (hasActionGateway: bool)
      ensures sent == [] && executed == [] && audit == [] && this.hasActionGateway == hasActionGateway
    {
      sent, executed, audit := [], [], [];
      this.hasActionGateway := hasActionGateway;
    }

    /** Sends and executions are attempts: either may throw. Every request that ends is audited once. */
    method Handle(q: Request, collate: string -> real, sendThrows: bool, actionThrows: bool) returns (r: Result<Handled, Failed>)
      modifies this
      ensures sent == old(sent) + Sends(q, collate)
      ensures executed == old(executed) + if hasActionGateway then Executions(q, collate) else []
      ensures audit == old(audit) + if r.Success? then [r.value] else []
      ensures Explains(r, q, collate, hasActionGateway)
      ensures (r == Failure(SendFailed) ==> sendThrows) && (r == Success(Replied) ==> !sendThrows)
      ensures (r == Success(ToHuman(ActionFailed)) ==> actionThrows) && (r == Success(Acted) ==> !actionThrows)
    {
      var mode := ResolveMode(q.tenant, q.mode);
      if mode.None? { return Failure(InvalidExecutionMode); }
      if q.model.None? { return Failure(ModelFailed); }
      var model := q.model.value;
      var evaluated := Evaluate(q.tenant.policy, model, q.channel, collate);
      if evaluated.Failure? { return Failure(PolicyFailed(evaluated.error)); }
      var permission := evaluated.value;
      var result: Handled;
      if mode.value != Live {
        result := Dry(mode.value, permission.action);
      } else if permission.action == Reply {
        if Trim(model.reply) == "" {
          result := ToHuman(EmptyReply);
        } else {
          sent := sent + [Outbound(q.customerId, model.reply)];
          if sendThrows { return Failure(SendFailed); }
          result := Replied;
        }
      } else if permission.action == Act {
        if !hasActionGateway {
          result := ToHuman(ActionGatewayUnavailable);
        } else {
          var rule := FindRule(q.tenant.policy.rules, permission.matchedRuleId);
          executed := executed + [rule];
          result := if actionThrows then ToHuman(ActionFailed) else Acted;
        }
      } else {
        result := Plain(permission.action);
      }
      audit := audit + [result];
      r := Success(result);
    }
  }

  /** A shadow tenant, or any mode but live, neither sends nor executes, and no request lifts the shadow. */
  lemma DryRunsDoNothing(q: Request, collate: string -> real)
    requires q.tenant.shadowMode || !(q.mode == None || q.mode == Some("live"))
    ensures Sends(q, collate) == [] && Executions(q, collate) == [] && ResolveMode(q.tenant, q.mode) != Some(Live)
  {
    if q.mode.Some? && q.mode.value != "live" { assert ParseMode(q.mode.value) != Some(Live); }
  }

  /** The modes that may be asked for, and what a shadow tenant makes of them. */
  lemma ModesAre(t: Tenant, requested: Option<string>)
    ensures ResolveMode(t, requested) == match requested
      case None => Some(if t.shadowMode then Shadow else Live)
      case Some(s) =>
        if s !in ["live", "shadow", "simulation"] then None
        else if s == "simulation" then Some(Simulation)
        else if s == "shadow" || t.shadowMode then Some(Shadow) else Some(Live)
  {
  }

  /** Neither the tenant nor the request asks for a dry run. */
  predicate IsLive(q: Request) {
    !q.tenant.shadowMode && (q.mode == None || q.mode == Some("live"))
  }

  /** The policy's answer to the model's, for a live request. */
  ghost predicate Permits(q: Request, collate: string -> real, action: Action) {
    && IsLive(q) && q.model.Some? && Evaluate(q.tenant.policy, q.model.value, q.channel, collate).Success?
    && Evaluate(q.tenant.policy, q.model.value, q.channel, collate).value.action == action
  }

  /**
   * The only message ever sent is the model's reply, word for word, to the customer who wrote;
   * it is sent exactly when a live request is permitted to reply and there is more to say than
   * white space. The only capability ever run is run exactly when a live request may act.
   */
  lemma OutsideEffectsAre(q: Request, collate: string -> real)
    ensures Sends(q, collate) != [] <==> Permits(q, collate, Reply) && !AllSpace(q.model.value.reply)
    ensures Sends(q, collate) != [] ==>
      |Sends(q, collate)| == 1 && Sends(q, collate)[0].customerId == q.customerId && Sends(q, collate)[0].text == q.model.value.reply
    ensures Executions(q, collate) != [] <==> Permits(q, collate, Act)
    ensures Executions(q, collate) != [] ==> |Executions(q, collate)| == 1
  {
    ModesAre(q.tenant, q.mode);
    if q.model.Some? { TrimIsEmptyIff(q.model.value.reply); }
  }

  ghost predicate IsFirstWithId(rules: seq<Rule>, i: nat, id: string) {
    i < |rules| && rules[i].id == id && forall j :: 0 <= j < i ==> rules[j].id != id
  }

  /** `r` is declared, and no rule declared before it has its id. */
  ghost predicate DeclaredFirst(rules: seq<Rule>, r: Rule) {
    exists i: nat :: IsFirstWithId(rules, i, r.id) && rules[i] == r
  }

  lemma {:induction false} FindRuleFinds(rules: seq<Rule>, id: string)
    ensures match FindRule(rules, Some(id))
            case None => forall i :: 0 <= i < |rules| ==> rules[i].id != id
            case Some(r) => r in rules && r.id == id && DeclaredFirst(rules, r)
  {
    if rules != [] && rules[0].id == id {
      assert IsFirstWithId(rules, 0, id);
    } else if rules != [] {
      var rest := rules[1..];
      FindRuleFinds(rest, id);
      assert rules == [rules[0]] + rest;
      if FindRule(rest, Some(id)).Some? {
        var i: nat :| IsFirstWithId(rest, i, id) && rest[i] == FindRule(rest, Some(id)).value;
        assert IsFirstWithId(rules, i + 1, id);
      }
    }
  }

  /**
   * A live `act` runs the rule that was selected exactly when no rule declared before it has the
   * same id; that rule then matches, allows and asks for `act`.
   */
  lemma ActRunsTheSelectedRuleIff(q: Request, collate: string -> real)
    requires Executions(q, collate) != []
    requires SelectRule(q.tenant.policy.rules, q.model.value, q.channel, q.model.value.confidence.value, collate).Some?
    ensures var rules := q.tenant.policy.rules;
            var selected := SelectRule(rules, q.model.value, q.channel, q.model.value.confidence.value, collate).value;
      && (Executions(q, collate) == [Some(selected)] <==> DeclaredFirst(rules, selected))
      && selected.effect == Known(Allow) && selected.action == Known(Act)
      && Matches(selected, q.model.value, q.channel, q.model.value.confidence.value)
  {
    var rules, model := q.tenant.policy.rules, q.model.value;
    var selected := SelectRule(rules, model, q.channel, model.confidence.value, collate).value;
    StrictestEffectWins(q.tenant.policy, model, q.channel, collate);
    FindRuleFinds(rules, selected.id);
    if DeclaredFirst(rules, selected) {
      var found := FindRule(rules, Some(selected.id)).value;
      var i: nat :| IsFirstWithId(rules, i, found.id) && rules[i] == found;
      var k: nat :| IsFirstWithId(rules, k, selected.id) && rules[k] == selected;
      assert i == k;
    }
  }

  /** With distinct ids every live `act` under a matching rule runs that very rule. */
  lemma DistinctIdsRunTheSelectedRule(q: Request, collate: string -> real)
    requires IdsDistinct(q.tenant.policy.rules, collate) && Executions(q, collate) != []
    requires SelectRule(q.tenant.policy.rules, q.model.value, q.channel, q.model.value.confidence.value, collate).Some?
    ensures Executions(q, collate) ==
      [SelectRule(q.tenant.policy.rules, q.model.value, q.channel, q.model.value.confidence.value, collate)]
  {
    var rules := q.tenant.policy.rules;
    ActRunsTheSelectedRuleIff(q, collate);
    SelectedDecides(rules, q.model.value, q.channel, q.model.value.confidence.value, collate);
    var selected := SelectRule(rules, q.model.value, q.channel, q.model.value.confidence.value, collate).value;
    var i: nat :| i < |rules| && rules[i] == selected;
    forall j | 0 <= j < i ensures rules[j].id != selected.id { assert collate(rules[j].id) != collate(rules[i].id); }
    assert IsFirstWithId(rules, i, selected.id);
  }

  lemma FirstOfTwoIsFound(a: Rule, b: Rule)
    ensures FindRule([a, b], Some(a.id)) == Some(a)
  {
  }

  lemma OnlyMatchIsSelected(a: Rule, b: Rule, m: ModelDecision, channel: string, c: real, collate: string -> real)
    requires Matches(b, m, channel, c) && !Matches(a, m, channel, c)
    ensures SelectRule([a, b], m, channel, c, collate) == Some(b)
  {
    SelectedDecides([a, b], m, channel, c, collate);
    assert b in [a, b];
  }

  /** Two rules share an id: an allowed `act` runs the denying rule declared before the selected one. */
  lemma DuplicateIdRunsAnotherRule(collate: string -> real)
    ensures var denied := Rule("r", ["refund"], Known(Deny), Absent, 0.0, None, None, None, "refund");
            var allowed := Rule("r", ["quote"], Known(Allow), Known(Act), 0.0, None, None, None, "quote");
            var p := Policy([denied, allowed], 0.8, Absent, Absent);
            var m := ModelDecision("quote", Some(1.0), Absent, "");
            Executions(Request(Tenant(p, false), "c", "whatsapp", None, Some(m)), collate) == [Some(denied)]
  {
    var denied := Rule("r", ["refund"], Known(Deny), Absent, 0.0, None, None, None, "refund");
    var allowed := Rule("r", ["quote"], Known(Allow), Known(Act), 0.0, None, None, None, "quote");
    var rules := [denied, allowed];
    var m := ModelDecision("quote", Some(1.0), Absent, "");
    assert Trim("r") == "r" && Trim("quote") == "quote" && Trim("refund") == "refund";
    ValidateRulesIs(rules);
    assert Matches(allowed, m, "whatsapp", 1.0) && !Matches(denied, m, "whatsapp", 1.0);
    OnlyMatchIsSelected(denied, allowed, m, "whatsapp", 1.0, collate);
    FirstOfTwoIsFound(denied, allowed);
  }
}
