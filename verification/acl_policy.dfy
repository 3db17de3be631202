/** The access-control policy document of `generateAclXML`: an
    XACML-2.0-style policy with one permit rule per grant, in grant order,
    and a final deny rule, combined with the permit-overrides algorithm
    (Appendix C of the OASIS XACML 2.0 core specification). The document
    departs from XACML 2.0: its root is named `dublincore`, an action is
    matched against an `ActionValue` element rather than an
    `AttributeValue`, and the action designator carries text. Alongside
    the builder, a reader that recovers the grants and an evaluator that
    applies permit-overrides to the document as the builder writes it,
    taking the `ActionValue` text as the literal to match. */
module AclPolicy {
  import opened Wrappers
  import opened Xml
  import opened Records

  const DefaultPolicyId := "mediapackage-1"
  const PermitOverrides := "urn:oasis:names:tc:xacml:1.0:rule-combining-algorithm:permit-overrides"
  const PolicyNamespace := "urn:oasis:names:tc:xacml:2.0:policy:schema:os"
  const StringEqual := "urn:oasis:names:tc:xacml:1.0:function:string-equal"
  const StringIsIn := "urn:oasis:names:tc:xacml:1.0:function:string-is-in"
  const XsString := "http://www.w3.org/2001/XMLSchema#string"
  const ActionIdAttribute := "urn:oasis:names:tc:xacml:1.0:action:action-id"
  const SubjectRoleAttribute := "urn:oasis:names:tc:xacml:2.0:subject:role"

  /** Path from a permit rule to the literal action its target matches. */
  const ActionValuePath := ["Target", "Actions", "Action", "ActionMatch", "ActionValue"]
  /** Path from a permit rule to the role its condition looks for. */
  const RoleValuePath := ["Condition", "Apply", "AttributeValue"]

  function PermitRuleId(g: Grant): string {
    g.role + "_" + g.action + "_PERMIT"
  }

  /** The string-equal match of a permit rule's target on `action`. */
  function ActionMatch(action: string): Element {
    Element("ActionMatch", [Attribute("MatchId", StringEqual)], "", [
      Element("ActionValue", [Attribute("DataType", XsString)], action, []),
      Element("ActionAttributeDesignator",
        [Attribute("AttributeId", ActionIdAttribute), Attribute("DataType", XsString)], action, [])
    ])
  }

  function Target(action: string): Element {
    Element("Target", [], "", [Element("Actions", [], "", [Element("Action", [], "", [ActionMatch(action)])])])
  }

  /** The string-is-in application of a permit rule's condition on `role`. */
  function RoleApply(role: string): Element {
    Element("Apply", [Attribute("FunctionId", StringIsIn)], "", [
      Element("AttributeValue", [Attribute("DataType", XsString)], role, []),
      Element("SubjectAttributeDesignator",
        [Attribute("AttributeId", SubjectRoleAttribute), Attribute("DataType", XsString)], "", [])
    ])
  }

  function Condition(role: string): Element {
    Element("Condition", [], "", [RoleApply(role)])
  }

  /** The `<Rule>` emitted for one grant. */
  function PermitRule(g: Grant): Element {
    Element("Rule", [Attribute("RuleId", PermitRuleId(g)), Attribute("Effect", "Permit")], "",
      [Target(g.action), Condition(g.role)])
  }

  /** What the look-ups on a permit rule's own attributes and children find. */
  lemma PermitRuleTop(g: Grant)
    ensures AttributeByName(PermitRule(g), "RuleId") == Some(PermitRuleId(g))
    ensures AttributeByName(PermitRule(g), "Effect") == Some("Permit")
    ensures ChildNamed(PermitRule(g), "Target") == Some(Target(g.action))
    ensures ChildNamed(PermitRule(g), "Condition") == Some(Condition(g.role))
  {
    var rule := PermitRule(g);
    assert "RuleId"[0] != "Effect"[0];
    AttributeAt(rule.attributes, "RuleId", 0);
    AttributeAt(rule.attributes, "Effect", 1);
    assert "Target"[0] != "Condition"[0];
    ChildAt(rule.children, "Target", 0);
    ChildAt(rule.children, "Condition", 1);
  }

  /** What the look-ups inside a permit rule's target find. */
  lemma TargetParts(action: string)
    ensures Descend(Target(action), ["Actions", "Action", "ActionMatch"]) == Some(ActionMatch(action))
    ensures Descend(Target(action), ["Actions", "Action", "ActionMatch", "ActionValue"]) == Some(ActionMatch(action).children[0])
    ensures ChildNamed(ActionMatch(action), "ActionValue") == Some(ActionMatch(action).children[0])
    ensures AttributeByName(ActionMatch(action), "MatchId") == Some(StringEqual)
  {
    var t := Target(action);
    var actions := t.children[0];
    var act := actions.children[0];
    var m := ActionMatch(action);
    ChildAt(t.children, "Actions", 0);
    ChildAt(actions.children, "Action", 0);
    ChildAt(act.children, "ActionMatch", 0);
    ChildAt(m.children, "ActionValue", 0);
    AttributeAt(m.attributes, "MatchId", 0);
    var p := ["Actions", "Action", "ActionMatch"];
    assert p[1..] == ["Action", "ActionMatch"];
    assert p[1..][1..] == ["ActionMatch"];
    assert Descend(m, []) == Some(m);
    assert Descend(act, ["ActionMatch"]) == Some(m);
    assert Descend(actions, ["Action", "ActionMatch"]) == Some(m);
    var av := ["Actions", "Action", "ActionMatch", "ActionValue"];
    assert av[1..] == ["Action", "ActionMatch", "ActionValue"];
    assert av[1..][1..] == ["ActionMatch", "ActionValue"];
    assert av[1..][1..][1..] == ["ActionValue"];
    assert Descend(m, ["ActionValue"]) == Some(m.children[0]);
    assert Descend(act, ["ActionMatch", "ActionValue"]) == Some(m.children[0]);
    assert Descend(actions, ["Action", "ActionMatch", "ActionValue"]) == Some(m.children[0]);
  }

  /** What the look-ups inside a permit rule's condition find. */
  lemma ConditionParts(role: string)
    ensures ChildNamed(Condition(role), "Apply") == Some(RoleApply(role))
    ensures ChildNamed(RoleApply(role), "AttributeValue") == Some(RoleApply(role).children[0])
    ensures AttributeByName(RoleApply(role), "FunctionId") == Some(StringIsIn)
    ensures Descend(Condition(role), ["Apply"]) == Some(RoleApply(role))
    ensures Descend(Condition(role), ["Apply", "AttributeValue"]) == Some(RoleApply(role).children[0])
  {
    var c := Condition(role);
    var a := RoleApply(role);
    ChildAt(c.children, "Apply", 0);
    ChildAt(a.children, "AttributeValue", 0);
    AttributeAt(a.attributes, "FunctionId", 0);
    assert Descend(a, []) == Some(a);
    assert ["Apply", "AttributeValue"][1..] == ["AttributeValue"];
    assert Descend(a, ["AttributeValue"]) == Some(a.children[0]);
  }

  /** What the look-ups inside a permit rule's target and condition find;
      `PermitRuleTop` gives the rule's own attributes and children. */
  lemma PermitRuleParts(g: Grant)
    ensures Descend(Target(g.action), ["Actions", "Action", "ActionMatch"]) == Some(ActionMatch(g.action))
    ensures ChildNamed(ActionMatch(g.action), "ActionValue") == Some(ActionMatch(g.action).children[0])
    ensures ChildNamed(Condition(g.role), "Apply") == Some(RoleApply(g.role))
    ensures ChildNamed(RoleApply(g.role), "AttributeValue") == Some(RoleApply(g.role).children[0])
    ensures AttributeByName(ActionMatch(g.action), "MatchId") == Some(StringEqual)
    ensures AttributeByName(RoleApply(g.role), "FunctionId") == Some(StringIsIn)
    ensures Descend(PermitRule(g), ["Target", "Actions", "Action", "ActionMatch"]) == Some(ActionMatch(g.action))
    ensures Descend(PermitRule(g), ["Condition", "Apply"]) == Some(RoleApply(g.role))
    ensures Descend(PermitRule(g), ActionValuePath) == Some(ActionMatch(g.action).children[0])
    ensures Descend(PermitRule(g), RoleValuePath) == Some(RoleApply(g.role).children[0])
  {
    PermitRuleTop(g);
    TargetParts(g.action);
    ConditionParts(g.role);
    var rule := PermitRule(g);
    DescendStep(rule, ["Target", "Actions", "Action", "ActionMatch"], Target(g.action));
    DescendStep(rule, ActionValuePath, Target(g.action));
    DescendStep(rule, ["Condition", "Apply"], Condition(g.role));
    DescendStep(rule, RoleValuePath, Condition(g.role));
    assert ["Target", "Actions", "Action", "ActionMatch"][1..] == ["Actions", "Action", "ActionMatch"];
    assert ActionValuePath[1..] == ["Actions", "Action", "ActionMatch", "ActionValue"];
    assert ["Condition", "Apply"][1..] == ["Apply"];
    assert RoleValuePath[1..] == ["Apply", "AttributeValue"];
  }

  lemma DenyRuleParts()
    ensures AttributeByName(DenyRule, "RuleId") == Some("DenyRule")
    ensures AttributeByName(DenyRule, "Effect") == Some("Deny")
    ensures ChildNamed(DenyRule, "Target") == None
    ensures ChildNamed(DenyRule, "Condition") == None
  {
    assert "RuleId"[0] != "Effect"[0];
    AttributeAt(DenyRule.attributes, "RuleId", 0);
    AttributeAt(DenyRule.attributes, "Effect", 1);
  }

  /** The terminal default-deny rule: no target, no condition. */
  const DenyRule := Element("Rule", [Attribute("RuleId", "DenyRule"), Attribute("Effect", "Deny")], "", [])

  function PermitRules(grants: seq<Grant>): (rules: seq<Element>)
    ensures |rules| == |grants|
    ensures forall i :: 0 <= i < |grants| ==> rules[i] == PermitRule(grants[i])
  {
    seq(|grants|, i requires 0 <= i < |grants| => PermitRule(grants[i]))
  }

  /** `generateAclXML(grants, mediaPackageId)`. The root element keeps the
      source's tag `dublincore`. An empty grant list is accepted and gives
      a deny-only policy. */
  function PolicyDocument(grants: seq<Grant>, mediaPackageId: string): (policy: Element)
    ensures policy.name == "dublincore"
    ensures AttributeByName(policy, "PolicyId") == Some(if mediaPackageId == "" then DefaultPolicyId else mediaPackageId)
    ensures AttributeByName(policy, "Version") == Some("2.0")
    ensures AttributeByName(policy, "RuleCombiningAlgId") == Some(PermitOverrides)
    ensures AttributeByName(policy, "xmlns") == Some(PolicyNamespace)
    ensures |policy.children| == |grants| + 1
    ensures forall i :: 0 <= i < |grants| ==>
      && policy.children[i].name == "Rule"
      && AttributeByName(policy.children[i], "RuleId") == Some(PermitRuleId(grants[i]))
      && AttributeByName(policy.children[i], "Effect") == Some("Permit")
    ensures var last := policy.children[|grants|];
      && last.name == "Rule"
      && AttributeByName(last, "RuleId") == Some("DenyRule")
      && AttributeByName(last, "Effect") == Some("Deny")
      && last.children == [] && last.text == ""
  {
    PolicyAttributesLookups(mediaPackageId);
    PermitRulesTop(grants);
    DenyRuleParts();
    Element("dublincore", PolicyAttributes(mediaPackageId), "", PermitRules(grants) + [DenyRule])
  }

  /** The root attributes of the policy of package `mediaPackageId`. */
  function PolicyAttributes(mediaPackageId: string): seq<Attribute> {
    [
      Attribute("PolicyId", if mediaPackageId == "" then DefaultPolicyId else mediaPackageId),
      Attribute("Version", "2.0"),
      Attribute("RuleCombiningAlgId", PermitOverrides),
      Attribute("xmlns", PolicyNamespace)
    ]
  }

  lemma PolicyAttributesLookups(mediaPackageId: string)
    ensures var root := Element("dublincore", PolicyAttributes(mediaPackageId), "", []);
      && AttributeByName(root, "PolicyId") == Some(if mediaPackageId == "" then DefaultPolicyId else mediaPackageId)
      && AttributeByName(root, "Version") == Some("2.0")
      && AttributeByName(root, "RuleCombiningAlgId") == Some(PermitOverrides)
      && AttributeByName(root, "xmlns") == Some(PolicyNamespace)
  {
    var attrs := PolicyAttributes(mediaPackageId);
    AttributeAt(attrs, "PolicyId", 0);
    AttributeAt(attrs, "Version", 1);
    AttributeAt(attrs, "RuleCombiningAlgId", 2);
    AttributeAt(attrs, "xmlns", 3);
  }

  lemma PermitRulesTop(grants: seq<Grant>)
    ensures forall i :: 0 <= i < |grants| ==>
      && PermitRules(grants)[i].name == "Rule"
      && AttributeByName(PermitRules(grants)[i], "RuleId") == Some(PermitRuleId(grants[i]))
      && AttributeByName(PermitRules(grants)[i], "Effect") == Some("Permit")
  {
    forall i | 0 <= i < |grants|
      ensures AttributeByName(PermitRules(grants)[i], "RuleId") == Some(PermitRuleId(grants[i]))
      ensures AttributeByName(PermitRules(grants)[i], "Effect") == Some("Permit")
    {
      PermitRuleTop(grants[i]);
    }
  }

  /** A permit rule's target matches the grant's action with `string-equal`,
      through both the literal value and the action-id designator. */
  lemma PermitRuleTarget(grants: seq<Grant>, mediaPackageId: string, i: int)
    requires 0 <= i < |grants|
    ensures var m := Descend(PolicyDocument(grants, mediaPackageId).children[i], ["Target", "Actions", "Action", "ActionMatch"]);
      && m.Some?
      && AttributeByName(m.value, "MatchId") == Some(StringEqual)
      && |m.value.children| == 2
      && m.value.children[0].name == "ActionValue"
      && m.value.children[0].text == grants[i].action
      && AttributeByName(m.value.children[0], "DataType") == Some(XsString)
      && m.value.children[1].name == "ActionAttributeDesignator"
      && m.value.children[1].text == grants[i].action
      && AttributeByName(m.value.children[1], "AttributeId") == Some(ActionIdAttribute)
  {
    var rule := PolicyDocument(grants, mediaPackageId).children[i];
    assert rule == PermitRule(grants[i]);
    PermitRuleParts(grants[i]);
    var m := ActionMatch(grants[i].action);
    AttributeAt(m.children[0].attributes, "DataType", 0);
    AttributeAt(m.children[1].attributes, "AttributeId", 0);
  }

  /** A permit rule's condition applies `string-is-in` to the grant's role
      followed by a subject-role designator without text. */
  lemma PermitRuleCondition(grants: seq<Grant>, mediaPackageId: string, i: int)
    requires 0 <= i < |grants|
    ensures var a := Descend(PolicyDocument(grants, mediaPackageId).children[i], ["Condition", "Apply"]);
      && a.Some?
      && AttributeByName(a.value, "FunctionId") == Some(StringIsIn)
      && |a.value.children| == 2
      && a.value.children[0].name == "AttributeValue"
      && a.value.children[0].text == grants[i].role
      && a.value.children[1].name == "SubjectAttributeDesignator"
      && a.value.children[1].text == ""
      && a.value.children[1].children == []
      && AttributeByName(a.value.children[1], "AttributeId") == Some(SubjectRoleAttribute)
  {
    var rule := PolicyDocument(grants, mediaPackageId).children[i];
    assert rule == PermitRule(grants[i]);
    PermitRuleParts(grants[i]);
    var a := RoleApply(grants[i].role);
    AttributeAt(a.children[1].attributes, "AttributeId", 0);
  }

  // ---------------------------------------------------------------------
  // Reading the grants back

  /** The grant a permit rule expresses, read from its condition's role and
      its target's literal action. */
  function RuleGrant(rule: Element): Option<Grant> {
    match (Descend(rule, RoleValuePath), Descend(rule, ActionValuePath))
    case (Some(r), Some(a)) => Some(Grant(r.text, a.text))
    case _ => None
  }

  /** The grant a rule permits: what it reads back to when its effect is
      `Permit`, nothing otherwise. */
  function PermitGrant(rule: Element): Option<Grant> {
    if AttributeByName(rule, "Effect") == Some("Permit") then RuleGrant(rule) else None
  }

  /** The grants `read` finds in `rules`, in rule order. */
  function Collect(rules: seq<Element>, read: Element -> Option<Grant>): seq<Grant> {
    if |rules| == 0 then []
    else (match read(rules[0]) case Some(g) => [g] case None => []) + Collect(rules[1..], read)
  }

  /** The grants of the rules whose effect is `Permit`, in rule order. */
  function ReadGrants(rules: seq<Element>): seq<Grant> {
    Collect(rules, PermitGrant)
  }

  lemma PermitRuleReadsBack(g: Grant)
    ensures PermitGrant(PermitRule(g)) == Some(g)
  {
    PermitRuleTop(g);
    PermitRuleParts(g);
  }

  lemma DenyRuleReadsNothing()
    ensures PermitGrant(DenyRule) == None
  {
    DenyRuleParts();
  }

  /** Reading a generated policy's rules gives back exactly the grants, in order. */
  lemma PolicyGrantsRoundTrip(grants: seq<Grant>, mediaPackageId: string)
    ensures ReadGrants(PolicyDocument(grants, mediaPackageId).children) == grants
  {
    RulesReadBack(grants);
  }

  /** Rules that each yield one grant, followed by one that yields none,
      are read back to those grants. */
  lemma {:induction false} CollectReadsBack(rules: seq<Element>, last: Element, grants: seq<Grant>, read: Element -> Option<Grant>)
    requires |rules| == |grants|
    requires forall i :: 0 <= i < |rules| ==> read(rules[i]) == Some(grants[i])
    requires read(last) == None
    ensures Collect(rules + [last], read) == grants
    decreases |rules|
  {
    if |rules| == 0 {
      assert (rules + [last])[1..] == [];
    } else {
      assert (rules + [last])[1..] == rules[1..] + [last];
      CollectReadsBack(rules[1..], last, grants[1..], read);
      assert [grants[0]] + grants[1..] == grants;
    }
  }

  lemma RulesReadBack(grants: seq<Grant>)
    ensures ReadGrants(PermitRules(grants) + [DenyRule]) == grants
  {
    forall i | 0 <= i < |grants|
      ensures PermitGrant(PermitRules(grants)[i]) == Some(grants[i])
    {
      PermitRuleReadsBack(grants[i]);
    }
    DenyRuleReadsNothing();
    CollectReadsBack(PermitRules(grants), DenyRule, grants, PermitGrant);
  }

  // ---------------------------------------------------------------------
  // Evaluation under permit-overrides

  datatype Decision = Permit | Deny | NotApplicable

  /** A rule's target matches the requested action: no target matches
      everything; otherwise the action match must use `string-equal` and
      its literal value must equal the action. */
  predicate TargetMatches(rule: Element, action: string) {
    match ChildNamed(rule, "Target")
    case None => true
    case Some(t) =>
      match Descend(t, ["Actions", "Action", "ActionMatch"])
      case None => false
      case Some(m) =>
        && AttributeByName(m, "MatchId") == Some(StringEqual)
        && match ChildNamed(m, "ActionValue")
           case None => false
           case Some(v) => v.text == action
  }

  /** A rule's condition holds for a subject with `roles`: no condition
      holds; otherwise it must apply `string-is-in` to a value that is one
      of the subject's roles. */
  predicate ConditionHolds(rule: Element, roles: set<string>) {
    match ChildNamed(rule, "Condition")
    case None => true
    case Some(c) =>
      match ChildNamed(c, "Apply")
      case None => false
      case Some(a) =>
        && AttributeByName(a, "FunctionId") == Some(StringIsIn)
        && match ChildNamed(a, "AttributeValue")
           case None => false
           case Some(v) => v.text in roles
  }

  predicate Applies(rule: Element, roles: set<string>, action: string) {
    TargetMatches(rule, action) && ConditionHolds(rule, roles)
  }

  /** Some rule with effect `effect` applies to the request. */
  predicate SomeRuleApplies(rules: seq<Element>, effect: string, roles: set<string>, action: string) {
    exists i :: 0 <= i < |rules| && AttributeByName(rules[i], "Effect") == Some(effect) && Applies(rules[i], roles, action)
  }

  /** Permit-overrides: any applicable permit rule wins; otherwise any
      applicable deny rule denies; otherwise the policy does not apply. */
  function Evaluate(policy: Element, roles: set<string>, action: string): Decision {
    if SomeRuleApplies(policy.children, "Permit", roles, action) then Permit
    else if SomeRuleApplies(policy.children, "Deny", roles, action) then Deny
    else NotApplicable
  }

  /** Some grant lets a subject with `roles` perform `action`. */
  predicate Granted(grants: seq<Grant>, roles: set<string>, action: string) {
    exists i :: 0 <= i < |grants| && grants[i].action == action && grants[i].role in roles
  }

  lemma PermitRuleApplies(g: Grant, roles: set<string>, action: string)
    ensures Applies(PermitRule(g), roles, action) <==> g.action == action && g.role in roles
  {
    PermitRuleParts(g);
  }

  lemma DenyRuleApplies(roles: set<string>, action: string)
    ensures Applies(DenyRule, roles, action)
  {
    DenyRuleParts();
  }

  /** Some permit rule of a generated policy applies exactly when some grant allows the request. */
  lemma PermitRulesApply(grants: seq<Grant>, roles: set<string>, action: string)
    ensures SomeRuleApplies(PermitRules(grants) + [DenyRule], "Permit", roles, action) <==> Granted(grants, roles, action)
  {
    var rules := PermitRules(grants) + [DenyRule];
    if Granted(grants, roles, action) {
      var i :| 0 <= i < |grants| && grants[i].action == action && grants[i].role in roles;
      assert rules[i] == PermitRule(grants[i]);
      PermitRuleApplies(grants[i], roles, action);
      PermitRuleTop(grants[i]);
    }
    if SomeRuleApplies(rules, "Permit", roles, action) {
      var i :| 0 <= i < |rules| && AttributeByName(rules[i], "Effect") == Some("Permit") && Applies(rules[i], roles, action);
      DenyRuleParts();
      assert i != |grants|;
      assert rules[i] == PermitRule(grants[i]);
      PermitRuleApplies(grants[i], roles, action);
    }
  }

  /** A generated policy permits exactly what some grant allows and denies
      everything else. */
  lemma PolicyDecision(grants: seq<Grant>, mediaPackageId: string, roles: set<string>, action: string)
    ensures Evaluate(PolicyDocument(grants, mediaPackageId), roles, action)
      == if Granted(grants, roles, action) then Permit else Deny
  {
    var rules := PermitRules(grants) + [DenyRule];
    assert PolicyDocument(grants, mediaPackageId).children == rules;
    PermitRulesApply(grants, roles, action);
    assert rules[|grants|] == DenyRule;
    DenyRuleApplies(roles, action);
    DenyRuleParts();
    assert SomeRuleApplies(rules, "Deny", roles, action);
  }
}
