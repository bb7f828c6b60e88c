/** `SecurityGroupGenerator`: the `aws_security_group` block with its
    ingress and egress rules, and its import command.
 */
module SecurityGroup {
  import opened Py
  import opened HclText
  import opened GeneratorBase

  const ResourceType := "aws_security_group"

  const DefaultDescription := "Managed by Terraform"

  // ------------------------------------------------------------ names

  /** `_generate_resource_name`: the `Name` tag with `-` and spaces turned
      into `_`, lower-cased; else the id with `-` turned into `_`,
      lower-cased. */
  function Name(res: Entries): Outcome<string> {
    var tags :- Iter(GetOr(res, "tags", List([])));
    var nameTag := ScanNameTag(tags);
    if Truthy(nameTag) then
      var n :- AsStr(nameTag);
      Ok(Lower(Sanitize(n)))
    else
      var i :- AsStr(GetOr(res, "id", Str("")));
      Ok(Lower(Replace(i, "-", "_")))
  }

  // ------------------------------------------------------------ rules

  /** The two ports of a rule: an egress rule missing either one gets 0 for
      both. */
  function Ports(rule: Entries, ruleType: string): (Value, Value) {
    var from := GetOr(rule, "from_port", Null);
    var to := GetOr(rule, "to_port", Null);
    if ruleType == "egress" && (from == Null || to == Null) then (Int(0), Int(0)) else (from, to)
  }

  /** The protocol as written: `-1` becomes `all`. */
  function Protocol(rule: Entries): string {
    var protocol := GetOr(rule, "protocol", Null);
    if protocol == Str("-1") then "all" else Show(protocol)
  }

  /** A list of the rule, written only when it is truthy. */
  function RuleList(rule: Entries, key: string): Outcome<seq<string>> {
    var v := GetOr(rule, key, Null);
    if !Truthy(v) then Ok([])
    else
      var line :- QuotedList(key, v);
      Ok(["  " + line])
  }

  /** The three lists of a rule. */
  function RuleLists(rule: Entries): Outcome<seq<string>> {
    var cidrs :- RuleList(rule, "cidr_blocks");
    var ipv6 :- RuleList(rule, "ipv6_cidr_blocks");
    var groups :- RuleList(rule, "security_groups");
    Ok(cidrs + ipv6 + groups)
  }

  /** `_format_rule`: a rule that is not a dict has no `get` and raises. */
  function RuleLines(rule: Value, ruleType: string): Outcome<seq<string>> {
    if !rule.Dict? then Raised
    else
      var lists :- RuleLists(rule.entries);
      Ok(RuleBlock(ruleType, Ports(rule.entries, ruleType), Protocol(rule.entries), lists))
  }

  /** A rule block from its ports, its protocol and its lists. */
  function RuleBlock(ruleType: string, ports: (Value, Value), protocol: string, lists: seq<string>): seq<string> {
    [RuleHeader(ruleType), FromPortLine(ports.0), ToPortLine(ports.1), ProtocolLine(protocol)] + lists + ["  }"]
  }

  function RuleHeader(ruleType: string): string { "  " + ruleType + " {" }
  function FromPortLine(port: Value): string { "    from_port = " + Show(port) }
  function ToPortLine(port: Value): string { "    to_port = " + Show(port) }
  function ProtocolLine(protocol: string): string { "    protocol = \"" + protocol + "\"" }

  /** `for rule in rules: hcl.extend(self._format_rule(rule, rule_type))` */
  function Rules(rules: Value, ruleType: string): Outcome<seq<string>> {
    var xs :- Iter(rules);
    ConcatMap(xs, rule => RuleLines(rule, ruleType))
  }

  // ------------------------------------------------------------ generate

  /** The header and the three settings every group has. */
  function Opening(name: string, d: Entries): seq<string> {
    [Header(ResourceType, name), NameLine(GetOr(d, "name", Null)),
     DescriptionLine(GetOr(d, "description", Str(DefaultDescription))),
     RevokeLine(GetOr(d, "revoke_rules_on_delete", Bool(false)))]
  }

  function NameLine(v: Value): string { "  name                   = \"" + Show(v) + "\"" }
  function DescriptionLine(v: Value): string { "  description            = \"" + Show(v) + "\"" }
  function RevokeLine(v: Value): string { "  revoke_rules_on_delete = " + ShowLower(v) }
  function VpcLine(v: Value): string { "  vpc_id = \"" + Show(v) + "\"" }

  /** The VPC line and the rules, between the opening and the tags. */
  function Body(d: Entries): Outcome<seq<string>> {
    var vpc := GetOr(d, "vpc_id", Null);
    var ingress :- Rules(GetOr(d, "ingress_rules", List([])), "ingress");
    var egress :- Rules(GetOr(d, "egress_rules", List([])), "egress");
    Ok(When(Truthy(vpc), VpcLine(vpc)) + ingress + egress)
  }

  /** The lines `generate` joins: None without an id or details; details
      that are not a dict have no `get` and raise. */
  function Lines(res: Entries): Outcome<Option<seq<string>>> {
    var id := GetOr(res, "id", Null);
    var details := GetOr(res, "details", Dict([]));
    if !Truthy(id) || !Truthy(details) then Ok(None)
    else
      var name :- Name(res);
      if !details.Dict? then Raised
      else
        var body :- Body(details.entries);
        var tags :- TagsBlock(GetOr(res, "tags", List([])), StrictTagLine);
        Ok(Some(Opening(name, details.entries) + body + tags + ["}"]))
  }

  /** `_format_rule`, line by line. */
  method FormatRule(rule: Value, ruleType: string) returns (r: Outcome<seq<string>>)
    ensures r == RuleLines(rule, ruleType)
  {
    if !rule.Dict? {
      return Raised;
    }
    var e := rule.entries;
    var lines := [RuleHeader(ruleType)];
    var from := GetOr(e, "from_port", Null);
    var to := GetOr(e, "to_port", Null);
    if ruleType == "egress" && (from == Null || to == Null) {
      from := Int(0);
      to := Int(0);
    }
    ghost var ports := Ports(e, ruleType);
    assert from == ports.0 && to == ports.1;
    lines := lines + [FromPortLine(from)];
    lines := lines + [ToPortLine(to)];
    var protocol := Protocol(e);
    lines := lines + [ProtocolLine(protocol)];
    assert lines == [RuleHeader(ruleType), FromPortLine(ports.0), ToPortLine(ports.1), ProtocolLine(protocol)];
    var lists := RuleLists(e);
    if lists.Raised? {
      return Raised;
    }
    lines := lines + lists.value + ["  }"];
    return Ok(lines);
  }

  /** The VPC line and the two rule loops. */
  method EmitBody(d: Entries) returns (r: Outcome<seq<string>>)
    ensures r == Body(d)
  {
    var hcl := [];
    var vpc := GetOr(d, "vpc_id", Null);
    if Truthy(vpc) {
      hcl := hcl + [VpcLine(vpc)];
    }
    assert hcl == When(Truthy(vpc), VpcLine(vpc));
    var ingress := IterLoop(GetOr(d, "ingress_rules", List([])), rule => RuleLines(rule, "ingress"));
    if ingress.Raised? {
      return Raised;
    }
    hcl := hcl + ingress.value;
    var egress := IterLoop(GetOr(d, "egress_rules", List([])), rule => RuleLines(rule, "egress"));
    if egress.Raised? {
      return Raised;
    }
    hcl := hcl + egress.value;
    assert hcl == When(Truthy(vpc), VpcLine(vpc)) + ingress.value + egress.value;
    return Ok(hcl);
  }

  /** `generate` */
  method Generate(res: Entries) returns (r: Option<string>)
    ensures r == Render(Lines(res))
  {
    var id := GetOr(res, "id", Null);
    var details := GetOr(res, "details", Dict([]));
    if !Truthy(id) || !Truthy(details) {
      return None;
    }
    var name := Name(res);
    if name.Raised? || !details.Dict? {
      return None;
    }
    var body := EmitBody(details.entries);
    if body.Raised? {
      return None;
    }
    var tags := EmitTags(GetOr(res, "tags", List([])), StrictTagLine);
    if tags.Raised? {
      return None;
    }
    r := Some(Join("\n", Opening(name.value, details.entries) + body.value + tags.value + ["}"]));
  }

  /** `generate_import`: the same name as the block, and the raw id. */
  function Import(res: Entries, modulePrefix: Option<string>): (r: Option<string>)
    ensures r.Some? <==> Truthy(GetOr(res, "id", Null)) && Name(res).Ok?
  {
    var id := GetOr(res, "id", Null);
    if !Truthy(id) then None
    else match Name(res)
      case Raised => None
      case Ok(name) => Some(ImportCommand(ImportPrefix(modulePrefix), ResourceType, name, Show(id)))
  }

  // ------------------------------------------------------------ lemmas

  /** A group is left out exactly when its id or its details are missing. */
  lemma RequiredFields(res: Entries)
    ensures Lines(res) == Ok(None) <==> !Truthy(GetOr(res, "id", Null)) || !Truthy(GetOr(res, "details", Dict([])))
  {
  }

  /** An egress rule missing a port has both ports 0; an ingress rule keeps
      what it has, even a missing port. */
  lemma PortDefaults(rule: Entries)
    ensures var from := GetOr(rule, "from_port", Null);
      var to := GetOr(rule, "to_port", Null);
      (from == Null || to == Null ==> Ports(rule, "egress") == (Int(0), Int(0)))
      && (from != Null && to != Null ==> Ports(rule, "egress") == (from, to))
      && Ports(rule, "ingress") == (from, to)
  {
  }

  /** Protocol `-1` is written `all`; any other protocol as it is. */
  lemma ProtocolAll(rule: Entries)
    ensures GetOr(rule, "protocol", Null) == Str("-1") ==> Protocol(rule) == "all"
    ensures GetOr(rule, "protocol", Null) != Str("-1") ==> Protocol(rule) == Show(GetOr(rule, "protocol", Null))
  {
  }

  /** A rule list is written exactly when it is truthy, as one line. */
  lemma RuleListOnlyWhenSet(rule: Entries, key: string)
    requires RuleList(rule, key).Ok?
    ensures RuleList(rule, key).value != [] <==> Truthy(GetOr(rule, key, Null))
    ensures |RuleList(rule, key).value| <= 1
  {
  }

  /** A rule block opens with its type, the ports and the protocol, holds
      the lists, and closes. */
  lemma RuleShape(ruleType: string, ports: (Value, Value), protocol: string, lists: seq<string>)
    ensures var ls := RuleBlock(ruleType, ports, protocol, lists);
      |ls| == 5 + |lists| && ls[0] == "  " + ruleType + " {" && ls[|ls| - 1] == "  }"
      && ls[3] == "    protocol = \"" + protocol + "\"" && ls[4..|ls| - 1] == lists
  {
  }

  /** A rule has at most the three lists. */
  lemma RuleListsAtMostThree(rule: Entries)
    requires RuleLists(rule).Ok?
    ensures |RuleLists(rule).value| <= 3
  {
    RuleListOnlyWhenSet(rule, "cidr_blocks");
    RuleListOnlyWhenSet(rule, "ipv6_cidr_blocks");
    RuleListOnlyWhenSet(rule, "security_groups");
  }

  /** A rule that is not a dict makes `generate` raise. */
  lemma RuleMustBeDict(rules: seq<Value>, ruleType: string, i: nat)
    requires i < |rules| && !rules[i].Dict?
    ensures Rules(List(rules), ruleType).Raised?
  {
    ConcatMapRaises(rules, rule => RuleLines(rule, ruleType), i);
  }

  /** Without a description, the group is described as managed by
      Terraform. */
  lemma DescriptionDefault(name: string, d: Entries)
    requires !HasKey(d, "description")
    ensures Opening(name, d)[2] == "  description            = \"Managed by Terraform\""
  {
    assert GetOr(d, "description", Str(DefaultDescription)) == Str(DefaultDescription);
  }

  /** Without `revoke_rules_on_delete`, the rules are kept on delete. */
  lemma RevokeDefault(name: string, d: Entries)
    requires !HasKey(d, "revoke_rules_on_delete")
    ensures Opening(name, d)[3] == "  revoke_rules_on_delete = false"
  {
    assert GetOr(d, "revoke_rules_on_delete", Bool(false)) == Bool(false);
    ShowLowerBool(false);
  }

  /** The resource name is lower-case and holds no `-`. */
  lemma NameShape(res: Entries)
    requires Name(res).Ok?
    ensures '-' !in Name(res).value
    ensures forall i :: 0 <= i < |Name(res).value| ==> !('A' <= Name(res).value[i] <= 'Z')
  {
    var tags := Iter(GetOr(res, "tags", List([]))).value;
    var nameTag := ScanNameTag(tags);
    if Truthy(nameTag) {
      LowerKeepsAbsent(Sanitize(nameTag.s), '-');
    } else {
      var i := GetOr(res, "id", Str("")).s;
      ReplaceRemoves(i, '-', "_");
      LowerKeepsAbsent(Replace(i, "-", "_"), '-');
    }
  }

  /** The import command addresses the block `generate` declares and imports
      it by its raw id. */
  lemma ImportMatchesBlock(res: Entries, modulePrefix: Option<string>)
    requires Lines(res).Ok? && Lines(res).value.Some?
    ensures Import(res, modulePrefix).Some?
    ensures var name := Name(res).value;
      [Header(ResourceType, name)] <= Lines(res).value.value
      && Import(res, modulePrefix).value == ImportCommand(ImportPrefix(modulePrefix), ResourceType, name, Show(GetOr(res, "id", Null)))
  {
    var name := Name(res).value;
    var d := GetOr(res, "details", Dict([])).entries;
    assert Lines(res).value.value == Opening(name, d) + Body(d).value + TagsBlock(GetOr(res, "tags", List([])), StrictTagLine).value + ["}"];
    assert Lines(res).value.value[0] == Header(ResourceType, name);
  }
}
