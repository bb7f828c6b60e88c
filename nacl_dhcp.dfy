/** `NetworkACLGenerator` (`aws_network_acl`) and `DHCPOptionsGenerator`
    (`aws_vpc_dhcp_options`, with its VPC association).
 */
module NaclDhcp {
  import opened Py
  import opened HclText
  import opened GeneratorBase
  import Seqs

  const AclType := "aws_network_acl"
  const DhcpType := "aws_vpc_dhcp_options"
  const DhcpAssocType := "aws_vpc_dhcp_options_association"

  // ------------------------------------------------------------ network ACL

  /** The port range field `rule.get("PortRange", {}).get(key, 0)`. */
  function Port(rule: Entries, key: string): Outcome<Value> {
    Get(GetOr(rule, "PortRange", Dict([])), key, Int(0))
  }

  /** The CIDR line: the IPv4 block if the rule has one, else the IPv6 block. */
  function CidrLine(rule: Entries): seq<string> {
    if HasKey(rule, "CidrBlock") then ["    cidr_block = \"" + Show(GetOr(rule, "CidrBlock", Null)) + "\""]
    else if HasKey(rule, "Ipv6CidrBlock") then ["    ipv6_cidr_block = \"" + Show(GetOr(rule, "Ipv6CidrBlock", Null)) + "\""]
    else []
  }

  /** Whether the protocol carries ports: not `-1` and not `all`. */
  predicate HasPorts(protocol: Value) {
    protocol != Str("-1") && protocol != Str("all")
  }

  /** The port lines, for a protocol that has ports. */
  function PortLines(rule: Entries, protocol: Value): (r: Outcome<seq<string>>)
    ensures r.Ok? ==> |r.value| == if HasPorts(protocol) then 2 else 0
  {
    if HasPorts(protocol) then
      var from :- Port(rule, "From");
      var to :- Port(rule, "To");
      Ok(["    from_port = " + Show(from), "    to_port = " + Show(to)])
    else Ok([])
  }

  /** `_format_rule` */
  function RuleLines(rule: Value, isEgress: bool): Outcome<seq<string>> {
    if !rule.Dict? || !HasKey(rule.entries, "Protocol") || !HasKey(rule.entries, "RuleNumber")
      || !HasKey(rule.entries, "RuleAction") then Raised  // `rule[...]` raises KeyError
    else
      var r := rule.entries;
      var protocol := GetOr(r, "Protocol", Null);
      var action :- AsStr(GetOr(r, "RuleAction", Null));
      var ports :- PortLines(r, protocol);
      Ok(RuleHead(isEgress, protocol, GetOr(r, "RuleNumber", Null), action) + CidrLine(r) + ports + ["  }"])
  }

  /** The action line, lower-cased. */
  function ActionLine(action: string): (r: string)
    ensures forall i :: 0 <= i < |r| ==> !('A' <= r[i] <= 'Z')
  {
    var l := "    action = \"" + Lower(action) + "\"";
    assert forall i :: 14 <= i < 14 + |action| ==> l[i] == Lower(action)[i - 14];
    l
  }

  /** The four lines every rule starts with. */
  function RuleHead(isEgress: bool, protocol: Value, number: Value, action: string): seq<string> {
    ["  " + (if isEgress then "egress" else "ingress") + " {",
     "    protocol = " + Show(protocol),
     "    rule_no = " + Show(number),
     ActionLine(action)]
  }

  function IngressLines(rule: Value): Outcome<seq<string>> {
    RuleLines(rule, false)
  }

  function EgressLines(rule: Value): Outcome<seq<string>> {
    RuleLines(rule, true)
  }

  /** `assoc["SubnetId"] for assoc in associations if "SubnetId" in assoc`,
      and the id must be a string to be joined. */
  function SubnetOf(assoc: Value): Outcome<seq<string>> {
    var has :- In("SubnetId", assoc);
    if !has then Ok([])
    else
      var v :- Item(assoc, "SubnetId");
      var s :- AsStr(v);
      Ok([s])
  }

  predicate HasSubnetId(assoc: Value) {
    In("SubnetId", assoc) == Ok(true)
  }

  /** The `subnet_ids` line, when some association has a subnet. */
  function SubnetLine(associations: Value): Outcome<seq<string>> {
    if !Truthy(associations) then Ok([])
    else
      var items :- Iter(associations);
      var ids :- ConcatMap(items, SubnetOf);
      if ids == [] then Ok([])
      else Ok(["  subnet_ids = [\"" + Join("\", \"", ids) + "\"]"])
  }

  /** The ACL block of a resource with dict details. */
  function AclBody(res: Entries, d: Entries): Outcome<seq<string>> {
    var name :- TaggedName(res, "nacl");
    var vpc :- Item(Dict(d), "vpc_id");
    var subnets :- SubnetLine(GetOr(d, "associations", List([])));
    var ingressRules :- Iter(GetOr(d, "ingress_rules", List([])));
    var ingress :- ConcatMap(ingressRules, IngressLines);
    var egressRules :- Iter(GetOr(d, "egress_rules", List([])));
    var egress :- ConcatMap(egressRules, EgressLines);
    var tags :- TagsBlock(GetOr(res, "tags", List([])), LooseTagLine);
    Ok([Header(AclType, name), "  vpc_id = \"" + Show(vpc) + "\""] + subnets + ingress + egress + tags + ["}"])
  }

  /** The lines `generate` joins: None without an id or details, and for
      the default ACL. */
  function AclLines(res: Entries): Outcome<Option<seq<string>>> {
    var id := GetOr(res, "id", Null);
    var details := GetOr(res, "details", Dict([]));
    if !Truthy(id) || !Truthy(details) then Ok(None)
    else if !details.Dict? then Raised
    else if Truthy(GetOr(details.entries, "is_default", Bool(false))) then Ok(None)
    else
      var ls :- AclBody(res, details.entries);
      Ok(Some(ls))
  }

  /** The ACL generator's `generate` */
  method AclGenerate(res: Entries) returns (r: Option<string>)
    ensures r == Render(AclLines(res))
  {
    var id := GetOr(res, "id", Null);
    var details := GetOr(res, "details", Dict([]));
    if !Truthy(id) || !Truthy(details) || !details.Dict? {
      return None;
    }
    var d := details.entries;
    if Truthy(GetOr(d, "is_default", Bool(false))) {
      return None;
    }
    var name := TaggedName(res, "nacl");
    var vpc := Item(Dict(d), "vpc_id");
    if name.Raised? || vpc.Raised? {
      return None;
    }
    var hcl := [Header(AclType, name.value), "  vpc_id = \"" + Show(vpc.value) + "\""];
    var subnets := SubnetLine(GetOr(d, "associations", List([])));
    if subnets.Raised? {
      return None;
    }
    hcl := hcl + subnets.value;
    var ingress := IterLoop(GetOr(d, "ingress_rules", List([])), IngressLines);
    if ingress.Raised? {
      return None;
    }
    hcl := hcl + ingress.value;
    var egress := IterLoop(GetOr(d, "egress_rules", List([])), EgressLines);
    if egress.Raised? {
      return None;
    }
    hcl := hcl + egress.value;
    var tags := EmitTags(GetOr(res, "tags", List([])), LooseTagLine);
    if tags.Raised? {
      return None;
    }
    hcl := hcl + tags.value + ["}"];
    assert AclBody(res, d) == Ok(hcl);
    r := Some(Join("\n", hcl));
  }

  /** The ACL generator's `generate_import` */
  function AclImport(res: Entries, modulePrefix: Option<string>): (r: Option<string>)
    ensures r.Some? <==> Truthy(GetOr(res, "id", Null)) && TaggedName(res, "nacl").Ok?
  {
    var id := GetOr(res, "id", Null);
    var name := TaggedName(res, "nacl");
    if !Truthy(id) || name.Raised? then None
    else Some(ImportCommand(ImportPrefix(modulePrefix), AclType, name.value, Show(id)))
  }

  // ------------------------------------------------------------ DHCP options

  /** `_format_list_values` */
  function ListValues(values: Value): Outcome<string> {
    if !Truthy(values) then Ok("[]")
    else
      var items :- QuotedItems(values);
      Ok("[" + items + "]")
  }

  /** `v[0]` on a non-empty value: a list's first item or a string's first
      character; anything else raises. */
  function FirstItem(v: Value): Outcome<Value> {
    match v
    case List(xs) => if xs == [] then Raised else Ok(xs[0])
    case Str(s) => if s == [] then Raised else Ok(Str([s[0]]))
    case _ => Raised
  }

  /** A field written from the first element of its value, when set. */
  function FirstLine(key: string, v: Value): Outcome<seq<string>> {
    if !Truthy(v) then Ok([])
    else
      var first :- FirstItem(v);
      Ok(["  " + key + " = \"" + Show(first) + "\""])
  }

  /** A field written as a list, when set. */
  function ListLine(key: string, v: Value): Outcome<seq<string>> {
    if !Truthy(v) then Ok([])
    else
      var values :- ListValues(v);
      Ok(["  " + key + " = " + values])
  }

  /** The association block, written when the options belong to a VPC. */
  function AssociationLines(name: string, vpc: Value): seq<string> {
    ["", Header(DhcpAssocType, name + "_association"), "  vpc_id = \"" + Show(vpc) + "\"",
     "  dhcp_options_id = " + DhcpType + "." + name + ".id", "}"]
  }

  /** The options that are set, in order. */
  function OptionLines(d: Entries): Outcome<seq<string>> {
    var domainName :- FirstLine("domain_name", GetOr(d, "domain_name", Null));
    var servers :- ListLine("domain_name_servers", GetOr(d, "domain_name_servers", Null));
    var ntp :- ListLine("ntp_servers", GetOr(d, "ntp_servers", Null));
    var netbios :- ListLine("netbios_name_servers", GetOr(d, "netbios_name_servers", Null));
    var nodeType :- FirstLine("netbios_node_type", GetOr(d, "netbios_node_type", Null));
    Ok(domainName + servers + ntp + netbios + nodeType)
  }

  /** The lines `generate` joins: None without an id or details. */
  function DhcpLines(res: Entries): Outcome<Option<seq<string>>> {
    var id := GetOr(res, "id", Null);
    var details := GetOr(res, "details", Dict([]));
    if !Truthy(id) || !Truthy(details) then Ok(None)
    else
      var name :- TaggedName(res, "dhcp");
      if !details.Dict? then Raised
      else
        var d := details.entries;
        var options :- OptionLines(d);
        var tags :- TagsBlock(GetOr(res, "tags", List([])), LooseTagLine);
        var vpc := GetOr(d, "vpc_id", Null);
        Ok(Some([Header(DhcpType, name)] + options + tags + ["}"]
          + (if Truthy(vpc) then AssociationLines(name, vpc) else [])))
  }

  /** The DHCP generator's `generate` */
  method DhcpGenerate(res: Entries) returns (r: Option<string>)
    ensures r == Render(DhcpLines(res))
  {
    var id := GetOr(res, "id", Null);
    var details := GetOr(res, "details", Dict([]));
    if !Truthy(id) || !Truthy(details) {
      return None;
    }
    var name := TaggedName(res, "dhcp");
    if name.Raised? || !details.Dict? {
      return None;
    }
    var d := details.entries;
    var hcl := [Header(DhcpType, name.value)];
    var options := OptionLines(d);
    if options.Raised? {
      return None;
    }
    hcl := hcl + options.value;
    var tags := EmitTags(GetOr(res, "tags", List([])), LooseTagLine);
    if tags.Raised? {
      return None;
    }
    hcl := hcl + tags.value + ["}"];
    ghost var spec := hcl;
    var vpc := GetOr(d, "vpc_id", Null);
    if Truthy(vpc) {
      hcl := hcl + AssociationLines(name.value, vpc);
    }
    spec := spec + (if Truthy(vpc) then AssociationLines(name.value, vpc) else []);
    assert hcl == spec;
    r := Some(Join("\n", hcl));
  }

  /** The commands the DHCP generator's `generate_import` joins: the options
      by id, then the association by `vpc:dhcp` when there is a VPC. */
  function DhcpImportLines(res: Entries, modulePrefix: Option<string>): Option<seq<string>> {
    var id := GetOr(res, "id", Null);
    var name := TaggedName(res, "dhcp");
    var details := GetOr(res, "details", Dict([]));
    if !Truthy(id) || name.Raised? || !details.Dict? then None
    else
      var prefix := ImportPrefix(modulePrefix);
      var vpc := GetOr(details.entries, "vpc_id", Null);
      Some([ImportCommand(prefix, DhcpType, name.value, Show(id))]
        + (if Truthy(vpc) then [ImportCommand(prefix, DhcpAssocType, name.value + "_association", Show(vpc) + ":" + Show(id))] else []))
  }

  /** The DHCP generator's `generate_import` */
  function DhcpImport(res: Entries, modulePrefix: Option<string>): (r: Option<string>)
    ensures r.Some? <==> (Truthy(GetOr(res, "id", Null)) && TaggedName(res, "dhcp").Ok?
      && GetOr(res, "details", Dict([])).Dict?)
    ensures r.Some? ==> StartsWith(r.value, ImportCommand(ImportPrefix(modulePrefix), DhcpType,
      TaggedName(res, "dhcp").value, Show(GetOr(res, "id", Null))))
  {
    match DhcpImportLines(res, modulePrefix)
    case Some(cmds) =>
      JoinStartsWithHead("\n", cmds);
      Some(Join("\n", cmds))
    case None => None
  }

  // ------------------------------------------------------------ lemmas

  /** An ACL is left out without an id or details, and when it is the VPC's
      default. */
  lemma AclSkipped(res: Entries)
    requires var details := GetOr(res, "details", Dict([]));
      !Truthy(GetOr(res, "id", Null)) || !Truthy(details)
      || (details.Dict? && Truthy(GetOr(details.entries, "is_default", Bool(false))))
    ensures AclLines(res) == Ok(None)
  {
  }

  /** A written ACL is imported under the tagged name its block declares. */
  lemma AclImportMatchesBlock(res: Entries, modulePrefix: Option<string>)
    requires Render(AclLines(res)).Some?
    ensures var name := TaggedName(res, "nacl").value;
      var d := GetOr(res, "details", Dict([])).entries;
      AclLines(res) == Ok(Some(AclBody(res, d).value))
      && |AclBody(res, d).value| > 0 && AclBody(res, d).value[0] == Header(AclType, name)
      && AclImport(res, modulePrefix) == Some(ImportCommand(ImportPrefix(modulePrefix), AclType, name, Show(GetOr(res, "id", Null))))
  {
    var d := GetOr(res, "details", Dict([])).entries;
    var name := TaggedName(res, "nacl").value;
    var vpc := Item(Dict(d), "vpc_id").value;
    var subnets := SubnetLine(GetOr(d, "associations", List([]))).value;
    var ingress := ConcatMap(Iter(GetOr(d, "ingress_rules", List([]))).value, IngressLines).value;
    var egress := ConcatMap(Iter(GetOr(d, "egress_rules", List([]))).value, EgressLines).value;
    var tags := TagsBlock(GetOr(res, "tags", List([])), LooseTagLine).value;
    var opening := [Header(AclType, name), "  vpc_id = \"" + Show(vpc) + "\""];
    assert AclBody(res, d).value == opening + subnets + ingress + egress + tags + ["}"];
    BlockHead(opening, subnets, ingress, egress, tags);
  }

  /** A rule opens with its direction and closes its block, its action is
      lower-cased, and it has the two port lines exactly when the protocol is
      neither `-1` nor `all`. */
  lemma RuleFormat(rule: Value, isEgress: bool)
    requires RuleLines(rule, isEgress).Ok?
    ensures var ls := RuleLines(rule, isEgress).value;
      var r := rule.entries;
      var ports := HasPorts(GetOr(r, "Protocol", Null));
      |ls| == 5 + |CidrLine(r)| + (if ports then 2 else 0)
      && ls[0] == (if isEgress then "  egress {" else "  ingress {")
      && ls[3] == ActionLine(GetOr(r, "RuleAction", Null).s)
      && ls[|ls| - 1] == "  }"
  {
    var r := rule.entries;
    var protocol := GetOr(r, "Protocol", Null);
    var action := GetOr(r, "RuleAction", Null).s;
    var ports := PortLines(r, protocol).value;
    var head := RuleHead(isEgress, protocol, GetOr(r, "RuleNumber", Null), action);
    assert RuleLines(rule, isEgress).value == head + CidrLine(r) + ports + ["  }"];
    RuleBlockShape(head, CidrLine(r), ports);
    RuleOpening(isEgress);
  }

  /** A rule block: its four head lines, then the CIDR and port lines, then
      the closing brace. */
  lemma RuleBlockShape(head: seq<string>, cidr: seq<string>, ports: seq<string>)
    requires |head| == 4
    ensures var ls := head + cidr + ports + ["  }"];
      |ls| == 5 + |cidr| + |ports| && ls[0] == head[0] && ls[3] == head[3] && ls[|ls| - 1] == "  }"
  {
  }

  /** The line that opens an egress or an ingress rule. */
  lemma RuleOpening(isEgress: bool)
    ensures "  " + (if isEgress then "egress" else "ingress") + " {" == (if isEgress then "  egress {" else "  ingress {")
  {
  }

  /** At most one CIDR line, the IPv4 block winning over the IPv6 one. */
  lemma CidrPreferred(rule: Entries)
    ensures |CidrLine(rule)| <= 1
    ensures HasKey(rule, "CidrBlock") ==> CidrLine(rule) == ["    cidr_block = \"" + Show(GetOr(rule, "CidrBlock", Null)) + "\""]
    ensures CidrLine(rule) == [] <==> !HasKey(rule, "CidrBlock") && !HasKey(rule, "Ipv6CidrBlock")
  {
  }

  /** A missing port is 0. */
  lemma PortDefault(rule: Entries, key: string)
    requires !HasKey(rule, "PortRange")
    ensures Port(rule, key) == Ok(Int(0))
  {
    assert GetOr(rule, "PortRange", Dict([])) == Dict([]);
  }

  /** `subnet_ids` lists one id per association that has a `SubnetId`, each
      taken from such an association. */
  lemma {:induction false} SubnetIdsFromAssociations(items: seq<Value>)
    requires ConcatMap(items, SubnetOf).Ok?
    ensures var ids := ConcatMap(items, SubnetOf).value;
      |ids| == |Seqs.Filter(items, HasSubnetId)|
      && forall k :: 0 <= k < |ids| ==>
        exists i :: 0 <= i < |items| && items[i].Dict? && GetOr(items[i].entries, "SubnetId", Null) == Str(ids[k])
    decreases |items|
  {
    if items != [] {
      var init := items[..|items| - 1];
      var last := items[|items| - 1];
      SubnetIdsFromAssociations(init);
      var before := ConcatMap(init, SubnetOf).value;
      var ids := ConcatMap(items, SubnetOf).value;
      assert ids == before + SubnetOf(last).value;
      forall k | 0 <= k < |ids|
        ensures exists i :: 0 <= i < |items| && items[i].Dict? && GetOr(items[i].entries, "SubnetId", Null) == Str(ids[k])
      {
        if k < |before| {
          var i :| 0 <= i < |init| && init[i].Dict? && GetOr(init[i].entries, "SubnetId", Null) == Str(before[k]);
          assert items[i] == init[i];
        } else {
          assert GetOr(last.entries, "SubnetId", Null) == Str(ids[k]);
        }
      }
    }
  }

  function Quoted(values: seq<string>): seq<string> {
    seq(|values|, i requires 0 <= i < |values| => "\"" + values[i] + "\"")
  }

  /** No list, `[]`; otherwise every value quoted, comma-separated. */
  lemma ListValuesFormat(values: seq<string>)
    ensures var v := List(seq(|values|, i requires 0 <= i < |values| => Str(values[i])));
      ListValues(v).Ok?
      && (values == [] ==> ListValues(v).value == "[]")
      && (values != [] ==> ListValues(v).value == "[" + Join(", ", Quoted(values)) + "]")
  {
    var xs := seq(|values|, i requires 0 <= i < |values| => Str(values[i]));
    if values == [] {
      assert |xs| == 0;
      assert !Truthy(List(xs));
    } else {
      var quoted := seq(|xs|, i requires 0 <= i < |xs| => "\"" + Show(xs[i]) + "\"");
      assert quoted == Quoted(values);
    }
  }

  /** `domain_name` and `netbios_node_type` keep only the first element of
      their list. */
  lemma FirstElementOnly(key: string, first: string, rest: seq<Value>)
    ensures FirstLine(key, List([Str(first)] + rest)) == Ok(["  " + key + " = \"" + first + "\""])
  {
  }

  /** The association block and its import command come together, exactly
      when the options name a VPC; the association refers to the options
      block by the name that block declares. */
  lemma AssociationWithVpc(res: Entries, modulePrefix: Option<string>)
    requires Render(DhcpLines(res)).Some?
    ensures var d := GetOr(res, "details", Dict([])).entries;
      var vpc := GetOr(d, "vpc_id", Null);
      var name := TaggedName(res, "dhcp").value;
      var ls := DhcpLines(res).value.value;
      var cmds := DhcpImportLines(res, modulePrefix);
      ls[0] == Header(DhcpType, name)
      && cmds.Some? && |cmds.value| == (if Truthy(vpc) then 2 else 1)
      && cmds.value[0] == ImportCommand(ImportPrefix(modulePrefix), DhcpType, name, Show(GetOr(res, "id", Null)))
      && (Truthy(vpc) ==>
        ls[|ls| - 5..] == AssociationLines(name, vpc)
        && ls[|ls| - 2] == "  dhcp_options_id = " + DhcpType + "." + name + ".id"
        && cmds.value[1] == ImportCommand(ImportPrefix(modulePrefix), DhcpAssocType, name + "_association",
          Show(vpc) + ":" + Show(GetOr(res, "id", Null))))
      && (!Truthy(vpc) ==> ls[|ls| - 1] == "}")
  {
    var d := GetOr(res, "details", Dict([])).entries;
    var vpc := GetOr(d, "vpc_id", Null);
    var name := TaggedName(res, "dhcp").value;
    var options := OptionLines(d).value;
    var tags := TagsBlock(GetOr(res, "tags", List([])), LooseTagLine).value;
    var assoc := if Truthy(vpc) then AssociationLines(name, vpc) else [];
    assert DhcpLines(res).value.value == [Header(DhcpType, name)] + options + tags + ["}"] + assoc;
    BlockThenTail([Header(DhcpType, name)], options, tags, assoc);
  }

  /** A block followed by a tail: the block's first line opens it, and the
      tail follows its closing brace. */
  lemma BlockThenTail(head: seq<string>, a: seq<string>, b: seq<string>, tail: seq<string>)
    requires |head| > 0
    ensures var ls := head + a + b + ["}"] + tail;
      |ls| > |tail| && ls[0] == head[0] && ls[|ls| - |tail|..] == tail && ls[|ls| - |tail| - 1] == "}"
  {
    var ls := head + a + b + ["}"] + tail;
    assert ls[..|ls| - |tail|] == head + a + b + ["}"];
  }
}
