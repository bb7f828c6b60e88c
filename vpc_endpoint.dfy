/** `VPCEndpointGenerator`: the `aws_vpc_endpoint` block, with the settings
    of its endpoint type, its policy, its tags and a fixed `timeouts` block,
    and its import command.  `json.loads` and `json.dumps(..., indent=2)`
    are the parameters `loads` (None when the text is not JSON) and `dumps`.
 */
module VpcEndpoint {
  import opened Py
  import opened HclText
  import opened GeneratorBase

  const ResourceType := "aws_vpc_endpoint"

  /** The `timeouts` block every endpoint ends with. */
  const Timeouts := ["  timeouts {", "    create = \"10m\"", "    update = \"10m\"", "    delete = \"10m\"", "  }"]

  // ------------------------------------------------------------ name

  /** `endpoint_id.split(".")[-1] if "." in endpoint_id else "vpce"` */
  function ServiceOf(endpointId: string): string {
    if Contains(endpointId, ".") then AfterLast(endpointId, '.') else "vpce"
  }

  /** `_generate_resource_name`: the lower-cased `Name` tag with `-` and
      spaces as `_`, else `vpce_`, the service part of the id, `_` and the
      id's last eight characters, lower-cased.  An id that is not a string
      raises. */
  function Name(res: Entries): Outcome<string> {
    var rid := GetOr(res, "id", Str(""));
    var tags :- Iter(GetOr(res, "tags", List([])));
    var nameTag :- FirstNameTag(tags);
    if Truthy(nameTag) then
      var n :- AsStr(nameTag);
      Ok(Lower(Sanitize(n)))
    else
      var i :- AsStr(rid);
      Ok("vpce_" + ServiceOf(i) + "_" + Lower(LastN(i, 8)))
  }

  // ------------------------------------------------------------ policy

  /** `_format_policy`: None for no policy or for text that is not JSON;
      otherwise the document re-encoded. */
  function FormatPolicy(policy: Value, loads: string -> Option<Value>, dumps: Value -> string): Option<string> {
    if !Truthy(policy) then None
    else if policy.Str? then
      match loads(policy.s)
      case None => None
      case Some(document) => Some("jsonencode(" + dumps(document) + ")")
    else Some("jsonencode(" + dumps(policy) + ")")
  }

  // ------------------------------------------------------------ generate

  /** The settings of the endpoint type: subnets, security groups and the
      private DNS flag for an interface endpoint, route tables for a gateway
      endpoint, nothing for any other type. */
  function TypeLines(d: Entries, endpointType: Value): Outcome<seq<string>> {
    if endpointType == Str("Interface") then
      var subnets :- ListSetting(d, "subnet_ids");
      var groups :- ListSetting(d, "security_group_ids");
      Ok(subnets + groups + ["  private_dns_enabled = " + ShowLower(GetOr(d, "private_dns_enabled", Bool(false)))])
    else if endpointType == Str("Gateway") then ListSetting(d, "route_table_ids")
    else Ok([])
  }

  /** The four lines every endpoint starts with. */
  function Opening(name: string, vpc: Value, service: Value, endpointType: Value): seq<string> {
    [Header(ResourceType, name),
     "  vpc_id = \"" + Show(vpc) + "\"",
     "  service_name = \"" + Show(service) + "\"",
     "  vpc_endpoint_type = \"" + Show(endpointType) + "\""]
  }

  /** `auto_accept`, only when the field is not None. */
  function AutoAccept(d: Entries): seq<string> {
    var autoAccept := GetOr(d, "auto_accept", Null);
    When(autoAccept != Null, "  auto_accept = " + ShowLower(autoAccept))
  }

  /** The policy line, when `_format_policy` gives one. */
  function PolicyLine(d: Entries, loads: string -> Option<Value>, dumps: Value -> string): seq<string> {
    match FormatPolicy(GetOr(d, "policy", Null), loads, dumps)
    case None => []
    case Some(p) => ["  policy = " + p]
  }

  /** The lines `generate` joins: None without an id or details; details
      without a VPC, a service name or an endpoint type raise. */
  function Lines(res: Entries, loads: string -> Option<Value>, dumps: Value -> string): Outcome<Option<seq<string>>> {
    var id := GetOr(res, "id", Null);
    var details := GetOr(res, "details", Dict([]));
    if !Truthy(id) || !Truthy(details) then Ok(None)
    else
      var name :- Name(res);
      var vpc :- Item(details, "vpc_id");
      var service :- Item(details, "service_name");
      var endpointType :- Item(details, "vpc_endpoint_type");
      Assemble(Opening(name, vpc, service, endpointType), details.entries, GetOr(res, "tags", List([])), loads, dumps)
  }

  /** The block of an endpoint, after its opening lines. */
  function Assemble(opening: seq<string>, d: Entries, tags: Value, loads: string -> Option<Value>, dumps: Value -> string): Outcome<Option<seq<string>>> {
    var typeLines :- TypeLines(d, GetOr(d, "vpc_endpoint_type", Null));
    var tagLines :- TagsBlock(tags, StrictTagLine);
    Ok(Some(opening + AutoAccept(d) + typeLines + PolicyLine(d, loads, dumps) + tagLines + Timeouts + ["}"]))
  }

  /** `generate` */
  method Generate(res: Entries, loads: string -> Option<Value>, dumps: Value -> string) returns (r: Option<string>)
    ensures r == Render(Lines(res, loads, dumps))
  {
    var id := GetOr(res, "id", Null);
    var details := GetOr(res, "details", Dict([]));
    if !Truthy(id) || !Truthy(details) {
      return None;
    }
    var name := Name(res);
    var vpc := Item(details, "vpc_id");
    var service := Item(details, "service_name");
    var endpointType := Item(details, "vpc_endpoint_type");
    if name.Raised? || vpc.Raised? || service.Raised? || endpointType.Raised? {
      return None;
    }
    var d := details.entries;
    var opening := Opening(name.value, vpc.value, service.value, endpointType.value);
    var hcl := opening;
    var autoAccept := GetOr(d, "auto_accept", Null);
    if autoAccept != Null {
      hcl := hcl + ["  auto_accept = " + ShowLower(autoAccept)];
    }
    assert hcl == opening + AutoAccept(d);
    var typeLines := TypeLines(d, endpointType.value);
    if typeLines.Raised? {
      return None;
    }
    hcl := hcl + typeLines.value;
    var policy := FormatPolicy(GetOr(d, "policy", Null), loads, dumps);
    if policy.Some? {
      hcl := hcl + ["  policy = " + policy.value];
    }
    assert hcl == opening + AutoAccept(d) + typeLines.value + PolicyLine(d, loads, dumps);
    var tags := EmitTags(GetOr(res, "tags", List([])), StrictTagLine);
    if tags.Raised? {
      return None;
    }
    hcl := hcl + tags.value;
    hcl := hcl + Timeouts;
    hcl := hcl + ["}"];
    assert Assemble(opening, d, GetOr(res, "tags", List([])), loads, dumps) == Ok(Some(hcl));
    r := Some(Join("\n", hcl));
  }

  /** `generate_import`: the endpoint is imported by its raw id. */
  function Import(res: Entries, modulePrefix: Option<string>): (r: Option<string>)
    ensures r.Some? <==> Truthy(GetOr(res, "id", Null)) && Name(res).Ok?
  {
    var id := GetOr(res, "id", Null);
    if !Truthy(id) then None
    else match Name(res)
      case Raised => None
      case Ok(name) => Some(ImportCommand(ImportPrefix(modulePrefix), ResourceType, name, Show(id)))
  }

  // ------------------------------------------------------------ lemmas

  /** No endpoint is written without an id or without details. */
  lemma RequiredFields(res: Entries, loads: string -> Option<Value>, dumps: Value -> string)
    ensures Lines(res, loads, dumps) == Ok(None) <==>
      !Truthy(GetOr(res, "id", Null)) || !Truthy(GetOr(res, "details", Dict([])))
  {
  }

  /** A string that contains a one-character string contains that character. */
  lemma {:induction false} ContainsChar(s: string, c: char)
    requires Contains(s, [c])
    ensures c in s
    decreases |s|
  {
    if !StartsWith(s, [c]) {
      ContainsChar(s[1..], c);
    } else {
      assert s[0] == c;
    }
  }

  /** The service part of an untagged endpoint's name never contains `.`:
      it is the text after the id's last `.`, or `vpce` for an id without
      one. */
  lemma ServicePart(endpointId: string)
    ensures var svc := ServiceOf(endpointId);
      '.' !in svc
      && (Contains(endpointId, ".") ==>
        |svc| < |endpointId| && endpointId[|endpointId| - |svc| - 1] == '.'
        && endpointId[|endpointId| - |svc|..] == svc)
      && (!Contains(endpointId, ".") ==> svc == "vpce")
  {
    if Contains(endpointId, ".") {
      ContainsChar(endpointId, '.');
    } else {
      assert ServiceOf(endpointId) == "vpce";
      assert "vpce"[0] != '.' && "vpce"[1] != '.' && "vpce"[2] != '.' && "vpce"[3] != '.';
    }
  }

  /** An untagged endpoint's name ends with the lower-cased last eight
      characters of its id (all of it when shorter). */
  lemma UntaggedNameEnds(res: Entries)
    requires Name(res).Ok?
    requires !Truthy(FirstNameTag(Iter(GetOr(res, "tags", List([]))).value).value)
    ensures var i := GetOr(res, "id", Str("")).s;
      var tail := Lower(LastN(i, 8));
      |tail| == (if |i| < 8 then |i| else 8)
      && Name(res).value == "vpce_" + ServiceOf(i) + "_" + tail
  {
  }

  /** `auto_accept` is written exactly when the field is not None. */
  lemma AutoAcceptWhenSet(d: Entries)
    ensures AutoAccept(d) != [] <==> GetOr(d, "auto_accept", Null) != Null
    ensures GetOr(d, "auto_accept", Null) == Bool(true) ==> AutoAccept(d) == ["  auto_accept = true"]
    ensures GetOr(d, "auto_accept", Null) == Bool(false) ==> AutoAccept(d) == ["  auto_accept = false"]
  {
    ShowLowerBool(true);
    ShowLowerBool(false);
    assert "  auto_accept = " + "true" == "  auto_accept = true";
    assert "  auto_accept = " + "false" == "  auto_accept = false";
  }

  /** An interface endpoint always states its private DNS setting, false by
      default, after at most a subnet line and a security-group line. */
  lemma InterfaceSettings(d: Entries)
    requires TypeLines(d, Str("Interface")).Ok?
    ensures var ls := TypeLines(d, Str("Interface")).value;
      1 <= |ls| <= 3
      && ls[|ls| - 1] == "  private_dns_enabled = " + ShowLower(GetOr(d, "private_dns_enabled", Bool(false)))
      && (!HasKey(d, "private_dns_enabled") ==> ls[|ls| - 1] == "  private_dns_enabled = false")
  {
    ShowLowerBool(false);
  }

  /** A gateway endpoint writes at most its route tables, and any other type
      nothing. */
  lemma GatewaySettings(d: Entries, endpointType: Value)
    requires endpointType != Str("Interface") && TypeLines(d, endpointType).Ok?
    ensures |TypeLines(d, endpointType).value| <= 1
    ensures endpointType != Str("Gateway") ==> TypeLines(d, endpointType).value == []
    ensures endpointType == Str("Gateway") && Truthy(GetOr(d, "route_table_ids", Null)) ==>
      TypeLines(d, endpointType).value == [QuotedList("route_table_ids", GetOr(d, "route_table_ids", Null)).value]
  {
  }

  /** No policy, or policy text that is not JSON, writes no policy line. */
  lemma PolicyOnlyWhenValid(d: Entries, loads: string -> Option<Value>, dumps: Value -> string)
    ensures var policy := GetOr(d, "policy", Null);
      (PolicyLine(d, loads, dumps) == [] <==> !Truthy(policy) || (policy.Str? && loads(policy.s).None?))
      && |PolicyLine(d, loads, dumps)| <= 1
  {
  }

  /** Every endpoint block ends with the fixed `timeouts` block and the
      closing brace, whatever its settings. */
  lemma TimeoutsAlways(opening: seq<string>, d: Entries, tags: Value, loads: string -> Option<Value>, dumps: Value -> string)
    requires Assemble(opening, d, tags, loads, dumps).Ok?
    ensures var ls := Assemble(opening, d, tags, loads, dumps).value.value;
      |ls| >= |opening| + 6 && ls[..|opening|] == opening && ls[|ls| - 6..] == Timeouts + ["}"]
  {
    EndsWithClosing(opening, AutoAccept(d), TypeLines(d, GetOr(d, "vpc_endpoint_type", Null)).value,
      PolicyLine(d, loads, dumps), TagsBlock(tags, StrictTagLine).value, Timeouts);
  }

  /** A block of this shape starts with its opening and ends with `t` and the
      closing brace. */
  lemma EndsWithClosing(opening: seq<string>, a: seq<string>, b: seq<string>, c: seq<string>, e: seq<string>,
                        t: seq<string>)
    ensures var ls := opening + a + b + c + e + t + ["}"];
      |ls| >= |opening| + |t| + 1 && ls[..|opening|] == opening && ls[|ls| - |t| - 1..] == t + ["}"]
  {
    var ls := opening + a + b + c + e + t + ["}"];
    assert ls == opening + (a + b + c + e) + (t + ["}"]);
    assert ls[..|opening|] == opening;
  }

  /** The import command addresses the block `generate` declares. */
  lemma ImportMatchesBlock(res: Entries, loads: string -> Option<Value>, dumps: Value -> string, modulePrefix: Option<string>)
    requires Lines(res, loads, dumps).Ok? && Lines(res, loads, dumps).value.Some?
    ensures Name(res).Ok?
    ensures var name := Name(res).value;
      [Header(ResourceType, name)] <= Lines(res, loads, dumps).value.value
      && Import(res, modulePrefix) == Some(ImportCommand(ImportPrefix(modulePrefix), ResourceType, name, Show(GetOr(res, "id", Null))))
  {
    var details := GetOr(res, "details", Dict([]));
    var opening := Opening(Name(res).value, Item(details, "vpc_id").value, Item(details, "service_name").value,
      Item(details, "vpc_endpoint_type").value);
    TimeoutsAlways(opening, details.entries, GetOr(res, "tags", List([])), loads, dumps);
  }
}
