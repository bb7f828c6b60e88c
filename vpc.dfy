/** `VPCGenerator`: the `aws_vpc` block, followed by one numbered
    `aws_flow_log` block per flow log, and the import commands for both.
 */
module Vpc {
  import opened Py
  import opened HclText
  import opened GeneratorBase
  import Seqs

  const ResourceType := "aws_vpc"
  const FlowLogType := "aws_flow_log"

  /** `_generate_resource_name`: the sanitised, lower-cased `Name` tag, else
      `vpc_{id}`. */
  function Name(res: Entries): Outcome<string> {
    TaggedName(res, "vpc")
  }

  // ------------------------------------------------------------ CIDR blocks

  /** One entry of `_format_cidr_blocks`: a `cidr_block_association` block
      holding whichever of primary, CIDR and tenant are set, or nothing when
      none is. */
  function CidrAssociation(cidr: Value): Outcome<seq<string>> {
    if !cidr.Dict? then Raised
    else
      var c := cidr.entries;
      var primary := GetOr(c, "primary", Bool(false));
      var block := GetOr(c, "cidr_block", Null);
      var tenant := GetOr(c, "tenant_id", Null);
      var lines := When(Truthy(primary), "    primary = " + ShowLower(primary))
        + When(Truthy(block), "    cidr_block = \"" + Show(block) + "\"")
        + When(Truthy(tenant), "    tenant_id = \"" + Show(tenant) + "\"");
      Ok(if lines == [] then [] else ["  cidr_block_association {"] + lines + ["  }"])
  }

  /** `_format_cidr_blocks` */
  function CidrBlocks(cidrs: Value): Outcome<seq<string>> {
    var xs :- Iter(cidrs);
    ConcatMap(xs, CidrAssociation)
  }

  method FormatCidrBlocks(cidrs: Value) returns (r: Outcome<seq<string>>)
    ensures r == CidrBlocks(cidrs)
  {
    r := IterLoop(cidrs, CidrAssociation);
  }

  // ------------------------------------------------------------ the VPC block

  /** One `secondary_cidr_blocks` line per association that is not primary. */
  function SecondaryLine(cidr: Value): Outcome<seq<string>> {
    var primary :- Get(cidr, "primary", Bool(false));
    if Truthy(primary) then Ok([])
    else
      var block :- Item(cidr, "cidr_block");
      Ok(["  secondary_cidr_blocks = [\"" + Show(block) + "\"]"])
  }

  /** Whether an association gets a `secondary_cidr_blocks` line. */
  predicate Secondary(cidr: Value) {
    cidr.Dict? && !Truthy(GetOr(cidr.entries, "primary", Bool(false)))
  }

  /** The lines before the secondary CIDRs: DNS support defaults to true and
      DNS hostnames to false. */
  function Opening(name: string, cidr: Value, d: Entries): seq<string> {
    [Header(ResourceType, name),
     "  cidr_block = \"" + Show(cidr) + "\"",
     "  instance_tenancy = \"" + Show(GetOr(d, "instance_tenancy", Str("default"))) + "\"",
     "  enable_dns_support = " + ShowLower(GetOr(d, "enable_dns_support", Bool(true))),
     "  enable_dns_hostnames = " + ShowLower(GetOr(d, "enable_dns_hostnames", Bool(false)))]
  }

  /** The IPv6 lines, with the association id as a comment. */
  function Ipv6(d: Entries): seq<string> {
    var ipv6 := GetOr(d, "ipv6_cidr_block", Null);
    var association := GetOr(d, "ipv6_association_id", Null);
    if !Truthy(ipv6) then []
    else
      ["  assign_generated_ipv6_cidr_block = true", "  ipv6_cidr_block = \"" + Show(ipv6) + "\""]
        + When(Truthy(association), "  # IPv6 association ID: " + Show(association))
  }

  /** The flags written after the tags, each only when set. */
  function Flags(d: Entries): seq<string> {
    var metrics := GetOr(d, "enable_network_address_usage_metrics", Null);
    var classicLink := GetOr(d, "enable_classiclink", Null);
    var classicLinkDns := GetOr(d, "enable_classiclink_dns_support", Null);
    When(Truthy(metrics), "  enable_network_address_usage_metrics = " + ShowLower(metrics))
      + When(Truthy(classicLink), "  enable_classiclink = " + ShowLower(classicLink))
      + When(Truthy(classicLinkDns), "  enable_classiclink_dns_support = " + ShowLower(classicLinkDns))
  }

  /** The `aws_vpc` block; `details["cidr_block"]` raises when missing. */
  function VpcBlock(name: string, d: Entries, tags: Value): Outcome<seq<string>> {
    var cidr :- Item(Dict(d), "cidr_block");
    var secondary :- ForEach(GetOr(d, "cidr_block_associations", List([])), SecondaryLine);
    var tagLines :- TagsBlock(tags, LooseTagLine);
    Ok(Opening(name, cidr, d) + secondary + Ipv6(d) + tagLines + Flags(d) + ["}"])
  }

  // ------------------------------------------------------------ flow logs

  /** `{name}_flow_log_{n}` */
  function FlowLogName(name: string, n: nat): string {
    name + "_flow_log_" + NatToString(n)
  }

  /** The `n`-th flow log's block, after a blank line. */
  function FlowLogLines(name: string, n: nat, log: Value): Outcome<seq<string>> {
    if !log.Dict? then Raised
    else
      var l := log.entries;
      var destination := GetOr(l, "log_destination", Null);
      var format := GetOr(l, "log_format", Null);
      Ok(["", Header(FlowLogType, FlowLogName(name, n)),
          "  vpc_id = aws_vpc." + name + ".id",
          "  traffic_type = \"" + Show(GetOr(l, "traffic_type", Str("ALL"))) + "\"",
          "  log_destination_type = \"" + Show(GetOr(l, "log_destination_type", Str("cloud-watch-logs"))) + "\""]
        + When(Truthy(destination), "  log_destination = \"" + Show(destination) + "\"")
        + When(Truthy(format), "  log_format = \"" + Show(format) + "\"")
        + ["}"])
  }

  /** The flow-log blocks, numbered from 1. */
  function FlowLogs(name: string, d: Entries): Outcome<seq<string>> {
    var logs := GetOr(d, "flow_logs", List([]));
    if !Truthy(logs) then Ok([])
    else
      var xs :- Iter(logs);
      Enumerate(xs, (n: nat, log: Value) => FlowLogLines(name, n, log))
  }

  // ------------------------------------------------------------ generate

  /** The lines `generate` joins: None without an id or details, and for the
      default VPC unless `includeDefault`. */
  function Lines(res: Entries, includeDefault: bool): Outcome<Option<seq<string>>> {
    var id := GetOr(res, "id", Null);
    var details := GetOr(res, "details", Dict([]));
    if !Truthy(id) || !Truthy(details) then Ok(None)
    else
      var isDefault :- Get(details, "is_default", Bool(false));
      if Truthy(isDefault) && !includeDefault then Ok(None)
      else
        var name :- Name(res);
        Assemble(name, details.entries, GetOr(res, "tags", List([])))
  }

  /** The VPC block followed by its flow logs. */
  function Assemble(name: string, d: Entries, tags: Value): Outcome<Option<seq<string>>> {
    var block :- VpcBlock(name, d, tags);
    var logs :- FlowLogs(name, d);
    Ok(Some(block + logs))
  }

  /** The `aws_vpc` block, as `generate` appends it. */
  method EmitVpcBlock(name: string, d: Entries, tags: Value) returns (r: Outcome<seq<string>>)
    ensures r == VpcBlock(name, d, tags)
  {
    var cidr := Item(Dict(d), "cidr_block");
    if cidr.Raised? {
      return Raised;
    }
    var hcl := Opening(name, cidr.value, d);
    var secondaryCidrs := GetOr(d, "cidr_block_associations", List([]));
    var secondary: seq<string> := [];
    if Truthy(secondaryCidrs) {
      var more := IterLoop(secondaryCidrs, SecondaryLine);
      if more.Raised? {
        return Raised;
      }
      secondary := more.value;
    }
    assert ForEach(secondaryCidrs, SecondaryLine) == Ok(secondary);
    hcl := hcl + secondary + Ipv6(d);
    var tagLines := EmitTags(tags, LooseTagLine);
    if tagLines.Raised? {
      return Raised;
    }
    hcl := hcl + tagLines.value + Flags(d) + ["}"];
    return Ok(hcl);
  }

  /** `generate` */
  method Generate(res: Entries, includeDefault: bool) returns (r: Option<string>)
    ensures r == Render(Lines(res, includeDefault))
  {
    var id := GetOr(res, "id", Null);
    var details := GetOr(res, "details", Dict([]));
    if !Truthy(id) || !Truthy(details) {
      return None;
    }
    if !details.Dict? {
      return None;
    }
    var d := details.entries;
    if Truthy(GetOr(d, "is_default", Bool(false))) && !includeDefault {
      return None;
    }
    var name := Name(res);
    if name.Raised? {
      return None;
    }
    var hcl := EmitVpcBlock(name.value, d, GetOr(res, "tags", List([])));
    if hcl.Raised? {
      return None;
    }
    var lines := hcl.value;
    var logs := GetOr(d, "flow_logs", List([]));
    if Truthy(logs) {
      var xs := Iter(logs);
      if xs.Raised? {
        return None;
      }
      var name' := name.value;
      var blocks := EnumerateLoop(xs.value, (n: nat, log: Value) => FlowLogLines(name', n, log));
      if blocks.Raised? {
        return None;
      }
      lines := lines + blocks.value;
    } else {
      assert lines == lines + [];
    }
    assert Assemble(name.value, d, GetOr(res, "tags", List([]))) == Ok(Some(lines));
    r := Some(Join("\n", lines));
  }

  // ------------------------------------------------------------ generate_import

  /** The import command of the `n`-th flow log, when it has an id. */
  function FlowLogImport(prefix: string, name: string, n: nat, log: Value): (r: Outcome<seq<string>>)
    ensures r.Ok? <==> log.Dict?
    ensures r.Ok? ==> (r.value == [] <==> !HasLogId(log))
    ensures r.Ok? && HasLogId(log) ==>
      r.value == [ImportCommand(prefix, FlowLogType, FlowLogName(name, n), Show(GetOr(log.entries, "id", Null)))]
  {
    var logId :- Get(log, "id", Null);
    Ok(When(Truthy(logId), ImportCommand(prefix, FlowLogType, FlowLogName(name, n), Show(logId))))
  }

  /** Whether a flow log gets an import command. */
  predicate HasLogId(log: Value) {
    log.Dict? && Truthy(GetOr(log.entries, "id", Null))
  }

  /** The flow-log import commands, numbered as `generate` numbers the blocks. */
  function FlowLogImports(prefix: string, name: string, logs: Value): (r: Outcome<seq<string>>)
    ensures !Truthy(logs) ==> r == Ok([])
    ensures logs.List? && r.Ok? ==> |r.value| == |Seqs.Filter(logs.items, HasLogId)|
  {
    if !Truthy(logs) then Ok([])
    else
      var xs :- Iter(logs);
      var cmds := Enumerate(xs, (n: nat, log: Value) => FlowLogImport(prefix, name, n, log));
      if cmds.Ok? then
        ImportsPerLoggedId(prefix, name, xs);
        cmds
      else cmds
  }

  /** The commands `generate_import` joins: the VPC, then its flow logs.  It
      needs only an id; details that are not a dict make `get` raise. */
  function ImportLines(res: Entries, modulePrefix: Option<string>): Outcome<Option<seq<string>>> {
    var id := GetOr(res, "id", Null);
    if !Truthy(id) then Ok(None)
    else
      var name :- Name(res);
      var prefix := ImportPrefix(modulePrefix);
      var logs :- Get(GetOr(res, "details", Dict([])), "flow_logs", List([]));
      var cmds :- FlowLogImports(prefix, name, logs);
      Ok(Some([ImportCommand(prefix, ResourceType, name, Show(id))] + cmds))
  }

  /** `generate_import` */
  method GenerateImport(res: Entries, modulePrefix: Option<string>) returns (r: Option<string>)
    ensures r == Render(ImportLines(res, modulePrefix))
  {
    var id := GetOr(res, "id", Null);
    if !Truthy(id) {
      return None;
    }
    var name := Name(res);
    if name.Raised? {
      return None;
    }
    var prefix := ImportPrefix(modulePrefix);
    var commands := [ImportCommand(prefix, ResourceType, name.value, Show(id))];
    var details := GetOr(res, "details", Dict([]));
    if !details.Dict? {
      return None;
    }
    var logs := GetOr(details.entries, "flow_logs", List([]));
    var cmds: seq<string> := [];
    if Truthy(logs) {
      var xs := Iter(logs);
      if xs.Raised? {
        return None;
      }
      var name' := name.value;
      var more := EnumerateLoop(xs.value, (n: nat, log: Value) => FlowLogImport(prefix, name', n, log));
      if more.Raised? {
        return None;
      }
      cmds := more.value;
    }
    assert FlowLogImports(prefix, name.value, logs) == Ok(cmds);
    commands := commands + cmds;
    r := Some(Join("\n", commands));
  }

  // ------------------------------------------------------------ lemmas

  /** A VPC without an id or details is not written; with dict details, the
      default VPC is written only when asked for. */
  lemma RequiredFields(res: Entries, includeDefault: bool)
    ensures !Truthy(GetOr(res, "id", Null)) || !Truthy(GetOr(res, "details", Dict([]))) ==>
      Lines(res, includeDefault) == Ok(None)
    ensures var details := GetOr(res, "details", Dict([]));
      Truthy(GetOr(res, "id", Null)) && details.Dict? && details.entries != []
      && Truthy(GetOr(details.entries, "is_default", Bool(false))) ==>
        (Lines(res, includeDefault) == Ok(None) <==> !includeDefault)
  {
  }

  /** Both DNS settings are always written; left unset, support is `true` and
      hostnames `false`. */
  lemma DnsSettings(name: string, cidr: Value, d: Entries)
    ensures var o := Opening(name, cidr, d);
      |o| == 5
      && o[3] == "  enable_dns_support = " + ShowLower(GetOr(d, "enable_dns_support", Bool(true)))
      && o[4] == "  enable_dns_hostnames = " + ShowLower(GetOr(d, "enable_dns_hostnames", Bool(false)))
    ensures !HasKey(d, "enable_dns_support") && !HasKey(d, "enable_dns_hostnames") ==>
      var o := Opening(name, cidr, d);
      o[3] == "  enable_dns_support = true" && o[4] == "  enable_dns_hostnames = false"
  {
    ShowLowerBool(true);
    ShowLowerBool(false);
  }

  /** Every association that is not primary gets its own line, in order, and
      a primary one none. */
  lemma {:induction false} SecondaryPerAssociation(cidrs: seq<Value>)
    requires ConcatMap(cidrs, SecondaryLine).Ok?
    ensures |ConcatMap(cidrs, SecondaryLine).value| == |Seqs.Filter(cidrs, Secondary)|
    decreases |cidrs|
  {
    if cidrs != [] {
      SecondaryPerAssociation(cidrs[..|cidrs| - 1]);
    }
  }

  /** An association with none of primary, CIDR and tenant set contributes
      nothing; any other is one bracketed block. */
  lemma CidrAssociationShape(cidr: Value)
    requires CidrAssociation(cidr).Ok?
    ensures var c := cidr.entries;
      var anySet := Truthy(GetOr(c, "primary", Bool(false))) || Truthy(GetOr(c, "cidr_block", Null))
        || Truthy(GetOr(c, "tenant_id", Null));
      var ls := CidrAssociation(cidr).value;
      (!anySet <==> ls == [])
      && (anySet ==> 3 <= |ls| <= 5 && ls[0] == "  cidr_block_association {" && ls[|ls| - 1] == "  }")
  {
  }

  /** The `n`-th flow log's block is declared as `{name}_flow_log_{n}` and
      attached to the VPC of that name. */
  lemma FlowLogBlockShape(name: string, n: nat, log: Value)
    requires FlowLogLines(name, n, log).Ok?
    ensures var ls := FlowLogLines(name, n, log).value;
      6 <= |ls| <= 8 && ls[0] == "" && ls[1] == Header(FlowLogType, FlowLogName(name, n))
      && ls[2] == "  vpc_id = aws_vpc." + name + ".id" && ls[|ls| - 1] == "}"
  {
  }

  /** Only flow logs with an id get an import command, one each. */
  lemma {:induction false} ImportsPerLoggedId(prefix: string, name: string, logs: seq<Value>)
    requires Enumerate(logs, (n: nat, log: Value) => FlowLogImport(prefix, name, n, log)).Ok?
    ensures |Enumerate(logs, (n: nat, log: Value) => FlowLogImport(prefix, name, n, log)).value|
      == |Seqs.Filter(logs, HasLogId)|
    decreases |logs|
  {
    if logs != [] {
      ImportsPerLoggedId(prefix, name, logs[..|logs| - 1]);
    }
  }

  /** The `i`-th flow log (counting from 0) is written as block `i + 1`. */
  lemma FlowLogInBlock(name: string, d: Entries, tags: Value, i: nat)
    requires Assemble(name, d, tags).Ok?
    requires var logs := GetOr(d, "flow_logs", List([])); logs.List? && i < |logs.items|
    ensures Header(FlowLogType, FlowLogName(name, i + 1)) in Assemble(name, d, tags).value.value
  {
    var logs := GetOr(d, "flow_logs", List([])).items;
    var fl := (n: nat, log: Value) => FlowLogLines(name, n, log);
    var block := VpcBlock(name, d, tags).value;
    assert Iter(List(logs)) == Ok(logs);
    assert FlowLogs(name, d) == Enumerate(logs, fl);
    var header := Header(FlowLogType, FlowLogName(name, i + 1));
    EnumerateContains(logs, fl, i, header);
    FlowLogBlockShape(name, i + 1, logs[i]);
    assert header in fl(i + 1, logs[i]).value;
    assert Assemble(name, d, tags).value.value == block + Enumerate(logs, fl).value;
  }

  /** The `i`-th flow log, when it has an id, is imported as block `i + 1`. */
  lemma FlowLogImportIn(prefix: string, name: string, logs: seq<Value>, i: nat)
    requires FlowLogImports(prefix, name, List(logs)).Ok?
    requires i < |logs| && HasLogId(logs[i])
    ensures ImportCommand(prefix, FlowLogType, FlowLogName(name, i + 1), Show(GetOr(logs[i].entries, "id", Null)))
      in FlowLogImports(prefix, name, List(logs)).value
  {
    var fi := (n: nat, log: Value) => FlowLogImport(prefix, name, n, log);
    assert Iter(List(logs)) == Ok(logs);
    assert FlowLogImports(prefix, name, List(logs)) == Enumerate(logs, fi);
    var cmd := ImportCommand(prefix, FlowLogType, FlowLogName(name, i + 1), Show(GetOr(logs[i].entries, "id", Null)));
    EnumerateContains(logs, fi, i, cmd);
    assert fi(i + 1, logs[i]).value == [cmd];
  }

  /** The import command of the `i`-th flow log (counting from 0) addresses
      the block `generate` writes for it: both number it `i + 1`, under the
      same VPC name. */
  lemma FlowLogImportMatchesBlock(res: Entries, includeDefault: bool, modulePrefix: Option<string>, i: nat)
    requires Lines(res, includeDefault).Ok? && Lines(res, includeDefault).value.Some?
    requires ImportLines(res, modulePrefix).Ok? && Name(res).Ok?
    requires var logs := GetOr(GetOr(res, "details", Dict([])).entries, "flow_logs", List([]));
      logs.List? && i < |logs.items| && HasLogId(logs.items[i])
    ensures var logs := GetOr(GetOr(res, "details", Dict([])).entries, "flow_logs", List([])).items;
      var name := FlowLogName(Name(res).value, i + 1);
      Header(FlowLogType, name) in Lines(res, includeDefault).value.value
      && ImportCommand(ImportPrefix(modulePrefix), FlowLogType, name, Show(GetOr(logs[i].entries, "id", Null)))
        in ImportLines(res, modulePrefix).value.value
  {
    var d := GetOr(res, "details", Dict([])).entries;
    var logs := GetOr(d, "flow_logs", List([])).items;
    var name := Name(res).value;
    var prefix := ImportPrefix(modulePrefix);
    var tags := GetOr(res, "tags", List([]));
    assert Lines(res, includeDefault) == Assemble(name, d, tags);
    FlowLogInBlock(name, d, tags, i);
    assert ImportLines(res, modulePrefix).value.value
      == [ImportCommand(prefix, ResourceType, name, Show(GetOr(res, "id", Null)))] + FlowLogImports(prefix, name, List(logs)).value;
    FlowLogImportIn(prefix, name, logs, i);
  }

  /** The VPC's own import command addresses the block `generate` declares. */
  lemma ImportMatchesBlock(res: Entries, includeDefault: bool, modulePrefix: Option<string>)
    requires Lines(res, includeDefault).Ok? && Lines(res, includeDefault).value.Some?
    requires ImportLines(res, modulePrefix).Ok? && Name(res).Ok?
    ensures ImportLines(res, modulePrefix).value.Some?
    ensures var name := Name(res).value;
      var ls := Lines(res, includeDefault).value.value;
      var cmds := ImportLines(res, modulePrefix).value.value;
      |ls| > 0 && ls[0] == Header(ResourceType, name)
      && |cmds| > 0 && cmds[0] == ImportCommand(ImportPrefix(modulePrefix), ResourceType, name, Show(GetOr(res, "id", Null)))
  {
    var d := GetOr(res, "details", Dict([])).entries;
    var name := Name(res).value;
    var tags := GetOr(res, "tags", List([]));
    assert Lines(res, includeDefault) == Assemble(name, d, tags);
    BlockOpens(name, d, tags);
  }

  /** The block opens with the VPC's header. */
  lemma BlockOpens(name: string, d: Entries, tags: Value)
    requires Assemble(name, d, tags).Ok?
    ensures Assemble(name, d, tags).value.Some?
    ensures var ls := Assemble(name, d, tags).value.value;
      |ls| > 0 && ls[0] == Header(ResourceType, name)
  {
    var cidr := Item(Dict(d), "cidr_block").value;
    var secondary := ForEach(GetOr(d, "cidr_block_associations", List([])), SecondaryLine).value;
    var tagLines := TagsBlock(tags, LooseTagLine).value;
    var block := VpcBlock(name, d, tags).value;
    assert block == Opening(name, cidr, d) + secondary + Ipv6(d) + tagLines + Flags(d) + ["}"];
    FirstLine(Opening(name, cidr, d), secondary, Ipv6(d), tagLines, Flags(d), FlowLogs(name, d).value);
  }

  /** A block of this shape, followed by anything, starts with its opening's
      first line. */
  lemma FirstLine(opening: seq<string>, a: seq<string>, b: seq<string>, c: seq<string>, e: seq<string>,
                  rest: seq<string>)
    requires |opening| > 0
    ensures (opening + a + b + c + e + ["}"] + rest)[0] == opening[0]
  {
    assert opening + a + b + c + e + ["}"] + rest == opening + (a + b + c + e + ["}"] + rest);
  }
}
