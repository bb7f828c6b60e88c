/** `InternetGatewayGenerator` and `NATGatewayGenerator`: the
    `aws_internet_gateway` and `aws_nat_gateway` blocks and their import
    commands.  Both name the resource after its `Name` tag, else after its
    id (`igw_...`, `nat_...`).
 */
module NatGateway {
  import opened Py
  import opened HclText
  import opened GeneratorBase

  const IgwType := "aws_internet_gateway"
  const NatType := "aws_nat_gateway"

  /** The comment written above a public gateway's allocation. */
  const AllocationNote := "  # Note: You may want to manage the allocation_id separately using aws_eip"

  // ------------------------------------------------------------ internet gateway

  /** `InternetGatewayGenerator._generate_resource_name` */
  function IgwName(res: Entries): Outcome<string> {
    TaggedName(res, "igw")
  }

  /** `vpc_attachments and vpc_attachments[0].get("state") == "available"`:
      the first attachment, when it is available. */
  predicate Available(attachments: Value) {
    attachments.List? && attachments.items != [] && attachments.items[0].Dict?
    && GetOr(attachments.items[0].entries, "state", Null) == Str("available")
  }

  /** The `vpc_id` line: only for an available first attachment.  Indexing
      an attachment list that is not a list, or reading a first attachment
      that is not a dict or has no `vpc_id`, raises. */
  function VpcLine(details: Value): Outcome<seq<string>> {
    var attachments :- Get(details, "vpc_attachments", List([]));
    if !Truthy(attachments) then Ok([])
    else if !attachments.List? then Raised
    else
      var state :- Get(attachments.items[0], "state", Null);
      if state != Str("available") then Ok([])
      else
        var vpc :- Item(attachments.items[0], "vpc_id");
        Ok(["  vpc_id = \"" + Show(vpc) + "\""])
  }

  /** The lines `InternetGatewayGenerator.generate` joins: None only without
      an id; the details are optional. */
  function IgwLines(res: Entries): Outcome<Option<seq<string>>> {
    var id := GetOr(res, "id", Null);
    if !Truthy(id) then Ok(None)
    else
      var name :- IgwName(res);
      IgwBlock(name, GetOr(res, "details", Dict([])), GetOr(res, "tags", List([])))
  }

  /** The block of an internet gateway that has an id. */
  function IgwBlock(name: string, details: Value, tags: Value): Outcome<Option<seq<string>>> {
    var vpc :- VpcLine(details);
    var tagLines :- TagsBlock(tags, LooseTagLine);
    Ok(Some([Header(IgwType, name)] + vpc + tagLines + ["}"]))
  }

  /** `InternetGatewayGenerator.generate` */
  method GenerateIgw(res: Entries) returns (r: Option<string>)
    ensures r == Render(IgwLines(res))
  {
    var id := GetOr(res, "id", Null);
    if !Truthy(id) {
      return None;
    }
    var name := IgwName(res);
    if name.Raised? {
      return None;
    }
    var hcl := [Header(IgwType, name.value)];
    var details := GetOr(res, "details", Dict([]));
    var vpc := VpcLine(details);
    if vpc.Raised? {
      return None;
    }
    hcl := hcl + vpc.value;
    var tags := EmitTags(GetOr(res, "tags", List([])), LooseTagLine);
    if tags.Raised? {
      return None;
    }
    hcl := hcl + tags.value + ["}"];
    assert IgwBlock(name.value, details, GetOr(res, "tags", List([]))) == Ok(Some(hcl));
    r := Some(Join("\n", hcl));
  }

  /** `InternetGatewayGenerator.generate_import`: the gateway is imported by
      its raw id. */
  function IgwImport(res: Entries, modulePrefix: Option<string>): (r: Option<string>)
    ensures r.Some? <==> Truthy(GetOr(res, "id", Null)) && IgwName(res).Ok?
  {
    var id := GetOr(res, "id", Null);
    if !Truthy(id) then None
    else match IgwName(res)
      case Raised => None
      case Ok(name) => Some(ImportCommand(ImportPrefix(modulePrefix), IgwType, name, Show(id)))
  }

  // ------------------------------------------------------------ NAT gateway

  /** `NATGatewayGenerator._generate_resource_name` */
  function NatName(res: Entries): Outcome<string> {
    TaggedName(res, "nat")
  }

  /** The connectivity lines: the type when it is not public; for a public
      gateway, the note and the allocation id (default ""). */
  function ConnectivityLines(d: Entries): seq<string> {
    var connectivity := GetOr(d, "connectivity_type", Str("public"));
    When(connectivity != Str("public"), "  connectivity_type = \"" + Show(connectivity) + "\"")
      + (if connectivity == Str("public")
         then [AllocationNote, "  allocation_id = \"" + Show(GetOr(d, "elastic_ip_allocation_id", Str(""))) + "\""]
         else [])
  }

  /** The lines `NATGatewayGenerator.generate` joins: None without an id or
      details; details without `subnet_id` raise. */
  function NatLines(res: Entries): Outcome<Option<seq<string>>> {
    var id := GetOr(res, "id", Null);
    var details := GetOr(res, "details", Dict([]));
    if !Truthy(id) || !Truthy(details) then Ok(None)
    else
      var name :- NatName(res);
      var subnet :- Item(details, "subnet_id");
      NatBlock(name, subnet, details.entries, GetOr(res, "tags", List([])))
  }

  /** The block of a NAT gateway that has an id, details and a subnet. */
  function NatBlock(name: string, subnet: Value, d: Entries, tags: Value): Outcome<Option<seq<string>>> {
    var tagLines :- TagsBlock(tags, LooseTagLine);
    Ok(Some([Header(NatType, name), "  subnet_id = \"" + Show(subnet) + "\""]
      + ConnectivityLines(d) + tagLines + ["}"]))
  }

  /** `NATGatewayGenerator.generate` */
  method GenerateNat(res: Entries) returns (r: Option<string>)
    ensures r == Render(NatLines(res))
  {
    var id := GetOr(res, "id", Null);
    var details := GetOr(res, "details", Dict([]));
    if !Truthy(id) || !Truthy(details) {
      return None;
    }
    var name := NatName(res);
    if name.Raised? {
      return None;
    }
    var subnet := Item(details, "subnet_id");
    if subnet.Raised? {
      return None;
    }
    var d := details.entries;
    var hcl := [Header(NatType, name.value), "  subnet_id = \"" + Show(subnet.value) + "\""];
    var connectivity := GetOr(d, "connectivity_type", Str("public"));
    if connectivity != Str("public") {
      hcl := hcl + ["  connectivity_type = \"" + Show(connectivity) + "\""];
    }
    if connectivity == Str("public") {
      hcl := hcl + [AllocationNote];
      hcl := hcl + ["  allocation_id = \"" + Show(GetOr(d, "elastic_ip_allocation_id", Str(""))) + "\""];
    }
    assert hcl == [Header(NatType, name.value), "  subnet_id = \"" + Show(subnet.value) + "\""] + ConnectivityLines(d);
    var tags := EmitTags(GetOr(res, "tags", List([])), LooseTagLine);
    if tags.Raised? {
      return None;
    }
    hcl := hcl + tags.value + ["}"];
    assert NatBlock(name.value, subnet.value, d, GetOr(res, "tags", List([]))) == Ok(Some(hcl));
    r := Some(Join("\n", hcl));
  }

  /** `NATGatewayGenerator.generate_import`: the gateway is imported by its
      raw id. */
  function NatImport(res: Entries, modulePrefix: Option<string>): (r: Option<string>)
    ensures r.Some? <==> Truthy(GetOr(res, "id", Null)) && NatName(res).Ok?
  {
    var id := GetOr(res, "id", Null);
    if !Truthy(id) then None
    else match NatName(res)
      case Raised => None
      case Ok(name) => Some(ImportCommand(ImportPrefix(modulePrefix), NatType, name, Show(id)))
  }

  // ------------------------------------------------------------ lemmas

  /** An internet gateway needs only its id: it is left out exactly when the
      id is missing, and written (when nothing raises) without details. */
  lemma IgwRequiredFields(res: Entries)
    ensures IgwLines(res) == Ok(None) <==> !Truthy(GetOr(res, "id", Null))
    ensures Truthy(GetOr(res, "id", Null)) && !HasKey(res, "details") && IgwName(res).Ok?
      ==> (TagsBlock(GetOr(res, "tags", List([])), LooseTagLine).Ok? <==> IgwLines(res).Ok?)
  {
    var details := GetOr(res, "details", Dict([]));
    if !HasKey(res, "details") {
      assert details == Dict([]);
      assert VpcLine(details) == Ok([]);
    }
  }

  /** The `vpc_id` line is written exactly when the first attachment is
      available, and names that attachment's VPC. */
  lemma VpcOnlyWhenAvailable(details: Value)
    requires VpcLine(details).Ok?
    ensures var attachments := GetOr(details.entries, "vpc_attachments", List([]));
      (VpcLine(details).value != [] <==> Available(attachments))
      && (Available(attachments) ==>
        VpcLine(details).value == ["  vpc_id = \"" + Show(GetOr(attachments.items[0].entries, "vpc_id", Null)) + "\""])
  {
  }

  /** A NAT gateway is left out exactly when its id or its details are
      missing. */
  lemma NatRequiredFields(res: Entries)
    ensures NatLines(res) == Ok(None) <==>
      !Truthy(GetOr(res, "id", Null)) || !Truthy(GetOr(res, "details", Dict([])))
  {
    var id := GetOr(res, "id", Null);
    var details := GetOr(res, "details", Dict([]));
    if Truthy(id) && Truthy(details) && NatName(res).Ok? && Item(details, "subnet_id").Ok? {
      var block := NatBlock(NatName(res).value, Item(details, "subnet_id").value, details.entries, GetOr(res, "tags", List([])));
      assert block.Ok? ==> block.value.Some?;
    }
  }

  /** A gateway whose connectivity type is not given is public: it gets the
      note and the allocation id, which defaults to "". */
  lemma DefaultIsPublic(d: Entries)
    requires !HasKey(d, "connectivity_type")
    ensures ConnectivityLines(d)
      == [AllocationNote, "  allocation_id = \"" + Show(GetOr(d, "elastic_ip_allocation_id", Str(""))) + "\""]
    ensures !HasKey(d, "elastic_ip_allocation_id") ==>
      ConnectivityLines(d) == [AllocationNote, "  allocation_id = \"\""]
  {
    var none: seq<string> := [];
    assert When(false, "  connectivity_type = \"public\"") == none;
    assert none + [AllocationNote, "  allocation_id = \"" + Show(GetOr(d, "elastic_ip_allocation_id", Str(""))) + "\""]
      == [AllocationNote, "  allocation_id = \"" + Show(GetOr(d, "elastic_ip_allocation_id", Str(""))) + "\""];
    assert "  allocation_id = \"" + Show(Str("")) + "\"" == "  allocation_id = \"\"";
  }

  /** A gateway that is not public gets its connectivity type and neither the
      note nor an allocation id. */
  lemma PrivateHasNoAllocation(d: Entries)
    requires GetOr(d, "connectivity_type", Str("public")) != Str("public")
    ensures ConnectivityLines(d)
      == ["  connectivity_type = \"" + Show(GetOr(d, "connectivity_type", Str("public"))) + "\""]
  {
    var ct := GetOr(d, "connectivity_type", Str("public"));
    var line := "  connectivity_type = \"" + Show(ct) + "\"";
    var none: seq<string> := [];
    assert ConnectivityLines(d) == [line] + none;
    assert [line] + none == [line];
  }

  /** The internet gateway's import command addresses the block `generate`
      declares and imports it by its id. */
  lemma IgwImportMatchesBlock(res: Entries, modulePrefix: Option<string>)
    requires IgwLines(res).Ok? && IgwLines(res).value.Some?
    ensures IgwName(res).Ok?
    ensures var name := IgwName(res).value;
      [Header(IgwType, name)] <= IgwLines(res).value.value
      && IgwImport(res, modulePrefix) == Some(ImportCommand(ImportPrefix(modulePrefix), IgwType, name, Show(GetOr(res, "id", Null))))
  {
  }

  /** The NAT gateway's import command addresses the block `generate`
      declares and imports it by its id. */
  lemma NatImportMatchesBlock(res: Entries, modulePrefix: Option<string>)
    requires NatLines(res).Ok? && NatLines(res).value.Some?
    ensures NatName(res).Ok?
    ensures var name := NatName(res).value;
      [Header(NatType, name)] <= NatLines(res).value.value
      && NatImport(res, modulePrefix) == Some(ImportCommand(ImportPrefix(modulePrefix), NatType, name, Show(GetOr(res, "id", Null))))
  {
  }
}
