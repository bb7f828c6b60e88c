/** `SubnetGenerator`: the `aws_subnet` block and its import command. */
module Subnet {
  import opened Py
  import opened HclText
  import opened GeneratorBase

  const ResourceType := "aws_subnet"

  /** `_generate_resource_name`: the sanitised, lower-cased `Name` tag, else
      `subnet_` and the id. */
  function Name(res: Entries): Outcome<string> {
    TaggedName(res, "subnet")
  }

  /** The header and the three required settings. */
  function Opening(name: string, vpc: Value, cidr: Value, zone: Value): seq<string> {
    [Header(ResourceType, name), QuotedSetting("vpc_id", vpc), QuotedSetting("cidr_block", cidr),
     QuotedSetting("availability_zone", zone)]
  }

  /** The IPv6 block and its address assignment, together or not at all. */
  function Ipv6Lines(ipv6: Value, assign: Value): seq<string> {
    if Truthy(ipv6) then [QuotedSetting("ipv6_cidr_block", ipv6), BoolSetting("assign_ipv6_address_on_creation", assign)]
    else []
  }

  /** `map_public_ip_on_launch`, written for every subnet. */
  function PublicIpLine(public: Value): string {
    BoolSetting("map_public_ip_on_launch", public)
  }

  /** `enable_dns64`, only when truthy. */
  function Dns64Lines(dns64: Value): seq<string> {
    When(Truthy(dns64), BoolSetting("enable_dns64", dns64))
  }

  /** The customer-owned pool and its launch mapping, together or not at all. */
  function PoolLines(pool: Value, mapOnLaunch: Value): seq<string> {
    if Truthy(pool) then
      [QuotedSetting("customer_owned_ipv4_pool", pool), BoolSetting("map_customer_owned_ip_on_launch", mapOnLaunch)]
    else []
  }

  /** The settings after the required ones, in `generate`'s order, read from
      the details with their defaults (false for the three flags). */
  function Settings(d: Entries): seq<string> {
    Ipv6Lines(GetOr(d, "ipv6_cidr_block", Null), GetOr(d, "assign_ipv6_address_on_creation", Bool(false)))
      + [PublicIpLine(GetOr(d, "map_public_ip_on_launch", Bool(false)))]
      + Dns64Lines(GetOr(d, "enable_dns64", Null))
      + PoolLines(GetOr(d, "customer_owned_ipv4_pool", Null), GetOr(d, "map_customer_owned_ip_on_launch", Bool(false)))
  }

  /** The block from its parts. */
  function Assemble(opening: seq<string>, d: Entries, tags: seq<string>): seq<string> {
    opening + Settings(d) + tags + ["}"]
  }

  /** The lines `generate` joins: None without an id or details; details
      missing a required key raise. */
  function Lines(res: Entries): Outcome<Option<seq<string>>> {
    var id := GetOr(res, "id", Null);
    var details := GetOr(res, "details", Dict([]));
    if !Truthy(id) || !Truthy(details) then Ok(None)
    else
      var name :- Name(res);
      var vpc :- Item(details, "vpc_id");
      var cidr :- Item(details, "cidr_block");
      var zone :- Item(details, "availability_zone");
      var tags :- TagsBlock(GetOr(res, "tags", List([])), LooseTagLine);
      Ok(Some(Assemble(Opening(name, vpc, cidr, zone), details.entries, tags)))
  }

  /** The optional settings, appended one by one. */
  method EmitSettings(d: Entries) returns (hcl: seq<string>)
    ensures hcl == Settings(d)
  {
    var ipv6 := GetOr(d, "ipv6_cidr_block", Null);
    var assign := GetOr(d, "assign_ipv6_address_on_creation", Bool(false));
    var public := GetOr(d, "map_public_ip_on_launch", Bool(false));
    var dns64 := GetOr(d, "enable_dns64", Null);
    var pool := GetOr(d, "customer_owned_ipv4_pool", Null);
    var mapOnLaunch := GetOr(d, "map_customer_owned_ip_on_launch", Bool(false));
    hcl := [];
    if Truthy(ipv6) {
      hcl := hcl + [QuotedSetting("ipv6_cidr_block", ipv6)];
      hcl := hcl + [BoolSetting("assign_ipv6_address_on_creation", assign)];
    }
    assert hcl == Ipv6Lines(ipv6, assign);
    hcl := hcl + [PublicIpLine(public)];
    if Truthy(dns64) {
      hcl := hcl + [BoolSetting("enable_dns64", dns64)];
    }
    assert hcl == Ipv6Lines(ipv6, assign) + [PublicIpLine(public)] + Dns64Lines(dns64);
    ghost var before := hcl;
    if Truthy(pool) {
      hcl := hcl + [QuotedSetting("customer_owned_ipv4_pool", pool)];
      hcl := hcl + [BoolSetting("map_customer_owned_ip_on_launch", mapOnLaunch)];
    }
    assert hcl == before + PoolLines(pool, mapOnLaunch);
  }

  /** `generate` */
  method Generate(res: Entries) returns (r: Option<string>)
    ensures r == Render(Lines(res))
  {
    var id := GetOr(res, "id", Null);
    var details := GetOr(res, "details", Dict([]));
    if !Truthy(id) || !Truthy(details) {
      return None;
    }
    var name := Name(res);
    if name.Raised? {
      return None;
    }
    var vpc := Item(details, "vpc_id");
    var cidr := Item(details, "cidr_block");
    var zone := Item(details, "availability_zone");
    if vpc.Raised? || cidr.Raised? || zone.Raised? {
      return None;
    }
    var opening := Opening(name.value, vpc.value, cidr.value, zone.value);
    var settings := EmitSettings(details.entries);
    var hcl := opening + settings;
    var tags := EmitTags(GetOr(res, "tags", List([])), LooseTagLine);
    if tags.Raised? {
      return None;
    }
    hcl := hcl + tags.value + ["}"];
    assert hcl == Assemble(opening, details.entries, tags.value);
    r := Some(Join("\n", hcl));
  }

  /** `generate_import`: the subnet is imported by its id. */
  function Import(res: Entries, modulePrefix: Option<string>): (r: Option<string>)
    ensures r.Some? <==> Truthy(GetOr(res, "id", Null)) && Name(res).Ok?
  {
    var id := GetOr(res, "id", Null);
    if !Truthy(id) then None
    else match Name(res)
      case Raised => None
      case Ok(name) => Some(ImportCommand(ImportPrefix(modulePrefix), ResourceType, name, Show(id)))
  }

  // ------------------------------------------------------------ lemmas

  /** A subnet is left out exactly when its id or its details are missing. */
  lemma RequiredFields(res: Entries)
    ensures Lines(res) == Ok(None) <==> !Truthy(GetOr(res, "id", Null)) || !Truthy(GetOr(res, "details", Dict([])))
  {
  }

  /** Details without a VPC, a CIDR block or an availability zone make
      `generate` raise. */
  lemma MissingRequiredRaises(res: Entries, key: string)
    requires Truthy(GetOr(res, "id", Null)) && Truthy(GetOr(res, "details", Dict([]))) && Name(res).Ok?
    requires key == "vpc_id" || key == "cidr_block" || key == "availability_zone"
    requires Item(GetOr(res, "details", Dict([])), key).Raised?
    ensures Lines(res).Raised?
  {
  }

  /** The IPv6 block and its address assignment come together, only when the
      block is set. */
  lemma Ipv6Together(ipv6: Value, assign: Value)
    ensures Truthy(ipv6) ==>
      (Ipv6Lines(ipv6, assign) == [QuotedSetting("ipv6_cidr_block", ipv6), BoolSetting("assign_ipv6_address_on_creation", assign)])
    ensures !Truthy(ipv6) ==> Ipv6Lines(ipv6, assign) == []
  {
  }

  /** Without `assign_ipv6_address_on_creation`, the assignment that follows
      an IPv6 block reads false. */
  lemma AssignDefault(d: Entries)
    requires !HasKey(d, "assign_ipv6_address_on_creation") && Truthy(GetOr(d, "ipv6_cidr_block", Null))
    ensures Ipv6Lines(GetOr(d, "ipv6_cidr_block", Null), GetOr(d, "assign_ipv6_address_on_creation", Bool(false)))[1]
      == BoolSetting("assign_ipv6_address_on_creation", Bool(false))
  {
  }

  /** Without `map_public_ip_on_launch`, the line reads false. */
  lemma PublicIpDefault(d: Entries)
    requires !HasKey(d, "map_public_ip_on_launch")
    ensures PublicIpLine(GetOr(d, "map_public_ip_on_launch", Bool(false))) == "  map_public_ip_on_launch = false"
  {
    BoolSettingLiteral("map_public_ip_on_launch", false);
    assert "  " + "map_public_ip_on_launch" + " = false" == "  map_public_ip_on_launch = false";
  }

  /** `map_public_ip_on_launch` is in every block. */
  lemma PublicIpAlways(opening: seq<string>, d: Entries, tags: seq<string>)
    ensures PublicIpLine(GetOr(d, "map_public_ip_on_launch", Bool(false))) in Assemble(opening, d, tags)
  {
    var settings := Settings(d);
    var ipv6 := Ipv6Lines(GetOr(d, "ipv6_cidr_block", Null), GetOr(d, "assign_ipv6_address_on_creation", Bool(false)));
    assert settings[|ipv6|] == PublicIpLine(GetOr(d, "map_public_ip_on_launch", Bool(false)));
    assert Assemble(opening, d, tags) == opening + settings + (tags + ["}"]);
    assert Assemble(opening, d, tags)[|opening| + |ipv6|] == settings[|ipv6|];
  }

  /** `enable_dns64` is written exactly when it is truthy. */
  lemma Dns64OnlyWhenSet(dns64: Value)
    ensures Dns64Lines(dns64) != [] <==> Truthy(dns64)
  {
  }

  /** The customer-owned pool and its launch mapping come together, only
      when the pool is set. */
  lemma PoolTogether(pool: Value, mapOnLaunch: Value)
    ensures Truthy(pool) ==>
      (PoolLines(pool, mapOnLaunch) == [QuotedSetting("customer_owned_ipv4_pool", pool), BoolSetting("map_customer_owned_ip_on_launch", mapOnLaunch)])
    ensures !Truthy(pool) ==> PoolLines(pool, mapOnLaunch) == []
  {
  }

  /** A subnet's resource name never contains `-`. */
  lemma NameHasNoDash(res: Entries)
    ensures Name(res).Ok? ==> '-' !in Name(res).value
  {
    TaggedNameNoDash(res, "subnet");
  }

  /** The import command addresses the block `generate` declares and imports
      it by its id. */
  lemma ImportMatchesBlock(res: Entries, modulePrefix: Option<string>)
    requires Lines(res).Ok? && Lines(res).value.Some?
    ensures Import(res, modulePrefix).Some?
    ensures var name := Name(res).value;
      [Header(ResourceType, name)] <= Lines(res).value.value
      && Import(res, modulePrefix).value == ImportCommand(ImportPrefix(modulePrefix), ResourceType, name, Show(GetOr(res, "id", Null)))
  {
    var details := GetOr(res, "details", Dict([]));
    var name := Name(res).value;
    var opening := Opening(name, Item(details, "vpc_id").value, Item(details, "cidr_block").value,
      Item(details, "availability_zone").value);
    var tags := TagsBlock(GetOr(res, "tags", List([])), LooseTagLine).value;
    assert Lines(res).value.value == Assemble(opening, details.entries, tags);
    assert Assemble(opening, details.entries, tags)[0] == opening[0];
  }
}
