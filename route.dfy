/** `RouteGenerator` (`aws_route`, preceded by an endpoint association when
    the route is one) and `VPCEndpointRouteTableAssociationGenerator`.
 */
module Route {
  import opened Py
  import opened HclText
  import opened GeneratorBase

  const ResourceType := "aws_route"
  const AssocType := "aws_vpc_endpoint_route_table_association"

  /** The route targets, in the order `generate` tries them. */
  const TargetKeys: seq<string> := ["gateway_id", "instance_id", "nat_gateway_id",
    "network_interface_id", "transit_gateway_id", "vpc_peering_connection_id",
    "carrier_gateway_id", "egress_only_gateway_id", "local_gateway_id"]

  /** `f"route_{route_id.lower()}"`; an id that is not a string raises. */
  function RouteName(res: Entries): Outcome<string> {
    var id :- AsStr(GetOr(res, "id", Str("")));
    Ok("route_" + Lower(id))
  }

  /** `f'  {key} = "{value}"'` */
  function Field(key: string, v: Value): string {
    "  " + key + " = \"" + Show(v) + "\""
  }

  /** The destination line: the IPv4 CIDR, else the IPv6 CIDR, else the
      prefix list, else none. */
  function Destination(details: Entries): Option<string> {
    var cidr := GetOr(details, "destination_cidr_block", Null);
    var ipv6 := GetOr(details, "destination_ipv6_cidr_block", Null);
    var prefixList := GetOr(details, "destination_prefix_list_id", Null);
    if Truthy(cidr) then Some(Field("destination_cidr_block", cidr))
    else if Truthy(ipv6) then Some(Field("destination_ipv6_cidr_block", ipv6))
    else if Truthy(prefixList) then Some(Field("destination_prefix_list_id", prefixList))
    else None
  }

  /** The `elif` chain over the targets: the first one that is set. */
  function TargetLine(details: Entries): seq<string> {
    var gateway := GetOr(details, "gateway_id", Null);
    var instance := GetOr(details, "instance_id", Null);
    var natGateway := GetOr(details, "nat_gateway_id", Null);
    var eni := GetOr(details, "network_interface_id", Null);
    var transit := GetOr(details, "transit_gateway_id", Null);
    var peering := GetOr(details, "vpc_peering_connection_id", Null);
    var carrier := GetOr(details, "carrier_gateway_id", Null);
    var egressOnly := GetOr(details, "egress_only_gateway_id", Null);
    var local := GetOr(details, "local_gateway_id", Null);
    if Truthy(gateway) then [Field("gateway_id", gateway)]
    else if Truthy(instance) then [Field("instance_id", instance)]
    else if Truthy(natGateway) then [Field("nat_gateway_id", natGateway)]
    else if Truthy(eni) then [Field("network_interface_id", eni)]
    else if Truthy(transit) then [Field("transit_gateway_id", transit)]
    else if Truthy(peering) then [Field("vpc_peering_connection_id", peering)]
    else if Truthy(carrier) then [Field("carrier_gateway_id", carrier)]
    else if Truthy(egressOnly) then [Field("egress_only_gateway_id", egressOnly)]
    else if Truthy(local) then [Field("local_gateway_id", local)]
    else []
  }

  /** The line for the first of `keys` whose value is set, if any. */
  function FirstSet(details: Entries, keys: seq<string>): seq<string>
    decreases |keys|
  {
    if keys == [] then []
    else
      var v := GetOr(details, keys[0], Null);
      if Truthy(v) then [Field(keys[0], v)] else FirstSet(details, keys[1..])
  }

  /** The association block, also what the association generator writes. */
  function AssocBlock(name: string, routeTable: Value, endpoint: Value): seq<string> {
    [Header(AssocType, name), Field("route_table_id", routeTable), Field("vpc_endpoint_id", endpoint), "}"]
  }

  /** Whether the route also gets an endpoint association. */
  predicate IsAssociation(details: Entries) {
    Truthy(GetOr(details, "vpc_endpoint_id", Null)) && Truthy(GetOr(details, "is_vpc_endpoint_association", Null))
  }

  /** The association block, when the route is one. */
  function AssocBlocks(name: string, routeTable: Value, details: Entries): seq<string> {
    if IsAssociation(details) then
      [Join("\n", AssocBlock("vpce_rtb_assoc_" + name, routeTable, GetOr(details, "vpc_endpoint_id", Null)))]
    else []
  }

  /** The route block. */
  function RouteBlock(name: string, routeTable: Value, destination: string, details: Entries): seq<string> {
    [Header(ResourceType, name), Field("route_table_id", routeTable)] + [destination]
      + TargetLine(details) + ["}"]
  }

  /** The blocks `generate` joins with blank lines: None when the route is
      managed, or lacks details, a route table or a destination. */
  function Blocks(res: Entries): Outcome<Option<seq<string>>> {
    var details := GetOr(res, "details", Dict([]));
    if Truthy(GetOr(res, "managed", Bool(false))) || !Truthy(details) then Ok(None)
    else
      var name :- RouteName(res);
      if !details.Dict? then Raised
      else
        var d := details.entries;
        var routeTable := GetOr(d, "route_table_id", Null);
        if !Truthy(routeTable) then Ok(None)
        else
          var destination := Destination(d);
          if destination.None? then Ok(None)
          else
            Ok(Some(AssocBlocks(name, routeTable, d) + [Join("\n", RouteBlock(name, routeTable, destination.value, d))]))
  }

  /** `generate` */
  method Generate(res: Entries) returns (r: Option<string>)
    ensures r == (match Catch(Blocks(res)) case Some(bs) => Some(Join("\n\n", bs)) case None => None)
  {
    var details := GetOr(res, "details", Dict([]));
    if Truthy(GetOr(res, "managed", Bool(false))) || !Truthy(details) {
      return None;
    }
    var name := RouteName(res);
    if name.Raised? || !details.Dict? {
      return None;
    }
    var d := details.entries;
    var routeTable := GetOr(d, "route_table_id", Null);
    if !Truthy(routeTable) {
      return None;
    }
    var hclBlocks: seq<string> := [];
    var routeHcl := [Header(ResourceType, name.value), Field("route_table_id", routeTable)];
    var destination := Destination(d);
    if destination.None? {
      return None;
    }
    routeHcl := routeHcl + [destination.value];
    var endpoint := GetOr(d, "vpc_endpoint_id", Null);
    if Truthy(endpoint) && Truthy(GetOr(d, "is_vpc_endpoint_association", Null)) {
      hclBlocks := hclBlocks + [Join("\n", AssocBlock("vpce_rtb_assoc_" + name.value, routeTable, endpoint))];
    }
    var target := TargetLine(d);
    routeHcl := routeHcl + target + ["}"];
    assert routeHcl == RouteBlock(name.value, routeTable, destination.value, d);
    assert hclBlocks == AssocBlocks(name.value, routeTable, d);
    hclBlocks := hclBlocks + [Join("\n", routeHcl)];
    assert Blocks(res) == Ok(Some(hclBlocks));
    r := Some(Join("\n\n", hclBlocks));
  }

  /** The commands `generate_import` joins: the route by its `import_id`,
      then the association (if any) by `vpce/rtb`. */
  function ImportLines(res: Entries, modulePrefix: Option<string>): Option<seq<string>> {
    var importId := GetOr(res, "import_id", Null);
    var details := GetOr(res, "details", Dict([]));
    var name := RouteName(res);
    if !Truthy(importId) || name.Raised? || !details.Dict? then None
    else
      var prefix := ImportPrefix(modulePrefix);
      var d := details.entries;
      var routeTable := GetOr(d, "route_table_id", Null);
      var endpoint := GetOr(d, "vpc_endpoint_id", Null);
      var assoc := Truthy(GetOr(d, "is_vpc_endpoint_association", Null)) && Truthy(routeTable) && Truthy(endpoint);
      Some([ImportCommand(prefix, ResourceType, name.value, Show(importId))]
        + (if assoc then [ImportCommand(prefix, AssocType, "vpce_rtb_assoc_" + name.value, Show(endpoint) + "/" + Show(routeTable))] else []))
  }

  /** `generate_import` */
  function Import(res: Entries, modulePrefix: Option<string>): (r: Option<string>)
    ensures r.Some? <==> (Truthy(GetOr(res, "import_id", Null)) && RouteName(res).Ok?
      && GetOr(res, "details", Dict([])).Dict?)
    ensures r.Some? ==> StartsWith(r.value, ImportCommand(ImportPrefix(modulePrefix), ResourceType,
      RouteName(res).value, Show(GetOr(res, "import_id", Null))))
  {
    match ImportLines(res, modulePrefix)
    case Some(cmds) =>
      JoinStartsWithHead("\n", cmds);
      Some(Join("\n", cmds))
    case None => None
  }

  // ------------------------------------------------------------ lemmas

  /** A route is left out when it is managed or has no details; with dict
      details it is left out exactly when it has no route table or no
      destination. */
  lemma RequiredFields(res: Entries)
    ensures Truthy(GetOr(res, "managed", Bool(false))) || !Truthy(GetOr(res, "details", Dict([]))) ==>
      Blocks(res) == Ok(None)
    ensures var details := GetOr(res, "details", Dict([]));
      !Truthy(GetOr(res, "managed", Bool(false))) && Truthy(details) && details.Dict? && RouteName(res).Ok? ==>
        (Blocks(res) == Ok(None) <==>
          !Truthy(GetOr(details.entries, "route_table_id", Null)) || Destination(details.entries).None?)
  {
  }

  /** The destination is the first of the IPv4 CIDR, the IPv6 CIDR and the
      prefix list that is set. */
  lemma DestinationOrder(details: Entries)
    ensures Destination(details).None? <==>
      !Truthy(GetOr(details, "destination_cidr_block", Null))
      && !Truthy(GetOr(details, "destination_ipv6_cidr_block", Null))
      && !Truthy(GetOr(details, "destination_prefix_list_id", Null))
    ensures Truthy(GetOr(details, "destination_cidr_block", Null)) ==>
      Destination(details) == Some(Field("destination_cidr_block", GetOr(details, "destination_cidr_block", Null)))
  {
  }

  /** At most one line: for the first key in order whose value is set, and
      none only when no key is set. */
  lemma {:induction false} FirstOfKeys(details: Entries, keys: seq<string>)
    ensures |FirstSet(details, keys)| <= 1
    ensures FirstSet(details, keys) == [] <==> forall i :: 0 <= i < |keys| ==> !Truthy(GetOr(details, keys[i], Null))
    ensures FirstSet(details, keys) != [] ==>
      exists i :: 0 <= i < |keys| && Truthy(GetOr(details, keys[i], Null))
        && (forall j :: 0 <= j < i ==> !Truthy(GetOr(details, keys[j], Null)))
        && FirstSet(details, keys)[0] == Field(keys[i], GetOr(details, keys[i], Null))
    decreases |keys|
  {
    if keys != [] {
      FirstOfKeys(details, keys[1..]);
      var v := GetOr(details, keys[0], Null);
      if !Truthy(v) {
        if FirstSet(details, keys) == [] {
          forall i | 0 <= i < |keys| ensures !Truthy(GetOr(details, keys[i], Null)) {
            if i > 0 {
              assert keys[i] == keys[1..][i - 1];
            }
          }
        } else {
          var k :| 0 <= k < |keys[1..]| && Truthy(GetOr(details, keys[1..][k], Null))
            && (forall j :: 0 <= j < k ==> !Truthy(GetOr(details, keys[1..][j], Null)))
            && FirstSet(details, keys[1..])[0] == Field(keys[1..][k], GetOr(details, keys[1..][k], Null));
          assert forall j :: 0 <= j < k + 1 ==> !Truthy(GetOr(details, keys[j], Null)) by {
            forall j | 0 <= j < k + 1 ensures !Truthy(GetOr(details, keys[j], Null)) {
              if j > 0 {
                assert keys[j] == keys[1..][j - 1];
              }
            }
          }
          assert keys[k + 1] == keys[1..][k];
        }
      } else {
        assert FirstSet(details, keys)[0] == Field(keys[0], v);
      }
    }
  }

  /** The `elif` chain writes at most one target: the first of the keys,
      in order, that is set. */
  lemma OneTarget(details: Entries)
    ensures TargetLine(details) == FirstSet(details, TargetKeys)
  {
    var k9 := ["local_gateway_id"];
    var k8 := ["egress_only_gateway_id"] + k9;
    var k7 := ["carrier_gateway_id"] + k8;
    var k6 := ["vpc_peering_connection_id"] + k7;
    var k5 := ["transit_gateway_id"] + k6;
    var k4 := ["network_interface_id"] + k5;
    var k3 := ["nat_gateway_id"] + k4;
    var k2 := ["instance_id"] + k3;
    var k1 := ["gateway_id"] + k2;
    assert k1 == TargetKeys;
    FirstSetCons(details, "local_gateway_id", []);
    FirstSetCons(details, "egress_only_gateway_id", k9);
    FirstSetCons(details, "carrier_gateway_id", k8);
    FirstSetCons(details, "vpc_peering_connection_id", k7);
    FirstSetCons(details, "transit_gateway_id", k6);
    FirstSetCons(details, "network_interface_id", k5);
    FirstSetCons(details, "nat_gateway_id", k4);
    FirstSetCons(details, "instance_id", k3);
    FirstSetCons(details, "gateway_id", k2);
  }

  lemma FirstSetCons(details: Entries, key: string, rest: seq<string>)
    ensures FirstSet(details, [key] + rest) ==
      if Truthy(GetOr(details, key, Null)) then [Field(key, GetOr(details, key, Null))] else FirstSet(details, rest)
  {
    assert ([key] + rest)[1..] == rest;
  }

  /** A route that is also an endpoint association is written as two
      blocks, the association first; every other route as one.  With an
      `import_id` there is one import command per block, for the same
      addresses, the route's first. */
  lemma ImportPerBlock(res: Entries, modulePrefix: Option<string>)
    requires Blocks(res).Ok? && Blocks(res).value.Some? && Truthy(GetOr(res, "import_id", Null))
    ensures var d := GetOr(res, "details", Dict([])).entries;
      var name := RouteName(res).value;
      var bs := Blocks(res).value.value;
      var cmds := ImportLines(res, modulePrefix);
      var prefix := ImportPrefix(modulePrefix);
      cmds.Some? && |cmds.value| == |bs| == (if IsAssociation(d) then 2 else 1)
      && cmds.value[0] == ImportCommand(prefix, ResourceType, name, Show(GetOr(res, "import_id", Null)))
      && (IsAssociation(d) ==> cmds.value[1] == ImportCommand(prefix, AssocType, "vpce_rtb_assoc_" + name,
        Show(GetOr(d, "vpc_endpoint_id", Null)) + "/" + Show(GetOr(d, "route_table_id", Null))))
  {
    var d := GetOr(res, "details", Dict([])).entries;
    var name := RouteName(res).value;
    assert Truthy(GetOr(d, "route_table_id", Null));
    var destination := Destination(d).value;
    var route := Join("\n", RouteBlock(name, GetOr(d, "route_table_id", Null), destination, d));
    var prefix := ImportPrefix(modulePrefix);
    var routeCmd := ImportCommand(prefix, ResourceType, name, Show(GetOr(res, "import_id", Null)));
    if IsAssociation(d) {
      assert |Blocks(res).value.value| == 2;
      var assocCmd := ImportCommand(prefix, AssocType, "vpce_rtb_assoc_" + name,
        Show(GetOr(d, "vpc_endpoint_id", Null)) + "/" + Show(GetOr(d, "route_table_id", Null)));
      assert ImportLines(res, modulePrefix) == Some([routeCmd] + [assocCmd]);
    } else {
      assert Blocks(res).value.value == [route];
      assert ImportLines(res, modulePrefix) == Some([routeCmd] + []);
    }
  }

  // ------------------------------------------- the association generator

  /** `f"vpce_rtb_assoc_{route_id.lower()}"` */
  function AssocName(res: Entries): Outcome<string> {
    var id :- AsStr(GetOr(res, "id", Str("")));
    Ok("vpce_rtb_assoc_" + Lower(id))
  }

  /** The lines the association generator joins: None when managed, or
      without details, a route table or an endpoint. */
  function AssocLines(res: Entries): Outcome<Option<seq<string>>> {
    var details := GetOr(res, "details", Dict([]));
    if Truthy(GetOr(res, "managed", Bool(false))) || !Truthy(details) then Ok(None)
    else
      var name :- AssocName(res);
      var routeTable :- Get(details, "route_table_id", Null);
      var endpoint :- Get(details, "vpc_endpoint_id", Null);
      if !Truthy(routeTable) || !Truthy(endpoint) then Ok(None)
      else Ok(Some(AssocBlock(name, routeTable, endpoint)))
  }

  /** The association generator's `generate` */
  function AssocGenerate(res: Entries): (r: Option<string>)
    ensures var details := GetOr(res, "details", Dict([]));
      r.Some? <==> (!Truthy(GetOr(res, "managed", Bool(false))) && details.Dict? && details.entries != []
        && AssocName(res).Ok? && Truthy(GetOr(details.entries, "route_table_id", Null))
        && Truthy(GetOr(details.entries, "vpc_endpoint_id", Null)))
  {
    Render(AssocLines(res))
  }

  /** The association generator's `generate_import`: id `vpce/rtb`. */
  function AssocImport(res: Entries, modulePrefix: Option<string>): (r: Option<string>)
    ensures var details := GetOr(res, "details", Dict([]));
      r.Some? <==> (details.Dict? && AssocName(res).Ok?
        && Truthy(GetOr(details.entries, "route_table_id", Null)) && Truthy(GetOr(details.entries, "vpc_endpoint_id", Null)))
  {
    var details := GetOr(res, "details", Dict([]));
    if !details.Dict? then None
    else
      var routeTable := GetOr(details.entries, "route_table_id", Null);
      var endpoint := GetOr(details.entries, "vpc_endpoint_id", Null);
      var name := AssocName(res);
      if !Truthy(routeTable) || !Truthy(endpoint) || name.Raised? then None
      else Some(ImportCommand(ImportPrefix(modulePrefix), AssocType, name.value, Show(endpoint) + "/" + Show(routeTable)))
  }

  /** An association is written exactly when it is unmanaged and has both
      ids; it is then four lines, and can be imported under its name. */
  lemma AssocRequired(res: Entries, modulePrefix: Option<string>)
    ensures var details := GetOr(res, "details", Dict([]));
      AssocGenerate(res).Some? <==>
        !Truthy(GetOr(res, "managed", Bool(false))) && details.Dict? && details.entries != [] && AssocName(res).Ok?
        && Truthy(GetOr(details.entries, "route_table_id", Null)) && Truthy(GetOr(details.entries, "vpc_endpoint_id", Null))
    ensures AssocGenerate(res).Some? ==>
      var d := GetOr(res, "details", Dict([])).entries;
      var name := AssocName(res).value;
      var ls := AssocLines(res).value.value;
      |ls| == 4 && ls[0] == Header(AssocType, name)
      && AssocImport(res, modulePrefix) == Some(ImportCommand(ImportPrefix(modulePrefix), AssocType, name,
        Show(GetOr(d, "vpc_endpoint_id", Null)) + "/" + Show(GetOr(d, "route_table_id", Null))))
  {
  }
}
