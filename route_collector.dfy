/** The route collector: every non-local route of every route table becomes
    an `aws_route` record; a prefix-list route through a VPC endpoint also
    yields the endpoint's route-table association.  The pages of route
    tables the EC2 API returns are the input sequence; the region and the
    account id are parameters.
 */
module RouteCollector {
  import opened Py

  /** `_sanitize_destination`: `.`, `/` and `:` become `_`. */
  function SanitizeDestination(d: string): string {
    Replace(Replace(Replace(d, ".", "_"), "/", "_"), ":", "_")
  }

  /** The destination of a route: the IPv4 CIDR, else the IPv6 CIDR, else
      the prefix list, each only when truthy. */
  function Destination(route: Entries): Option<Value> {
    var cidr := GetOr(route, "DestinationCidrBlock", Null);
    var ipv6 := GetOr(route, "DestinationIpv6CidrBlock", Null);
    var pl := GetOr(route, "DestinationPrefixListId", Null);
    if Truthy(cidr) then Some(cidr)
    else if Truthy(ipv6) then Some(ipv6)
    else if Truthy(pl) then Some(pl)
    else None
  }

  /** The details of an ordinary route, with its gateway id. */
  function RouteDetails(rtb: Value, vpc: Value, route: Entries, gateway: Value): Entries {
    [("route_table_id", rtb), ("vpc_id", vpc),
     ("destination_cidr_block", GetOr(route, "DestinationCidrBlock", Null)),
     ("destination_ipv6_cidr_block", GetOr(route, "DestinationIpv6CidrBlock", Null)),
     ("destination_prefix_list_id", GetOr(route, "DestinationPrefixListId", Null)),
     ("gateway_id", gateway),
     ("instance_id", GetOr(route, "InstanceId", Null)),
     ("nat_gateway_id", GetOr(route, "NatGatewayId", Null)),
     ("network_interface_id", GetOr(route, "NetworkInterfaceId", Null)),
     ("transit_gateway_id", GetOr(route, "TransitGatewayId", Null)),
     ("vpc_peering_connection_id", GetOr(route, "VpcPeeringConnectionId", Null)),
     ("vpc_endpoint_id", Null),
     ("carrier_gateway_id", GetOr(route, "CarrierGatewayId", Null)),
     ("egress_only_gateway_id", GetOr(route, "EgressOnlyInternetGatewayId", Null)),
     ("local_gateway_id", GetOr(route, "LocalGatewayId", Null))]
  }

  /** A collected record: type, id, import id, arn, the table's tags, the
      details and whether the state knows it. */
  function Record(rtype: string, id: string, importId: string, arn: string, tags: Value, details: Entries,
                  managedKeys: set<Value>): Entries
  {
    [("type", Str(rtype)), ("id", Str(id)), ("import_id", Str(importId)), ("arn", Str(arn)),
     ("tags", tags), ("details", Dict(details)), ("managed", Bool(Str(rtype + ":" + id) in managedKeys))]
  }

  /** The records one route yields, or the exception it raises. */
  function RouteRecords(rtb: Value, vpc: Value, tags: Value, route: Value, managedKeys: set<Value>,
                        region: string, account: string): Outcome<seq<Entries>>
  {
    if !route.Dict? then Raised
    else
      var r := route.entries;
      var gw := GetOr(r, "GatewayId", Null);
      if gw == Str("local") then Ok([])
      else match Destination(r)
        case None => Ok([])
        case Some(dv) =>
          if !dv.Str? then Raised
          else
            var d := dv.s;
            var nameId := Show(rtb) + "_" + SanitizeDestination(d);
            var importId := Show(rtb) + "_" + d;
            var routeArn := "arn:aws:ec2:" + region + ":" + account + ":route/" + nameId;
            if Truthy(gw) && StartsWith(d, "pl-") && !gw.Str? then Raised
            else if Truthy(gw) && StartsWith(d, "pl-") && StartsWith(gw.s, "vpce-") then
              Ok(EndpointRecords(rtb, tags, d, gw.s, nameId, importId, routeArn, managedKeys, region, account))
            else
              var details := RouteDetails(rtb, vpc, r, if Truthy(gw) then gw else Null);
              Ok([Record("aws_route", nameId, importId, routeArn, tags, details, managedKeys)])
  }

  /** A prefix-list route through a VPC endpoint: the flagged route, the
      association, and the route once more. */
  function EndpointRecords(rtb: Value, tags: Value, d: string, vpce: string, nameId: string, importId: string,
                           routeArn: string, managedKeys: set<Value>, region: string, account: string): seq<Entries>
  {
    var special := [("route_table_id", rtb), ("destination_prefix_list_id", Str(d)),
                    ("vpc_endpoint_id", Str(vpce)), ("is_vpc_endpoint_association", Bool(true))];
    var assocId := Show(rtb) + "_" + vpce;
    var route := Record("aws_route", nameId, importId, routeArn, tags, special, managedKeys);
    [route,
     Record("aws_vpc_endpoint_route_table_association", assocId, vpce + "/" + Show(rtb),
            "arn:aws:ec2:" + region + ":" + account + ":vpc-endpoint-rtb-assoc/" + assocId, tags,
            [("route_table_id", rtb), ("vpc_endpoint_id", Str(vpce))], managedKeys),
     route]
  }

  /** The body of the loop over the routes of one table. */
  function RouteStep(rtb: Value, vpc: Value, tags: Value, managedKeys: set<Value>, region: string, account: string)
    : Value -> Outcome<seq<Entries>>
  {
    route => RouteRecords(rtb, vpc, tags, route, managedKeys, region, account)
  }

  /** The routes of one table, in order, until one raises. */
  function RoutesFrom(rtb: Value, vpc: Value, tags: Value, routes: seq<Value>, managedKeys: set<Value>,
                      region: string, account: string): Partial
  {
    RunSteps(routes, RouteStep(rtb, vpc, tags, managedKeys, region, account))
  }

  /** One route table: its id, VPC and route list must be readable. */
  function TableRecords(rt: Value, managedKeys: set<Value>, region: string, account: string): Partial {
    match Item(rt, "RouteTableId")
    case Raised => Partial([], true)
    case Ok(rtb) =>
      match Item(rt, "VpcId")
      case Raised => Partial([], true)
      case Ok(vpc) =>
        match Iter(GetOr(rt.entries, "Routes", List([])))
        case Raised => Partial([], true)
        case Ok(routes) => RoutesFrom(rtb, vpc, GetOr(rt.entries, "Tags", List([])), routes, managedKeys, region, account)
  }

  /** The tables in order, until one raises. */
  function TablesFrom(rts: seq<Value>, managedKeys: set<Value>, region: string, account: string): Partial
    decreases |rts|
  {
    if rts == [] then Partial([], false)
    else
      var first := TableRecords(rts[0], managedKeys, region, account);
      if first.stopped then first
      else
        var rest := TablesFrom(rts[1..], managedKeys, region, account);
        Partial(first.out + rest.out, rest.stopped)
  }

  /** `RouteCollector.collect`: the records are kept up to the first
      exception, which is logged and ends the collection. */
  method Collect(routeTables: seq<Value>, managedKeys: set<Value>, region: string, account: string)
    returns (resources: seq<Entries>)
    ensures resources == TablesFrom(routeTables, managedKeys, region, account).out
  {
    resources := [];
    var i := 0;
    while i < |routeTables|
      invariant 0 <= i <= |routeTables|
      invariant TablesFrom(routeTables, managedKeys, region, account).out
        == resources + TablesFrom(routeTables[i..], managedKeys, region, account).out
    {
      var rt := routeTables[i];
      assert routeTables[i..][1..] == routeTables[i + 1..];
      var rtb := Item(rt, "RouteTableId");
      var vpc := Item(rt, "VpcId");
      if rtb.Raised? || vpc.Raised? {
        assert resources + [] == resources;
        return;
      }
      var routes := Iter(GetOr(rt.entries, "Routes", List([])));
      if routes.Raised? {
        assert resources + [] == resources;
        return;
      }
      var tags := GetOr(rt.entries, "Tags", List([]));
      var produced, stopped := RunLoop(RouteStep(rtb.value, vpc.value, tags, managedKeys, region, account), routes.value);
      AppendAssoc(resources, produced, TablesFrom(routeTables[i + 1..], managedKeys, region, account).out);
      resources := resources + produced;
      if stopped {
        return;
      }
      i := i + 1;
    }
    assert resources + [] == resources;
  }

  // ------------------------------------------------------------ lemmas

  /** Replacing one character by another works position by position. */
  lemma {:induction false} ReplaceCharAt(s: string, c: char, d: char, i: nat)
    requires i < |s|
    ensures |Replace(s, [c], [d])| == |s|
    ensures Replace(s, [c], [d])[i] == if s[i] == c then d else s[i]
    decreases |s|
  {
    ReplaceCharLength(s, c, d);
    if i > 0 {
      ReplaceCharAt(s[1..], c, d, i - 1);
    }
  }

  lemma {:induction false} ReplaceCharLength(s: string, c: char, d: char)
    ensures |Replace(s, [c], [d])| == |s|
    decreases |s|
  {
    if s != [] {
      ReplaceCharLength(s[1..], c, d);
    }
  }

  /** The sanitised destination has the same length, has `_` where the
      destination has `.`, `/` or `:`, and the same character elsewhere. */
  lemma SanitizeDestinationAt(d: string, i: nat)
    requires i < |d|
    ensures |SanitizeDestination(d)| == |d|
    ensures SanitizeDestination(d)[i] == if d[i] in {'.', '/', ':'} then '_' else d[i]
  {
    var a := Replace(d, ".", "_");
    var b := Replace(a, "/", "_");
    ReplaceCharAt(d, '.', '_', i);
    ReplaceCharAt(a, '/', '_', i);
    ReplaceCharAt(b, ':', '_', i);
  }

  /** None of `.`, `/` and `:` is left. */
  lemma SanitizeDestinationClean(d: string)
    ensures '.' !in SanitizeDestination(d) && '/' !in SanitizeDestination(d) && ':' !in SanitizeDestination(d)
  {
    var a := Replace(d, ".", "_");
    var b := Replace(a, "/", "_");
    ReplaceRemoves(d, '.', "_");
    ReplaceKeepsAbsent(a, '/', "_", '.');
    ReplaceRemoves(a, '/', "_");
    ReplaceKeepsAbsent(b, ':', "_", '.');
    ReplaceKeepsAbsent(b, ':', "_", '/');
    ReplaceRemoves(b, ':', "_");
  }

  /** The fields of a record read back as they were given. */
  lemma RecordFields(rtype: string, id: string, importId: string, arn: string, tags: Value, details: Entries,
                     managedKeys: set<Value>)
    ensures var r := Record(rtype, id, importId, arn, tags, details, managedKeys);
      && GetOr(r, "type", Null) == Str(rtype)
      && GetOr(r, "id", Null) == Str(id)
      && GetOr(r, "import_id", Null) == Str(importId)
      && GetOr(r, "details", Null) == Dict(details)
      && GetOr(r, "managed", Null) == Bool(Str(rtype + ":" + id) in managedKeys)
  {
    FieldsReadBack(Str(rtype), Str(id), Str(importId), Str(arn), tags, Dict(details), Bool(Str(rtype + ":" + id) in managedKeys));
  }

  /** The seven fields of a record, whatever their values. */
  lemma FieldsReadBack(t: Value, id: Value, importId: Value, arn: Value, tags: Value, details: Value, managed: Value)
    ensures var r := [("type", t), ("id", id), ("import_id", importId), ("arn", arn), ("tags", tags),
                      ("details", details), ("managed", managed)];
      GetOr(r, "type", Null) == t && GetOr(r, "id", Null) == id && GetOr(r, "import_id", Null) == importId
      && GetOr(r, "details", Null) == details && GetOr(r, "managed", Null) == managed
  {
    var r := [("type", t), ("id", id), ("import_id", importId), ("arn", arn), ("tags", tags),
              ("details", details), ("managed", managed)];
    assert GetOr(r, "id", Null) == id by { LookupAt(r, 1); }
    assert GetOr(r, "import_id", Null) == importId by { LookupAt(r, 2); }
    DetailsReadBack(t, id, importId, arn, tags, details, managed);
    ManagedReadBack(t, id, importId, arn, tags, details, managed);
  }

  /** The sixth field of a record is its details. */
  lemma DetailsReadBack(t: Value, id: Value, importId: Value, arn: Value, tags: Value, details: Value, managed: Value)
    ensures var r := [("type", t), ("id", id), ("import_id", importId), ("arn", arn), ("tags", tags),
                      ("details", details), ("managed", managed)];
      GetOr(r, "details", Null) == details
  {
    var r := [("type", t), ("id", id), ("import_id", importId), ("arn", arn), ("tags", tags),
              ("details", details), ("managed", managed)];
    LookupAt(r, 5);
  }

  /** The last field of a record is whether it is managed. */
  lemma ManagedReadBack(t: Value, id: Value, importId: Value, arn: Value, tags: Value, details: Value, managed: Value)
    ensures var r := [("type", t), ("id", id), ("import_id", importId), ("arn", arn), ("tags", tags),
                      ("details", details), ("managed", managed)];
      GetOr(r, "managed", Null) == managed
  {
    var r := [("type", t), ("id", id), ("import_id", importId), ("arn", arn), ("tags", tags),
              ("details", details), ("managed", managed)];
    LookupAt(r, 6);
  }

  /** A local route yields nothing. */
  lemma LocalRouteSkipped(rtb: Value, vpc: Value, tags: Value, route: Entries, managedKeys: set<Value>,
                          region: string, account: string)
    requires GetOr(route, "GatewayId", Null) == Str("local")
    ensures RouteRecords(rtb, vpc, tags, Dict(route), managedKeys, region, account) == Ok([])
  {
  }

  /** The destination is the first truthy of the IPv4 CIDR, the IPv6 CIDR
      and the prefix list; a route with none yields nothing. */
  lemma DestinationOrder(route: Entries)
    ensures Destination(route).Some? <==>
      Truthy(GetOr(route, "DestinationCidrBlock", Null)) || Truthy(GetOr(route, "DestinationIpv6CidrBlock", Null))
      || Truthy(GetOr(route, "DestinationPrefixListId", Null))
    ensures Truthy(GetOr(route, "DestinationCidrBlock", Null)) ==>
      Destination(route) == Some(GetOr(route, "DestinationCidrBlock", Null))
    ensures !Truthy(GetOr(route, "DestinationCidrBlock", Null)) && Truthy(GetOr(route, "DestinationIpv6CidrBlock", Null)) ==>
      Destination(route) == Some(GetOr(route, "DestinationIpv6CidrBlock", Null))
  {
  }

  lemma NoDestinationSkipped(rtb: Value, vpc: Value, tags: Value, route: Entries, managedKeys: set<Value>,
                             region: string, account: string)
    requires GetOr(route, "GatewayId", Null) != Str("local") && Destination(route).None?
    ensures RouteRecords(rtb, vpc, tags, Dict(route), managedKeys, region, account) == Ok([])
  {
  }

  /** An ordinary route yields one `aws_route` record with id
      `{rtb}_{sanitised destination}`, import id `{rtb}_{destination}`, and
      the gateway id, if any, in its details; it is managed iff
      `aws_route:{id}` is a managed key. */
  lemma OrdinaryRoute(rtb: Value, vpc: Value, tags: Value, route: Entries, managedKeys: set<Value>,
                      region: string, account: string, d: string)
    requires GetOr(route, "GatewayId", Null) != Str("local") && Destination(route) == Some(Str(d))
    requires var gw := GetOr(route, "GatewayId", Null);
      !Truthy(gw) || !StartsWith(d, "pl-") || (gw.Str? && !StartsWith(gw.s, "vpce-"))
    ensures var rs := RouteRecords(rtb, vpc, tags, Dict(route), managedKeys, region, account);
      var gw := GetOr(route, "GatewayId", Null);
      var id := Show(rtb) + "_" + SanitizeDestination(d);
      && rs.Ok? && |rs.value| == 1
      && GetOr(rs.value[0], "type", Null) == Str("aws_route")
      && GetOr(rs.value[0], "id", Null) == Str(id)
      && GetOr(rs.value[0], "import_id", Null) == Str(Show(rtb) + "_" + d)
      && GetOr(rs.value[0], "managed", Null) == Bool(Str("aws_route:" + id) in managedKeys)
      && GetOr(rs.value[0], "details", Null) == Dict(RouteDetails(rtb, vpc, route, if Truthy(gw) then gw else Null))
  {
    var gw := GetOr(route, "GatewayId", Null);
    var id := Show(rtb) + "_" + SanitizeDestination(d);
    var arn := "arn:aws:ec2:" + region + ":" + account + ":route/" + id;
    var details := RouteDetails(rtb, vpc, route, if Truthy(gw) then gw else Null);
    assert RouteRecords(rtb, vpc, tags, Dict(route), managedKeys, region, account)
      == Ok([Record("aws_route", id, Show(rtb) + "_" + d, arn, tags, details, managedKeys)]);
    assert "aws_route" + ":" + id == "aws_route:" + id;
    RecordFields("aws_route", id, Show(rtb) + "_" + d, arn, tags, details, managedKeys);
  }

  /** A prefix-list route through a VPC endpoint yields the endpoint records. */
  lemma EndpointRoute(rtb: Value, vpc: Value, tags: Value, route: Entries, managedKeys: set<Value>,
                      region: string, account: string, d: string, vpce: string)
    requires GetOr(route, "GatewayId", Null) == Str(vpce) && StartsWith(vpce, "vpce-")
    requires Destination(route) == Some(Str(d)) && StartsWith(d, "pl-")
    ensures var id := Show(rtb) + "_" + SanitizeDestination(d);
      RouteRecords(rtb, vpc, tags, Dict(route), managedKeys, region, account)
        == Ok(EndpointRecords(rtb, tags, d, vpce, id, Show(rtb) + "_" + d,
                              "arn:aws:ec2:" + region + ":" + account + ":route/" + id, managedKeys, region, account))
  {
    EndpointNotLocal(vpce);
  }

  /** An endpoint id is never the gateway `local`. */
  lemma EndpointNotLocal(vpce: string)
    requires StartsWith(vpce, "vpce-")
    ensures Str(vpce) != Str("local")
  {
    assert vpce[0] == 'v';
  }

  /** The endpoint records: the flagged route, the association `{rtb}_{vpce}`
      with import id `{vpce}/{rtb}`, and the same route once more; each is
      managed iff `{type}:{id}` is a managed key. */
  lemma EndpointRecordsFields(rtb: Value, tags: Value, d: string, vpce: string, nameId: string, importId: string,
                              routeArn: string, managedKeys: set<Value>, region: string, account: string)
    ensures var rs := EndpointRecords(rtb, tags, d, vpce, nameId, importId, routeArn, managedKeys, region, account);
      var assocId := Show(rtb) + "_" + vpce;
      && |rs| == 3
      && rs[0] == rs[2]
      && GetOr(rs[0], "type", Null) == Str("aws_route")
      && GetOr(rs[0], "id", Null) == Str(nameId)
      && GetOr(rs[0], "import_id", Null) == Str(importId)
      && GetOr(rs[0], "managed", Null) == Bool(Str("aws_route:" + nameId) in managedKeys)
      && GetOr(rs[0], "details", Null) == Dict([("route_table_id", rtb), ("destination_prefix_list_id", Str(d)),
        ("vpc_endpoint_id", Str(vpce)), ("is_vpc_endpoint_association", Bool(true))])
      && GetOr(rs[1], "type", Null) == Str("aws_vpc_endpoint_route_table_association")
      && GetOr(rs[1], "id", Null) == Str(assocId)
      && GetOr(rs[1], "import_id", Null) == Str(vpce + "/" + Show(rtb))
      && GetOr(rs[1], "managed", Null)
        == Bool(Str("aws_vpc_endpoint_route_table_association:" + assocId) in managedKeys)
  {
    var assocId := Show(rtb) + "_" + vpce;
    assert "aws_route" + ":" + nameId == "aws_route:" + nameId;
    assert "aws_vpc_endpoint_route_table_association" + ":" + assocId == "aws_vpc_endpoint_route_table_association:" + assocId;
    RecordFields("aws_route", nameId, importId, routeArn, tags,
                 [("route_table_id", rtb), ("destination_prefix_list_id", Str(d)),
                  ("vpc_endpoint_id", Str(vpce)), ("is_vpc_endpoint_association", Bool(true))], managedKeys);
    RecordFields("aws_vpc_endpoint_route_table_association", assocId, vpce + "/" + Show(rtb),
                 "arn:aws:ec2:" + region + ":" + account + ":vpc-endpoint-rtb-assoc/" + assocId, tags,
                 [("route_table_id", rtb), ("vpc_endpoint_id", Str(vpce))], managedKeys);
  }

  /** Every record the collector yields is a route or an association. */
  predicate RouteTyped(rs: seq<Entries>) {
    forall i :: 0 <= i < |rs| ==>
      GetOr(rs[i], "type", Null) == Str("aws_route")
      || GetOr(rs[i], "type", Null) == Str("aws_vpc_endpoint_route_table_association")
  }

  lemma RouteRecordsTyped(rtb: Value, vpc: Value, tags: Value, route: Value, managedKeys: set<Value>,
                          region: string, account: string)
    requires RouteRecords(rtb, vpc, tags, route, managedKeys, region, account).Ok?
    ensures RouteTyped(RouteRecords(rtb, vpc, tags, route, managedKeys, region, account).value)
  {
    var r := route.entries;
    var gw := GetOr(r, "GatewayId", Null);
    if gw != Str("local") && Destination(r).Some? {
      var d := Destination(r).value.s;
      var nameId := Show(rtb) + "_" + SanitizeDestination(d);
      var importId := Show(rtb) + "_" + d;
      var routeArn := "arn:aws:ec2:" + region + ":" + account + ":route/" + nameId;
      if Truthy(gw) && StartsWith(d, "pl-") && StartsWith(gw.s, "vpce-") {
        EndpointRecordsTyped(rtb, tags, d, gw.s, nameId, importId, routeArn, managedKeys, region, account);
      } else {
        SingleRouteTyped(nameId, importId, routeArn, tags, RouteDetails(rtb, vpc, r, if Truthy(gw) then gw else Null),
                         managedKeys);
      }
    }
  }

  lemma EndpointRecordsTyped(rtb: Value, tags: Value, d: string, vpce: string, nameId: string, importId: string,
                             routeArn: string, managedKeys: set<Value>, region: string, account: string)
    ensures RouteTyped(EndpointRecords(rtb, tags, d, vpce, nameId, importId, routeArn, managedKeys, region, account))
  {
    var rs := EndpointRecords(rtb, tags, d, vpce, nameId, importId, routeArn, managedKeys, region, account);
    EndpointRecordsFields(rtb, tags, d, vpce, nameId, importId, routeArn, managedKeys, region, account);
    forall i | 0 <= i < |rs|
      ensures GetOr(rs[i], "type", Null) == Str("aws_route")
        || GetOr(rs[i], "type", Null) == Str("aws_vpc_endpoint_route_table_association")
    {
      assert i == 0 || i == 1 || i == 2;
    }
  }

  lemma SingleRouteTyped(nameId: string, importId: string, routeArn: string, tags: Value, details: Entries,
                         managedKeys: set<Value>)
    ensures RouteTyped([Record("aws_route", nameId, importId, routeArn, tags, details, managedKeys)])
  {
    RecordFields("aws_route", nameId, importId, routeArn, tags, details, managedKeys);
  }

  lemma {:induction false} RunStepsTyped(xs: seq<Value>, step: Value -> Outcome<seq<Entries>>)
    requires forall x :: step(x).Ok? ==> RouteTyped(step(x).value)
    ensures RouteTyped(RunSteps(xs, step).out)
    decreases |xs|
  {
    if xs != [] && step(xs[0]).Ok? {
      RunStepsTyped(xs[1..], step);
    }
  }

  lemma RoutesFromTyped(rtb: Value, vpc: Value, tags: Value, routes: seq<Value>,
                        managedKeys: set<Value>, region: string, account: string)
    ensures RouteTyped(RoutesFrom(rtb, vpc, tags, routes, managedKeys, region, account).out)
  {
    var step := RouteStep(rtb, vpc, tags, managedKeys, region, account);
    forall x | step(x).Ok? ensures RouteTyped(step(x).value) {
      RouteRecordsTyped(rtb, vpc, tags, x, managedKeys, region, account);
    }
    RunStepsTyped(routes, step);
  }

  lemma {:induction false} TablesFromTyped(rts: seq<Value>, managedKeys: set<Value>, region: string, account: string)
    ensures RouteTyped(TablesFrom(rts, managedKeys, region, account).out)
    decreases |rts|
  {
    if rts != [] {
      var rt := rts[0];
      if Item(rt, "RouteTableId").Ok? && Item(rt, "VpcId").Ok? && Iter(GetOr(rt.entries, "Routes", List([]))).Ok? {
        RoutesFromTyped(Item(rt, "RouteTableId").value, Item(rt, "VpcId").value, GetOr(rt.entries, "Tags", List([])),
                        Iter(GetOr(rt.entries, "Routes", List([]))).value, managedKeys, region, account);
      }
      TablesFromTyped(rts[1..], managedKeys, region, account);
    }
  }

  /** Tables whose routes are all local contribute nothing. */
  lemma {:induction false} LocalRoutesOnly(rtb: Value, vpc: Value, tags: Value, routes: seq<Value>,
                                          managedKeys: set<Value>, region: string, account: string)
    requires forall i :: 0 <= i < |routes| ==> routes[i].Dict? && GetOr(routes[i].entries, "GatewayId", Null) == Str("local")
    ensures RoutesFrom(rtb, vpc, tags, routes, managedKeys, region, account) == Partial([], false)
    decreases |routes|
  {
    if routes != [] {
      LocalRouteSkipped(rtb, vpc, tags, routes[0].entries, managedKeys, region, account);
      assert routes[0] == Dict(routes[0].entries);
      LocalRoutesOnly(rtb, vpc, tags, routes[1..], managedKeys, region, account);
    }
  }
}
