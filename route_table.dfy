/** `RouteTableGenerator`: the `aws_route_table` block with its routes,
    followed by one `aws_route_table_association` block per association
    that is not the main one, and the import commands for all of them.
 */
module RouteTable {
  import opened Py
  import opened HclText
  import opened GeneratorBase
  import Seqs

  const ResourceType := "aws_route_table"
  const AssociationType := "aws_route_table_association"

  /** The route fields that name a target, in the order they are written. */
  const TargetKeys := ["gateway_id", "instance_id", "nat_gateway_id", "network_interface_id", "vpc_peering_connection_id"]

  /** `_generate_resource_name`: the lower-cased `Name` tag with `-` and
      spaces as `_`, else `rtb_` and the lower-cased id with `-` as `_`. */
  function Name(res: Entries): Outcome<string> {
    TaggedName(res, "rtb")
  }

  // ------------------------------------------------------------ routes

  /** `if v := route.get(key): route_block.append(...)`, for a target field
      written under its own name. */
  function TargetLine(route: Entries, key: string): seq<string> {
    var v := GetOr(route, key, Null);
    When(Truthy(v), "    " + key + " = \"" + Show(v) + "\"")
  }

  /** The destination: the IPv4 block, else the IPv6 block, else nothing. */
  function Destination(route: Entries): seq<string> {
    var cidr := GetOr(route, "destination_cidr_block", Null);
    var ipv6 := GetOr(route, "destination_ipv6_cidr_block", Null);
    if Truthy(cidr) then ["    cidr_block = \"" + Show(cidr) + "\""]
    else When(Truthy(ipv6), "    ipv6_cidr_block = \"" + Show(ipv6) + "\"")
  }

  /** `_format_route` */
  function RouteLines(route: Entries): seq<string> {
    ["  route {"] + Destination(route)
      + TargetLine(route, "gateway_id") + TargetLine(route, "instance_id")
      + TargetLine(route, "nat_gateway_id") + TargetLine(route, "network_interface_id")
      + TargetLine(route, "vpc_peering_connection_id")
      + ["  }"]
  }

  /** One pass of the routes loop: the local route is skipped; a route that
      is not a dict raises. */
  function RouteEntry(route: Value): Outcome<seq<string>> {
    var gateway :- Get(route, "gateway_id", Null);
    if gateway == Str("local") then Ok([]) else Ok(RouteLines(route.entries))
  }

  // ------------------------------------------------------------ associations

  /** `not assoc.get("main", False)` */
  predicate NotMain(assoc: Value) {
    assoc.Dict? && !Truthy(GetOr(assoc.entries, "main", Bool(false)))
  }

  /** The association's resource name: the table's name, `_` and its id. */
  function AssociationName(name: string, assocId: Value): string {
    name + "_" + Show(assocId)
  }

  /** The block of one association: none for the main one; a subnet
      association, else a gateway association, else nothing. */
  function AssociationLines(name: string, assoc: Value): Outcome<seq<string>> {
    var main :- Get(assoc, "main", Bool(false));
    if Truthy(main) then Ok([])
    else
      var assocId :- Item(assoc, "id");
      var subnet := GetOr(assoc.entries, "subnet_id", Null);
      var gateway := GetOr(assoc.entries, "gateway_id", Null);
      var target := if Truthy(subnet) then "  subnet_id = \"" + Show(subnet) + "\""
        else "  gateway_id = \"" + Show(gateway) + "\"";
      if Truthy(subnet) || Truthy(gateway) then
        Ok(["", Header(AssociationType, AssociationName(name, assocId)), target,
            "  route_table_id = " + ResourceType + "." + name + ".id", "}"])
      else Ok([])
  }

  // ------------------------------------------------------------ generate

  /** The lines `generate` joins: None without an id or details. */
  function Lines(res: Entries): Outcome<Option<seq<string>>> {
    var id := GetOr(res, "id", Null);
    var details := GetOr(res, "details", Dict([]));
    if !Truthy(id) || !Truthy(details) then Ok(None)
    else
      var name :- Name(res);
      Assemble(name, details, GetOr(res, "tags", List([])))
  }

  /** `propagating_vgws`, written only when there are some. */
  function Vgws(details: Value): Outcome<seq<string>> {
    var vgws :- Get(details, "propagating_vgws", List([]));
    if !Truthy(vgws) then Ok([])
    else
      var line :- QuotedList("propagating_vgws", vgws);
      Ok([line])
  }

  /** The table's own block, before the association blocks. */
  function TableBlock(name: string, details: Value, tags: Value): Outcome<seq<string>> {
    var vpc :- Item(details, "vpc_id");
    var routes :- Get(details, "routes", List([]));
    var xs :- Iter(routes);
    var routeLines :- ConcatMap(xs, RouteEntry);
    var vgws :- Vgws(details);
    var tagLines :- TagsBlock(tags, LooseTagLine);
    Ok([Header(ResourceType, name), "  vpc_id = \"" + Show(vpc) + "\""] + routeLines + vgws + tagLines + ["}"])
  }

  /** The association blocks. */
  function Associations(name: string, details: Value): Outcome<seq<string>> {
    var assocs :- Get(details, "associations", List([]));
    var ys :- Iter(assocs);
    ConcatMap(ys, a => AssociationLines(name, a))
  }

  /** The lines of a route table that has an id and details. */
  function Assemble(name: string, details: Value, tags: Value): Outcome<Option<seq<string>>> {
    var table :- TableBlock(name, details, tags);
    var assocLines :- Associations(name, details);
    Ok(Some(table + assocLines))
  }

  /** The table's block, as `generate` builds it. */
  method EmitTableBlock(name: string, details: Value, tags: Value) returns (r: Outcome<seq<string>>)
    ensures r == TableBlock(name, details, tags)
  {
    var vpc := Item(details, "vpc_id");
    if vpc.Raised? {
      return Raised;
    }
    var hcl := [Header(ResourceType, name), "  vpc_id = \"" + Show(vpc.value) + "\""];
    var routes := GetOr(details.entries, "routes", List([]));
    var routeLines := IterLoop(routes, RouteEntry);
    if routeLines.Raised? {
      return Raised;
    }
    hcl := hcl + routeLines.value;
    var vgws := GetOr(details.entries, "propagating_vgws", List([]));
    var vgwLines: seq<string> := [];
    if Truthy(vgws) {
      var line := QuotedList("propagating_vgws", vgws);
      if line.Raised? {
        return Raised;
      }
      vgwLines := [line.value];
    }
    assert Vgws(details) == Ok(vgwLines);
    hcl := hcl + vgwLines;
    var tagLines := EmitTags(tags, LooseTagLine);
    if tagLines.Raised? {
      return Raised;
    }
    hcl := hcl + tagLines.value + ["}"];
    return Ok(hcl);
  }

  /** `generate` */
  method Generate(res: Entries) returns (r: Option<string>)
    ensures r == Render(Lines(res))
  {
    var id := GetOr(res, "id", Null);
    var details := GetOr(res, "details", Dict([]));
    if !Truthy(id) || !Truthy(details) {
      return None;
    }
    var name := Name(res);
    if name.Raised? {
      return None;
    }
    var name' := name.value;
    var tags := GetOr(res, "tags", List([]));
    var hcl := EmitTableBlock(name', details, tags);
    if hcl.Raised? {
      return None;
    }
    var assocs := Get(details, "associations", List([]));
    if assocs.Raised? {
      return None;
    }
    var assocLines := IterLoop(assocs.value, a => AssociationLines(name', a));
    if assocLines.Raised? {
      return None;
    }
    assert Associations(name', details) == assocLines;
    assert Assemble(name', details, tags) == Ok(Some(hcl.value + assocLines.value));
    r := Some(Join("\n", hcl.value + assocLines.value));
  }

  // ------------------------------------------------------------ import

  /** The import command of one association that is not the main one. */
  function AssociationImport(prefix: string, name: string, assoc: Value): Outcome<seq<string>> {
    var main :- Get(assoc, "main", Bool(false));
    if Truthy(main) then Ok([])
    else
      var assocId :- Item(assoc, "id");
      Ok([ImportCommand(prefix, AssociationType, AssociationName(name, assocId), Show(assocId))])
  }

  /** The commands `generate_import` joins: the table's, then one per
      association that is not the main one; None without an id. */
  function ImportLines(res: Entries, modulePrefix: Option<string>): Outcome<Option<seq<string>>> {
    var id := GetOr(res, "id", Null);
    if !Truthy(id) then Ok(None)
    else
      var name :- Name(res);
      var prefix := ImportPrefix(modulePrefix);
      var assocs :- Get(GetOr(res, "details", Dict([])), "associations", List([]));
      var ys :- Iter(assocs);
      var commands :- ConcatMap(ys, a => AssociationImport(prefix, name, a));
      Ok(Some([ImportCommand(prefix, ResourceType, name, Show(id))] + commands))
  }

  /** `generate_import` */
  method GenerateImport(res: Entries, modulePrefix: Option<string>) returns (r: Option<string>)
    ensures r == Render(ImportLines(res, modulePrefix))
  {
    var id := GetOr(res, "id", Null);
    if !Truthy(id) {
      return None;
    }
    var name := Name(res);
    if name.Raised? {
      return None;
    }
    var name' := name.value;
    var prefix := ImportPrefix(modulePrefix);
    var commands := [ImportCommand(prefix, ResourceType, name', Show(id))];
    var assocs := Get(GetOr(res, "details", Dict([])), "associations", List([]));
    if assocs.Raised? {
      return None;
    }
    var more := IterLoop(assocs.value, a => AssociationImport(prefix, name', a));
    if more.Raised? {
      return None;
    }
    commands := commands + more.value;
    r := Some(Join("\n", commands));
  }

  // ------------------------------------------------------------ lemmas

  /** No route table is written without an id or without details. */
  lemma RequiredFields(res: Entries)
    ensures !Truthy(GetOr(res, "id", Null)) || !Truthy(GetOr(res, "details", Dict([]))) ==> Lines(res) == Ok(None)
    ensures Lines(res).Ok? && Lines(res).value.None? ==>
      !Truthy(GetOr(res, "id", Null)) || !Truthy(GetOr(res, "details", Dict([])))
  {
  }

  /** The local route, which AWS creates by itself, is never written. */
  lemma LocalRouteSkipped(route: Entries)
    requires GetOr(route, "gateway_id", Null) == Str("local")
    ensures RouteEntry(Dict(route)) == Ok([])
  {
  }

  /** Every target field a route sets is written, under its own name. */
  lemma TargetWritten(route: Entries, key: string)
    requires key in TargetKeys && Truthy(GetOr(route, key, Null))
    ensures "    " + key + " = \"" + Show(GetOr(route, key, Null)) + "\"" in RouteLines(route)
  {
    var line := "    " + key + " = \"" + Show(GetOr(route, key, Null)) + "\"";
    assert TargetLine(route, key) == [line];
    var ls := RouteLines(route);
    var dest := ["  route {"] + Destination(route);
    var t1 := TargetLine(route, "gateway_id");
    var t2 := TargetLine(route, "instance_id");
    var t3 := TargetLine(route, "nat_gateway_id");
    var t4 := TargetLine(route, "network_interface_id");
    var t5 := TargetLine(route, "vpc_peering_connection_id");
    assert ls == dest + t1 + t2 + t3 + t4 + t5 + ["  }"];
    if key == "gateway_id" {
      assert line == t1[0];
    } else if key == "instance_id" {
      assert line == t2[0];
    } else if key == "nat_gateway_id" {
      assert line == t3[0];
    } else if key == "network_interface_id" {
      assert line == t4[0];
    } else {
      assert line == t5[0];
    }
  }

  /** A route block holds exactly one line per target field that is set,
      at most one destination line, and its braces. */
  lemma RouteLength(route: Entries)
    ensures |RouteLines(route)| == 2 + |Destination(route)|
      + Present(route, "gateway_id") + Present(route, "instance_id") + Present(route, "nat_gateway_id")
      + Present(route, "network_interface_id") + Present(route, "vpc_peering_connection_id")
    ensures |Destination(route)| <= 1
    ensures |Destination(route)| == 1 <==>
      Truthy(GetOr(route, "destination_cidr_block", Null)) || Truthy(GetOr(route, "destination_ipv6_cidr_block", Null))
  {
  }

  /** 1 when the field is set. */
  function Present(route: Entries, key: string): nat {
    if Truthy(GetOr(route, key, Null)) then 1 else 0
  }

  /** The main association gets neither a block nor an import command. */
  lemma MainAssociationSkipped(prefix: string, name: string, assoc: Entries)
    requires Truthy(GetOr(assoc, "main", Bool(false)))
    ensures AssociationLines(name, Dict(assoc)) == Ok([])
    ensures AssociationImport(prefix, name, Dict(assoc)) == Ok([])
  {
  }

  /** Any other association with an id is written as a subnet association
      when it has a subnet, else as a gateway association when it has a
      gateway, and is left out otherwise. */
  lemma AssociationKind(name: string, assoc: Entries)
    requires !Truthy(GetOr(assoc, "main", Bool(false))) && HasKey(assoc, "id")
    ensures var ls := AssociationLines(name, Dict(assoc));
      var subnet := GetOr(assoc, "subnet_id", Null);
      var gateway := GetOr(assoc, "gateway_id", Null);
      ls.Ok?
      && (ls.value == [] <==> !Truthy(subnet) && !Truthy(gateway))
      && (Truthy(subnet) ==> ls.value[2] == "  subnet_id = \"" + Show(subnet) + "\"")
      && (!Truthy(subnet) && Truthy(gateway) ==> ls.value[2] == "  gateway_id = \"" + Show(gateway) + "\"")
  {
  }

  /** One import command per association that is not the main one. */
  lemma {:induction false} ImportsPerAssociation(prefix: string, name: string, xs: seq<Value>)
    requires ConcatMap(xs, a => AssociationImport(prefix, name, a)).Ok?
    ensures |ConcatMap(xs, a => AssociationImport(prefix, name, a)).value| == |Seqs.Filter(xs, NotMain)|
    decreases |xs|
  {
    if xs != [] {
      ImportsPerAssociation(prefix, name, xs[..|xs| - 1]);
    }
  }

  /** `generate_import` writes the table's command and one per association
      that is not the main one. */
  lemma ImportCount(res: Entries, modulePrefix: Option<string>)
    requires ImportLines(res, modulePrefix).Ok? && ImportLines(res, modulePrefix).value.Some?
    ensures var assocs := GetOr(GetOr(res, "details", Dict([])).entries, "associations", List([]));
      var ys := Iter(assocs).value;
      |ImportLines(res, modulePrefix).value.value| == 1 + |Seqs.Filter(ys, NotMain)|
  {
    var assocs := GetOr(GetOr(res, "details", Dict([])).entries, "associations", List([]));
    ImportsPerAssociation(ImportPrefix(modulePrefix), Name(res).value, Iter(assocs).value);
  }

  /** The table's import command addresses the block `generate` declares. */
  lemma ImportMatchesBlock(res: Entries, modulePrefix: Option<string>)
    requires Name(res).Ok? && Lines(res).Ok? && Lines(res).value.Some?
    requires ImportLines(res, modulePrefix).Ok? && ImportLines(res, modulePrefix).value.Some?
    ensures var name := Name(res).value;
      [Header(ResourceType, name)] <= Lines(res).value.value
      && [ImportCommand(ImportPrefix(modulePrefix), ResourceType, name, Show(GetOr(res, "id", Null)))]
        <= ImportLines(res, modulePrefix).value.value
  {
    var name := Name(res).value;
    var details := GetOr(res, "details", Dict([]));
    var tags := GetOr(res, "tags", List([]));
    assert Lines(res) == Assemble(name, details, tags);
    AssembleOpens(name, details, tags);
  }

  /** The lines open with the table's header. */
  lemma AssembleOpens(name: string, details: Value, tags: Value)
    requires Assemble(name, details, tags).Ok?
    ensures [Header(ResourceType, name)] <= Assemble(name, details, tags).value.value
  {
    var table := TableBlock(name, details, tags).value;
    assert table[0] == Header(ResourceType, name);
    assert Assemble(name, details, tags).value.value == table + Associations(name, details).value;
  }

  /** An association that gets a block is declared among the lines. */
  lemma AssociationInBlock(name: string, details: Value, tags: Value, i: nat)
    requires Assemble(name, details, tags).Ok?
    requires details.Dict? && GetOr(details.entries, "associations", List([])).List?
    requires var ys := GetOr(details.entries, "associations", List([])).items;
      i < |ys| && AssociationLines(name, ys[i]).Ok? && AssociationLines(name, ys[i]).value != []
    ensures var assoc := GetOr(details.entries, "associations", List([])).items[i];
      Header(AssociationType, AssociationName(name, GetOr(assoc.entries, "id", Null)))
        in Assemble(name, details, tags).value.value
  {
    var ys := GetOr(details.entries, "associations", List([])).items;
    var header := Header(AssociationType, AssociationName(name, GetOr(ys[i].entries, "id", Null)));
    var fa := a => AssociationLines(name, a);
    assert Iter(List(ys)) == Ok(ys);
    assert Associations(name, details) == ConcatMap(ys, fa);
    assert header == AssociationLines(name, ys[i]).value[1];
    ConcatMapContains(ys, fa, i, header);
    assert Assemble(name, details, tags).value.value == TableBlock(name, details, tags).value + ConcatMap(ys, fa).value;
  }

  /** An association that is not the main one is imported by its id. */
  lemma AssociationImported(prefix: string, name: string, ys: seq<Value>, i: nat)
    requires ConcatMap(ys, a => AssociationImport(prefix, name, a)).Ok?
    requires i < |ys| && NotMain(ys[i])
    ensures var aid := GetOr(ys[i].entries, "id", Null);
      ImportCommand(prefix, AssociationType, AssociationName(name, aid), Show(aid))
        in ConcatMap(ys, a => AssociationImport(prefix, name, a)).value
  {
    var aid := GetOr(ys[i].entries, "id", Null);
    var cmd := ImportCommand(prefix, AssociationType, AssociationName(name, aid), Show(aid));
    var fi := a => AssociationImport(prefix, name, a);
    ConcatMapContains(ys, fi, i, cmd);
    assert fi(ys[i]) == Ok([cmd]);
  }

  /** Every association that gets a block gets an import command for the
      same address, which imports it by its id. */
  lemma AssociationImportMatchesBlock(res: Entries, modulePrefix: Option<string>, i: nat)
    requires Name(res).Ok? && Lines(res).Ok? && Lines(res).value.Some?
    requires ImportLines(res, modulePrefix).Ok? && ImportLines(res, modulePrefix).value.Some?
    requires var assocs := GetOr(GetOr(res, "details", Dict([])).entries, "associations", List([]));
      assocs.List? && i < |assocs.items|
    requires var assocs := GetOr(GetOr(res, "details", Dict([])).entries, "associations", List([]));
      var ls := AssociationLines(Name(res).value, assocs.items[i]);
      ls.Ok? && ls.value != []
    ensures var assoc := GetOr(GetOr(res, "details", Dict([])).entries, "associations", List([])).items[i];
      var aid := GetOr(assoc.entries, "id", Null);
      var name := AssociationName(Name(res).value, aid);
      Header(AssociationType, name) in Lines(res).value.value
      && ImportCommand(ImportPrefix(modulePrefix), AssociationType, name, Show(aid)) in ImportLines(res, modulePrefix).value.value
  {
    var details := GetOr(res, "details", Dict([]));
    var ys := GetOr(details.entries, "associations", List([])).items;
    var name := Name(res).value;
    var prefix := ImportPrefix(modulePrefix);
    var tags := GetOr(res, "tags", List([]));
    assert Lines(res) == Assemble(name, details, tags);
    AssociationInBlock(name, details, tags, i);
    assert Iter(List(ys)) == Ok(ys);
    assert ImportLines(res, modulePrefix).value.value
      == [ImportCommand(prefix, ResourceType, name, Show(GetOr(res, "id", Null)))]
        + ConcatMap(ys, a => AssociationImport(prefix, name, a)).value;
    AssociationImported(prefix, name, ys, i);
  }

  /** The converse does not hold: a non-main association with neither a
      subnet nor a gateway gets an import command but no block, so that
      command addresses a resource the generated text never declares. */
  lemma AssociationImportWithoutBlock(prefix: string, name: string, assoc: Value)
    requires NotMain(assoc) && HasKey(assoc.entries, "id")
    requires !Truthy(GetOr(assoc.entries, "subnet_id", Null)) && !Truthy(GetOr(assoc.entries, "gateway_id", Null))
    ensures AssociationLines(name, assoc) == Ok([])
    ensures var aid := GetOr(assoc.entries, "id", Null);
      AssociationImport(prefix, name, assoc) == Ok([ImportCommand(prefix, AssociationType, AssociationName(name, aid), Show(aid))])
  {
  }
}
