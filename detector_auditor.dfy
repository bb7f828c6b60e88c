/** The detector's auditor: the identifiers it tries for each collected
    resource, the loop that keeps the resources none of whose identifiers is
    in the Terraform state, and the harvesting of ARNs from state data.

    The set of identifiers read from the state is passed in and handed back
    updated (the source adds to a set it was given).  The region and account
    id that `_construct_arn_from_id` asks the session for are parameters.
 */
module DetectorAuditor {
  import opened Py

  // ------------------------------------------------------------ identifiers

  /** `set.add(v)`, which raises for a list or dict. */
  function Single(v: Value): Outcome<set<Value>> {
    if Hashable(v) then Ok({v}) else Raised
  }

  /** `_get_additional_identifiers`: an S3 bucket with a `name` is also
      known by its bucket ARN. */
  function AdditionalIdentifiers(res: Entries): (r: set<Value>)
    ensures r != {} <==> GetOr(res, "type", Null) == Str("aws_s3_bucket") && HasKey(res, "name")
    ensures forall v :: v in r ==> v == Str("arn:aws:s3:::" + Show(GetOr(res, "name", Null)))
    ensures forall v :: v in r ==> v.Str? && StartsWith(v.s, "arn:aws:s3:::")
  {
    if GetOr(res, "type", Null) == Str("aws_s3_bucket") && HasKey(res, "name") then
      {Str("arn:aws:s3:::" + Show(GetOr(res, "name", Null)))}
    else {}
  }

  /** `_get_resource_identifiers` */
  function Identifiers(res: Entries): (r: Outcome<set<Value>>)
    ensures r.Raised? <==>
      (HasKey(res, "arn") && !Hashable(GetOr(res, "arn", Null))) || (HasKey(res, "id") && !Hashable(GetOr(res, "id", Null)))
    ensures r.Ok? && HasKey(res, "arn") ==> GetOr(res, "arn", Null) in r.value
    ensures r.Ok? && HasKey(res, "id") ==> GetOr(res, "id", Null) in r.value
  {
    var arn :- if HasKey(res, "arn") then Single(GetOr(res, "arn", Null)) else Ok({});
    var id :- if HasKey(res, "id") then Single(GetOr(res, "id", Null)) else Ok({});
    var typed := if HasKey(res, "id") && HasKey(res, "type") then
        {Str(Show(GetOr(res, "type", Null)) + ":" + Show(GetOr(res, "id", Null)))}
      else {};
    Ok(arn + id + typed + AdditionalIdentifiers(res))
  }

  /** Whether the resource is unmanaged: none of its identifiers is known. */
  function IsUnmanaged(res: Entries, known: set<Value>): Outcome<bool> {
    var ids :- Identifiers(res);
    Ok(ids * known == {})
  }

  /** The inner loop of `audit_resources` over one service's resources. */
  function Unmanaged(resources: seq<Entries>, known: set<Value>): Outcome<seq<Entries>>
    decreases |resources|
  {
    if resources == [] then Ok([])
    else
      var init :- Unmanaged(resources[..|resources| - 1], known);
      var last := resources[|resources| - 1];
      var keep :- IsUnmanaged(last, known);
      Ok(if keep then init + [last] else init)
  }

  /** The outer loop: a service gets an entry only when it has an unmanaged
      resource. */
  function Audit(services: seq<(string, seq<Entries>)>, known: set<Value>): Outcome<map<string, seq<Entries>>>
    decreases |services|
  {
    if services == [] then Ok(map[])
    else
      var init :- Audit(services[..|services| - 1], known);
      var last := services[|services| - 1];
      var unmanaged :- Unmanaged(last.1, known);
      Ok(if unmanaged != [] then init[last.0 := unmanaged] else init)
  }

  /** The loops of `audit_resources`, over the collected resources by service
      and the identifiers read from the state. */
  method AuditResources(services: seq<(string, seq<Entries>)>, known: set<Value>)
    returns (r: Outcome<map<string, seq<Entries>>>)
    ensures r == Audit(services, known)
  {
    var result: map<string, seq<Entries>> := map[];
    var i := 0;
    while i < |services|
      invariant 0 <= i <= |services|
      invariant Audit(services[..i], known) == Ok(result)
    {
      var name := services[i].0;
      var resources := services[i].1;
      var unmanaged: seq<Entries> := [];
      var j := 0;
      while j < |resources|
        invariant 0 <= j <= |resources|
        invariant Unmanaged(resources[..j], known) == Ok(unmanaged)
      {
        var keep := IsUnmanaged(resources[j], known);
        assert resources[..j + 1][..j] == resources[..j];
        if keep.Raised? {
          UnmanagedRaises(resources, known, j);
          AuditRaises(services, known, i);
          return Raised;
        }
        if keep.value {
          unmanaged := unmanaged + [resources[j]];
        }
        j := j + 1;
      }
      assert resources[..j] == resources;
      assert services[..i + 1][..i] == services[..i];
      if unmanaged != [] {
        result := result[name := unmanaged];
      }
      i := i + 1;
    }
    assert services[..i] == services;
    return Ok(result);
  }

  lemma {:induction false} UnmanagedRaises(resources: seq<Entries>, known: set<Value>, j: nat)
    requires j < |resources| && IsUnmanaged(resources[j], known).Raised?
    ensures Unmanaged(resources, known).Raised?
    decreases |resources|
  {
    if j < |resources| - 1 {
      UnmanagedRaises(resources[..|resources| - 1], known, j);
    }
  }

  lemma {:induction false} AuditRaises(services: seq<(string, seq<Entries>)>, known: set<Value>, i: nat)
    requires i < |services| && Unmanaged(services[i].1, known).Raised?
    ensures Audit(services, known).Raised?
    decreases |services|
  {
    if i < |services| - 1 {
      AuditRaises(services[..|services| - 1], known, i);
    }
  }

  // ------------------------------------------------------------ ARN construction

  /** The EC2 resource kinds `_construct_arn_from_id` knows, with the ARN's
      resource segment for each. */
  function Ec2Segment(kind: string): Option<string> {
    if kind == "security_group" then Some("security-group")
    else if kind == "subnet" then Some("subnet")
    else if kind == "vpc" then Some("vpc")
    else if kind == "route_table" then Some("route-table")
    else if kind == "internet_gateway" then Some("internet-gateway")
    else if kind == "nat_gateway" then Some("nat-gateway")
    else if kind == "network_interface" then Some("network-interface")
    else None
  }

  /** `_construct_arn_from_id`: a leading `aws_` is dropped and the kind is
      the text after the last `.`. */
  function ConstructArn(resourceType: string, id: string, region: string, account: string): (r: Option<string>)
    ensures r.Some? ==> StartsWith(r.value, "arn:aws:ec2:" + region + ":" + account + ":")
    ensures r.Some? ==> |r.value| >= |id| && r.value[|r.value| - |id|..] == id
  {
    var t := if StartsWith(resourceType, "aws_") then resourceType[4..] else resourceType;
    var segment :- Ec2Segment(AfterLast(t, '.'));
    HeadAndTail("arn:aws:ec2:" + region + ":" + account + ":", segment, id);
    Some("arn:aws:ec2:" + region + ":" + account + ":" + segment + "/" + id)
  }

  // ------------------------------------------------------------ nested ARNs

  /** `_extract_nested_arns` on one value: a string containing `:arn:`, the
      ARNs inside a dict, or those inside the dicts of a list. */
  function ValueArns(v: Value): set<Value>
    decreases v, 1
  {
    match v
    case Str(s) => if Contains(s, ":arn:") then {v} else {}
    case Dict(es) => NestedArns(es)
    case List(xs) => ListArns(xs)
    case _ => {}
  }

  /** `_extract_nested_arns(attributes, arns)`: what it adds. */
  function NestedArns(es: Entries): set<Value>
    decreases es, 0
  {
    if es == [] then {}
    else
      var kv := es[0];
      assert kv in es;
      assert kv.1 < kv;
      ValueArns(kv.1) + NestedArns(es[1..])
  }

  /** Only the dicts of a list are searched. */
  function ListArns(xs: seq<Value>): set<Value>
    decreases xs, 0
  {
    if xs == [] then {}
    else (if xs[0].Dict? then NestedArns(xs[0].entries) else {}) + ListArns(xs[1..])
  }

  // ------------------------------------------------------------ state data

  /** What a stretch of the source's loops added to the set, and whether it
      ended with an exception (what was added before it stays). */
  datatype Harvest = Harvest(found: set<Value>, failed: bool)

  const Nothing := Harvest({}, false)
  const Failure := Harvest({}, true)

  /** `h` then `next`, unless `h` raised. */
  function Then(h: Harvest, next: Harvest): Harvest {
    if h.failed then h else Harvest(h.found + next.found, next.failed)
  }

  function Added(o: Outcome<set<Value>>): Harvest {
    match o
    case Ok(s) => Harvest(s, false)
    case Raised => Failure
  }

  /** A loop over `xs` whose body is `step`, stopping at the first exception. */
  function HarvestAll(xs: seq<Value>, step: Value -> Harvest): Harvest
    decreases |xs|
  {
    if xs == [] then Nothing else Then(step(xs[0]), HarvestAll(xs[1..], step))
  }

  /** The constructed ARN a root instance adds when it has an `id` and no `arn`. */
  function Constructed(resourceType: string, attrs: Value, hasArn: bool, region: string, account: string): Harvest {
    match In("id", attrs)
    case Raised => Failure
    case Ok(hasId) =>
      if hasId && !hasArn then
        match Item(attrs, "id")
        case Raised => Failure
        case Ok(id) =>
          match ConstructArn(resourceType, Show(id), region, account)
          case Some(a) => Harvest({Str(a)}, false)
          case None => Nothing
      else Nothing
  }

  /** What one instance's attributes add: its `arn`, then (root resources
      only) the constructed ARN, then the nested ARNs. */
  function AttributesHarvest(resourceType: string, attrs: Value, root: bool, region: string, account: string): Harvest {
    match In("arn", attrs)
    case Raised => Failure
    case Ok(hasArn) =>
      var own := if hasArn then Added(var a :- Item(attrs, "arn"); Single(a)) else Nothing;
      var built := if root then Constructed(resourceType, attrs, hasArn, region, account) else Nothing;
      var nested := if attrs.Dict? then Harvest(NestedArns(attrs.entries), false) else Failure;
      Then(own, Then(built, nested))
  }

  /** The body of the instance loop of `_process_resource` (`root`) or
      `_process_module_resource`. */
  function InstanceStep(resourceType: string, root: bool, region: string, account: string): Value -> Harvest {
    (inst: Value) =>
      match In("attributes", inst)
      case Raised => Failure
      case Ok(has) =>
        if !has then Nothing
        else
          match Item(inst, "attributes")
          case Raised => Failure
          case Ok(attrs) => AttributesHarvest(resourceType, attrs, root, region, account)
  }

  /** `f"{type}.{name}"`, with "unknown" for a missing part. */
  function TypeAndName(res: Entries): string {
    Show(GetOr(res, "type", Str("unknown"))) + "." + Show(GetOr(res, "name", Str("unknown")))
  }

  /** What `_process_resource` (`root`) or `_process_module_resource` adds;
      an exception ends the resource but is caught. */
  function ResourceArns(res: Entries, root: bool, region: string, account: string): set<Value> {
    match Iter(GetOr(res, "instances", List([])))
    case Raised => {}
    case Ok(insts) => HarvestAll(insts, InstanceStep(TypeAndName(res), root, region, account)).found
  }

  /** The body of the loop of `_process_state_data`. */
  function StateStep(region: string, account: string): Value -> Harvest {
    (res: Value) =>
      if !res.Dict? then Failure
      else if GetOr(res.entries, "mode", Null) == Str("data") then Nothing
      else Harvest(ResourceArns(res.entries, !Truthy(GetOr(res.entries, "module", Null)), region, account), false)
  }

  /** `_process_state_data`: what it adds, and whether it raised. */
  function StateHarvest(state: Entries, region: string, account: string): Harvest {
    match Iter(GetOr(state, "resources", List([])))
    case Raised => Failure
    case Ok(rs) => HarvestAll(rs, StateStep(region, account))
  }

  /** The loops of the source, element by element, adding to `known`. */
  method HarvestLoop(step: Value -> Harvest, xs: seq<Value>, known: set<Value>)
    returns (updated: set<Value>, failed: bool)
    ensures updated == known + HarvestAll(xs, step).found
    ensures failed == HarvestAll(xs, step).failed
  {
    updated := known;
    var j := 0;
    while j < |xs|
      invariant 0 <= j <= |xs|
      invariant known + HarvestAll(xs, step).found == updated + HarvestAll(xs[j..], step).found
      invariant HarvestAll(xs, step).failed == HarvestAll(xs[j..], step).failed
    {
      assert xs[j..][1..] == xs[j + 1..];
      var h := step(xs[j]);
      updated := updated + h.found;
      if h.failed {
        return updated, true;
      }
      j := j + 1;
    }
    failed := false;
  }

  /** `_process_resource` */
  method ProcessResource(res: Entries, known: set<Value>, region: string, account: string)
    returns (updated: set<Value>)
    ensures updated == known + ResourceArns(res, true, region, account)
  {
    var insts := Iter(GetOr(res, "instances", List([])));
    if insts.Raised? {
      return known;
    }
    var failed;
    updated, failed := HarvestLoop(InstanceStep(TypeAndName(res), true, region, account), insts.value, known);
  }

  /** `_process_module_resource` */
  method ProcessModuleResource(res: Entries, known: set<Value>, region: string, account: string)
    returns (updated: set<Value>)
    ensures updated == known + ResourceArns(res, false, region, account)
  {
    var insts := Iter(GetOr(res, "instances", List([])));
    if insts.Raised? {
      return known;
    }
    var failed;
    updated, failed := HarvestLoop(InstanceStep(TypeAndName(res), false, region, account), insts.value, known);
  }

  /** `_process_state_data`; `raised` says whether it ended with an
      exception, which its caller catches. */
  method ProcessStateData(state: Entries, known: set<Value>, region: string, account: string)
    returns (updated: set<Value>, raised: bool)
    ensures updated == known + StateHarvest(state, region, account).found
    ensures raised == StateHarvest(state, region, account).failed
  {
    var rs := Iter(GetOr(state, "resources", List([])));
    if rs.Raised? {
      return known, true;
    }
    var xs := rs.value;
    updated := known;
    var j := 0;
    while j < |xs|
      invariant 0 <= j <= |xs|
      invariant known + HarvestAll(xs, StateStep(region, account)).found
        == updated + HarvestAll(xs[j..], StateStep(region, account)).found
      invariant HarvestAll(xs, StateStep(region, account)).failed == HarvestAll(xs[j..], StateStep(region, account)).failed
    {
      assert xs[j..][1..] == xs[j + 1..];
      var res := xs[j];
      if !res.Dict? {
        return updated, true;
      }
      if GetOr(res.entries, "mode", Null) != Str("data") {
        if Truthy(GetOr(res.entries, "module", Null)) {
          updated := ProcessModuleResource(res.entries, updated, region, account);
        } else {
          updated := ProcessResource(res.entries, updated, region, account);
        }
      }
      j := j + 1;
    }
    raised := false;
  }

  // ------------------------------------------------------------ lemmas: identifiers

  /** The identifiers of a resource: its `arn`, its `id`, `type:id` when both
      exist, and the bucket ARN of an S3 bucket with a `name`; the only
      failure is an arn or id that cannot go into a set. */
  lemma IdentifiersMembers(res: Entries, v: Value)
    ensures Identifiers(res).Raised? <==>
      (HasKey(res, "arn") && !Hashable(GetOr(res, "arn", Null))) || (HasKey(res, "id") && !Hashable(GetOr(res, "id", Null)))
    ensures Identifiers(res).Ok? ==> (v in Identifiers(res).value <==>
      (HasKey(res, "arn") && v == GetOr(res, "arn", Null))
      || (HasKey(res, "id") && v == GetOr(res, "id", Null))
      || (HasKey(res, "id") && HasKey(res, "type") && v == Str(Show(GetOr(res, "type", Null)) + ":" + Show(GetOr(res, "id", Null))))
      || (GetOr(res, "type", Null) == Str("aws_s3_bucket") && HasKey(res, "name") && v == Str("arn:aws:s3:::" + Show(GetOr(res, "name", Null)))))
  {
  }

  /** A resource is reported iff it is one of the service's resources and
      none of its identifiers is known. */
  lemma {:induction false} UnmanagedMember(resources: seq<Entries>, known: set<Value>, r: Entries)
    requires Unmanaged(resources, known).Ok?
    ensures r in Unmanaged(resources, known).value <==>
      r in resources && Identifiers(r).Ok? && Identifiers(r).value * known == {}
    decreases |resources|
  {
    if resources != [] {
      var init := resources[..|resources| - 1];
      UnmanagedMember(init, known, r);
      assert resources == init + [resources[|resources| - 1]];
      if r in resources && r != resources[|resources| - 1] {
        var k :| 0 <= k < |resources| && resources[k] == r;
        assert init[k] == r;
      }
      if r in resources && Identifiers(r).Ok? && Identifiers(r).value * known == {} && r in init {
        var k :| 0 <= k < |init| && init[k] == r;
        UnmanagedOk(resources, known, k);
      }
    }
  }

  /** When the whole loop succeeds, every resource's identifiers could be
      computed. */
  lemma {:induction false} UnmanagedOk(resources: seq<Entries>, known: set<Value>, k: nat)
    requires Unmanaged(resources, known).Ok? && k < |resources|
    ensures Identifiers(resources[k]).Ok?
    decreases |resources|
  {
    if k < |resources| - 1 {
      UnmanagedOk(resources[..|resources| - 1], known, k);
    }
  }

  /** A resource whose `arn` is in the state is never reported. */
  lemma KnownArnIsManaged(resources: seq<Entries>, known: set<Value>, r: Entries)
    requires Unmanaged(resources, known).Ok?
    requires HasKey(r, "arn") && GetOr(r, "arn", Null) in known
    ensures r !in Unmanaged(resources, known).value
  {
    UnmanagedMember(resources, known, r);
    if Identifiers(r).Ok? {
      IdentifiersMembers(r, GetOr(r, "arn", Null));
      assert GetOr(r, "arn", Null) in Identifiers(r).value * known;
    }
  }

  /** A service is in the report only with a non-empty list, namely the
      unmanaged resources of its last entry; services without any are left
      out. */
  lemma {:induction false} AuditEntries(services: seq<(string, seq<Entries>)>, known: set<Value>, name: string)
    requires Audit(services, known).Ok?
    ensures name in Audit(services, known).value ==>
      Audit(services, known).value[name] != []
      && exists i :: (0 <= i < |services| && services[i].0 == name
                      && Unmanaged(services[i].1, known) == Ok(Audit(services, known).value[name]))
    decreases |services|
  {
    if services != [] {
      var init := services[..|services| - 1];
      var last := services[|services| - 1];
      AuditEntries(init, known, name);
      if name in Audit(services, known).value && !(name == last.0 && Unmanaged(last.1, known).value != []) {
        var i :| 0 <= i < |init| && init[i].0 == name
          && Unmanaged(init[i].1, known) == Ok(Audit(init, known).value[name]);
        assert services[i] == init[i];
      }
    }
  }

  /** A service with an unmanaged resource gets an entry. */
  lemma {:induction false} AuditKeepsService(services: seq<(string, seq<Entries>)>, known: set<Value>, i: nat)
    requires Audit(services, known).Ok? && i < |services|
    requires Unmanaged(services[i].1, known).Ok? && Unmanaged(services[i].1, known).value != []
    ensures services[i].0 in Audit(services, known).value
    decreases |services|
  {
    if i < |services| - 1 {
      AuditKeepsService(services[..|services| - 1], known, i);
    }
  }

  // ------------------------------------------------------------ lemmas: ARNs

  /** The ARN is built only for the seven EC2 kinds, which are matched
      against the text after the last `.` of the `aws_`-stripped argument. */
  lemma ConstructArnKinds(resourceType: string, id: string, region: string, account: string)
    ensures var t := if StartsWith(resourceType, "aws_") then resourceType[4..] else resourceType;
      var kind := AfterLast(t, '.');
      ConstructArn(resourceType, id, region, account).Some? <==>
        kind == "security_group" || kind == "subnet" || kind == "vpc" || kind == "route_table"
        || kind == "internet_gateway" || kind == "nat_gateway" || kind == "network_interface"
  {
  }

  /** A constructed ARN is an EC2 ARN in the region and account, ending in the id. */
  lemma ConstructArnShape(resourceType: string, id: string, region: string, account: string)
    requires ConstructArn(resourceType, id, region, account).Some?
    ensures var a := ConstructArn(resourceType, id, region, account).value;
      StartsWith(a, "arn:aws:ec2:" + region + ":" + account + ":") && a[|a| - |id|..] == id
  {
    var t := if StartsWith(resourceType, "aws_") then resourceType[4..] else resourceType;
    var seg := Ec2Segment(AfterLast(t, '.')).value;
    HeadAndTail("arn:aws:ec2:" + region + ":" + account + ":", seg, id);
  }

  lemma HeadAndTail(head: string, seg: string, id: string)
    ensures var a := head + seg + "/" + id;
      StartsWith(a, head) && a[|a| - |id|..] == id
  {
    var a := head + seg + "/" + id;
    assert a[..|head|] == head;
  }

  /** Since the argument is `type.name`, the kind is the Terraform resource
      name: `aws_vpc.main` gets no ARN, while a VPC resource named `vpc`
      does. */
  lemma ConstructArnUsesName(id: string, region: string, account: string)
    ensures ConstructArn("aws_vpc.main", id, region, account).None?
    ensures ConstructArn("aws_vpc.vpc", id, region, account) == Some("arn:aws:ec2:" + region + ":" + account + ":vpc/" + id)
  {
    assert StartsWith("aws_vpc.main", "aws_");
    assert "aws_vpc.main"[4..] == "vpc" + ['.'] + "main";
    AfterLastSep("vpc", '.', "main");
    assert StartsWith("aws_vpc.vpc", "aws_");
    assert "aws_vpc.vpc"[4..] == "vpc" + ['.'] + "vpc";
    AfterLastSep("vpc", '.', "vpc");
    assert "arn:aws:ec2:" + region + ":" + account + ":" + "vpc" + "/" + id
      == "arn:aws:ec2:" + region + ":" + account + ":vpc/" + id;
  }

  /** Everything harvested from nested attributes is a string containing `:arn:`. */
  lemma ValueArnsAreArns(v: Value)
    ensures forall a :: a in ValueArns(v) ==> a.Str? && Contains(a.s, ":arn:")
    decreases v, 1
  {
    match v
    case Dict(es) => NestedArnsAreArns(es);
    case List(xs) => ListArnsAreArns(xs);
    case _ =>
  }

  lemma NestedArnsAreArns(es: Entries)
    ensures forall a :: a in NestedArns(es) ==> a.Str? && Contains(a.s, ":arn:")
    decreases es, 0
  {
    if es != [] {
      var kv := es[0];
      assert kv in es;
      assert kv.1 < kv;
      ValueArnsAreArns(kv.1);
      NestedArnsAreArns(es[1..]);
    }
  }

  lemma ListArnsAreArns(xs: seq<Value>)
    ensures forall a :: a in ListArns(xs) ==> a.Str? && Contains(a.s, ":arn:")
    decreases xs, 0
  {
    if xs != [] {
      if xs[0].Dict? {
        NestedArnsAreArns(xs[0].entries);
      }
      ListArnsAreArns(xs[1..]);
    }
  }

  /** Every attribute value found: a string with `:arn:`, the ARNs of a
      nested dict and those of the dicts in a list. */
  lemma {:induction false} NestedArnsCover(es: Entries, i: nat)
    requires i < |es|
    ensures ValueArns(es[i].1) <= NestedArns(es)
    decreases i
  {
    if i > 0 {
      NestedArnsCover(es[1..], i - 1);
      assert es[1..][i - 1] == es[i];
    }
  }

  lemma {:induction false} ListArnsCover(xs: seq<Value>, j: nat)
    requires j < |xs| && xs[j].Dict?
    ensures NestedArns(xs[j].entries) <= ListArns(xs)
    decreases j
  {
    if j > 0 {
      ListArnsCover(xs[1..], j - 1);
      assert xs[1..][j - 1] == xs[j];
    }
  }

  /** Strings directly inside a list are not looked at. */
  lemma {:induction false} BareStringsIgnored(xs: seq<Value>)
    requires forall j :: 0 <= j < |xs| ==> xs[j].Str?
    ensures ListArns(xs) == {}
    decreases |xs|
  {
    if xs != [] {
      BareStringsIgnored(xs[1..]);
    }
  }

  // ------------------------------------------------------------ lemmas: state data

  /** What was added before an exception stays added. */
  lemma {:induction false} HarvestKeepsPrefix(xs: seq<Value>, step: Value -> Harvest, k: nat)
    requires k <= |xs|
    ensures HarvestAll(xs[..k], step).found <= HarvestAll(xs, step).found
    decreases k
  {
    if k > 0 {
      assert xs[..k][1..] == xs[1..][..k - 1];
      HarvestKeepsPrefix(xs[1..], step, k - 1);
    }
  }

  /** When no element raises, the loop adds what each element adds. */
  lemma {:induction false} HarvestUnion(xs: seq<Value>, step: Value -> Harvest, k: nat)
    requires forall j :: 0 <= j < |xs| ==> !step(xs[j]).failed
    requires k < |xs|
    ensures step(xs[k]).found <= HarvestAll(xs, step).found
    ensures !HarvestAll(xs, step).failed
    decreases |xs|
  {
    if k > 0 {
      HarvestUnion(xs[1..], step, k - 1);
    } else if |xs| > 1 {
      HarvestUnion(xs[1..], step, 0);
    }
  }

  /** Data sources add nothing; a resource with a truthy `module` goes the
      module way, any other the root way. */
  lemma StateStepRoutes(region: string, account: string, res: Entries)
    ensures GetOr(res, "mode", Null) == Str("data") ==> StateStep(region, account)(Dict(res)) == Nothing
    ensures GetOr(res, "mode", Null) != Str("data") ==>
      StateStep(region, account)(Dict(res))
        == Harvest(ResourceArns(res, !Truthy(GetOr(res, "module", Null)), region, account), false)
  {
  }

  /** An instance is its attributes, when it has them. */
  lemma InstanceAttributes(resourceType: string, root: bool, region: string, account: string, attrs: Value)
    ensures InstanceStep(resourceType, root, region, account)(Dict([("attributes", attrs)]))
      == AttributesHarvest(resourceType, attrs, root, region, account)
  {
    assert [("attributes", attrs)][0].0 == "attributes";
  }

  /** A root instance whose attributes hold an `arn` adds it, and so does a
      module instance. */
  lemma InstanceArnAdded(resourceType: string, attrs: Entries, root: bool, region: string, account: string)
    requires HasKey(attrs, "arn") && Hashable(GetOr(attrs, "arn", Null))
    ensures var h := InstanceStep(resourceType, root, region, account)(Dict([("attributes", Dict(attrs))]));
      GetOr(attrs, "arn", Null) in h.found && NestedArns(attrs) <= h.found && !h.failed
  {
    InstanceAttributes(resourceType, root, region, account, Dict(attrs));
    var built := if root then Constructed(resourceType, Dict(attrs), true, region, account) else Nothing;
    assert !built.failed;
  }

  /** Attributes without an `arn`: only the constructed ARN (root
      resources) and the nested ones can be added. */
  lemma AttributesWithoutArn(resourceType: string, attrs: Entries, root: bool, region: string, account: string)
    requires !HasKey(attrs, "arn")
    ensures AttributesHarvest(resourceType, Dict(attrs), root, region, account)
      == Then(if root then Constructed(resourceType, Dict(attrs), false, region, account) else Nothing,
              Harvest(NestedArns(attrs), false))
  {
  }

  /** With an `id` and no `arn`, the constructed ARN is added when there is one. */
  lemma ConstructedWithId(resourceType: string, attrs: Entries, region: string, account: string)
    requires HasKey(attrs, "id") && !HasKey(attrs, "arn")
    ensures Constructed(resourceType, Dict(attrs), false, region, account)
      == match ConstructArn(resourceType, Show(GetOr(attrs, "id", Null)), region, account)
         case Some(a) => Harvest({Str(a)}, false) case None => Nothing
  {
  }

  /** Without an `arn` but with an `id`, a root instance adds the constructed
      ARN when there is one. */
  lemma RootInstanceConstructs(resourceType: string, attrs: Entries, region: string, account: string)
    requires !HasKey(attrs, "arn") && HasKey(attrs, "id")
    ensures var a := ConstructArn(resourceType, Show(GetOr(attrs, "id", Null)), region, account);
      InstanceStep(resourceType, true, region, account)(Dict([("attributes", Dict(attrs))]))
        == Harvest((if a.Some? then {Str(a.value)} else {}) + NestedArns(attrs), false)
  {
    InstanceAttributes(resourceType, true, region, account, Dict(attrs));
    AttributesWithoutArn(resourceType, attrs, true, region, account);
    ConstructedWithId(resourceType, attrs, region, account);
  }

  /** A module instance never adds a constructed ARN. */
  lemma ModuleInstanceConstructsNothing(resourceType: string, attrs: Entries, region: string, account: string)
    requires !HasKey(attrs, "arn")
    ensures InstanceStep(resourceType, false, region, account)(Dict([("attributes", Dict(attrs))]))
      == Harvest(NestedArns(attrs), false)
  {
    InstanceAttributes(resourceType, false, region, account, Dict(attrs));
    AttributesWithoutArn(resourceType, attrs, false, region, account);
  }

  /** End to end: when the state's resources are all dicts, an `arn`
      attribute of a root or module instance makes a collected resource with
      that `arn` managed. */
  lemma StateArnManages(state: Entries, rs: seq<Value>, k: nat, m: nat, attrs: Entries,
                        known: set<Value>, region: string, account: string,
                        resources: seq<Entries>, r: Entries)
    requires GetOr(state, "resources", List([])) == List(rs)
    requires forall j :: 0 <= j < |rs| ==> rs[j].Dict?
    requires k < |rs| && GetOr(rs[k].entries, "mode", Null) != Str("data")
    requires GetOr(rs[k].entries, "instances", List([])).List?
    requires m < |GetOr(rs[k].entries, "instances", List([])).items|
    requires GetOr(rs[k].entries, "instances", List([])).items[m] == Dict([("attributes", Dict(attrs))])
    requires HasKey(attrs, "arn") && Hashable(GetOr(attrs, "arn", Null))
    requires forall j :: 0 <= j < m ==>
      !InstanceStep(TypeAndName(rs[k].entries), !Truthy(GetOr(rs[k].entries, "module", Null)), region, account)(
        GetOr(rs[k].entries, "instances", List([])).items[j]).failed
    requires Unmanaged(resources, known + StateHarvest(state, region, account).found).Ok?
    requires HasKey(r, "arn") && GetOr(r, "arn", Null) == GetOr(attrs, "arn", Null)
    ensures r !in Unmanaged(resources, known + StateHarvest(state, region, account).found).value
  {
    var res := rs[k].entries;
    var root := !Truthy(GetOr(res, "module", Null));
    var step := InstanceStep(TypeAndName(res), root, region, account);
    var insts := GetOr(res, "instances", List([])).items;
    InstanceArnAdded(TypeAndName(res), attrs, root, region, account);
    HarvestThrough(insts, step, m);
    assert GetOr(attrs, "arn", Null) in ResourceArns(res, root, region, account);
    forall j | 0 <= j < |rs| ensures !StateStep(region, account)(rs[j]).failed {
    }
    HarvestUnion(rs, StateStep(region, account), k);
    KnownArnIsManaged(resources, known + StateHarvest(state, region, account).found, r);
  }

  /** An element reached without an earlier exception adds what it adds. */
  lemma {:induction false} HarvestThrough(xs: seq<Value>, step: Value -> Harvest, m: nat)
    requires m < |xs|
    requires forall j :: 0 <= j < m ==> !step(xs[j]).failed
    ensures step(xs[m]).found <= HarvestAll(xs, step).found
    decreases m
  {
    if m > 0 {
      HarvestThrough(xs[1..], step, m - 1);
    }
  }
}
