/** The collectors' shared helpers: the service a resource type belongs to,
    the ARN a collector builds, the Key/Value tag list as a dict, the
    identifier under which a collected resource is compared with the state
    file, and the registry of collector classes.

    The STS account id and the session region are parameters.
 */
module CollectorBase {
  import opened Py
  import opened HclText
  import Arn

  /** The type prefixes that belong to the EC2 service. */
  const Ec2Prefixes: seq<string> := [
    "aws_vpc", "aws_subnet", "aws_instance", "aws_ebs_volume",
    "aws_internet_gateway", "aws_nat_gateway", "aws_network_acl",
    "aws_route", "aws_route_table", "aws_vpc_dhcp_options",
    "aws_vpc_endpoint"
  ]

  predicate HasEc2Prefix(resourceType: string) {
    exists i :: 0 <= i < |Ec2Prefixes| && StartsWith(resourceType, Ec2Prefixes[i])
  }

  /** `get_service_for_resource_type` */
  function ServiceForResourceType(resourceType: string): (r: string)
    ensures HasEc2Prefix(resourceType) ==> r == "ec2"
    ensures !HasEc2Prefix(resourceType) && !StartsWith(resourceType, "aws_") ==> r == ""
    ensures !HasEc2Prefix(resourceType) ==> '_' !in r
  {
    if HasEc2Prefix(resourceType) then "ec2"
    else if StartsWith(resourceType, "aws_") then Split(resourceType[4..], '_')[0]
    else ""
  }

  /** For a type built as `aws_<service>_<rest>` outside EC2, the service is
      read back. */
  lemma ServiceRoundTrip(service: string, rest: string)
    requires '_' !in service
    requires !HasEc2Prefix("aws_" + service + "_" + rest)
    ensures ServiceForResourceType("aws_" + service + "_" + rest) == service
  {
    var t := "aws_" + service + "_" + rest;
    assert t[..4] == "aws_";
    assert t[4..] == service + "_" + rest;
    BeforeFirstSep(service, '_', rest);
  }

  /** The EC2 test is a prefix test: Route 53 zones are counted as EC2. */
  lemma Route53CountsAsEc2()
    ensures ServiceForResourceType("aws_route53_zone") == "ec2"
  {
    assert StartsWith("aws_route53_zone", Ec2Prefixes[7]);
  }

  /** `get_type_display_name`: the collector's display name, else the type. */
  function TypeDisplayName(resourceTypes: map<string, string>, resourceType: string): (r: string)
    ensures resourceType in resourceTypes ==> r == resourceTypes[resourceType]
    ensures resourceType !in resourceTypes ==> r == resourceType
  {
    if resourceType in resourceTypes then resourceTypes[resourceType] else resourceType
  }

  // ------------------------------------------------------------ tags

  /** A tag the comprehension can read: a dict with a string `Key` and a
      `Value`. */
  predicate WellFormedTag(t: Value) {
    t.Dict? && HasKey(t.entries, "Key") && Lookup(t.entries, "Key").value.Str? && HasKey(t.entries, "Value")
  }

  /** The tag is well formed and its key is `k`. */
  predicate TagKeyIs(t: Value, k: string) {
    WellFormedTag(t) && Lookup(t.entries, "Key").value == Str(k)
  }

  /** `{tag["Key"]: tag["Value"] for tag in tags} if tags else {}`: empty
      for no tags; for a list, a dict exactly when every tag is well
      formed, keyed by exactly the tags' keys; anything else raises. */
  function ExtractTags(tags: Value): (r: Outcome<Entries>)
    ensures !Truthy(tags) ==> r == Ok([])
    ensures Truthy(tags) && !tags.List? ==> r.Raised?
    ensures tags.List? ==> (r.Ok? <==> AllWellFormed(tags.items))
    ensures tags.List? && r.Ok? ==> KeysOfTags(r.value, tags.items)
  {
    if !Truthy(tags) then Ok([])
    else
      var items :- Iter(tags);
      assert !tags.List? ==> !WellFormedTag(items[0]);
      TagEntries(items)
  }

  /** Every tag of the list can be read. */
  predicate AllWellFormed(items: seq<Value>) {
    forall i :: 0 <= i < |items| ==> WellFormedTag(items[i])
  }

  /** The keys of `es` are exactly the keys of the tags. */
  ghost predicate KeysOfTags(es: Entries, items: seq<Value>) {
    forall k :: HasKey(es, k) <==> exists i :: 0 <= i < |items| && TagKeyIs(items[i], k)
  }

  function TagEntries(items: seq<Value>): (r: Outcome<Entries>)
    ensures r.Ok? <==> AllWellFormed(items)
    ensures r.Ok? ==> KeysOfTags(r.value, items)
    decreases |items|
  {
    if items == [] then Ok([])
    else
      var pre, last := items[..|items| - 1], items[|items| - 1];
      assert items == pre + [last];
      var init :- TagEntries(pre);
      var k :- Item(last, "Key");
      var key :- AsStr(k);
      var v :- Item(last, "Value");
      TagKeysStep(pre, last, init, key, v);
      Ok(Put(init, key, v))
  }

  /** The keys after one more tag are the keys before it and that tag's. */
  lemma TagKeysStep(pre: seq<Value>, last: Value, init: Entries, key: string, v: Value)
    requires AllWellFormed(pre) && TagKeyIs(last, key) && KeysOfTags(init, pre)
    ensures AllWellFormed(pre + [last])
    ensures KeysOfTags(Put(init, key, v), pre + [last])
  {
    var items := pre + [last];
    assert forall i :: 0 <= i < |pre| ==> items[i] == pre[i];
    var r := Put(init, key, v);
    forall k
      ensures HasKey(r, k) <==> exists i :: 0 <= i < |items| && TagKeyIs(items[i], k)
    {
      if k == key {
        assert TagKeyIs(items[|pre|], k);
      } else {
        assert Lookup(r, k) == Lookup(init, k);
        if HasKey(init, k) {
          var i :| 0 <= i < |pre| && TagKeyIs(pre[i], k);
          assert TagKeyIs(items[i], k);
        }
        if exists i :: 0 <= i < |items| && TagKeyIs(items[i], k) {
          var i :| 0 <= i < |items| && TagKeyIs(items[i], k);
          assert i < |pre| && TagKeyIs(pre[i], k);
        }
      }
    }
  }

  /** Each key maps to the value of the last tag with that key. */
  lemma {:induction false} TagEntriesLastWins(items: seq<Value>, i: nat, key: string, value: Value)
    requires TagEntries(items).Ok?
    requires i < |items| && items[i].Dict?
    requires Lookup(items[i].entries, "Key") == Some(Str(key))
    requires Lookup(items[i].entries, "Value") == Some(value)
    requires forall j :: i < j < |items| ==> Item(items[j], "Key") != Ok(Str(key))
    ensures Lookup(TagEntries(items).value, key) == Some(value)
    decreases |items|
  {
    var init := items[..|items| - 1];
    if i < |items| - 1 {
      TagEntriesLastWins(init, i, key, value);
    }
  }

  /** A tag list with one well-formed tag gives a one-key dict. */
  lemma ExtractOneTag(key: string, value: Value)
    ensures ExtractTags(List([Dict([("Key", Str(key)), ("Value", value)])])) == Ok([(key, value)])
  {
    var tag := Dict([("Key", Str(key)), ("Value", value)]);
    assert [tag][..0] == [];
    assert Lookup(tag.entries, "Key") == Some(Str(key));
    assert tag.entries[1..][0] == ("Value", value);
    assert Lookup(tag.entries, "Value") == Some(value);
    assert TagEntries([tag]) == Ok(Put([], key, value));
  }

  // ------------------------------------------------------------ ARNs

  /** `build_arn` of a collector of service `service`: an ARN of the
      service `ArnService` names, ending in the resource id. */
  function BuildArn(service: string, account: string, region: string, resourceType: string, id: string): (r: string)
    ensures StartsWith(r, "arn:aws:" + ArnService(service, resourceType) + ":")
    ensures |r| >= |id| && r[|r| - |id|..] == id
  {
    if resourceType == "bucket" then "arn:aws:s3:::" + id
    else if StartsWith(resourceType, "role") || StartsWith(resourceType, "policy") then
      "arn:aws:iam::" + account + ":" + resourceType + "/" + id
    else if service == "ec2" then
      "arn:aws:ec2:" + region + ":" + account + ":" + resourceType + "/" + id
    else "arn:aws:" + service + ":" + region + ":" + account + ":" + resourceType + "/" + id
  }

  /** The service the ARN names: S3 for buckets, IAM for roles and
      policies, the collector's own service otherwise. */
  function ArnService(service: string, resourceType: string): string {
    if resourceType == "bucket" then "s3"
    else if StartsWith(resourceType, "role") || StartsWith(resourceType, "policy") then "iam"
    else service
  }

  /** S3 buckets, IAM roles and IAM policies have ARNs without a region. */
  predicate Global(resourceType: string) {
    resourceType == "bucket" || StartsWith(resourceType, "role") || StartsWith(resourceType, "policy")
  }

  /** Read back with `split(":")`, the ARN has its six fields in place: the
      service, the region (empty for buckets, roles and policies), the
      account (empty for buckets) and `type/id` (just the id for buckets). */
  lemma BuildArnFields(service: string, account: string, region: string, resourceType: string, id: string)
    requires ':' !in service && ':' !in account && ':' !in region && ':' !in resourceType && ':' !in id
    ensures Split(BuildArn(service, account, region, resourceType, id), ':') ==
      ["arn", "aws", ArnService(service, resourceType),
       if Global(resourceType) then "" else region,
       if resourceType == "bucket" then "" else account,
       if resourceType == "bucket" then id else resourceType + "/" + id]
  {
    var fields := ["arn", "aws", ArnService(service, resourceType),
       if Global(resourceType) then "" else region,
       if resourceType == "bucket" then "" else account,
       if resourceType == "bucket" then id else resourceType + "/" + id];
    assert forall i :: 0 <= i < |fields| ==> ':' !in fields[i];
    BuildArnJoin(service, account, region, resourceType, id, fields);
    SplitJoin(fields, ':');
  }

  lemma BuildArnJoin(service: string, account: string, region: string, resourceType: string, id: string, fields: seq<string>)
    requires fields == ["arn", "aws", ArnService(service, resourceType),
       if Global(resourceType) then "" else region,
       if resourceType == "bucket" then "" else account,
       if resourceType == "bucket" then id else resourceType + "/" + id]
    ensures BuildArn(service, account, region, resourceType, id) == Join(":", fields)
  {
    if resourceType == "bucket" {
      Arn.S3Fields(id);
    } else if Global(resourceType) {
      Arn.IamFields(account, resourceType, id);
    } else if service == "ec2" {
      Arn.Ec2Fields(region, account, resourceType, id);
    } else {
      Arn.RegionalFields(service, region, account, resourceType, id);
    }
  }

  // ------------------------------------------------------------ identifiers

  /** The IAM special forms, or None when they do not apply; raises when the
      type is a non-string value that is truthy. */
  function IamIdentifier(res: Entries, rtype: Value, account: string): Outcome<Option<string>> {
    if !Truthy(rtype) then Ok(None)
    else
      var t :- AsStr(rtype);
      if !StartsWith(t, "aws_iam_") then Ok(None)
      else if t == "aws_iam_role_policy_attachment" then
        var role := GetOr(res, "role", Null);
        var policy := GetOr(res, "policy_arn", Null);
        Ok(if Truthy(role) && Truthy(policy) then
             Some("arn:aws:iam::" + account + ":role/" + Show(role) + "/" + Show(policy))
           else None)
      else if t == "aws_iam_user_policy" then
        var user := GetOr(res, "user", Null);
        var name := GetOr(res, "name", Null);
        Ok(if Truthy(user) && Truthy(name) then Some(Show(user) + ":" + Show(name)) else None)
      else if t == "aws_iam_user_policy_attachment" then
        var user := GetOr(res, "user", Null);
        var policy := GetOr(res, "policy_arn", Null);
        Ok(if Truthy(user) && Truthy(policy) then Some(Show(user) + ":" + Show(policy)) else None)
      else Ok(None)
  }

  /** The VPC endpoint form, computed inside `try`: None on any error, and
      also when there is no endpoint id (the identifier is then unbound). */
  function VpcEndpointIdentifier(res: Entries): Value {
    match VpcEndpointTry(res)
    case Ok(v) => v
    case Raised => Null
  }

  function VpcEndpointTry(res: Entries): Outcome<Value> {
    var details := GetOr(res, "details", Dict([]));
    if !details.Dict? then Raised  // `details.get` on a value that is not a dict
    else
      var vpc := GetOr(details.entries, "vpc_id", Null);
      var service := GetOr(details.entries, "service_name", Null);
      var endpoint := GetOr(res, "id", Null);
      var name := EndpointName(res, details.entries);
      if !Truthy(endpoint) then Raised
      else
        var t := "aws_vpc_endpoint";
        if Truthy(name) && Truthy(vpc) && Truthy(service) then
          Ok(Str(t + ":" + Show(name) + ":" + Show(vpc) + ":" + Show(service) + ":" + Show(endpoint)))
        else if Truthy(vpc) && Truthy(service) then
          Ok(Str(t + ":" + Show(vpc) + ":" + Show(service) + ":" + Show(endpoint)))
        else Ok(Str(t + ":" + Show(endpoint)))
  }

  /** The name a VPC endpoint's identifier carries: the details' `name`,
      else the Name tag of a tag list. */
  function EndpointName(res: Entries, details: Entries): Value {
    var detailsName := GetOr(details, "name", Null);
    var tags := GetOr(res, "tags", List([]));
    if Truthy(detailsName) then detailsName
    else if tags.List? then Or(ScanNameTag(tags.items), detailsName)
    else detailsName
  }

  /** `generate_resource_identifier`.  The result is a value because the
      `arn` entry and the bare id are returned as they are, and the VPC
      endpoint form may be None. */
  function ResourceIdentifier(res: Entries, account: string): (r: Outcome<Value>)
    ensures HasKey(res, "arn") ==> r == Ok(Lookup(res, "arn").value)
    ensures r.Raised? <==> !HasKey(res, "arn") && Truthy(GetOr(res, "type", Null)) && !GetOr(res, "type", Null).Str?
    ensures !HasKey(res, "arn") && !Truthy(GetOr(res, "type", Null)) && !Truthy(GetOr(res, "id", Null)) ==> r == Ok(Str(""))
  {
    if HasKey(res, "arn") then Ok(GetOr(res, "arn", Null))
    else
      var rtype := GetOr(res, "type", Null);
      var rid := GetOr(res, "id", Null);
      var iam :- IamIdentifier(res, rtype, account);
      if iam.Some? then Ok(Str(iam.value))
      else if rtype == Str("aws_vpc_endpoint") then Ok(VpcEndpointIdentifier(res))
      else if Truthy(rtype) && Truthy(rid) then
        var nameTag := NameTagOf(GetOr(res, "tags", List([])));
        if Truthy(nameTag) then Ok(Str(Show(rtype) + ":" + Show(nameTag) + ":" + Show(rid)))
        else Ok(Str(Show(rtype) + ":" + Show(rid)))
      else if Truthy(rid) then Ok(rid)
      else Ok(Str(""))
  }

  /** The `arn` entry wins whenever the key is present, even when empty. */
  lemma ArnKeyWins(res: Entries, account: string)
    requires HasKey(res, "arn")
    ensures ResourceIdentifier(res, account) == Ok(Lookup(res, "arn").value)
  {
  }

  /** A plain resource (no arn, a type that is not IAM nor a VPC endpoint,
      and an id) is identified by `type:id`, with the Name tag in between
      when there is one. */
  lemma DefaultIdentifier(res: Entries, account: string, t: string, id: string)
    requires !HasKey(res, "arn")
    requires GetOr(res, "type", Null) == Str(t) && t != "" && !StartsWith(t, "aws_iam_") && t != "aws_vpc_endpoint"
    requires GetOr(res, "id", Null) == Str(id) && id != ""
    ensures var name := NameTagOf(GetOr(res, "tags", List([])));
      ResourceIdentifier(res, account) ==
        Ok(Str(if Truthy(name) then t + ":" + Show(name) + ":" + id else t + ":" + id))
  {
  }

  /** A VPC endpoint without an id has no identifier. */
  lemma EndpointWithoutId(res: Entries, account: string)
    requires !HasKey(res, "arn") && GetOr(res, "type", Null) == Str("aws_vpc_endpoint")
    requires !Truthy(GetOr(res, "id", Null))
    ensures ResourceIdentifier(res, account) == Ok(Null)
  {
  }

  /** The three IAM forms: a role policy attachment with a role and a
      policy ARN is identified by `arn:aws:iam::<account>:role/<role>/<policy_arn>`,
      a user policy with a user and a name by `user:name`, and a user policy
      attachment with a user and a policy ARN by `user:policy_arn`. */
  lemma IamIdentifierForms(res: Entries, account: string)
    requires !HasKey(res, "arn")
    ensures var t := GetOr(res, "type", Null);
      var role := GetOr(res, "role", Null);
      var policy := GetOr(res, "policy_arn", Null);
      t == Str("aws_iam_role_policy_attachment") && Truthy(role) && Truthy(policy) ==>
        ResourceIdentifier(res, account)
          == Ok(Str("arn:aws:iam::" + account + ":role/" + Show(role) + "/" + Show(policy)))
    ensures var t := GetOr(res, "type", Null);
      var user := GetOr(res, "user", Null);
      var name := GetOr(res, "name", Null);
      t == Str("aws_iam_user_policy") && Truthy(user) && Truthy(name) ==>
        ResourceIdentifier(res, account) == Ok(Str(Show(user) + ":" + Show(name)))
    ensures var t := GetOr(res, "type", Null);
      var user := GetOr(res, "user", Null);
      var policy := GetOr(res, "policy_arn", Null);
      t == Str("aws_iam_user_policy_attachment") && Truthy(user) && Truthy(policy) ==>
        ResourceIdentifier(res, account) == Ok(Str(Show(user) + ":" + Show(policy)))
  {
  }

  /** A VPC endpoint with an id and dict details is identified by
      `aws_vpc_endpoint:<name>:<vpc>:<service>:<id>` when it has all of a
      name, a VPC and a service, by `aws_vpc_endpoint:<vpc>:<service>:<id>`
      when it has the VPC and the service only, and by `aws_vpc_endpoint:<id>`
      otherwise; details that are not a dict make the lookup raise, which is
      caught, and the identifier is None. */
  lemma EndpointIdentifierForms(res: Entries, account: string)
    requires !HasKey(res, "arn") && GetOr(res, "type", Null) == Str("aws_vpc_endpoint")
    requires Truthy(GetOr(res, "id", Null))
    ensures var details := GetOr(res, "details", Dict([]));
      details.Dict? ==>
        var vpc := GetOr(details.entries, "vpc_id", Null);
        var service := GetOr(details.entries, "service_name", Null);
        var name := EndpointName(res, details.entries);
        var id := Show(GetOr(res, "id", Null));
        Truthy(name) && Truthy(vpc) && Truthy(service) ==>
          ResourceIdentifier(res, account)
            == Ok(Str("aws_vpc_endpoint:" + Show(name) + ":" + Show(vpc) + ":" + Show(service) + ":" + id))
    ensures var details := GetOr(res, "details", Dict([]));
      details.Dict? ==>
        var vpc := GetOr(details.entries, "vpc_id", Null);
        var service := GetOr(details.entries, "service_name", Null);
        var name := EndpointName(res, details.entries);
        var id := Show(GetOr(res, "id", Null));
        !Truthy(name) && Truthy(vpc) && Truthy(service) ==>
          ResourceIdentifier(res, account) == Ok(Str("aws_vpc_endpoint:" + Show(vpc) + ":" + Show(service) + ":" + id))
    ensures var details := GetOr(res, "details", Dict([]));
      details.Dict? ==>
        var vpc := GetOr(details.entries, "vpc_id", Null);
        var service := GetOr(details.entries, "service_name", Null);
        var id := Show(GetOr(res, "id", Null));
        !(Truthy(vpc) && Truthy(service)) ==> ResourceIdentifier(res, account) == Ok(Str("aws_vpc_endpoint:" + id))
    ensures !GetOr(res, "details", Dict([])).Dict? ==> ResourceIdentifier(res, account) == Ok(Null)
  {
    var t := "aws_vpc_endpoint";
    assert forall a: string, b: string, c: string, d: string ::
      t + ":" + a + ":" + b + ":" + c + ":" + d == "aws_vpc_endpoint:" + a + ":" + b + ":" + c + ":" + d;
    assert forall a: string, b: string, c: string ::
      t + ":" + a + ":" + b + ":" + c == "aws_vpc_endpoint:" + a + ":" + b + ":" + c;
    assert forall a: string :: t + ":" + a == "aws_vpc_endpoint:" + a;
  }

  /** A resource with neither type nor id is identified by "". */
  lemma NoTypeNoId(res: Entries, account: string)
    requires !HasKey(res, "arn") && !Truthy(GetOr(res, "type", Null)) && !Truthy(GetOr(res, "id", Null))
    ensures ResourceIdentifier(res, account) == Ok(Str(""))
  {
  }

  // ------------------------------------------------------------ registry

  /** What an instance of a collector class reports about itself. */
  datatype Collector = Collector(serviceName: string, resourceTypes: map<string, string>)

  /** A registered class: its constructor either succeeds or raises. */
  datatype CollectorClass = CollectorClass(name: string, instance: Option<Collector>)

  /** The filter of `get_collectors`. */
  predicate Wanted(target: string, c: Collector) {
    target == "" || target == c.serviceName || target in c.resourceTypes
  }

  /** The instances `get_collectors` returns, in registration order. */
  function Instances(classes: seq<CollectorClass>, target: string): seq<Collector>
    decreases |classes|
  {
    if classes == [] then []
    else
      Instances(classes[..|classes| - 1], target)
      + match classes[|classes| - 1].instance
        case Some(c) => if Wanted(target, c) then [c] else []
        case None => []
  }

  /** A collector is returned iff its class could be instantiated and it is
      wanted for the target. */
  lemma {:induction false} InstancesMember(classes: seq<CollectorClass>, target: string, c: Collector)
    ensures c in Instances(classes, target) <==>
      Wanted(target, c) && exists i :: 0 <= i < |classes| && classes[i].instance == Some(c)
    decreases |classes|
  {
    if classes != [] {
      var init := classes[..|classes| - 1];
      InstancesMember(init, target, c);
      if exists i :: 0 <= i < |classes| && classes[i].instance == Some(c) {
        var i :| 0 <= i < |classes| && classes[i].instance == Some(c);
        if i < |init| {
          assert init[i].instance == Some(c);
        }
      }
      if exists i :: 0 <= i < |init| && init[i].instance == Some(c) {
        var i :| 0 <= i < |init| && init[i].instance == Some(c);
        assert classes[i].instance == Some(c);
      }
    }
  }

  /** `CollectorRegistry` */
  class CollectorRegistry {
    var collectors: seq<CollectorClass>

    constructor ()
      ensures collectors == []
    {
      collectors := [];
    }

    /** `register`: appended; the class is returned unchanged. */
    method Register(cls: CollectorClass) returns (r: CollectorClass)
      modifies this
      ensures collectors == old(collectors) + [cls]
      ensures r == cls
    {
      collectors := collectors + [cls];
      r := cls;
    }

    /** `get_collectors`: classes whose constructor raises are skipped. */
    method GetCollectors(target: string) returns (instances: seq<Collector>)
      ensures instances == Instances(collectors, target)
    {
      instances := [];
      var i := 0;
      while i < |collectors|
        invariant 0 <= i <= |collectors|
        invariant instances == Instances(collectors[..i], target)
      {
        assert collectors[..i + 1][..i] == collectors[..i];
        var cls := collectors[i];
        if cls.instance.Some? {
          var collector := cls.instance.value;
          if target == "" || target == collector.serviceName || target in collector.resourceTypes {
            instances := instances + [collector];
          }
        }
        i := i + 1;
      }
      assert collectors[..i] == collectors;
    }

    /** `__len__` */
    method Length() returns (n: nat)
      ensures n == |collectors|
    {
      n := |collectors|;
    }
  }
}
