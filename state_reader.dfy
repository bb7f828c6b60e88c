/** The state side of the tool: how a Terraform state document is turned into
    the map of managed resources, keyed by the identifier the collectors are
    later compared against.  The account id and `json.loads` are parameters.
 */
module StateReader {
  import opened Py
  import CollectorBase
  import opened HclText

  // ------------------------------------------------------------ one resource

  /** `_get_resource_id`: the `id` attribute, else `name`, else None. */
  function ResourceId(attrs: Entries): (r: Value)
    ensures HasKey(attrs, "id") ==> r == Lookup(attrs, "id").value
    ensures !HasKey(attrs, "id") && HasKey(attrs, "name") ==> r == Lookup(attrs, "name").value
    ensures !HasKey(attrs, "id") && !HasKey(attrs, "name") ==> r == Null
  {
    match Lookup(attrs, "id")
    case Some(v) => v
    case None => GetOr(attrs, "name", Null)
  }

  /** One `{"Key": k, "Value": str(v)}` record. */
  function TagRecord(key: string, value: Value): Value {
    Dict([("Key", Str(key)), ("Value", Str(Show(value)))])
  }

  function TagRecords(es: Entries): (r: seq<Value>)
    ensures |r| == |es|
    ensures forall i :: 0 <= i < |es| ==> r[i] == TagRecord(es[i].0, es[i].1)
  {
    seq(|es|, i requires 0 <= i < |es| => TagRecord(es[i].0, es[i].1))
  }

  /** `_extract_tags`: a dict of tags becomes a list of Key/Value records with
      the values stringified; a list is passed through; anything else is []. */
  function ExtractStateTags(attrs: Entries): (r: seq<Value>)
    ensures Lookup(attrs, "tags").Some? && Lookup(attrs, "tags").value.Dict? ==>
      var es := Lookup(attrs, "tags").value.entries;
      |r| == |es| && forall i :: 0 <= i < |es| ==> r[i] == Dict([("Key", Str(es[i].0)), ("Value", Str(Show(es[i].1)))])
    ensures Lookup(attrs, "tags").Some? && Lookup(attrs, "tags").value.List? ==> r == Lookup(attrs, "tags").value.items
    ensures Lookup(attrs, "tags").None? || !(Lookup(attrs, "tags").value.Dict? || Lookup(attrs, "tags").value.List?) ==> r == []
  {
    match Lookup(attrs, "tags")
    case Some(Dict(es)) => TagRecords(es)
    case Some(List(xs)) => xs
    case _ => []
  }

  /** The ARN made up for an IAM resource whose state has none. */
  function IamArn(resourceType: string, rid: Value, account: string): string {
    "arn:aws:iam::" + account + ":" + Replace(resourceType, "aws_", "") + "/" + Show(rid)
  }

  /** The `arn` entry of a formatted resource: the attribute when present, a
      made-up ARN for IAM types, none otherwise; raises when the type must be
      inspected and is not a string. */
  function ArnEntry(resourceType: Value, attrs: Entries, rid: Value, account: string): Outcome<Entries> {
    if HasKey(attrs, "arn") then Ok([("arn", GetOr(attrs, "arn", Null))])
    else
      var t :- AsStr(resourceType);
      if StartsWith(t, "aws_iam_") then Ok([("arn", Str(IamArn(t, rid, account)))]) else Ok([])
  }

  /** The details a type starts with before the other attributes are copied
      in; `json.loads` is `loads`. */
  function BaseDetails(resourceType: Value, attrs: Entries, loads: Value -> Outcome<Value>): Outcome<Entries> {
    if resourceType == Str("aws_vpc") then
      Ok([("cidr_block", GetOr(attrs, "cidr_block", Null)),
          ("instance_tenancy", GetOr(attrs, "instance_tenancy", Str("default"))),
          ("enable_dns_support", GetOr(attrs, "enable_dns_support", Bool(true))),
          ("enable_dns_hostnames", GetOr(attrs, "enable_dns_hostnames", Bool(false))),
          ("is_default", GetOr(attrs, "is_default", Bool(false))),
          ("cidr_block_associations", GetOr(attrs, "cidr_block_associations", List([]))),
          ("ipv6_cidr_block", GetOr(attrs, "ipv6_cidr_block", Null)),
          ("ipv6_association_id", GetOr(attrs, "ipv6_association_id", Null)),
          ("dhcp_options_id", GetOr(attrs, "dhcp_options_id", Null)),
          ("enable_network_address_usage_metrics", GetOr(attrs, "enable_network_address_usage_metrics", Bool(false)))])
    else if resourceType == Str("aws_subnet") then
      Ok([("vpc_id", GetOr(attrs, "vpc_id", Null)),
          ("cidr_block", GetOr(attrs, "cidr_block", Null)),
          ("availability_zone", GetOr(attrs, "availability_zone", Null)),
          ("map_public_ip_on_launch", GetOr(attrs, "map_public_ip_on_launch", Bool(false))),
          ("assign_ipv6_address_on_creation", GetOr(attrs, "assign_ipv6_address_on_creation", Bool(false))),
          ("ipv6_cidr_block", GetOr(attrs, "ipv6_cidr_block", Null)),
          ("enable_dns64", GetOr(attrs, "enable_dns64", Bool(false))),
          ("enable_resource_name_dns_aaaa_record_on_launch", GetOr(attrs, "enable_resource_name_dns_aaaa_record_on_launch", Bool(false))),
          ("enable_resource_name_dns_a_record_on_launch", GetOr(attrs, "enable_resource_name_dns_a_record_on_launch", Bool(false))),
          ("private_dns_hostname_type_on_launch", GetOr(attrs, "private_dns_hostname_type_on_launch", Str("ip-name")))])
    else if resourceType == Str("aws_iam_role") then
      var policy :- loads(GetOr(attrs, "assume_role_policy", Str("{}")));
      Ok([("path", GetOr(attrs, "path", Str("/"))),
          ("assume_role_policy", policy),
          ("description", GetOr(attrs, "description", Str(""))),
          ("max_session_duration", GetOr(attrs, "max_session_duration", Null)),
          ("permissions_boundary", GetOr(attrs, "permissions_boundary", Null))])
    else if resourceType == Str("aws_iam_role_policy_attachment") then
      Ok([("role", GetOr(attrs, "role", Null)),
          ("policy_arn", GetOr(attrs, "policy_arn", Null))])
    else Ok([])
  }

  /** Keys that are never copied into the details. */
  predicate Reserved(key: string) {
    key == "id" || key == "arn" || key == "tags"
  }

  /** The copy loop: each attribute, in order, is added to the details unless
      its key is reserved or already there. */
  function MergeDetails(details: Entries, attrs: Entries): Entries
    decreases |attrs|
  {
    if attrs == [] then details
    else
      var m := MergeDetails(details, attrs[..|attrs| - 1]);
      var (k, v) := attrs[|attrs| - 1];
      if Reserved(k) || HasKey(m, k) then m else m + [(k, v)]
  }

  /** `_format_resource`, before its `except` turns an error into None. */
  function Formatted(resourceType: Value, attrs: Entries, account: string, loads: Value -> Outcome<Value>): Outcome<Option<Entries>> {
    var rid := ResourceId(attrs);
    if !Truthy(rid) then Ok(None)
    else
      var arn :- ArnEntry(resourceType, attrs, rid, account);
      var details :- BaseDetails(resourceType, attrs, loads);
      Ok(Some([("id", rid), ("type", resourceType), ("tags", List(ExtractStateTags(attrs))),
               ("details", Dict(MergeDetails(details, attrs)))] + arn))
  }

  /** `_format_resource`: the copy into the details is a loop. */
  method FormatResource(resourceType: Value, attrs: Entries, account: string, loads: Value -> Outcome<Value>)
    returns (r: Option<Entries>)
    ensures r == Catch(Formatted(resourceType, attrs, account, loads))
  {
    var rid := ResourceId(attrs);
    if !Truthy(rid) {
      return None;
    }
    var arn := ArnEntry(resourceType, attrs, rid, account);
    if arn.Raised? {
      return None;
    }
    var base := BaseDetails(resourceType, attrs, loads);
    if base.Raised? {
      return None;
    }
    var details := base.value;
    var i := 0;
    while i < |attrs|
      invariant 0 <= i <= |attrs|
      invariant details == MergeDetails(base.value, attrs[..i])
    {
      assert attrs[..i + 1][..i] == attrs[..i];
      var (k, v) := attrs[i];
      if !Reserved(k) && !HasKey(details, k) {
        details := details + [(k, v)];
      }
      i := i + 1;
    }
    assert attrs[..i] == attrs;
    r := Some([("id", rid), ("type", resourceType), ("tags", List(ExtractStateTags(attrs))),
               ("details", Dict(details))] + arn.value);
  }

  /** `_get_identifier_for_managed_set`: the `arn` entry, else an IAM special
      form, else `type:id`, else the bare id. */
  function ManagedSetIdentifier(res: Entries, account: string): (r: Outcome<Value>)
    ensures HasKey(res, "arn") ==> r == Ok(Lookup(res, "arn").value)
    ensures r.Raised? <==> !HasKey(res, "arn") && Truthy(GetOr(res, "type", Null)) && !GetOr(res, "type", Null).Str?
    ensures !HasKey(res, "arn") && !Truthy(GetOr(res, "type", Null)) ==> r == Ok(GetOr(res, "id", Null))
  {
    if HasKey(res, "arn") then Ok(GetOr(res, "arn", Null))
    else
      var rtype := GetOr(res, "type", Null);
      var rid := GetOr(res, "id", Null);
      var iam :- CollectorBase.IamIdentifier(res, rtype, account);
      if iam.Some? then Ok(Str(iam.value))
      else if Truthy(rtype) && Truthy(rid) then Ok(Str(Show(rtype) + ":" + Show(rid)))
      else Ok(rid)
  }

  // ------------------------------------------------------------ the state

  /** What one instance contributes: its key and its record, or nothing. */
  function InstanceRecord(resourceType: Value, instance: Value, account: string, loads: Value -> Outcome<Value>)
    : Outcome<Option<(Value, Entries)>>
  {
    var attributes :- Get(instance, "attributes", Dict([]));
    if resourceType == Str("aws_iam_role_policy_attachment") then RolePolicyAttachmentRecord(resourceType, attributes, account)
    else if resourceType == Str("aws_iam_user_policy") then UserPolicyRecord(resourceType, attributes)
    else if resourceType == Str("aws_iam_user_policy_attachment") then UserPolicyAttachmentRecord(resourceType, attributes)
    else if !attributes.Dict? then
      // `_format_resource` returns None for anything but a dict
      Ok(None)
    else GenericRecord(resourceType, attributes.entries, account, loads)
  }

  /** A role policy attachment, keyed by the role's ARN and the policy ARN. */
  function RolePolicyAttachmentRecord(resourceType: Value, attributes: Value, account: string)
    : Outcome<Option<(Value, Entries)>>
  {
    var role :- Get(attributes, "role", Null);
    var policy :- Get(attributes, "policy_arn", Null);
    if Truthy(role) && Truthy(policy) then
      var key := Str("arn:aws:iam::" + account + ":role/" + Show(role) + "/" + Show(policy));
      Ok(Some((key, [("id", key), ("type", resourceType), ("role_name", role), ("policy_arn", policy),
                     ("managed", Bool(true))])))
    else Ok(None)
  }

  /** An inline user policy, keyed by `user:name`. */
  function UserPolicyRecord(resourceType: Value, attributes: Value): Outcome<Option<(Value, Entries)>> {
    var user :- Get(attributes, "user", Null);
    var name :- Get(attributes, "name", Null);
    if Truthy(user) && Truthy(name) then
      var id :- Get(attributes, "id", Str(""));
      Ok(Some((Str(Show(user) + ":" + Show(name)),
               [("id", id), ("type", resourceType), ("user_name", user), ("managed", Bool(true))])))
    else Ok(None)
  }

  /** A user policy attachment, keyed by `user:policy_arn`. */
  function UserPolicyAttachmentRecord(resourceType: Value, attributes: Value): Outcome<Option<(Value, Entries)>> {
    var user :- Get(attributes, "user", Null);
    var policy :- Get(attributes, "policy_arn", Null);
    if Truthy(user) && Truthy(policy) then
      var key := Str(Show(user) + ":" + Show(policy));
      Ok(Some((key, [("id", key), ("type", resourceType), ("user_name", user), ("policy_arn", policy),
                     ("managed", Bool(true))])))
    else Ok(None)
  }

  /** Any other resource: the formatted record, keyed by its managed-set
      identifier when that is truthy. */
  function GenericRecord(resourceType: Value, attributes: Entries, account: string, loads: Value -> Outcome<Value>)
    : Outcome<Option<(Value, Entries)>>
  {
    match Catch(Formatted(resourceType, attributes, account, loads))
    case None => Ok(None)
    case Some(f) =>
      var key :- ManagedSetIdentifier(f, account);
      if Truthy(key) then Ok(Some((key, Put(f, "managed", Bool(true))))) else Ok(None)
  }

  /** First-wins insertion; an unhashable key raises, which skips the instance. */
  function Insert(m: map<Value, Entries>, rec: Outcome<Option<(Value, Entries)>>): map<Value, Entries> {
    match rec
    case Ok(Some((key, info))) => if Hashable(key) && key !in m then m[key := info] else m
    case _ => m
  }

  /** The inner loop over a resource's instances, each in its own `try`. */
  function AddInstances(m: map<Value, Entries>, resourceType: Value, instances: seq<Value>, account: string,
                        loads: Value -> Outcome<Value>): map<Value, Entries>
    decreases |instances|
  {
    if instances == [] then m
    else AddInstances(Insert(m, InstanceRecord(resourceType, instances[0], account, loads)),
                      resourceType, instances[1..], account, loads)
  }

  /** One pass of the outer loop; an error here ends the whole extraction. */
  function ResourceStep(m: map<Value, Entries>, resource: Value, account: string, loads: Value -> Outcome<Value>)
    : Outcome<map<Value, Entries>>
  {
    var mode :- Get(resource, "mode", Null);
    if mode != Str("managed") then Ok(m)
    else
      var es := resource.entries;
      var instances :- Iter(GetOr(es, "instances", List([])));
      Ok(AddInstances(m, GetOr(es, "type", Str("")), instances, account, loads))
  }

  function AddResources(m: map<Value, Entries>, resources: seq<Value>, account: string,
                        loads: Value -> Outcome<Value>): map<Value, Entries>
    decreases |resources|
  {
    if resources == [] then m
    else
      match ResourceStep(m, resources[0], account, loads)
      case Raised => m
      case Ok(m') => AddResources(m', resources[1..], account, loads)
  }

  /** `_extract_resources_from_state` as a function of the map it starts from. */
  function Extracted(state: Value, m: map<Value, Entries>, account: string, loads: Value -> Outcome<Value>)
    : map<Value, Entries>
  {
    match In("resources", state)
    case Ok(true) =>
      (match Item(state, "resources")
       case Ok(rs) =>
         (match Iter(rs)
          case Ok(resources) => AddResources(m, resources, account, loads)
          case Raised => m)
       case Raised => m)
    case _ => m
  }

  /** The `managed_resources` dict the caller passes in and the reader fills. */
  class ManagedResources {
    var items: map<Value, Entries>

    constructor ()
      ensures items == map[]
    {
      items := map[];
    }
  }

  /** `_extract_resources_from_state`: fills `managed` in place. */
  method ExtractResourcesFromState(state: Value, managed: ManagedResources, account: string,
                                   loads: Value -> Outcome<Value>)
    modifies managed
    ensures managed.items == Extracted(state, old(managed.items), account, loads)
  {
    var has := In("resources", state);
    if has != Ok(true) {
      return;
    }
    var rs := Item(state, "resources");
    if rs.Raised? {
      return;
    }
    var it := Iter(rs.value);
    if it.Raised? {
      return;
    }
    var resources := it.value;
    ghost var goal := AddResources(managed.items, resources, account, loads);
    var i := 0;
    while i < |resources|
      invariant 0 <= i <= |resources|
      invariant AddResources(managed.items, resources[i..], account, loads) == goal
    {
      assert resources[i..][1..] == resources[i + 1..];
      var resource := resources[i];
      var mode := Get(resource, "mode", Null);
      if mode.Raised? {
        return;
      }
      if mode.value == Str("managed") {
        var es := resource.entries;
        var instances := Iter(GetOr(es, "instances", List([])));
        if instances.Raised? {
          return;
        }
        AddInstancesLoop(managed, GetOr(es, "type", Str("")), instances.value, account, loads);
      }
      i := i + 1;
    }
  }

  /** The inner loop: every instance is tried, none stops the loop. */
  method AddInstancesLoop(managed: ManagedResources, resourceType: Value, instances: seq<Value>, account: string,
                          loads: Value -> Outcome<Value>)
    modifies managed
    ensures managed.items == AddInstances(old(managed.items), resourceType, instances, account, loads)
  {
    ghost var goal := AddInstances(managed.items, resourceType, instances, account, loads);
    var j := 0;
    while j < |instances|
      invariant 0 <= j <= |instances|
      invariant AddInstances(managed.items, resourceType, instances[j..], account, loads) == goal
    {
      assert instances[j..][1..] == instances[j + 1..];
      var rec := ProcessInstance(resourceType, instances[j], account, loads);
      AddRecord(managed, rec);
      j := j + 1;
    }
  }

  /** Stores what one instance contributes, unless its key is already there. */
  method AddRecord(managed: ManagedResources, rec: Outcome<Option<(Value, Entries)>>)
    modifies managed
    ensures managed.items == Insert(old(managed.items), rec)
  {
    if rec.Ok? && rec.value.Some? {
      var (key, info) := rec.value.value;
      if Hashable(key) && key !in managed.items {
        managed.items := managed.items[key := info];
      }
    }
  }

  /** The body of the inner `try`: what one instance contributes. */
  method ProcessInstance(resourceType: Value, instance: Value, account: string, loads: Value -> Outcome<Value>)
    returns (rec: Outcome<Option<(Value, Entries)>>)
    ensures rec == InstanceRecord(resourceType, instance, account, loads)
  {
    var attributes := Get(instance, "attributes", Dict([]));
    if attributes.Raised? {
      return Raised;
    }
    if resourceType in [Str("aws_iam_role_policy_attachment"), Str("aws_iam_user_policy"),
                        Str("aws_iam_user_policy_attachment")] {
      // the three IAM forms build their record without looping
      rec := InstanceRecord(resourceType, instance, account, loads);
    } else if !attributes.value.Dict? {
      rec := Ok(None);
    } else {
      var f := FormatResource(resourceType, attributes.value.entries, account, loads);
      if f.None? {
        return Ok(None);
      }
      var key := ManagedSetIdentifier(f.value, account);
      if key.Raised? {
        rec := Raised;
      } else if Truthy(key.value) {
        rec := Ok(Some((key.value, Put(f.value, "managed", Bool(true)))));
      } else {
        rec := Ok(None);
      }
    }
  }

  // ------------------------------------------------------------ lemmas

  /** A state without `resources` leaves the map as it was. */
  lemma NoResourcesKeepsMap(state: Value, m: map<Value, Entries>, account: string, loads: Value -> Outcome<Value>)
    requires state.Dict? && !HasKey(state.entries, "resources")
    ensures Extracted(state, m, account, loads) == m
  {
  }

  /** Resources whose mode is not "managed" (data sources) add nothing. */
  lemma {:induction false} UnmanagedModeIgnored(m: map<Value, Entries>, resources: seq<Value>, account: string,
                                               loads: Value -> Outcome<Value>)
    requires forall i :: 0 <= i < |resources| ==> Get(resources[i], "mode", Null) != Ok(Str("managed"))
    ensures AddResources(m, resources, account, loads) == m
    decreases |resources|
  {
    if resources != [] {
      UnmanagedModeIgnored(m, resources[1..], account, loads);
    }
  }

  /** Insertion is first-wins: a key already in the map keeps its record. */
  lemma {:induction false} AddInstancesFirstWins(m: map<Value, Entries>, resourceType: Value, instances: seq<Value>,
                                                account: string, loads: Value -> Outcome<Value>)
    ensures var r := AddInstances(m, resourceType, instances, account, loads);
      forall k :: k in m ==> k in r && r[k] == m[k]
    decreases |instances|
  {
    if instances != [] {
      var m' := Insert(m, InstanceRecord(resourceType, instances[0], account, loads));
      AddInstancesFirstWins(m', resourceType, instances[1..], account, loads);
    }
  }

  lemma {:induction false} AddResourcesFirstWins(m: map<Value, Entries>, resources: seq<Value>, account: string,
                                                loads: Value -> Outcome<Value>)
    ensures var r := AddResources(m, resources, account, loads);
      forall k :: k in m ==> k in r && r[k] == m[k]
    decreases |resources|
  {
    if resources != [] {
      match ResourceStep(m, resources[0], account, loads)
      case Raised =>
      case Ok(m') =>
        AddResourcesFirstWins(m', resources[1..], account, loads);
        var resource := resources[0];
        if Get(resource, "mode", Null) == Ok(Str("managed")) {
          var es := resource.entries;
          var instances := Iter(GetOr(es, "instances", List([]))).value;
          AddInstancesFirstWins(m, GetOr(es, "type", Str("")), instances, account, loads);
        }
    }
  }

  /** Reading a state never changes or drops an entry already in the map. */
  lemma ExtractedFirstWins(state: Value, m: map<Value, Entries>, account: string, loads: Value -> Outcome<Value>)
    ensures var r := Extracted(state, m, account, loads);
      forall k :: k in m ==> k in r && r[k] == m[k]
  {
    if In("resources", state) == Ok(true) && Item(state, "resources").Ok? && Iter(Item(state, "resources").value).Ok? {
      AddResourcesFirstWins(m, Iter(Item(state, "resources").value).value, account, loads);
    }
  }

  predicate AllManaged(m: map<Value, Entries>) {
    forall k :: k in m ==> Lookup(m[k], "managed") == Some(Bool(true))
  }

  /** A record, if any, is marked managed. */
  predicate RecordManaged(rec: Outcome<Option<(Value, Entries)>>) {
    rec.Ok? && rec.value.Some? ==> Lookup(rec.value.value.1, "managed") == Some(Bool(true))
  }

  /** Every record an instance contributes is marked managed. */
  lemma InstanceRecordManaged(resourceType: Value, instance: Value, account: string, loads: Value -> Outcome<Value>)
    ensures RecordManaged(InstanceRecord(resourceType, instance, account, loads))
  {
    var attributes := Get(instance, "attributes", Dict([]));
    if attributes.Ok? {
      if resourceType == Str("aws_iam_role_policy_attachment") {
        RolePolicyAttachmentManaged(resourceType, attributes.value, account);
      } else if resourceType == Str("aws_iam_user_policy") {
        UserPolicyManaged(resourceType, attributes.value);
      } else if resourceType == Str("aws_iam_user_policy_attachment") {
        UserPolicyAttachmentManaged(resourceType, attributes.value);
      }
    }
  }

  lemma RolePolicyAttachmentManaged(resourceType: Value, attributes: Value, account: string)
    ensures RecordManaged(RolePolicyAttachmentRecord(resourceType, attributes, account))
  {
    var rec := RolePolicyAttachmentRecord(resourceType, attributes, account);
    if rec.Ok? && rec.value.Some? {
      assert rec.value.value.1[4..][0] == ("managed", Bool(true));
    }
  }

  lemma UserPolicyManaged(resourceType: Value, attributes: Value)
    ensures RecordManaged(UserPolicyRecord(resourceType, attributes))
  {
    var rec := UserPolicyRecord(resourceType, attributes);
    if rec.Ok? && rec.value.Some? {
      assert rec.value.value.1[3..][0] == ("managed", Bool(true));
    }
  }

  lemma UserPolicyAttachmentManaged(resourceType: Value, attributes: Value)
    ensures RecordManaged(UserPolicyAttachmentRecord(resourceType, attributes))
  {
    var rec := UserPolicyAttachmentRecord(resourceType, attributes);
    if rec.Ok? && rec.value.Some? {
      assert rec.value.value.1[4..][0] == ("managed", Bool(true));
    }
  }

  lemma {:induction false} AddInstancesManaged(m: map<Value, Entries>, resourceType: Value, instances: seq<Value>,
                                              account: string, loads: Value -> Outcome<Value>)
    requires AllManaged(m)
    ensures AllManaged(AddInstances(m, resourceType, instances, account, loads))
    decreases |instances|
  {
    if instances != [] {
      InstanceRecordManaged(resourceType, instances[0], account, loads);
      var m' := Insert(m, InstanceRecord(resourceType, instances[0], account, loads));
      AddInstancesManaged(m', resourceType, instances[1..], account, loads);
    }
  }

  lemma {:induction false} AddResourcesManaged(m: map<Value, Entries>, resources: seq<Value>, account: string,
                                              loads: Value -> Outcome<Value>)
    requires AllManaged(m)
    ensures AllManaged(AddResources(m, resources, account, loads))
    decreases |resources|
  {
    if resources != [] {
      match ResourceStep(m, resources[0], account, loads)
      case Raised =>
      case Ok(m') =>
        var resource := resources[0];
        if Get(resource, "mode", Null) == Ok(Str("managed")) {
          var es := resource.entries;
          var instances := Iter(GetOr(es, "instances", List([]))).value;
          AddInstancesManaged(m, GetOr(es, "type", Str("")), instances, account, loads);
        }
        AddResourcesManaged(m', resources[1..], account, loads);
    }
  }

  /** Every stored record carries `managed: True`. */
  lemma ExtractedAllManaged(state: Value, m: map<Value, Entries>, account: string, loads: Value -> Outcome<Value>)
    requires AllManaged(m)
    ensures AllManaged(Extracted(state, m, account, loads))
  {
    if In("resources", state) == Ok(true) && Item(state, "resources").Ok? && Iter(Item(state, "resources").value).Ok? {
      AddResourcesManaged(m, Iter(Item(state, "resources").value).value, account, loads);
    }
  }

  /** The three IAM forms are keyed exactly as the collectors key the same
      resource, and are stored only when both parts are truthy. */
  lemma IamKeysAgree(t: string, attrs: Entries, account: string, loads: Value -> Outcome<Value>)
    requires t in ["aws_iam_role_policy_attachment", "aws_iam_user_policy", "aws_iam_user_policy_attachment"]
    ensures var rec := InstanceRecord(Str(t), Dict([("attributes", Dict(attrs))]), account, loads);
      var iam := CollectorBase.IamIdentifier(attrs, Str(t), account);
      rec.Ok? && iam.Ok?
      && (rec.value.Some? <==> iam.value.Some?)
      && (rec.value.Some? ==> rec.value.value.0 == Str(iam.value.value))
  {
    var instance := Dict([("attributes", Dict(attrs))]);
    assert Get(instance, "attributes", Dict([])) == Ok(Dict(attrs));
    assert StartsWith(t, "aws_iam_");
  }

  /** A role policy attachment is keyed `arn:aws:iam::<account>:role/<role>/<policy_arn>`. */
  lemma RolePolicyAttachmentKey(attrs: Entries, account: string, loads: Value -> Outcome<Value>, role: string, policy: string)
    requires GetOr(attrs, "role", Null) == Str(role) && GetOr(attrs, "policy_arn", Null) == Str(policy)
    requires role != "" && policy != ""
    ensures InstanceRecord(Str("aws_iam_role_policy_attachment"), Dict([("attributes", Dict(attrs))]), account, loads)
      .value.value.0 == Str("arn:aws:iam::" + account + ":role/" + role + "/" + policy)
  {
    var instance := Dict([("attributes", Dict(attrs))]);
    assert Get(instance, "attributes", Dict([])) == Ok(Dict(attrs));
  }

  /** A user policy is keyed `user:name` and a user policy attachment
      `user:policy_arn`; a missing part stores nothing. */
  lemma UserPolicyKeys(attrs: Entries, account: string, loads: Value -> Outcome<Value>)
    ensures var user := GetOr(attrs, "user", Null);
      var up := InstanceRecord(Str("aws_iam_user_policy"), Dict([("attributes", Dict(attrs))]), account, loads);
      var upa := InstanceRecord(Str("aws_iam_user_policy_attachment"), Dict([("attributes", Dict(attrs))]), account, loads);
      var name := GetOr(attrs, "name", Null);
      var policy := GetOr(attrs, "policy_arn", Null);
      up.Ok? && (up.value.Some? <==> Truthy(user) && Truthy(name))
      && (up.value.Some? ==> up.value.value.0 == Str(Show(user) + ":" + Show(name)))
      && upa.Ok? && (upa.value.Some? <==> Truthy(user) && Truthy(policy))
      && (upa.value.Some? ==> upa.value.value.0 == Str(Show(user) + ":" + Show(policy)))
  {
    var instance := Dict([("attributes", Dict(attrs))]);
    assert Get(instance, "attributes", Dict([])) == Ok(Dict(attrs));
  }

  /** The identifier falls back in order: the `arn` entry, then `type:id`
      for a type outside IAM, then the bare id. */
  lemma ManagedSetIdentifierOrder(res: Entries, account: string)
    ensures HasKey(res, "arn") ==> ManagedSetIdentifier(res, account) == Ok(Lookup(res, "arn").value)
    ensures var rtype := GetOr(res, "type", Null);
      var rid := GetOr(res, "id", Null);
      !HasKey(res, "arn") && rtype.Str? && !StartsWith(rtype.s, "aws_iam_") ==>
        ManagedSetIdentifier(res, account) ==
          Ok(if rtype.s != "" && Truthy(rid) then Str(rtype.s + ":" + Show(rid)) else rid)
  {
  }

  /** State side and collector side name a resource the same way when it
      has an `arn`, or when it has an id, no Name tag and is not a VPC
      endpoint: this is what lets the auditor find it in the managed map. */
  lemma IdentifiersAgree(res: Entries, account: string)
    requires !HasKey(res, "arn") ==>
      GetOr(res, "type", Null) != Str("aws_vpc_endpoint")
      && Truthy(GetOr(res, "id", Null))
      && !Truthy(NameTagOf(GetOr(res, "tags", List([]))))
    ensures ManagedSetIdentifier(res, account) == CollectorBase.ResourceIdentifier(res, account)
  {
  }

  /** `_format_resource` gives None exactly when the resource has no id. */
  lemma FormattedNeedsId(resourceType: Value, attrs: Entries, account: string, loads: Value -> Outcome<Value>)
    ensures Formatted(resourceType, attrs, account, loads) == Ok(None) <==> !Truthy(ResourceId(attrs))
    ensures Formatted(resourceType, attrs, account, loads).Ok? && Truthy(ResourceId(attrs)) ==>
      Lookup(Formatted(resourceType, attrs, account, loads).value.value, "id") == Some(ResourceId(attrs))
  {
  }

  /** An IAM resource without an `arn` in its state gets
      `arn:aws:iam::<account>:<type without aws_>/<id>`, and that made-up ARN
      is the key it is stored under. */
  lemma IamResourceKeyedByArn(t: string, attrs: Entries, account: string, loads: Value -> Outcome<Value>)
    requires StartsWith(t, "aws_iam_") && t != "aws_iam_role"
    requires !HasKey(attrs, "arn") && Truthy(ResourceId(attrs))
    ensures var f := Formatted(Str(t), attrs, account, loads);
      f.Ok? && f.value.Some?
      && Lookup(f.value.value, "arn") == Some(Str(IamArn(t, ResourceId(attrs), account)))
      && ManagedSetIdentifier(f.value.value, account) == Ok(Str(IamArn(t, ResourceId(attrs), account)))
  {
    var rid := ResourceId(attrs);
    var f := Formatted(Str(t), attrs, account, loads).value.value;
    var head: Entries := [("id", rid), ("type", Str(t)), ("tags", List(ExtractStateTags(attrs))),
                          ("details", Dict(MergeDetails(BaseDetails(Str(t), attrs, loads).value, attrs)))];
    assert f == head + [("arn", Str(IamArn(t, rid, account)))];
    assert !HasKey(head, "arn");
    LookupSnoc(head, "arn", Str(IamArn(t, rid, account)), "arn");
  }

  /** Copying attributes into the details: keys already there keep their
      value, reserved keys are not copied, and every other attribute is
      copied with the value a lookup in the attributes sees. */
  lemma {:induction false} MergeDetailsLookup(details: Entries, attrs: Entries, k: string)
    ensures HasKey(details, k) ==> Lookup(MergeDetails(details, attrs), k) == Lookup(details, k)
    ensures !HasKey(details, k) && Reserved(k) ==> !HasKey(MergeDetails(details, attrs), k)
    ensures !HasKey(details, k) && !Reserved(k) ==> Lookup(MergeDetails(details, attrs), k) == Lookup(attrs, k)
    decreases |attrs|
  {
    if attrs != [] {
      var init := attrs[..|attrs| - 1];
      var m := MergeDetails(details, init);
      var (k', v') := attrs[|attrs| - 1];
      MergeDetailsLookup(details, init, k);
      LookupSnoc(m, k', v', k);
      LookupSnoc(init, k', v', k);
      assert init + [(k', v')] == attrs;
    }
  }

  /** The tags as the collectors read them back from the state's records:
      each key with its value turned into a string. */
  function Stringified(es: Entries): (r: Entries)
    ensures |r| == |es|
    ensures forall i :: 0 <= i < |es| ==> r[i] == (es[i].0, Str(Show(es[i].1)))
  {
    seq(|es|, i requires 0 <= i < |es| => (es[i].0, Str(Show(es[i].1))))
  }

  /** A dict of tags written as Key/Value records by the state reader reads
      back, through the collectors' tag extraction, as the same keys with
      their values stringified. */
  lemma {:induction false} StateTagsReadBack(es: Entries)
    requires UniqueKeys(es)
    ensures CollectorBase.TagEntries(TagRecords(es)) == Ok(Stringified(es))
    decreases |es|
  {
    if es != [] {
      var n := |es| - 1;
      var init := es[..n];
      var recs := TagRecords(es);
      assert recs[..n] == TagRecords(init);
      StateTagsReadBack(init);
      TagRecordItems(es[n].0, es[n].1);
      assert CollectorBase.TagEntries(recs) == Ok(Put(Stringified(init), es[n].0, Str(Show(es[n].1))));
      LastKeyIsNew(es);
      PutNew(Stringified(init), es[n].0, Str(Show(es[n].1)));
      StringifiedSnoc(es);
    }
  }

  lemma StringifiedSnoc(es: Entries)
    requires es != []
    ensures Stringified(es[..|es| - 1]) + [(es[|es| - 1].0, Str(Show(es[|es| - 1].1)))] == Stringified(es)
  {
  }

  lemma TagRecordItems(key: string, value: Value)
    ensures Item(TagRecord(key, value), "Key") == Ok(Str(key))
    ensures Item(TagRecord(key, value), "Value") == Ok(Str(Show(value)))
  {
    assert TagRecord(key, value).entries[1..][0] == ("Value", Str(Show(value)));
  }

  lemma LastKeyIsNew(es: Entries)
    requires es != [] && UniqueKeys(es)
    ensures !HasKey(Stringified(es[..|es| - 1]), es[|es| - 1].0)
  {
    var init := Stringified(es[..|es| - 1]);
    forall i | 0 <= i < |init| ensures init[i].0 != es[|es| - 1].0 {
      assert init[i].0 == es[i].0;
    }
  }
}
