/** Grouping collected resources by type, the S3 policy/ACL management
    check, and the filter that decides whether a resource type matches the
    type or service the user asked for.
 */
module ResourceProcessor {
  import opened Py
  import Seqs

  /** The group a resource goes into: its `type`, or "unknown". */
  function TypeOf(res: Entries): Value {
    GetOr(res, "type", Str("unknown"))
  }

  /** Grouping by type hashes each type: a list or dict type raises. */
  predicate TypesHashable(rs: seq<Entries>) {
    forall i :: 0 <= i < |rs| ==> Hashable(TypeOf(rs[i]))
  }

  /** `group_resources_by_type`: groups in the order their type first
      appears, each holding its resources in input order; the membership
      test `resource_type not in type_groups` raises for a type that cannot
      be hashed.  The summary it prints is not modelled. */
  method GroupResourcesByType(resources: seq<Entries>) returns (r: Outcome<(map<Value, seq<Entries>>, seq<Value>)>)
    ensures r.Raised? <==> !TypesHashable(resources)
    ensures r.Ok? ==> r.value == (Seqs.GroupBy(resources, TypeOf), Seqs.FirstKeys(resources, TypeOf))
  {
    if resources == [] {
      return Ok((map[], []));
    }
    var groups: map<Value, seq<Entries>>, order: seq<Value> := map[], [];
    var i := 0;
    while i < |resources|
      invariant 0 <= i <= |resources|
      invariant TypesHashable(resources[..i])
      invariant groups == Seqs.GroupBy(resources[..i], TypeOf)
      invariant order == Seqs.FirstKeys(resources[..i], TypeOf)
    {
      assert resources[..i + 1][..i] == resources[..i];
      var t := TypeOf(resources[i]);
      if !Hashable(t) {
        return Raised;
      }
      if t !in groups {
        Seqs.FirstKeysGroups(resources[..i], TypeOf, t);
        groups := groups[t := []];
        order := order + [t];
      } else {
        Seqs.FirstKeysGroups(resources[..i], TypeOf, t);
      }
      groups := groups[t := groups[t] + [resources[i]]];
      i := i + 1;
    }
    assert resources[..i] == resources;
    return Ok((groups, order));
  }

  /** A resource without a type is grouped under "unknown". */
  lemma MissingTypeIsUnknown(res: Entries)
    requires !HasKey(res, "type")
    ensures TypeOf(res) == Str("unknown")
  {
  }

  // ------------------------------------------------------------ S3

  predicate IsS3Sub(t: Value) {
    t == Str("aws_s3_bucket_policy") || t == Str("aws_s3_bucket_acl")
  }

  /** A state record that stands for the resource: same type, same id
      (a missing id is None on both sides). */
  predicate SameTypeAndId(state: Entries, res: Entries) {
    GetOr(state, "type", Null) == GetOr(res, "type", Null) && GetOr(state, "id", Null) == GetOr(res, "id", Null)
  }

  /** `process_s3_resource`: only bucket policies and ACLs can be managed
      this way, and then iff some managed record has the same type and id. */
  method ProcessS3Resource(res: Entries, managed: map<Value, Entries>) returns (found: bool)
    ensures found <==> IsS3Sub(GetOr(res, "type", Null)) && exists k :: k in managed && SameTypeAndId(managed[k], res)
  {
    if !IsS3Sub(GetOr(res, "type", Null)) {
      return false;
    }
    var left := managed.Keys;
    while left != {}
      invariant left <= managed.Keys
      invariant forall k :: k in managed && k !in left ==> !SameTypeAndId(managed[k], res)
      decreases left
    {
      var k :| k in left;
      if SameTypeAndId(managed[k], res) {
        return true;
      }
      left := left - {k};
    }
    found := false;
  }

  // ------------------------------------------------------------ target filter

  const ServiceMappings: map<string, string> :=
    map["instance" := "ec2", "vpc" := "network", "subnet" := "network", "route" := "network",
        "security_group" := "ec2"]

  /** The service a resource type is filed under for a service filter: the
      type without `aws_`, mapped as a whole, else its first segment mapped
      (or kept). */
  function ServiceOfType(rest: string): string {
    if rest in ServiceMappings then ServiceMappings[rest]
    else
      var first := Split(rest, '_')[0];
      if first in ServiceMappings then ServiceMappings[first] else first
  }

  /** `matches_target_type`; None and "" are both "no value". */
  function MatchesTargetType(resourceType: Option<string>, target: Option<string>): (r: bool)
    ensures target.None? || target == Some("") ==> r
    ensures r && target.Some? && target.value != "" ==> resourceType.Some? && resourceType.value != ""
    ensures target.Some? && StartsWith(target.value, "aws_") ==> (r <==> resourceType == target)
    ensures target.Some? && target.value != "" && !StartsWith(target.value, "aws_") ==>
      (r <==> resourceType.Some? && StartsWith(resourceType.value, "aws_")
              && ServiceOfType(resourceType.value[4..]) == target.value)
  {
    if target.None? || target.value == "" then true
    else if resourceType.None? || resourceType.value == "" then false
    else if StartsWith(target.value, "aws_") then resourceType.value == target.value
    else if StartsWith(resourceType.value, "aws_") then ServiceOfType(resourceType.value[4..]) == target.value
    else false
  }

  /** No target matches everything; a target never matches a missing type. */
  lemma TargetBasics(resourceType: Option<string>, target: Option<string>)
    ensures target.None? || target == Some("") ==> MatchesTargetType(resourceType, target)
    ensures target.Some? && target.value != "" && (resourceType.None? || resourceType == Some("")) ==>
      !MatchesTargetType(resourceType, target)
  {
  }

  /** A full type as target matches only that type. */
  lemma FullTypeTarget(resourceType: Option<string>, target: string)
    requires StartsWith(target, "aws_")
    ensures MatchesTargetType(resourceType, Some(target)) <==> resourceType == Some(target)
  {
  }

  /** A service target never matches a type outside the `aws_` namespace. */
  lemma NonAwsTypeNeverMatchesService(t: string, target: string)
    requires target != "" && !StartsWith(target, "aws_") && !StartsWith(t, "aws_")
    ensures !MatchesTargetType(Some(t), Some(target))
  {
  }

  /** Every mapped type matches the service it is mapped to: instances and
      security groups are ec2; VPCs, subnets and routes are network. */
  lemma MappedServices()
    ensures forall rest :: rest in ServiceMappings ==>
      MatchesTargetType(Some("aws_" + rest), Some(ServiceMappings[rest]))
  {
    assert !StartsWith("network", "aws_") by {
      assert "network"[..4][0] == 'n';
    }
    forall rest | rest in ServiceMappings
      ensures MatchesTargetType(Some("aws_" + rest), Some(ServiceMappings[rest]))
    {
      assert ServiceMappings[rest] in {"ec2", "network"};
      MappedType(rest, ServiceMappings[rest]);
    }
  }

  /** An `aws_` type whose remainder is mapped as a whole matches the
      service it is mapped to. */
  lemma MappedType(rest: string, service: string)
    requires rest in ServiceMappings && ServiceMappings[rest] == service
    requires service != "" && !StartsWith(service, "aws_")
    ensures MatchesTargetType(Some("aws_" + rest), Some(service))
  {
    assert ("aws_" + rest)[4..] == rest;
  }

  /** Any other type is filed under its first segment, mapped again: so
      `aws_<first>_<rest>` is network when `<first>` is vpc, subnet or
      route, and is `<first>` itself when `<first>` is not mapped. */
  lemma FirstSegmentService(first: string, rest: string, target: string)
    requires '_' !in first && first + "_" + rest !in ServiceMappings
    requires target != "" && !StartsWith(target, "aws_")
    ensures MatchesTargetType(Some("aws_" + first + "_" + rest), Some(target)) <==>
      (if first in ServiceMappings then ServiceMappings[first] else first) == target
  {
    var t := "aws_" + first + "_" + rest;
    assert StartsWith(t, "aws_");
    assert t[4..] == first + "_" + rest;
    BeforeFirstSep(first, '_', rest);
    assert Split(first + "_" + rest, '_')[0] == first;
  }
}
