/** The load-balancer collector's own identifier rule and its management
    test.  The region and account id are parameters.
 */
module NetworkCollector {
  import opened Py
  import CollectorBase

  const ElbPrefix := "arn:aws:elasticloadbalancing:"

  /** The ARN a load-balancer resource without an `arn` entry would have,
      when its type allows one to be derived. */
  function DerivedArn(res: Entries, rtype: Value, rid: Value, region: string, account: string)
    : Outcome<Option<string>>
  {
    var details := GetOr(res, "details", Dict([]));
    if rtype == Str("aws_lb") then
      var uuid :- Get(details, "uuid", Str("1234567890"));
      Ok(Some(ElbPrefix + region + ":" + account + ":loadbalancer/app/" + Show(rid) + "/" + Show(uuid)))
    else if rtype == Str("aws_lb_target_group") then
      Ok(Some(ElbPrefix + region + ":" + account + ":targetgroup/" + Show(rid)))
    else if rtype == Str("aws_lb_listener") then
      var lbArn :- Get(details, "load_balancer_arn", Null);
      Ok(if Truthy(lbArn) then Some(Show(lbArn) + "/listener/" + Show(rid)) else None)
    else if rtype == Str("aws_lb_listener_rule") then
      var listenerArn :- Get(details, "listener_arn", Null);
      Ok(if Truthy(listenerArn) then Some(Show(listenerArn) + "/rule/" + Show(rid)) else None)
    else Ok(None)
  }

  /** `LoadBalancerV2Collector.generate_resource_identifier`: the `arn`
      entry, else the derived ARN, else `type:id`, else the id, else "". */
  function LbIdentifier(res: Entries, region: string, account: string): (r: Outcome<Value>)
    ensures HasKey(res, "arn") ==> r == Ok(Lookup(res, "arn").value)
    ensures r.Raised? <==>
      (&& !HasKey(res, "arn") && Truthy(GetOr(res, "id", Null))
       && GetOr(res, "type", Null) in {Str("aws_lb"), Str("aws_lb_listener"), Str("aws_lb_listener_rule")}
       && !GetOr(res, "details", Dict([])).Dict?)
    ensures !HasKey(res, "arn") && !(Truthy(GetOr(res, "type", Null)) && Truthy(GetOr(res, "id", Null))) ==>
      r == Ok(Or(GetOr(res, "id", Null), Str("")))
  {
    if HasKey(res, "arn") then Ok(GetOr(res, "arn", Null))
    else
      var rtype := GetOr(res, "type", Null);
      var rid := GetOr(res, "id", Null);
      var derived :- if Truthy(rtype) && Truthy(rid) then DerivedArn(res, rtype, rid, region, account) else Ok(None);
      if derived.Some? then Ok(Str(derived.value))
      else if Truthy(rtype) && Truthy(rid) then Ok(Str(Show(rtype) + ":" + Show(rid)))
      else Ok(Or(rid, Str("")))
  }

  /** `is_managed`: without a state reader nothing is managed; otherwise the
      resource is managed iff its `LoadBalancerArn` is a managed key (an
      unhashable value raises). */
  function IsManaged(hasStateReader: bool, managedKeys: set<Value>, res: Entries): (r: Outcome<bool>)
    ensures r.Raised? <==> hasStateReader && !Hashable(GetOr(res, "LoadBalancerArn", Null))
    ensures r == Ok(true) <==>
      hasStateReader && Hashable(GetOr(res, "LoadBalancerArn", Null)) && GetOr(res, "LoadBalancerArn", Null) in managedKeys
  {
    if !hasStateReader then Ok(false)
    else
      var arn := GetOr(res, "LoadBalancerArn", Null);
      if !Hashable(arn) then Raised else Ok(arn in managedKeys)
  }

  // ------------------------------------------------------------ lemmas

  /** The `arn` entry always wins, as in the base collector. */
  lemma ArnAlwaysWins(res: Entries, region: string, account: string)
    requires HasKey(res, "arn")
    ensures LbIdentifier(res, region, account) == Ok(Lookup(res, "arn").value)
    ensures LbIdentifier(res, region, account) == CollectorBase.ResourceIdentifier(res, account)
  {
  }

  /** A load balancer without an arn gets an application-LB ARN ending in
      its uuid, "1234567890" when the details have none. */
  lemma LoadBalancerArn(res: Entries, region: string, account: string, id: string, details: Entries)
    requires !HasKey(res, "arn") && GetOr(res, "type", Null) == Str("aws_lb")
    requires GetOr(res, "id", Null) == Str(id) && id != ""
    requires GetOr(res, "details", Dict([])) == Dict(details)
    ensures LbIdentifier(res, region, account) == Ok(Str(
      "arn:aws:elasticloadbalancing:" + region + ":" + account + ":loadbalancer/app/" + id + "/"
      + Show(GetOr(details, "uuid", Str("1234567890")))))
  {
  }

  /** A target group without an arn gets `.../targetgroup/{id}`. */
  lemma TargetGroupArn(res: Entries, region: string, account: string, id: string)
    requires !HasKey(res, "arn") && GetOr(res, "type", Null) == Str("aws_lb_target_group")
    requires GetOr(res, "id", Null) == Str(id) && id != ""
    ensures LbIdentifier(res, region, account) == Ok(Str(
      "arn:aws:elasticloadbalancing:" + region + ":" + account + ":targetgroup/" + id))
  {
  }

  /** A listener or rule is identified below its parent's ARN when the
      details hold it, and falls back to `type:id` when they do not. */
  lemma ChildArn(res: Entries, region: string, account: string, t: string, id: string, details: Entries)
    requires t == "aws_lb_listener" || t == "aws_lb_listener_rule"
    requires !HasKey(res, "arn") && GetOr(res, "type", Null) == Str(t)
    requires GetOr(res, "id", Null) == Str(id) && id != ""
    requires GetOr(res, "details", Dict([])) == Dict(details)
    ensures var key := if t == "aws_lb_listener" then "load_balancer_arn" else "listener_arn";
      var parent := GetOr(details, key, Null);
      LbIdentifier(res, region, account) == Ok(Str(
        if Truthy(parent) then Show(parent) + (if t == "aws_lb_listener" then "/listener/" else "/rule/") + id
        else t + ":" + id))
  {
  }

  /** A derived ARN, when there is one, is the identifier. */
  lemma DerivedArnIsIdentifier(res: Entries, region: string, account: string, t: string, id: string, s: string)
    requires !HasKey(res, "arn") && GetOr(res, "type", Null) == Str(t)
    requires GetOr(res, "id", Null) == Str(id) && id != "" && t != ""
    requires DerivedArn(res, Str(t), Str(id), region, account) == Ok(Some(s))
    ensures LbIdentifier(res, region, account) == Ok(Str(s))
  {
  }

  /** The derived ARNs of target groups, listeners and rules end with the
      resource id, which can be read back after the last `/`. */
  lemma DerivedArnEndsWithId(res: Entries, region: string, account: string, t: string, id: string, s: string)
    requires t == "aws_lb_target_group" || t == "aws_lb_listener" || t == "aws_lb_listener_rule"
    requires '/' !in id
    requires DerivedArn(res, Str(t), Str(id), region, account) == Ok(Some(s))
    ensures AfterLast(s, '/') == id
  {
    var details := GetOr(res, "details", Dict([]));
    var head: string;
    if t == "aws_lb_target_group" {
      head := ElbPrefix + region + ":" + account + ":targetgroup";
      assert s == ElbPrefix + region + ":" + account + ":targetgroup/" + id;
    } else if t == "aws_lb_listener" {
      var parent := Get(details, "load_balancer_arn", Null).value;
      head := Show(parent) + "/listener";
      assert s == Show(parent) + "/listener/" + id;
    } else {
      var parent := Get(details, "listener_arn", Null).value;
      head := Show(parent) + "/rule";
      assert s == Show(parent) + "/rule/" + id;
    }
    assert s == head + "/" + id;
    AfterLastSep(head, '/', id);
  }

  /** Without a state reader nothing is managed. */
  lemma NoReaderNothingManaged(managedKeys: set<Value>, res: Entries)
    ensures IsManaged(false, managedKeys, res) == Ok(false)
  {
  }

  /** With a state reader, a resource is managed iff its `LoadBalancerArn`
      (None when missing) is a managed key. */
  lemma ManagedIffArnKnown(managedKeys: set<Value>, res: Entries)
    requires Hashable(GetOr(res, "LoadBalancerArn", Null))
    ensures IsManaged(true, managedKeys, res) == Ok(GetOr(res, "LoadBalancerArn", Null) in managedKeys)
  {
  }
}
