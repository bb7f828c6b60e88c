/** The EBS collector: only volumes that need managing on their own are
    reported, i.e. unattached volumes and volumes that outlive one of their
    instances.  The pages of volumes the EC2 API returns are the input
    sequence; the region and the account id are parameters.
 */
module EbsCollector {
  import opened Py
  import CollectorBase

  /** Whether some attachment keeps the volume when its instance goes,
      scanning in order and stopping at the first that does; a missing flag
      means the volume is deleted with the instance. */
  function AnyPreserved(attachments: seq<Value>): (r: Outcome<bool>)
    ensures (forall i :: 0 <= i < |attachments| ==> attachments[i].Dict?) ==> r.Ok?
    ensures r == Ok(true) ==> attachments != []
    decreases |attachments|
  {
    if attachments == [] then Ok(false)
    else
      var flag :- Get(attachments[0], "DeleteOnTermination", Bool(true));
      if !Truthy(flag) then Ok(true) else AnyPreserved(attachments[1..])
  }

  /** `_should_manage_volume` */
  function ShouldManageVolume(volume: Value): (r: Outcome<bool>)
    ensures !volume.Dict? ==> r.Raised?
    ensures volume.Dict? && !Truthy(GetOr(volume.entries, "Attachments", List([]))) ==> r == Ok(true)
    ensures volume.Dict? ==> var a := GetOr(volume.entries, "Attachments", List([]));
      a.List? && (forall i :: 0 <= i < |a.items| ==> a.items[i].Dict?) ==> r.Ok?
    ensures volume.Dict? ==> var a := GetOr(volume.entries, "Attachments", List([]));
      a.Null? || a.Bool? || a.Int? ==> (r.Raised? <==> Truthy(a))
  {
    var attachments :- Get(volume, "Attachments", List([]));
    if !Truthy(attachments) then Ok(true)
    else
      var atts :- Iter(attachments);
      AnyPreserved(atts)
  }

  /** One attachment as reported in the details. */
  function AttachmentRecord(att: Value): Outcome<Value> {
    var instance :- Get(att, "InstanceId", Null);
    var device :- Get(att, "Device", Null);
    var delete :- Get(att, "DeleteOnTermination", Bool(true));
    Ok(Dict([("instance_id", instance), ("device", device), ("delete_on_termination", delete)]))
  }

  function AttachmentRecords(atts: seq<Value>): Outcome<seq<Value>>
    decreases |atts|
  {
    if atts == [] then Ok([])
    else
      var first :- AttachmentRecord(atts[0]);
      var rest :- AttachmentRecords(atts[1..]);
      Ok([first] + rest)
  }

  /** The record reported for a volume that passed the predicate. */
  function VolumeRecord(volume: Value, region: string, account: string): Outcome<Entries> {
    var vid :- Item(volume, "VolumeId");
    var atts :- Iter(GetOr(volume.entries, "Attachments", List([])));
    var attachments :- AttachmentRecords(atts);
    var v := volume.entries;
    Ok([("type", Str("aws_ebs_volume")), ("id", vid),
        ("arn", Str(CollectorBase.BuildArn("ec2", account, region, "volume", Show(vid)))),
        ("tags", GetOr(v, "Tags", List([]))),
        ("details", Dict([("size", GetOr(v, "Size", Null)), ("encrypted", GetOr(v, "Encrypted", Null)),
                          ("volume_type", GetOr(v, "VolumeType", Null)),
                          ("create_time", Str(Show(GetOr(v, "CreateTime", Null)))),
                          ("attachments", List(attachments))]))])
  }

  /** The body of the loop over the volumes. */
  function VolumeStep(region: string, account: string): Value -> Outcome<seq<Entries>> {
    volume =>
      match ShouldManageVolume(volume)
      case Raised => Raised
      case Ok(keep) =>
        if !keep then Ok([])
        else
          match VolumeRecord(volume, region, account)
          case Raised => Raised
          case Ok(r) => Ok([r])
  }

  /** `EBSCollector.collect`: the records are kept up to the first
      exception, which is logged and ends the collection. */
  method Collect(volumes: seq<Value>, region: string, account: string) returns (resources: seq<Entries>)
    ensures resources == RunSteps(volumes, VolumeStep(region, account)).out
  {
    var stopped;
    resources, stopped := RunLoop(VolumeStep(region, account), volumes);
  }

  // ------------------------------------------------------------ lemmas

  /** A volume without attachments is managed on its own. */
  lemma UnattachedIsManaged(volume: Entries)
    requires !Truthy(GetOr(volume, "Attachments", List([])))
    ensures ShouldManageVolume(Dict(volume)) == Ok(true)
  {
  }

  /** Over well-formed attachments, the scan finds a preserved one iff there
      is one whose flag is present and falsy. */
  lemma {:induction false} AnyPreservedIff(atts: seq<Value>)
    requires forall i :: 0 <= i < |atts| ==> atts[i].Dict?
    ensures AnyPreserved(atts) ==
      Ok(exists i :: 0 <= i < |atts| && !Truthy(GetOr(atts[i].entries, "DeleteOnTermination", Bool(true))))
    decreases |atts|
  {
    if atts != [] {
      AnyPreservedIff(atts[1..]);
      if exists i :: 0 < i < |atts| && !Truthy(GetOr(atts[i].entries, "DeleteOnTermination", Bool(true))) {
        var i :| 0 < i < |atts| && !Truthy(GetOr(atts[i].entries, "DeleteOnTermination", Bool(true)));
        assert atts[1..][i - 1] == atts[i];
      }
      if exists i :: 0 <= i < |atts[1..]| && !Truthy(GetOr(atts[1..][i].entries, "DeleteOnTermination", Bool(true))) {
        var i :| 0 <= i < |atts[1..]| && !Truthy(GetOr(atts[1..][i].entries, "DeleteOnTermination", Bool(true)));
        assert atts[i + 1] == atts[1..][i];
      }
    }
  }

  /** An attached volume is managed iff some attachment explicitly keeps
      it; when every attachment deletes it with its instance, it is not. */
  lemma AttachedVolume(volume: Entries, atts: seq<Value>)
    requires GetOr(volume, "Attachments", List([])) == List(atts) && atts != []
    requires forall i :: 0 <= i < |atts| ==> atts[i].Dict?
    ensures ShouldManageVolume(Dict(volume)) ==
      Ok(exists i :: 0 <= i < |atts| && !Truthy(GetOr(atts[i].entries, "DeleteOnTermination", Bool(true))))
  {
    AnyPreservedIff(atts);
  }

  /** Each reported attachment's flag defaults to True. */
  lemma AttachmentDefault(att: Entries)
    requires !HasKey(att, "DeleteOnTermination")
    ensures AttachmentRecord(Dict(att)).Ok?
    ensures GetOr(AttachmentRecord(Dict(att)).value.entries, "delete_on_termination", Null) == Bool(true)
  {
    var r := AttachmentRecord(Dict(att)).value.entries;
    assert r[2..][0].0 == "delete_on_termination";
  }

  /** When no volume raises, the collector reports exactly the volumes that
      pass the predicate, in order. */
  lemma {:induction false} CollectKeepsExactly(volumes: seq<Value>, region: string, account: string)
    requires forall i :: 0 <= i < |volumes| ==> ShouldManageVolume(volumes[i]).Ok?
    requires forall i :: 0 <= i < |volumes| ==> VolumeRecord(volumes[i], region, account).Ok?
    ensures !RunSteps(volumes, VolumeStep(region, account)).stopped
    ensures RunSteps(volumes, VolumeStep(region, account)).out == Kept(volumes, region, account)
    decreases |volumes|
  {
    if volumes != [] {
      CollectKeepsExactly(volumes[1..], region, account);
    }
  }

  /** The records of the volumes that pass the predicate, in order. */
  function Kept(volumes: seq<Value>, region: string, account: string): seq<Entries>
    requires forall i :: 0 <= i < |volumes| ==> ShouldManageVolume(volumes[i]).Ok?
    requires forall i :: 0 <= i < |volumes| ==> VolumeRecord(volumes[i], region, account).Ok?
    decreases |volumes|
  {
    if volumes == [] then []
    else
      (if ShouldManageVolume(volumes[0]).value then [VolumeRecord(volumes[0], region, account).value] else [])
      + Kept(volumes[1..], region, account)
  }

  /** A volume's record is reported iff the volume passes the predicate
      (records are told apart by volume id). */
  lemma {:induction false} KeptMember(volumes: seq<Value>, region: string, account: string, i: nat)
    requires forall i :: 0 <= i < |volumes| ==> ShouldManageVolume(volumes[i]).Ok?
    requires forall i :: 0 <= i < |volumes| ==> VolumeRecord(volumes[i], region, account).Ok?
    requires i < |volumes|
    ensures ShouldManageVolume(volumes[i]) == Ok(true) ==> VolumeRecord(volumes[i], region, account).value in Kept(volumes, region, account)
    decreases |volumes|
  {
    if i > 0 {
      KeptMember(volumes[1..], region, account, i - 1);
      assert volumes[1..][i - 1] == volumes[i];
    }
  }

  /** Every reported record is the record of a volume that passed. */
  lemma {:induction false} KeptOnlyManaged(volumes: seq<Value>, region: string, account: string, r: Entries)
    requires forall i :: 0 <= i < |volumes| ==> ShouldManageVolume(volumes[i]).Ok?
    requires forall i :: 0 <= i < |volumes| ==> VolumeRecord(volumes[i], region, account).Ok?
    requires r in Kept(volumes, region, account)
    ensures exists i :: (0 <= i < |volumes| && ShouldManageVolume(volumes[i]) == Ok(true)
                         && VolumeRecord(volumes[i], region, account).value == r)
    decreases |volumes|
  {
    if r != VolumeRecord(volumes[0], region, account).value || !ShouldManageVolume(volumes[0]).value {
      KeptOnlyManaged(volumes[1..], region, account, r);
      var i :| 0 <= i < |volumes[1..]| && ShouldManageVolume(volumes[1..][i]) == Ok(true)
        && VolumeRecord(volumes[1..][i], region, account).value == r;
      assert volumes[1..][i] == volumes[i + 1];
    }
  }
}
