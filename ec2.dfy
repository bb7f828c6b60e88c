/** `EC2InstanceGenerator`: the `aws_instance` block, with its root and EBS
    block devices, and its import command.
 */
module Ec2 {
  import opened Py
  import opened HclText
  import opened GeneratorBase
  import Exclusion

  const ResourceType := "aws_instance"

  // ------------------------------------------------------------ names

  /** `_get_short_instance_id`: the last four characters of the id, or ""
      for a falsy id; only a string id can be sliced here. */
  function ShortId(id: Value): Outcome<string> {
    if !Truthy(id) then Ok("")
    else
      var s :- AsStr(id);
      Ok(LastN(s, 4))
  }

  /** `_generate_resource_name`: the `Name` tag with `-` and spaces turned
      into `_` (case kept), `_` and the short id; else the id with `-`
      turned into `_`. */
  function Name(res: Entries): Outcome<string> {
    var id := GetOr(res, "id", Str(""));
    var tags :- Iter(GetOr(res, "tags", List([])));
    var nameTag := ScanNameTag(tags);
    var short :- ShortId(id);
    if Truthy(nameTag) then
      var n :- AsStr(nameTag);
      Ok(Sanitize(n) + "_" + short)
    else
      var i :- AsStr(id);
      Ok(Replace(i, "-", "_"))
  }

  // ------------------------------------------------------------ block devices

  /** Size, type and encryption of a block device, with the defaults 8,
      `gp2` and false. */
  function DeviceSettings(device: Entries): seq<string> {
    ["    volume_size = " + Show(GetOr(device, "volume_size", Int(8))),
     "    volume_type = \"" + Show(GetOr(device, "volume_type", Str("gp2"))) + "\"",
     "    encrypted = " + ShowLower(GetOr(device, "encrypted", Bool(false)))]
  }

  /** The `root_block_device` block, for a truthy device; one that is not a
      dict has no `get` and raises. */
  function RootDevice(device: Value): Outcome<seq<string>> {
    if !Truthy(device) then Ok([])
    else if !device.Dict? then Raised
    else Ok(["  root_block_device {"] + DeviceSettings(device.entries) + ["  }"])
  }

  /** One `ebs_block_device` block. */
  function EbsDevice(device: Value): Outcome<seq<string>> {
    if !device.Dict? then Raised
    else
      Ok(["  ebs_block_device {", "    device_name = \"" + Show(GetOr(device.entries, "device_name", Null)) + "\""]
        + DeviceSettings(device.entries) + ["  }"])
  }

  /** `for device in ebs_block_devices`: no truthiness test, so a value that
      cannot be iterated raises. */
  function EbsDevices(devices: Value): Outcome<seq<string>> {
    var xs :- Iter(devices);
    ConcatMap(xs, EbsDevice)
  }

  // ------------------------------------------------------------ generate

  /** The five optional quoted settings before the security groups. */
  function Placement(d: Entries): seq<string> {
    OptionalSetting(d, "ami") + OptionalSetting(d, "instance_type") + OptionalSetting(d, "availability_zone")
      + OptionalSetting(d, "subnet_id") + OptionalSetting(d, "key_name")
  }

  /** `monitoring`, written for every instance (default false). */
  function MonitoringLine(d: Entries): string {
    BoolSetting("monitoring", GetOr(d, "monitoring", Bool(false)))
  }

  const ReplaceOnChange := "  user_data_replace_on_change = false"

  /** Everything between the header and the tags. */
  function Body(d: Entries): Outcome<seq<string>> {
    var groups :- ListSetting(d, "vpc_security_group_ids");
    var root :- RootDevice(GetOr(d, "root_block_device", Null));
    var ebs :- EbsDevices(GetOr(d, "ebs_block_device", List([])));
    Ok(BodyOf(d, groups, root, ebs))
  }

  /** The body from the security groups and the block devices. */
  function BodyOf(d: Entries, groups: seq<string>, root: seq<string>, ebs: seq<string>): seq<string> {
    Placement(d) + groups + OptionalSetting(d, "iam_instance_profile") + [MonitoringLine(d)]
      + root + ebs + OptionalSetting(d, "user_data") + [ReplaceOnChange]
  }

  /** The lines `generate` joins: None without an id; details that are not
      a dict have no `get` and raise. */
  function Lines(res: Entries): Outcome<Option<seq<string>>> {
    if !Truthy(GetOr(res, "id", Null)) then Ok(None)
    else
      var name :- Name(res);
      var details := GetOr(res, "details", Dict([]));
      if !details.Dict? then Raised
      else
        var body :- Body(details.entries);
        var tags :- TagsBlock(GetOr(res, "tags", List([])), StrictTagLine);
        Ok(Some([Header(ResourceType, name)] + body + tags + ["}"]))
  }

  /** `if details.get(key): hcl.append(...)` for one key. */
  method EmitOptional(hcl: seq<string>, d: Entries, key: string) returns (r: seq<string>)
    ensures r == hcl + OptionalSetting(d, key)
  {
    r := hcl;
    var v := GetOr(d, key, Null);
    if Truthy(v) {
      r := r + [QuotedSetting(key, v)];
    }
  }

  /** The five optional settings, one `if` each. */
  method EmitPlacement(d: Entries) returns (hcl: seq<string>)
    ensures hcl == Placement(d)
  {
    hcl := EmitOptional([], d, "ami");
    hcl := EmitOptional(hcl, d, "instance_type");
    hcl := EmitOptional(hcl, d, "availability_zone");
    hcl := EmitOptional(hcl, d, "subnet_id");
    hcl := EmitOptional(hcl, d, "key_name");
  }

  /** The body, with the EBS devices appended in a loop. */
  method EmitBody(d: Entries) returns (r: Outcome<seq<string>>)
    ensures r == Body(d)
  {
    var hcl := EmitPlacement(d);
    var groups := ListSetting(d, "vpc_security_group_ids");
    if groups.Raised? {
      return Raised;
    }
    hcl := hcl + groups.value;
    hcl := EmitOptional(hcl, d, "iam_instance_profile");
    hcl := hcl + [MonitoringLine(d)];
    var root := RootDevice(GetOr(d, "root_block_device", Null));
    if root.Raised? {
      return Raised;
    }
    hcl := hcl + root.value;
    var ebs := IterLoop(GetOr(d, "ebs_block_device", List([])), EbsDevice);
    if ebs.Raised? {
      return Raised;
    }
    hcl := hcl + ebs.value;
    hcl := EmitOptional(hcl, d, "user_data");
    hcl := hcl + [ReplaceOnChange];
    return Ok(hcl);
  }

  /** `generate` */
  method Generate(res: Entries) returns (r: Option<string>)
    ensures r == Render(Lines(res))
  {
    if !Truthy(GetOr(res, "id", Null)) {
      return None;
    }
    var name := Name(res);
    if name.Raised? {
      return None;
    }
    var details := GetOr(res, "details", Dict([]));
    if !details.Dict? {
      return None;
    }
    var body := EmitBody(details.entries);
    if body.Raised? {
      return None;
    }
    var tags := EmitTags(GetOr(res, "tags", List([])), StrictTagLine);
    if tags.Raised? {
      return None;
    }
    r := Some(Join("\n", [Header(ResourceType, name.value)] + body.value + tags.value + ["}"]));
  }

  /** `generate_import`: the same name as the block, and the raw id. */
  function Import(res: Entries, modulePrefix: Option<string>): (r: Option<string>)
    ensures r.Some? <==> Truthy(GetOr(res, "id", Null)) && Name(res).Ok?
  {
    var id := GetOr(res, "id", Null);
    if !Truthy(id) then None
    else match Name(res)
      case Raised => None
      case Ok(name) => Some(ImportCommand(ImportPrefix(modulePrefix), ResourceType, name, Show(id)))
  }

  // ------------------------------------------------------------ lemmas

  /** An instance is left out exactly when it has no id. */
  lemma RequiredFields(res: Entries)
    ensures Lines(res) == Ok(None) <==> !Truthy(GetOr(res, "id", Null))
  {
  }

  /** The short id is the id's last four characters, all of it when it is
      shorter, and "" for an empty id. */
  lemma ShortIdShape(s: string)
    ensures ShortId(Str(s)).Ok?
    ensures var short := ShortId(Str(s)).value;
      |short| == (if |s| < 4 then |s| else 4) && short == s[|s| - |short|..]
  {
  }

  /** With a `Name` tag in a tag list, the instance's name is the one the
      exclusion engine adds to the candidate values of an `aws_instance`,
      bare and prefixed with its type. */
  lemma NameMatchesExclusion(res: Entries, tags: seq<Value>, n: string, i: string)
    requires GetOr(res, "tags", List([])) == List(tags) && ScanNameTag(tags) == Str(n) && n != ""
    requires GetOr(res, "id", Str("")) == Str(i)
    ensures Name(res) == Ok(Exclusion.Ec2TerraformName(n, i))
    ensures NameTagOf(GetOr(res, "tags", List([]))) == Str(n)
    ensures GetOr(res, "type", Null) == Str("aws_instance") && i != "" && Exclusion.CheckValues(res).Ok? ==>
      Exclusion.Ec2TerraformName(n, i) in Exclusion.CheckValues(res).value
      && "aws_instance:" + Exclusion.Ec2TerraformName(n, i) in Exclusion.CheckValues(res).value
  {
    if GetOr(res, "type", Null) == Str("aws_instance") && i != "" && Exclusion.CheckValues(res).Ok? {
      Exclusion.CheckValuesHoldEc2Name(res, n, i, GetOr(res, "type", Null).s);
    }
  }

  /** Without a `Name` tag the name is the id with `-` turned into `_`, so
      it never holds a `-`. */
  lemma NameWithoutTag(res: Entries, i: string)
    requires Iter(GetOr(res, "tags", List([]))).Ok? && !Truthy(ScanNameTag(Iter(GetOr(res, "tags", List([]))).value))
    requires GetOr(res, "id", Str("")) == Str(i)
    ensures Name(res) == Ok(Replace(i, "-", "_"))
    ensures '-' !in Name(res).value
  {
    ReplaceRemoves(i, '-', "_");
  }

  /** A device that sets nothing gets size 8, type `gp2` and no encryption. */
  lemma DeviceDefaults()
    ensures DeviceSettings([]) == ["    volume_size = 8", "    volume_type = \"gp2\"", "    encrypted = false"]
  {
    ShowLowerBool(false);
    assert Show(Int(8)) == "8";
    assert "    volume_size = " + "8" == "    volume_size = 8";
    assert "    volume_type = \"" + "gp2" + "\"" == "    volume_type = \"gp2\"";
    assert "    encrypted = " + "false" == "    encrypted = false";
  }

  /** Every EBS device that is a dict gets a six-line block. */
  lemma {:induction false} EbsLinesPerDevice(xs: seq<Value>)
    requires ConcatMap(xs, EbsDevice).Ok?
    ensures |ConcatMap(xs, EbsDevice).value| == 6 * |xs|
    decreases |xs|
  {
    if xs != [] {
      EbsLinesPerDevice(xs[..|xs| - 1]);
    }
  }

  /** An EBS device that is not a dict makes `generate` raise. */
  lemma EbsDeviceMustBeDict(devices: seq<Value>, i: nat)
    requires i < |devices| && !devices[i].Dict?
    ensures EbsDevices(List(devices)).Raised?
  {
    ConcatMapRaises(devices, EbsDevice, i);
  }

  /** `monitoring` and `user_data_replace_on_change = false` are in every
      body. */
  lemma AlwaysWritten(d: Entries, groups: seq<string>, root: seq<string>, ebs: seq<string>)
    ensures MonitoringLine(d) in BodyOf(d, groups, root, ebs) && ReplaceOnChange in BodyOf(d, groups, root, ebs)
  {
    BodyHolds(Placement(d), groups, OptionalSetting(d, "iam_instance_profile"), MonitoringLine(d),
              root, ebs, OptionalSetting(d, "user_data"), ReplaceOnChange);
  }

  /** A body of this shape holds its middle line and its last line. */
  lemma BodyHolds(a: seq<string>, b: seq<string>, c: seq<string>, m: string,
                  e: seq<string>, f: seq<string>, g: seq<string>, z: string)
    ensures var body := a + b + c + [m] + e + f + g + [z];
      m in body && z in body
  {
    var body := a + b + c + [m] + e + f + g + [z];
    assert body == (a + b + c) + [m] + (e + f + g + [z]);
    assert body[|a + b + c|] == m;
    assert body[|body| - 1] == z;
  }

  /** `monitoring` is false when the details do not set it. */
  lemma MonitoringDefault(d: Entries)
    requires !HasKey(d, "monitoring")
    ensures MonitoringLine(d) == "  monitoring = false"
  {
    BoolSettingLiteral("monitoring", false);
    assert "  " + "monitoring" + " = false" == "  monitoring = false";
  }

  /** The import command addresses the block `generate` declares and imports
      it by its raw id. */
  lemma ImportMatchesBlock(res: Entries, modulePrefix: Option<string>)
    requires Lines(res).Ok? && Lines(res).value.Some?
    ensures Import(res, modulePrefix).Some?
    ensures var name := Name(res).value;
      [Header(ResourceType, name)] <= Lines(res).value.value
      && Import(res, modulePrefix).value == ImportCommand(ImportPrefix(modulePrefix), ResourceType, name, Show(GetOr(res, "id", Null)))
  {
  }
}
