/** `IAMRolePolicyAttachmentGenerator`: the `aws_iam_role_policy_attachment`
    block and its import command.  Both methods are list literals and
    f-strings, so both are functions here.
 */
module IamRolePolicyAttachment {
  import opened Py
  import opened HclText
  import opened GeneratorBase

  const ResourceType := "aws_iam_role_policy_attachment"

  /** The lines `generate` joins, or None when `role_name` or `policy_arn` is
      missing; a policy ARN that is not a string makes `split` raise. */
  function Lines(res: Entries): Outcome<Option<seq<string>>> {
    var role := GetOr(res, "role_name", Null);
    var arn := GetOr(res, "policy_arn", Null);
    if !Truthy(role) || !Truthy(arn) then Ok(None)
    else
      var a :- AsStr(arn);
      Ok(Some([
        Header(ResourceType, AttachmentName(role, a)),
        "  role       = \"" + Show(role) + "\"",
        "  policy_arn = \"" + a + "\"",
        "}"]))
  }

  /** `generate` */
  function Generate(res: Entries): (r: Option<string>)
    ensures r.Some? <==> Truthy(GetOr(res, "role_name", Null)) && Truthy(GetOr(res, "policy_arn", Null)) && GetOr(res, "policy_arn", Null).Str?
  {
    Render(Lines(res))
  }

  /** `generate_import` as written: the prefix is the empty string, so the
      address always starts with `.` and the module prefix is never used. */
  function ImportAsWritten(res: Entries, modulePrefix: Option<string>): (r: Option<string>)
    ensures r.Some? <==> Truthy(GetOr(res, "role_name", Null)) && Truthy(GetOr(res, "policy_arn", Null)) && GetOr(res, "policy_arn", Null).Str?
    ensures r.Some? ==> StartsWith(r.value, "terraform import .")
  {
    var role := GetOr(res, "role_name", Null);
    var arn := GetOr(res, "policy_arn", Null);
    if !Truthy(role) || !Truthy(arn) || !arn.Str? then None
    else
      var prefix := "";
      var address := prefix + "." + ResourceType + "." + AttachmentName(role, arn.s);
      Some("terraform import " + address + " " + Show(role) + "/" + arn.s)
  }

  /** `generate_import` as every other generator writes it: the address is
      inside the module when a prefix is set. */
  function Import(res: Entries, modulePrefix: Option<string>): (r: Option<string>)
    ensures r.Some? <==> Truthy(GetOr(res, "role_name", Null)) && Truthy(GetOr(res, "policy_arn", Null)) && GetOr(res, "policy_arn", Null).Str?
  {
    var role := GetOr(res, "role_name", Null);
    var arn := GetOr(res, "policy_arn", Null);
    if !Truthy(role) || !Truthy(arn) || !arn.Str? then None
    else
      Some(ImportCommand(ImportPrefix(modulePrefix), ResourceType, AttachmentName(role, arn.s),
        Show(role) + "/" + arn.s))
  }

  // ------------------------------------------------------------ lemmas

  /** Both methods give None exactly when a required field is missing (or the
      ARN is not a string); the block is then exactly four lines. */
  lemma RequiredFields(res: Entries, modulePrefix: Option<string>)
    ensures var role := GetOr(res, "role_name", Null);
      var arn := GetOr(res, "policy_arn", Null);
      var ok := Truthy(role) && Truthy(arn) && arn.Str?;
      (Generate(res).Some? <==> ok) && (Import(res, modulePrefix).Some? <==> ok)
      && (ImportAsWritten(res, modulePrefix).Some? <==> ok)
      && (ok ==> |Lines(res).value.value| == 4)
  {
  }

  /** The command as written names an address that starts with `.`, which
      Terraform cannot resolve, whatever the module prefix; the corrected
      command's address starts with `module.` or the resource type. */
  lemma AsWrittenLeadingDot(res: Entries, modulePrefix: Option<string>)
    requires ImportAsWritten(res, modulePrefix).Some?
    ensures var cmd := ImportAsWritten(res, modulePrefix).value;
      cmd[17] == '.' && cmd != Import(res, modulePrefix).value
  {
    var role := GetOr(res, "role_name", Null);
    var arn := GetOr(res, "policy_arn", Null).s;
    var name := AttachmentName(role, arn);
    var address := "" + "." + ResourceType + "." + name;
    assert address[0] == '.';
    var cmd := ImportAsWritten(res, modulePrefix).value;
    assert cmd == "terraform import " + address + " " + Show(role) + "/" + arn;
    assert cmd[17] == address[0];
    AddressHead(modulePrefix, ResourceType, name, Show(role) + "/" + arn);
  }

  /** Corrected, the command addresses the block `generate` declares (inside
      the module when there is one) and imports it as `role/policy_arn`. */
  lemma ImportMatchesBlock(res: Entries, modulePrefix: Option<string>)
    requires Generate(res).Some?
    ensures var role := GetOr(res, "role_name", Null);
      var arn := GetOr(res, "policy_arn", Null).s;
      var name := AttachmentName(role, arn);
      Lines(res).value.value[0] == Header(ResourceType, name)
      && Import(res, modulePrefix) == Some(ImportCommand(ImportPrefix(modulePrefix), ResourceType, name, Show(role) + "/" + arn))
  {
  }
}
