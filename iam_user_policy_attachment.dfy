/** `IAMUserPolicyAttachmentGenerator`: the `aws_iam_user_policy_attachment`
    block and its import command, both list literals and f-strings.
 */
module IamUserPolicyAttachment {
  import opened Py
  import opened HclText
  import opened GeneratorBase

  const ResourceType := "aws_iam_user_policy_attachment"

  /** `all([user_name, policy_arn])` */
  predicate Complete(res: Entries) {
    Truthy(GetOr(res, "user_name", Null)) && Truthy(GetOr(res, "policy_arn", Null))
  }

  /** The lines `generate` joins; a policy ARN that is not a string makes
      `split` raise. */
  function Lines(res: Entries): Outcome<Option<seq<string>>> {
    var user := GetOr(res, "user_name", Null);
    if !Complete(res) then Ok(None)
    else
      var arn :- AsStr(GetOr(res, "policy_arn", Null));
      Ok(Some([
        Header(ResourceType, AttachmentName(user, arn)),
        "  user       = \"" + Show(user) + "\"",
        "  policy_arn = \"" + arn + "\"",
        "}"]))
  }

  /** `generate` */
  function Generate(res: Entries): (r: Option<string>)
    ensures r.Some? <==> Complete(res) && GetOr(res, "policy_arn", Null).Str?
  {
    Render(Lines(res))
  }

  /** `generate_import`: the id is `user/policy_arn`. */
  function Import(res: Entries, modulePrefix: Option<string>): (r: Option<string>)
    ensures r.Some? <==> Complete(res) && GetOr(res, "policy_arn", Null).Str?
  {
    var user := GetOr(res, "user_name", Null);
    var arn := GetOr(res, "policy_arn", Null);
    if !Complete(res) || !arn.Str? then None
    else
      Some(ImportCommand(ImportPrefix(modulePrefix), ResourceType, AttachmentName(user, arn.s),
        Show(user) + "/" + arn.s))
  }

  // ------------------------------------------------------------ lemmas

  /** Both methods need both fields; the block is then exactly the header,
      the user, the policy ARN and the closing brace. */
  lemma RequiredFields(res: Entries, modulePrefix: Option<string>)
    ensures var ok := Complete(res) && GetOr(res, "policy_arn", Null).Str?;
      (Generate(res).Some? <==> ok) && (Import(res, modulePrefix).Some? <==> ok)
    ensures Generate(res).Some? ==>
      var user := GetOr(res, "user_name", Null);
      var arn := GetOr(res, "policy_arn", Null).s;
      Lines(res).value.value == [Header(ResourceType, AttachmentName(user, arn)),
        "  user       = \"" + Show(user) + "\"", "  policy_arn = \"" + arn + "\"", "}"]
  {
  }

  /** The import command addresses the block `generate` declares under the
      same name, and imports it as `user/policy_arn`. */
  lemma ImportMatchesBlock(res: Entries, modulePrefix: Option<string>)
    requires Generate(res).Some?
    ensures var user := GetOr(res, "user_name", Null);
      var arn := GetOr(res, "policy_arn", Null).s;
      var name := AttachmentName(user, arn);
      Lines(res).value.value[0] == Header(ResourceType, name)
      && Import(res, modulePrefix) == Some(ImportCommand(ImportPrefix(modulePrefix), ResourceType, name, Show(user) + "/" + arn))
  {
  }
}
