/** `IAMUserPolicyGenerator`: the `aws_iam_user_policy` block and its import
    command.  `json.dumps(..., indent=2)` is the parameter `dumps`.
 */
module IamUserPolicy {
  import opened Py
  import opened HclText
  import opened GeneratorBase

  const ResourceType := "aws_iam_user_policy"

  /** `f"{user_name}_{policy_name}".replace("-", "_")`, shared by both methods. */
  function ResourceId(user: Value, policy: Value): (r: string)
    ensures '-' !in r
  {
    ReplaceRemoves(Show(user) + "_" + Show(policy), '-', "_");
    Replace(Show(user) + "_" + Show(policy), "-", "_")
  }

  /** The lines `generate` joins: None unless user, policy name and document
      are all given.  Nothing in it can raise. */
  function Lines(res: Entries, dumps: Value -> string): Option<seq<string>> {
    var user := GetOr(res, "user_name", Null);
    var policy := GetOr(res, "policy_name", Null);
    var document := GetOr(res, "policy_document", Dict([]));
    if !(Truthy(user) && Truthy(policy) && Truthy(document)) then None
    else Some([
      Header(ResourceType, ResourceId(user, policy)),
      "  name = \"" + Show(policy) + "\"",
      "  user = \"" + Show(user) + "\"",
      "",
      "  policy = jsonencode(" + dumps(document) + ")",
      "}"])
  }

  /** `generate` */
  function Generate(res: Entries, dumps: Value -> string): (r: Option<string>)
    ensures r.Some? <==> (Truthy(GetOr(res, "user_name", Null)) && Truthy(GetOr(res, "policy_name", Null))
      && Truthy(GetOr(res, "policy_document", Dict([]))))
  {
    match Lines(res, dumps)
    case Some(ls) => Some(Join("\n", ls))
    case None => None
  }

  /** `generate_import`: needs only the user and the policy name; the id is
      `user:policy`. */
  function Import(res: Entries, modulePrefix: Option<string>): (r: Option<string>)
    ensures r.Some? <==> Truthy(GetOr(res, "user_name", Null)) && Truthy(GetOr(res, "policy_name", Null))
  {
    var user := GetOr(res, "user_name", Null);
    var policy := GetOr(res, "policy_name", Null);
    if !(Truthy(user) && Truthy(policy)) then None
    else Some(ImportCommand(ImportPrefix(modulePrefix), ResourceType, ResourceId(user, policy),
      Show(user) + ":" + Show(policy)))
  }

  // ------------------------------------------------------------ lemmas

  /** `generate` needs all three fields and the import only two, so every
      resource that can be generated can be imported; the block is the fixed
      sequence header, name, user, blank line, policy, closing brace. */
  lemma RequiredFields(res: Entries, dumps: Value -> string, modulePrefix: Option<string>)
    ensures var user := GetOr(res, "user_name", Null);
      var policy := GetOr(res, "policy_name", Null);
      var document := GetOr(res, "policy_document", Dict([]));
      (Generate(res, dumps).Some? <==> Truthy(user) && Truthy(policy) && Truthy(document))
      && (Import(res, modulePrefix).Some? <==> Truthy(user) && Truthy(policy))
    ensures Generate(res, dumps).Some? ==> Import(res, modulePrefix).Some?
    ensures Lines(res, dumps).Some? ==>
      var ls := Lines(res, dumps).value;
      |ls| == 6 && ls[3] == "" && ls[5] == "}"
      && ls[4] == "  policy = jsonencode(" + dumps(GetOr(res, "policy_document", Dict([]))) + ")"
  {
  }

  /** A policy without a document is not generated, but its import command is. */
  lemma ImportWithoutDocument(dumps: Value -> string, modulePrefix: Option<string>)
    ensures var res := [("user_name", Str("alice")), ("policy_name", Str("s3-read"))];
      Generate(res, dumps).None? && Import(res, modulePrefix).Some?
  {
    var res := [("user_name", Str("alice")), ("policy_name", Str("s3-read"))];
    assert GetOr(res, "user_name", Null) == Str("alice");
    assert GetOr(res, "policy_name", Null) == Str("s3-read");
    assert GetOr(res, "policy_document", Dict([])) == Dict([]);
  }

  /** The import command addresses the block `generate` declares. */
  lemma ImportMatchesBlock(res: Entries, dumps: Value -> string, modulePrefix: Option<string>)
    requires Generate(res, dumps).Some?
    ensures var user := GetOr(res, "user_name", Null);
      var policy := GetOr(res, "policy_name", Null);
      Lines(res, dumps).value[0] == Header(ResourceType, ResourceId(user, policy))
      && Import(res, modulePrefix) == Some(ImportCommand(ImportPrefix(modulePrefix), ResourceType,
        ResourceId(user, policy), Show(user) + ":" + Show(policy)))
  {
  }
}
