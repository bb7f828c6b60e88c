/** `IAMPolicyGenerator`: the `aws_iam_policy` block and its import command.
    The policy document is written by `json.dumps`, the parameter `dumps`.
 */
module IamPolicy {
  import opened Py
  import opened HclText
  import opened GeneratorBase

  const ResourceType := "aws_iam_policy"

  /** The lines `generate` joins: None without a name or a document. */
  function Lines(res: Entries, dumps: Value -> string): Outcome<Option<seq<string>>> {
    var name := GetOr(res, "id", Null);
    var details := GetOr(res, "details", Dict([]));
    var document :- Get(details, "policy_document", Dict([]));
    if !Truthy(name) || !Truthy(document) then Ok(None)
    else
      var description :- Get(details, "description", Null);
      var path :- Get(details, "path", Str("/"));
      var tags :- TagsBlock(GetOr(res, "tags", List([])), LooseTagLine);
      Ok(Some([Header(ResourceType, Show(name)), "  name = \"" + Show(name) + "\""]
        + When(Truthy(description), "  description = \"" + Show(description) + "\"")
        + When(path != Str("/"), "  path = \"" + Show(path) + "\"")
        + ["  policy = jsonencode(" + dumps(document) + ")"]
        + tags + ["}"]))
  }

  /** `generate` */
  method Generate(res: Entries, dumps: Value -> string) returns (r: Option<string>)
    ensures r == Render(Lines(res, dumps))
  {
    var name := GetOr(res, "id", Null);
    var details := GetOr(res, "details", Dict([]));
    if !details.Dict? {
      return None;
    }
    var document := GetOr(details.entries, "policy_document", Dict([]));
    if !Truthy(name) || !Truthy(document) {
      return None;
    }
    var hcl := [Header(ResourceType, Show(name)), "  name = \"" + Show(name) + "\""];
    ghost var spec := hcl;
    var description := GetOr(details.entries, "description", Null);
    if Truthy(description) {
      hcl := hcl + ["  description = \"" + Show(description) + "\""];
    }
    spec := spec + When(Truthy(description), "  description = \"" + Show(description) + "\"");
    assert hcl == spec;
    var path := GetOr(details.entries, "path", Str("/"));
    if path != Str("/") {
      hcl := hcl + ["  path = \"" + Show(path) + "\""];
    }
    spec := spec + When(path != Str("/"), "  path = \"" + Show(path) + "\"");
    assert hcl == spec;
    hcl := hcl + ["  policy = jsonencode(" + dumps(document) + ")"];
    var tags := EmitTags(GetOr(res, "tags", List([])), LooseTagLine);
    if tags.Raised? {
      return None;
    }
    hcl := hcl + tags.value + ["}"];
    assert Get(details, "path", Str("/")) == Ok(path);
    r := Some(Join("\n", hcl));
  }

  /** `generate_import`: the policy name is the resource name, the ARN the id. */
  function Import(res: Entries, modulePrefix: Option<string>): (r: Option<string>)
    ensures r.None? <==> !Truthy(GetOr(res, "arn", Null)) || !Truthy(GetOr(res, "id", Null))
  {
    var arn := GetOr(res, "arn", Null);
    var name := GetOr(res, "id", Null);
    if !Truthy(arn) || !Truthy(name) then None
    else Some(ImportCommand(ImportPrefix(modulePrefix), ResourceType, Show(name), Show(arn)))
  }

  // ------------------------------------------------------------ lemmas

  /** With dict details, the block is left out exactly when the name or the
      policy document is missing; other details make `get` raise. */
  lemma RequiredFields(res: Entries, dumps: Value -> string)
    ensures var details := GetOr(res, "details", Dict([]));
      (!details.Dict? ==> Lines(res, dumps).Raised?)
      && (details.Dict? ==>
        (Lines(res, dumps) == Ok(None) <==>
          !Truthy(GetOr(res, "id", Null)) || !Truthy(GetOr(details.entries, "policy_document", Dict([])))))
  {
  }

  /** The lines `generate` writes: the `path` line sits between the opening
      lines and the policy line exactly when the path is not `/`. */
  lemma Shape(res: Entries, dumps: Value -> string)
    requires Lines(res, dumps).Ok? && Lines(res, dumps).value.Some?
    ensures var details := GetOr(res, "details", Dict([]));
      var path := GetOr(details.entries, "path", Str("/"));
      details.Dict? && Lines(res, dumps).value.value == Opening(res)
        + When(path != Str("/"), "  path = \"" + Show(path) + "\"")
        + [PolicyLine(res, dumps)] + LooseTags(res) + ["}"]
  {
  }

  /** The header, the name and the description. */
  function Opening(res: Entries): seq<string>
    requires GetOr(res, "details", Dict([])).Dict?
  {
    var name := GetOr(res, "id", Null);
    var description := GetOr(GetOr(res, "details", Dict([])).entries, "description", Null);
    [Header(ResourceType, Show(name)), "  name = \"" + Show(name) + "\""]
      + When(Truthy(description), "  description = \"" + Show(description) + "\"")
  }

  /** The policy document, always written. */
  function PolicyLine(res: Entries, dumps: Value -> string): string
    requires GetOr(res, "details", Dict([])).Dict?
  {
    "  policy = jsonencode(" + dumps(GetOr(GetOr(res, "details", Dict([])).entries, "policy_document", Dict([]))) + ")"
  }

  /** No other line starts like a `path` line, so it is written only when the
      path is not `/`. */
  lemma PathLineOnlyThere(res: Entries, dumps: Value -> string, l: string)
    requires GetOr(res, "details", Dict([])).Dict?
    requires |l| >= 4 && l[0] == ' ' && l[1] == ' ' && l[2] == 'p' && l[3] == 'a'
    ensures l !in Opening(res) && l != PolicyLine(res, dumps) && l !in LooseTags(res) && l != "}"
  {
    var name := GetOr(res, "id", Null);
    var description := GetOr(GetOr(res, "details", Dict([])).entries, "description", Null);
    assert Header(ResourceType, Show(name))[0] == 'r';
    assert ("  name = \"" + Show(name) + "\"")[2] == 'n';
    assert ("  description = \"" + Show(description) + "\"")[2] == 'd';
    assert PolicyLine(res, dumps)[3] == 'o';
    NotInTags(l, res);
  }

  /** The import command addresses the block `generate` declares. */
  lemma ImportMatchesBlock(res: Entries, dumps: Value -> string, modulePrefix: Option<string>)
    requires Lines(res, dumps).Ok? && Lines(res, dumps).value.Some? && Import(res, modulePrefix).Some?
    ensures var name := Show(GetOr(res, "id", Null));
      Lines(res, dumps).value.value[0] == Header(ResourceType, name)
      && Import(res, modulePrefix).value == ImportCommand(ImportPrefix(modulePrefix), ResourceType, name, Show(GetOr(res, "arn", Null)))
  {
  }
}
