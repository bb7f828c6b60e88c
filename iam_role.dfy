/** `IAMRoleGenerator`: the `aws_iam_role` block and its import command.
    `generate` collects blocks in a list and joins them with a blank line;
    it writes the one role block only when the record's type is
    `aws_iam_role`.  The trust policy is written by `json.dumps`, the
    parameter `dumps`.
 */
module IamRole {
  import opened Py
  import opened HclText
  import opened GeneratorBase

  const ResourceType := "aws_iam_role"

  /** The lines of the role block; `details.get` raises when the details
      are not a dict, and a tag that is not a dict raises. */
  function RoleLines(res: Entries, dumps: Value -> string): Outcome<seq<string>> {
    var name := Show(GetOr(res, "id", Null));
    var details := GetOr(res, "details", Dict([]));
    var policy :- Get(details, "assume_role_policy", Dict([]));
    var description :- Get(details, "description", Str(""));
    var path :- Get(details, "path", Str("/"));
    var tags :- TagsBlock(GetOr(res, "tags", List([])), LooseTagLine);
    Ok([Header(ResourceType, name), "  name = \"" + name + "\""]
      + When(Truthy(description), "  description = \"" + Show(description) + "\"")
      + When(path != Str("/"), "  path = \"" + Show(path) + "\"")
      + ["  assume_role_policy = jsonencode(" + dumps(policy) + ")"]
      + tags + ["}"])
  }

  /** `hcl_blocks`: the role block when the type is `aws_iam_role`, else
      nothing; `resource["type"]` raises when the type is missing. */
  function Blocks(res: Entries, dumps: Value -> string): Outcome<seq<string>> {
    var t :- Item(Dict(res), "type");
    if t != Str(ResourceType) then Ok([])
    else
      var ls :- RoleLines(res, dumps);
      Ok([Join("\n", ls)])
  }

  /** What `generate` returns: the blocks joined by a blank line, or None
      when anything raised. */
  function Output(res: Entries, dumps: Value -> string): Option<string> {
    match Blocks(res, dumps)
    case Ok(bs) => Some(Join("\n\n", bs))
    case Raised => None
  }

  /** `generate` */
  method Generate(res: Entries, dumps: Value -> string) returns (r: Option<string>)
    ensures r == Output(res, dumps)
  {
    var name := Show(GetOr(res, "id", Null));
    var details := GetOr(res, "details", Dict([]));
    var blocks: seq<string> := [];
    var t := Item(Dict(res), "type");
    if t.Raised? {
      return None;
    }
    if t.value == Str(ResourceType) {
      if !details.Dict? {
        return None;
      }
      var policy := GetOr(details.entries, "assume_role_policy", Dict([]));
      var description := GetOr(details.entries, "description", Str(""));
      var path := GetOr(details.entries, "path", Str("/"));
      var hcl := [Header(ResourceType, name), "  name = \"" + name + "\""];
      ghost var spec := hcl;
      if Truthy(description) {
        hcl := hcl + ["  description = \"" + Show(description) + "\""];
      }
      spec := spec + When(Truthy(description), "  description = \"" + Show(description) + "\"");
      assert hcl == spec;
      if path != Str("/") {
        hcl := hcl + ["  path = \"" + Show(path) + "\""];
      }
      spec := spec + When(path != Str("/"), "  path = \"" + Show(path) + "\"");
      assert hcl == spec;
      hcl := hcl + ["  assume_role_policy = jsonencode(" + dumps(policy) + ")"];
      var tags := EmitTags(GetOr(res, "tags", List([])), LooseTagLine);
      if tags.Raised? {
        return None;
      }
      hcl := hcl + tags.value + ["}"];
      assert Get(details, "path", Str("/")) == Ok(path);
      assert RoleLines(res, dumps) == Ok(hcl);
      blocks := blocks + [Join("\n", hcl)];
    }
    r := Some(Join("\n\n", blocks));
  }

  /** `generate_import`: the role name is both the resource name and the id. */
  function Import(res: Entries, modulePrefix: Option<string>): (r: Option<string>)
    ensures r.None? <==> !Truthy(GetOr(res, "id", Null))
  {
    var name := GetOr(res, "id", Null);
    if !Truthy(name) then None
    else Some(ImportCommand(ImportPrefix(modulePrefix), ResourceType, Show(name), Show(name)))
  }

  // ------------------------------------------------------------ lemmas

  /** A record without a type is not generated; a record of any other type
      gives the empty text; a role is generated exactly when its lines can be
      written, as that one block. */
  lemma OnlyRoles(res: Entries, dumps: Value -> string)
    ensures !HasKey(res, "type") ==> Output(res, dumps).None?
    ensures HasKey(res, "type") && GetOr(res, "type", Null) != Str(ResourceType) ==>
      Output(res, dumps) == Some("")
    ensures GetOr(res, "type", Null) == Str(ResourceType) ==>
      match RoleLines(res, dumps)
      case Ok(ls) => Output(res, dumps) == Some(Join("\n", ls))
      case Raised => Output(res, dumps).None?
  {
  }

  /** The role block is written whenever the details are a dict and the tags
      can be written, and it always carries the trust policy, `{}` when none
      is given. */
  lemma Shape(res: Entries, dumps: Value -> string)
    ensures var details := GetOr(res, "details", Dict([]));
      RoleLines(res, dumps).Ok? <==>
        details.Dict? && TagsBlock(GetOr(res, "tags", List([])), LooseTagLine).Ok?
    ensures RoleLines(res, dumps).Ok? ==>
      var details := GetOr(res, "details", Dict([]));
      var path := GetOr(details.entries, "path", Str("/"));
      RoleLines(res, dumps).value == Opening(res)
        + When(path != Str("/"), "  path = \"" + Show(path) + "\"")
        + [PolicyLine(res, dumps)] + LooseTags(res) + ["}"]
  {
  }

  /** The header, the name and the description. */
  function Opening(res: Entries): seq<string>
    requires GetOr(res, "details", Dict([])).Dict?
  {
    var name := Show(GetOr(res, "id", Null));
    var description := GetOr(GetOr(res, "details", Dict([])).entries, "description", Str(""));
    [Header(ResourceType, name), "  name = \"" + name + "\""]
      + When(Truthy(description), "  description = \"" + Show(description) + "\"")
  }

  /** The trust policy line, `{}` by default. */
  function PolicyLine(res: Entries, dumps: Value -> string): string
    requires GetOr(res, "details", Dict([])).Dict?
  {
    "  assume_role_policy = jsonencode("
      + dumps(GetOr(GetOr(res, "details", Dict([])).entries, "assume_role_policy", Dict([]))) + ")"
  }

  /** No other line starts like a `path` line, so it is written only when
      the path is not `/`. */
  lemma PathLineOnlyThere(res: Entries, dumps: Value -> string, l: string)
    requires GetOr(res, "details", Dict([])).Dict?
    requires |l| >= 3 && l[0] == ' ' && l[1] == ' ' && l[2] == 'p'
    ensures l !in Opening(res) && l != PolicyLine(res, dumps) && l !in LooseTags(res) && l != "}"
  {
    var name := Show(GetOr(res, "id", Null));
    var description := GetOr(GetOr(res, "details", Dict([])).entries, "description", Str(""));
    assert Header(ResourceType, name)[0] == 'r';
    assert ("  name = \"" + name + "\"")[2] == 'n';
    assert ("  description = \"" + Show(description) + "\"")[2] == 'd';
    assert PolicyLine(res, dumps)[2] == 'a';
    NotInTags(l, res);
  }

  /** The import command addresses the block `generate` declares, and
      imports it by the same name. */
  lemma ImportMatchesBlock(res: Entries, dumps: Value -> string, modulePrefix: Option<string>)
    requires RoleLines(res, dumps).Ok? && Import(res, modulePrefix).Some?
    ensures var name := Show(GetOr(res, "id", Null));
      RoleLines(res, dumps).value[0] == Header(ResourceType, name)
      && Import(res, modulePrefix).value == ImportCommand(ImportPrefix(modulePrefix), ResourceType, name, name)
  {
  }
}
