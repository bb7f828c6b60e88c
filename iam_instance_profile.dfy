/** `IAMInstanceProfileGenerator`: the `aws_iam_instance_profile` block and
    its import command. */
module IamInstanceProfile {
  import opened Py
  import opened HclText
  import opened GeneratorBase

  const ResourceType := "aws_iam_instance_profile"

  /** The lines `generate` joins: None without an id. */
  function Lines(res: Entries): Outcome<Option<seq<string>>> {
    var name := GetOr(res, "id", Null);
    var details := GetOr(res, "details", Dict([]));
    if !Truthy(name) then Ok(None)
    else
      var path :- Get(details, "path", Null);
      var role :- Get(details, "role_name", Null);
      var tags :- TagsBlock(GetOr(res, "tags", List([])), LooseTagLine);
      Ok(Some(Opening(name, path)
        + When(Truthy(role), "  role = \"" + Show(role) + "\"")
        + tags + ["}"]))
  }

  /** The header, the name and the path when it is set and not `/`. */
  function Opening(name: Value, path: Value): seq<string> {
    [Header(ResourceType, Show(name)), "  name = \"" + Show(name) + "\""]
      + When(Truthy(path) && path != Str("/"), "  path = \"" + Show(path) + "\"")
  }

  /** `generate` */
  method Generate(res: Entries) returns (r: Option<string>)
    ensures r == Render(Lines(res))
  {
    var name := GetOr(res, "id", Null);
    var details := GetOr(res, "details", Dict([]));
    if !Truthy(name) {
      return None;
    }
    var hcl := [Header(ResourceType, Show(name)), "  name = \"" + Show(name) + "\""];
    ghost var spec := hcl;
    if !details.Dict? {
      return None;
    }
    var path := GetOr(details.entries, "path", Null);
    if Truthy(path) && path != Str("/") {
      hcl := hcl + ["  path = \"" + Show(path) + "\""];
    }
    spec := spec + When(Truthy(path) && path != Str("/"), "  path = \"" + Show(path) + "\"");
    assert hcl == spec;
    var role := GetOr(details.entries, "role_name", Null);
    if Truthy(role) {
      hcl := hcl + ["  role = \"" + Show(role) + "\""];
    }
    spec := spec + When(Truthy(role), "  role = \"" + Show(role) + "\"");
    assert hcl == spec;
    var tags := EmitTags(GetOr(res, "tags", List([])), LooseTagLine);
    if tags.Raised? {
      return None;
    }
    hcl := hcl + tags.value + ["}"];
    assert Get(details, "path", Null) == Ok(path);
    r := Some(Join("\n", hcl));
  }

  /** `generate_import`: the profile name is both the resource name and the id. */
  function Import(res: Entries, modulePrefix: Option<string>): (r: Option<string>)
    ensures r.None? <==> !Truthy(GetOr(res, "id", Null))
  {
    var name := GetOr(res, "id", Null);
    if !Truthy(name) then None
    else Some(ImportCommand(ImportPrefix(modulePrefix), ResourceType, Show(name), Show(name)))
  }

  // ------------------------------------------------------------ lemmas

  /** Without an id nothing is written; with one, the block is written
      whenever the details are a dict and the tags can be written, and both
      methods agree on when there is something to import. */
  lemma RequiredFields(res: Entries, modulePrefix: Option<string>)
    ensures !Truthy(GetOr(res, "id", Null)) ==> Lines(res) == Ok(None)
    ensures Truthy(GetOr(res, "id", Null)) ==>
      (Lines(res).Ok? <==>
        GetOr(res, "details", Dict([])).Dict? && TagsBlock(GetOr(res, "tags", List([])), LooseTagLine).Ok?)
    ensures Render(Lines(res)).Some? ==> Import(res, modulePrefix).Some?
  {
  }

  /** The `role` line sits between the opening lines and the tags exactly
      when a role is named, and no other line starts like it. */
  lemma RoleLineOnlyThere(res: Entries, l: string)
    requires Lines(res).Ok? && Lines(res).value.Some?
    requires |l| >= 3 && l[0] == ' ' && l[1] == ' ' && l[2] == 'r'
    ensures var details := GetOr(res, "details", Dict([])).entries;
      var name := GetOr(res, "id", Null);
      var path := GetOr(details, "path", Null);
      var role := GetOr(details, "role_name", Null);
      Lines(res).value.value == Opening(name, path)
        + When(Truthy(role), "  role = \"" + Show(role) + "\"") + LooseTags(res) + ["}"]
      && l !in Opening(name, path) && l !in LooseTags(res) && l != "}"
  {
    var details := GetOr(res, "details", Dict([])).entries;
    var name := GetOr(res, "id", Null);
    var path := GetOr(details, "path", Null);
    assert Header(ResourceType, Show(name))[0] == 'r';
    assert ("  name = \"" + Show(name) + "\"")[2] == 'n';
    assert ("  path = \"" + Show(path) + "\"")[2] == 'p';
    NotInTags(l, res);
  }

  /** The path line is written only for a path that is set and is not `/`. */
  lemma PathOnlyWhenNotRoot(name: Value, path: Value)
    ensures |Opening(name, path)| == 3 <==> Truthy(path) && path != Str("/")
    ensures |Opening(name, path)| == 3 ==> Opening(name, path)[2] == "  path = \"" + Show(path) + "\""
  {
  }

  /** The import command addresses the block `generate` declares, and
      imports it by the same name. */
  lemma ImportMatchesBlock(res: Entries, modulePrefix: Option<string>)
    requires Lines(res).Ok? && Lines(res).value.Some?
    ensures var name := Show(GetOr(res, "id", Null));
      Lines(res).value.value[0] == Header(ResourceType, name)
      && Import(res, modulePrefix) == Some(ImportCommand(ImportPrefix(modulePrefix), ResourceType, name, name))
  {
  }
}
