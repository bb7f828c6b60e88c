/** `IAMUserGenerator`: the `aws_iam_user` block and its import command. */
module IamUser {
  import opened Py
  import opened HclText
  import opened GeneratorBase

  /** The lines `generate` joins; it has no guard for a missing id. */
  function Lines(res: Entries): Outcome<Option<seq<string>>> {
    var user := Show(GetOr(res, "id", Null));
    var details := GetOr(res, "details", Dict([]));
    var path :- Get(details, "path", Str("/"));
    var boundary :- Get(details, "permissions_boundary", Null);
    var forceDestroy :- Get(details, "force_destroy", Bool(false));
    var tags :- TagsBlock(GetOr(res, "tags", List([])), LooseTagLine);
    Ok(Some([Header("aws_iam_user", user), "  name = \"" + user + "\""]
      + When(path != Str("/"), "  path = \"" + Show(path) + "\"")
      + When(Truthy(boundary), "  permissions_boundary = \"" + Show(boundary) + "\"")
      + When(Truthy(forceDestroy), "  force_destroy = true")
      + tags + ["}"]))
  }

  /** `generate` */
  method Generate(res: Entries) returns (r: Option<string>)
    ensures r == Render(Lines(res))
  {
    var user := Show(GetOr(res, "id", Null));
    var details := GetOr(res, "details", Dict([]));
    if !details.Dict? {
      return None;
    }
    var hcl := [Header("aws_iam_user", user), "  name = \"" + user + "\""];
    ghost var spec := hcl;
    var path := GetOr(details.entries, "path", Str("/"));
    if path != Str("/") {
      hcl := hcl + ["  path = \"" + Show(path) + "\""];
    }
    spec := spec + When(path != Str("/"), "  path = \"" + Show(path) + "\"");
    assert hcl == spec;
    var boundary := GetOr(details.entries, "permissions_boundary", Null);
    if Truthy(boundary) {
      hcl := hcl + ["  permissions_boundary = \"" + Show(boundary) + "\""];
    }
    spec := spec + When(Truthy(boundary), "  permissions_boundary = \"" + Show(boundary) + "\"");
    assert hcl == spec;
    var forceDestroy := GetOr(details.entries, "force_destroy", Bool(false));
    if Truthy(forceDestroy) {
      hcl := hcl + ["  force_destroy = true"];
    }
    spec := spec + When(Truthy(forceDestroy), "  force_destroy = true");
    assert hcl == spec;
    var tags := EmitTags(GetOr(res, "tags", List([])), LooseTagLine);
    if tags.Raised? {
      return None;
    }
    hcl := hcl + tags.value + ["}"];
    assert Get(details, "path", Str("/")) == Ok(path);
    assert Lines(res) == Ok(Some(hcl));
    r := Some(Join("\n", hcl));
  }

  /** `generate_import`: the user name is both the resource name and the id. */
  function Import(res: Entries, modulePrefix: Option<string>): (r: Option<string>)
    ensures r.None? <==> !Truthy(GetOr(res, "id", Null))
  {
    var user := GetOr(res, "id", Null);
    if !Truthy(user) then None
    else Some(ImportCommand(ImportPrefix(modulePrefix), "aws_iam_user", Show(user), Show(user)))
  }

  // ------------------------------------------------------------ lemmas

  /** Without a guard on the id, the block is produced whenever the details
      are a dict and the tags can be written; it opens with the header and
      the `name` line, both from the id, and it is closed. */
  lemma AlwaysNamed(res: Entries)
    ensures Lines(res).Ok? <==>
      GetOr(res, "details", Dict([])).Dict? && TagsBlock(GetOr(res, "tags", List([])), LooseTagLine).Ok?
    ensures Lines(res).Ok? ==>
      var user := Show(GetOr(res, "id", Null));
      var ls := Lines(res).value;
      ls.Some? && |ls.value| >= 3 && ls.value[0] == Header("aws_iam_user", user)
      && ls.value[1] == "  name = \"" + user + "\"" && ls.value[|ls.value| - 1] == "}"
  {
  }

  /** A user with no id, no details and no tags is still written, under the name `None`. */
  lemma EmptyRecord()
    ensures Lines([]) == Ok(Some([Header("aws_iam_user", "None"), "  name = \"None\"", "}"]))
  {
    var e: Entries := [];
    var none: seq<string> := [];
    assert GetOr(e, "details", Dict([])) == Dict(e);
    assert Get(Dict(e), "path", Str("/")) == Ok(Str("/"));
    assert Get(Dict(e), "permissions_boundary", Null) == Ok(Null);
    assert Get(Dict(e), "force_destroy", Bool(false)) == Ok(Bool(false));
    assert TagsBlock(GetOr(e, "tags", List([])), LooseTagLine) == Ok(none);
    assert When(Str("/") != Str("/"), "  path = \"/\"") == none;
    assert Show(GetOr(e, "id", Null)) == "None";
    assert "  name = \"" + "None" + "\"" == "  name = \"None\"";
    var head := [Header("aws_iam_user", "None"), "  name = \"None\""];
    assert head + none + none + none + none + ["}"] == head + ["}"];
    assert head + ["}"] == [Header("aws_iam_user", "None"), "  name = \"None\"", "}"];
  }

  /** The lines `generate` writes: `force_destroy = true` sits between the
      opening lines and the tags exactly when the flag is set. */
  lemma Shape(res: Entries)
    requires Lines(res).Ok?
    ensures var details := GetOr(res, "details", Dict([]));
      details.Dict? && Lines(res).value.value == Opening(res)
        + When(Truthy(GetOr(details.entries, "force_destroy", Bool(false))), "  force_destroy = true")
        + LooseTags(res) + ["}"]
  {
  }

  /** The lines before the `force_destroy` line. */
  function Opening(res: Entries): seq<string>
    requires GetOr(res, "details", Dict([])).Dict?
  {
    var user := Show(GetOr(res, "id", Null));
    var details := GetOr(res, "details", Dict([]));
    var path := GetOr(details.entries, "path", Str("/"));
    var boundary := GetOr(details.entries, "permissions_boundary", Null);
    [Header("aws_iam_user", user), "  name = \"" + user + "\""]
      + When(path != Str("/"), "  path = \"" + Show(path) + "\"")
      + When(Truthy(boundary), "  permissions_boundary = \"" + Show(boundary) + "\"")
  }

  /** No other line starts like a `force_destroy` line, so `force_destroy`
      is written only when set, and `force_destroy = false` never. */
  lemma ForceDestroyLineOnlyThere(res: Entries, l: string)
    requires GetOr(res, "details", Dict([])).Dict?
    requires |l| >= 3 && l[0] == ' ' && l[1] == ' ' && l[2] == 'f'
    ensures l !in Opening(res) && l !in LooseTags(res) && l != "}"
  {
    var details := GetOr(res, "details", Dict([]));
    var user := Show(GetOr(res, "id", Null));
    var path := GetOr(details.entries, "path", Str("/"));
    var boundary := GetOr(details.entries, "permissions_boundary", Null);
    assert Header("aws_iam_user", user)[0] == 'r';
    assert ("  name = \"" + user + "\"")[2] == 'n';
    assert ("  path = \"" + Show(path) + "\"")[2] == 'p';
    assert ("  permissions_boundary = \"" + Show(boundary) + "\"")[2] == 'p';
    NotInTags(l, res);
  }

  /** The import command addresses the block `generate` declares, and
      imports it by the same name. */
  lemma ImportMatchesBlock(res: Entries, modulePrefix: Option<string>)
    requires Lines(res).Ok? && Import(res, modulePrefix).Some?
    ensures var user := Show(GetOr(res, "id", Null));
      Lines(res).value.value[0] == Header("aws_iam_user", user)
      && Import(res, modulePrefix).value == ImportCommand(ImportPrefix(modulePrefix), "aws_iam_user", user, user)
  {
  }
}
