/** The S3 generators: the bucket, its ACL, its policy, its public access
    block and its CORS configuration, each with its import command.  Each
    names its block after the bucket with `-` and `.` turned into `_`, and
    each returns None without a bucket name.  `json.dumps` is the parameter
    `dumps`; `json.dumps(json.loads(p), indent=2)` is the parameter
    `reformat`, None where `json.loads` raises.
 */
module S3 {
  import opened Py
  import opened HclText
  import opened GeneratorBase

  /** `bucket_name.replace("-", "_").replace(".", "_")` */
  function Name(bucket: string): (r: string)
    ensures '-' !in r && '.' !in r
  {
    SafeName(bucket)
  }

  /** The ACL generator's own rule, `.replace(".", "-").replace("-", "_")`. */
  function AclName(bucket: string): string {
    Replace(Replace(bucket, ".", "-"), "-", "_")
  }

  /** The import command every S3 generator writes: None without a bucket
      name, and an exception (None) when the name is not a string. */
  function BucketImport(resourceType: string, res: Entries, modulePrefix: Option<string>, acl: bool): (r: Option<string>)
    ensures r.Some? <==> Truthy(GetOr(res, "id", Null)) && GetOr(res, "id", Null).Str?
  {
    var id := GetOr(res, "id", Null);
    if !Truthy(id) || !id.Str? then None
    else Some(ImportCommand(ImportPrefix(modulePrefix), resourceType,
      if acl then AclName(id.s) else Name(id.s), id.s))
  }

  // ------------------------------------------------------------ bucket

  const ForceDestroyLine := "  force_destroy = false  # Default to false for safety"

  /** `S3BucketGenerator.generate`: tags other than dicts with both `Key` and
      `Value` are skipped. */
  function BucketLines(res: Entries): Outcome<Option<seq<string>>> {
    var id := GetOr(res, "id", Null);
    if !Truthy(id) then Ok(None)
    else
      var bucket :- AsStr(id);
      var tags :- TagsBlock(GetOr(res, "tags", List([])), StrictTagLine);
      Ok(Some([Header("aws_s3_bucket", Name(bucket)), "  bucket = \"" + bucket + "\"", ForceDestroyLine]
        + tags + ["}"]))
  }

  method GenerateBucket(res: Entries) returns (r: Option<string>)
    ensures r == Render(BucketLines(res))
  {
    var id := GetOr(res, "id", Null);
    if !Truthy(id) || !id.Str? {
      return None;
    }
    var mainBlock := [Header("aws_s3_bucket", Name(id.s)), "  bucket = \"" + id.s + "\"", ForceDestroyLine];
    var tags := EmitTags(GetOr(res, "tags", List([])), StrictTagLine);
    if tags.Raised? {
      return None;
    }
    mainBlock := mainBlock + tags.value + ["}"];
    r := Some(Join("\n", mainBlock));
  }

  /** `generate_import`: the bucket name is the id. */
  function ImportBucket(res: Entries, modulePrefix: Option<string>): (r: Option<string>)
    ensures r.Some? <==> Truthy(GetOr(res, "id", Null)) && GetOr(res, "id", Null).Str?
    ensures r.Some? ==> var bucket := GetOr(res, "id", Null).s;
      r.value == ImportCommand(ImportPrefix(modulePrefix), "aws_s3_bucket", Name(bucket), bucket)
  {
    BucketImport("aws_s3_bucket", res, modulePrefix, false)
  }

  /** A bucket is written exactly when it has a string name and its tags can
      be written; it never allows a forced destroy, and it is imported under
      the name its block declares. */
  lemma BucketShape(res: Entries, modulePrefix: Option<string>)
    ensures var id := GetOr(res, "id", Null);
      (BucketLines(res) == Ok(None) <==> !Truthy(id))
      && (Render(BucketLines(res)).Some? <==>
        Truthy(id) && id.Str? && TagsBlock(GetOr(res, "tags", List([])), StrictTagLine).Ok?)
    ensures Render(BucketLines(res)).Some? ==>
      var bucket := GetOr(res, "id", Null).s;
      var ls := BucketLines(res).value.value;
      |ls| >= 4 && ls[0] == Header("aws_s3_bucket", Name(bucket)) && ls[2] == ForceDestroyLine
      && ls[|ls| - 1] == "}"
      && ImportBucket(res, modulePrefix) == Some(ImportCommand(ImportPrefix(modulePrefix), "aws_s3_bucket", Name(bucket), bucket))
  {
  }

  // ------------------------------------------------------------ ACL

  /** One `grant` block; `id` and `uri` lines only when the grantee has them. */
  function GrantLines(grant: Value): Outcome<seq<string>> {
    if !grant.Dict? then Raised
    else
      var grantee := GetOr(grant.entries, "Grantee", Dict([]));
      if !grantee.Dict? then Raised
      else
        var id := GetOr(grantee.entries, "ID", Null);
        var uri := GetOr(grantee.entries, "URI", Null);
        Ok(GrantHead(GetOr(grant.entries, "Permission", Str("")), GetOr(grantee.entries, "Type", Str("")))
          + When(Truthy(id), GranteeIdLine(id))
          + When(Truthy(uri), "        uri = \"" + Show(uri) + "\"")
          + ["      }", "    }"])
  }

  /** The fixed opening of a grant block, up to the grantee's type. */
  function GrantHead(permission: Value, kind: Value): seq<string> {
    ["    grant {", "      permission = \"" + Show(permission) + "\"", "", "      grantee {",
      "        type = \"" + Show(kind) + "\""]
  }

  function GranteeIdLine(id: Value): string {
    "        id = \"" + Show(id) + "\""
  }

  /** The `owner` block, only for a non-empty owner. */
  function OwnerLines(owner: Value): Outcome<seq<string>> {
    if !Truthy(owner) then Ok([])
    else
      var id :- Get(owner, "ID", Str(""));
      Ok(["    owner {", "      id = \"" + Show(id) + "\"", "    }"])
  }

  /** `S3BucketACLGenerator.generate`: None without a name or with empty details. */
  function AclLines(res: Entries): Outcome<Option<seq<string>>> {
    var id := GetOr(res, "id", Null);
    if !Truthy(id) then Ok(None)
    else
      var bucket :- AsStr(id);
      var details := GetOr(res, "details", Dict([]));
      if !Truthy(details) then Ok(None)
      else
        var owner :- Get(details, "owner", Dict([]));
        var grants :- Get(details, "grants", List([]));
        var ownerLines :- OwnerLines(owner);
        var grantLines :- ForEach(grants, GrantLines);
        Ok(Some([Header("aws_s3_bucket_acl", AclName(bucket)), "  bucket = \"" + bucket + "\"",
          "  access_control_policy {"] + ownerLines + grantLines + ["  }", "}"]))
  }

  method GenerateAcl(res: Entries) returns (r: Option<string>)
    ensures r == Render(AclLines(res))
  {
    var id := GetOr(res, "id", Null);
    if !Truthy(id) || !id.Str? {
      return None;
    }
    var details := GetOr(res, "details", Dict([]));
    if !Truthy(details) || !details.Dict? {
      return None;
    }
    var owner := GetOr(details.entries, "owner", Dict([]));
    var grants := GetOr(details.entries, "grants", List([]));
    var hclBlocks := [Header("aws_s3_bucket_acl", AclName(id.s)), "  bucket = \"" + id.s + "\"",
      "  access_control_policy {"];
    var ownerLines := OwnerLines(owner);
    if ownerLines.Raised? {
      return None;
    }
    hclBlocks := hclBlocks + ownerLines.value;
    if Truthy(grants) {
      var grantLines := IterLoop(grants, GrantLines);
      if grantLines.Raised? {
        return None;
      }
      hclBlocks := hclBlocks + grantLines.value;
      assert ForEach(grants, GrantLines) == grantLines;
    } else {
      assert ForEach(grants, GrantLines) == Ok([]);
      hclBlocks := hclBlocks + [];
    }
    hclBlocks := hclBlocks + ["  }", "}"];
    assert Get(details, "grants", List([])) == Ok(grants);
    r := Some(Join("\n", hclBlocks));
  }

  /** `generate_import`: the ACL's own name rule gives the name its block
      declares. */
  function ImportAcl(res: Entries, modulePrefix: Option<string>): (r: Option<string>)
    ensures r.Some? <==> Truthy(GetOr(res, "id", Null)) && GetOr(res, "id", Null).Str?
    ensures r.Some? ==> var bucket := GetOr(res, "id", Null).s;
      r.value == ImportCommand(ImportPrefix(modulePrefix), "aws_s3_bucket_acl", Name(bucket), bucket)
  {
    var id := GetOr(res, "id", Null);
    if id.Str? then
      AclNameIsName(id.s);
      BucketImport("aws_s3_bucket_acl", res, modulePrefix, true)
    else BucketImport("aws_s3_bucket_acl", res, modulePrefix, true)
  }

  /** The two name rules agree on every bucket name, so the ACL is named like
      the bucket it belongs to. */
  lemma {:induction false} AclNameIsName(bucket: string)
    ensures AclName(bucket) == Name(bucket)
    decreases |bucket|
  {
    if bucket != [] {
      var h := bucket[0];
      var t := bucket[1..];
      assert bucket == [h] + t;
      AclNameIsName(t);
      var h1 := if h == '.' then '-' else h;
      ReplaceCons(h, t, '.', "-");
      ReplaceCons(h1, Replace(t, ".", "-"), '-', "_");
      var h2 := if h == '-' then '_' else h;
      ReplaceCons(h, t, '-', "_");
      ReplaceCons(h2, Replace(t, "-", "_"), '.', "_");
    }
  }

  /** Replacing one character in a string that starts with `h`. */
  lemma ReplaceCons(h: char, t: string, c: char, rep: string)
    ensures Replace([h] + t, [c], rep) == (if h == c then rep else [h]) + Replace(t, [c], rep)
  {
    assert ([h] + t)[..1] == [h];
    assert ([h] + t)[1..] == t;
  }

  /** A grant block has its seven fixed lines, plus the `id` line when the
      grantee has an id and the `uri` line when it has a URI. */
  lemma GrantShape(grant: Value)
    requires GrantLines(grant).Ok?
    ensures var grantee := GetOr(grant.entries, "Grantee", Dict([]));
      var id := GetOr(grantee.entries, "ID", Null);
      var uri := GetOr(grantee.entries, "URI", Null);
      var ls := GrantLines(grant).value;
      |ls| == 7 + (if Truthy(id) then 1 else 0) + (if Truthy(uri) then 1 else 0)
      && ls[0] == "    grant {" && ls[|ls| - 1] == "    }"
  {
  }

  /** The grantee's `id` line is in the block exactly when it has an id. */
  lemma GranteeIdOnlyWhenSet(grant: Value)
    requires GrantLines(grant).Ok?
    ensures var grantee := GetOr(grant.entries, "Grantee", Dict([]));
      var id := GetOr(grantee.entries, "ID", Null);
      GranteeIdLine(id) in GrantLines(grant).value <==> Truthy(id)
  {
    var grantee := GetOr(grant.entries, "Grantee", Dict([]));
    var id := GetOr(grantee.entries, "ID", Null);
    var uri := GetOr(grantee.entries, "URI", Null);
    IdLineNotInHead(GetOr(grant.entries, "Permission", Str("")), GetOr(grantee.entries, "Type", Str("")), id);
    assert ("        uri = \"" + Show(uri) + "\"")[8] == 'u';
  }

  lemma IdLineNotInHead(permission: Value, kind: Value, id: Value)
    ensures GranteeIdLine(id) !in GrantHead(permission, kind)
    ensures GranteeIdLine(id)[8] == 'i'
  {
    var head := GrantHead(permission, kind);
    assert GranteeIdLine(id)[8] == 'i';
    assert head[0][8] == 't' && head[1][8] == 'r' && head[3][8] == 'a' && head[4][8] == 't';
  }

  /** Empty details give no ACL, whatever else the record holds. */
  lemma AclNeedsDetails(res: Entries)
    ensures !Truthy(GetOr(res, "details", Dict([]))) ==> Render(AclLines(res)).None?
    ensures Render(AclLines(res)).Some? ==>
      var bucket := GetOr(res, "id", Null).s;
      AclLines(res).value.value[0] == Header("aws_s3_bucket_acl", Name(bucket))
  {
    if Render(AclLines(res)).Some? {
      AclNameIsName(GetOr(res, "id", Null).s);
    }
  }

  // ------------------------------------------------------------ policy

  /** `S3BucketPolicyGenerator.generate`: the policy must be a non-empty JSON
      string; it is re-indented by four spaces inside `jsonencode(...)`. */
  function PolicyLines(res: Entries, reformat: string -> Option<string>): Outcome<Option<seq<string>>> {
    var id := GetOr(res, "id", Null);
    if !Truthy(id) then Ok(None)
    else
      var bucket :- AsStr(id);
      var policy :- Get(GetOr(res, "details", Dict([])), "policy", Null);
      if !Truthy(policy) || !policy.Str? then Ok(None)
      else
        match reformat(policy.s)
        case None => Ok(None)
        case Some(formatted) =>
          Ok(Some([Header("aws_s3_bucket_policy", Name(bucket)), "  bucket = \"" + bucket + "\"",
            "  policy = jsonencode(", "    " + Replace(formatted, "\n", "\n    "), "  )", "}"]))
  }

  /** `generate` */
  function GeneratePolicy(res: Entries, reformat: string -> Option<string>): (r: Option<string>)
    ensures r.Some? <==>
      var id := GetOr(res, "id", Null);
      var details := GetOr(res, "details", Dict([]));
      Truthy(id) && id.Str? && details.Dict?
      && var policy := GetOr(details.entries, "policy", Null);
        policy.Str? && policy.s != [] && reformat(policy.s).Some?
  {
    Render(PolicyLines(res, reformat))
  }

  /** `generate_import`: the bucket name is the id. */
  function ImportPolicy(res: Entries, modulePrefix: Option<string>): (r: Option<string>)
    ensures r.Some? <==> Truthy(GetOr(res, "id", Null)) && GetOr(res, "id", Null).Str?
    ensures r.Some? ==> var bucket := GetOr(res, "id", Null).s;
      r.value == ImportCommand(ImportPrefix(modulePrefix), "aws_s3_bucket_policy", Name(bucket), bucket)
  {
    BucketImport("aws_s3_bucket_policy", res, modulePrefix, false)
  }

  /** A policy is written only when it is a non-empty string that parses as
      JSON, as six lines around the re-indented document; every policy that
      is written can be imported, under the block it declares. */
  lemma PolicyNeedsJsonString(res: Entries, reformat: string -> Option<string>, modulePrefix: Option<string>)
    ensures GeneratePolicy(res, reformat).Some? <==>
      var id := GetOr(res, "id", Null);
      var details := GetOr(res, "details", Dict([]));
      Truthy(id) && id.Str? && details.Dict?
      && var policy := GetOr(details.entries, "policy", Null);
        policy.Str? && policy.s != [] && reformat(policy.s).Some?
    ensures GeneratePolicy(res, reformat).Some? ==>
      |PolicyLines(res, reformat).value.value| == 6 && ImportPolicy(res, modulePrefix).Some?
    ensures GeneratePolicy(res, reformat).Some? ==>
      var bucket := GetOr(res, "id", Null).s;
      [Header("aws_s3_bucket_policy", Name(bucket))] <= PolicyLines(res, reformat).value.value
      && ImportPolicy(res, modulePrefix)
         == Some(ImportCommand(ImportPrefix(modulePrefix), "aws_s3_bucket_policy", Name(bucket), bucket))
  {
  }

  // ------------------------------------------------------------ public access block

  /** One flag line: `str(details.get(key, True)).lower()`. */
  function FlagLine(field: string, details: Entries, key: string): string {
    "  " + field + " = " + ShowLower(GetOr(details, key, Bool(true)))
  }

  /** `S3BucketPublicAccessBlockGenerator.generate`: None without a name or
      with empty details. */
  function PublicAccessLines(res: Entries): Outcome<Option<seq<string>>> {
    var id := GetOr(res, "id", Null);
    if !Truthy(id) then Ok(None)
    else
      var bucket :- AsStr(id);
      var access := GetOr(res, "details", Dict([]));
      if !Truthy(access) then Ok(None)
      else if !access.Dict? then Raised
      else
        Ok(Some([Header("aws_s3_bucket_public_access_block", Name(bucket)), "  bucket = \"" + bucket + "\"",
          FlagLine("block_public_acls      ", access.entries, "block_public_acls"),
          FlagLine("block_public_policy    ", access.entries, "block_public_policy"),
          FlagLine("ignore_public_acls     ", access.entries, "ignore_public_acls"),
          FlagLine("restrict_public_buckets", access.entries, "restrict_public_buckets"),
          "}"]))
  }

  /** `generate` */
  function GeneratePublicAccess(res: Entries): (r: Option<string>)
    ensures var details := GetOr(res, "details", Dict([]));
      r.Some? <==> (Truthy(GetOr(res, "id", Null)) && GetOr(res, "id", Null).Str? && Truthy(details) && details.Dict?)
  {
    Render(PublicAccessLines(res))
  }

  /** `generate_import`: the bucket name is the id. */
  function ImportPublicAccess(res: Entries, modulePrefix: Option<string>): (r: Option<string>)
    ensures r.Some? <==> Truthy(GetOr(res, "id", Null)) && GetOr(res, "id", Null).Str?
    ensures r.Some? ==> var bucket := GetOr(res, "id", Null).s;
      r.value == ImportCommand(ImportPrefix(modulePrefix), "aws_s3_bucket_public_access_block", Name(bucket), bucket)
  {
    BucketImport("aws_s3_bucket_public_access_block", res, modulePrefix, false)
  }

  /** A flag that is not given is written `true`, a given bool as itself:
      the block blocks public access unless told otherwise. */
  lemma FlagsDefaultTrue(details: Entries, field: string, key: string)
    ensures !HasKey(details, key) ==> FlagLine(field, details, key) == "  " + field + " = true"
    ensures GetOr(details, key, Bool(true)).Bool? ==>
      FlagLine(field, details, key) == "  " + field + " = "
        + (if GetOr(details, key, Bool(true)).b then "true" else "false")
  {
    ShowLowerBool(true);
    if GetOr(details, key, Bool(true)).Bool? {
      ShowLowerBool(GetOr(details, key, Bool(true)).b);
    }
  }

  /** Non-empty dict details always give all four flags, in a fixed order,
      in the block the import command addresses. */
  lemma PublicAccessShape(res: Entries, modulePrefix: Option<string>)
    requires Truthy(GetOr(res, "id", Null)) && GetOr(res, "id", Null).Str?
    requires GetOr(res, "details", Dict([])).Dict? && Truthy(GetOr(res, "details", Dict([])))
    ensures var access := GetOr(res, "details", Dict([])).entries;
      var ls := PublicAccessLines(res).value.value;
      |ls| == 7 && ls[2] == FlagLine("block_public_acls      ", access, "block_public_acls")
      && ls[5] == FlagLine("restrict_public_buckets", access, "restrict_public_buckets")
    ensures var bucket := GetOr(res, "id", Null).s;
      PublicAccessLines(res).value.value[0] == Header("aws_s3_bucket_public_access_block", Name(bucket))
      && ImportPublicAccess(res, modulePrefix)
         == Some(ImportCommand(ImportPrefix(modulePrefix), "aws_s3_bucket_public_access_block", Name(bucket), bucket))
  {
  }

  // ------------------------------------------------------------ CORS

  /** One `cors_rule` block; each field only when it is non-empty. */
  function RuleLines(rule: Value, dumps: Value -> string): Outcome<seq<string>> {
    if !rule.Dict? then Raised
    else Ok(["  cors_rule {"] + RuleFields(rule.entries, dumps) + ["  }"])
  }

  /** `rule.get(...)` on each field, written only when non-empty. */
  function RuleFields(rule: Entries, dumps: Value -> string): seq<string> {
    var headers := GetOr(rule, "AllowedHeaders", Null);
    var methods := GetOr(rule, "AllowedMethods", Null);
    var origins := GetOr(rule, "AllowedOrigins", Null);
    var expose := GetOr(rule, "ExposeHeaders", Null);
    var maxAge := GetOr(rule, "MaxAgeSeconds", Null);
    When(Truthy(headers), Nested("allowed_headers", dumps(headers)))
      + When(Truthy(methods), Nested("allowed_methods", dumps(methods)))
      + When(Truthy(origins), Nested("allowed_origins", dumps(origins)))
      + When(Truthy(expose), Nested("expose_headers", dumps(expose)))
      + When(Truthy(maxAge), Nested("max_age_seconds", Show(maxAge)))
  }

  /** The fields of a rule are indented inside its block. */
  lemma RuleFieldsIndented(rule: Entries, dumps: Value -> string)
    ensures AllIndented(RuleFields(rule, dumps))
  {
    var headers := GetOr(rule, "AllowedHeaders", Null);
    var methods := GetOr(rule, "AllowedMethods", Null);
    var origins := GetOr(rule, "AllowedOrigins", Null);
    var expose := GetOr(rule, "ExposeHeaders", Null);
    var maxAge := GetOr(rule, "MaxAgeSeconds", Null);
    var a := When(Truthy(headers), Nested("allowed_headers", dumps(headers)));
    var b := When(Truthy(methods), Nested("allowed_methods", dumps(methods)));
    var c := When(Truthy(origins), Nested("allowed_origins", dumps(origins)));
    var d := When(Truthy(expose), Nested("expose_headers", dumps(expose)));
    var e := When(Truthy(maxAge), Nested("max_age_seconds", Show(maxAge)));
    IndentedConcat(a, b);
    IndentedConcat(a + b, c);
    IndentedConcat(a + b + c, d);
    IndentedConcat(a + b + c + d, e);
  }

  function RuleStep(dumps: Value -> string): Value -> Outcome<seq<string>> {
    rule => RuleLines(rule, dumps)
  }

  /** `S3BucketCORSGenerator.generate`: None without a name or without rules. */
  function CorsLines(res: Entries, dumps: Value -> string): Outcome<Option<seq<string>>> {
    var id := GetOr(res, "id", Null);
    if !Truthy(id) then Ok(None)
    else
      var bucket :- AsStr(id);
      var rules :- Get(GetOr(res, "details", Dict([])), "cors_rules", List([]));
      if !Truthy(rules) then Ok(None)
      else
        var items :- Iter(rules);
        var body :- ConcatMap(items, RuleStep(dumps));
        Ok(Some(CorsHead(bucket) + body + ["}"]))
  }

  method GenerateCors(res: Entries, dumps: Value -> string) returns (r: Option<string>)
    ensures r == Render(CorsLines(res, dumps))
  {
    var id := GetOr(res, "id", Null);
    if !Truthy(id) || !id.Str? {
      return None;
    }
    var details := GetOr(res, "details", Dict([]));
    if !details.Dict? {
      return None;
    }
    var rules := GetOr(details.entries, "cors_rules", List([]));
    if !Truthy(rules) {
      return None;
    }
    var items := Iter(rules);
    if items.Raised? {
      return None;
    }
    var corsBlock := CorsHead(id.s);
    var body := ConcatLoop(items.value, RuleStep(dumps));
    if body.Raised? {
      return None;
    }
    corsBlock := corsBlock + body.value + ["}"];
    assert Get(details, "cors_rules", List([])) == Ok(rules);
    r := Some(Join("\n", corsBlock));
  }

  /** `generate_import`: the bucket name is the id. */
  function ImportCors(res: Entries, modulePrefix: Option<string>): (r: Option<string>)
    ensures r.Some? <==> Truthy(GetOr(res, "id", Null)) && GetOr(res, "id", Null).Str?
    ensures r.Some? ==> var bucket := GetOr(res, "id", Null).s;
      r.value == ImportCommand(ImportPrefix(modulePrefix), "aws_s3_bucket_cors_configuration", Name(bucket), bucket)
  {
    BucketImport("aws_s3_bucket_cors_configuration", res, modulePrefix, false)
  }

  /** Each rule opens exactly one `cors_rule` block. */
  lemma RuleOpensOnce(rule: Value, dumps: Value -> string)
    requires RuleLines(rule, dumps).Ok?
    ensures multiset(RuleLines(rule, dumps).value)["  cors_rule {"] == 1
  {
    RuleFieldsIndented(rule.entries, dumps);
    OpensOnce(RuleFields(rule.entries, dumps));
  }

  lemma OpensOnce(fields: seq<string>)
    requires AllIndented(fields)
    ensures multiset(["  cors_rule {"] + fields + ["  }"])["  cors_rule {"] == 1
  {
    assert !Indented("  cors_rule {") by {
      assert "  cors_rule {"[2] == 'c';
    }
    assert "  cors_rule {" !in fields;
    assert "  }" != "  cors_rule {";
  }

  /** The configuration has one `cors_rule` block per rule. */
  lemma {:induction false} OneBlockPerRule(rules: seq<Value>, dumps: Value -> string)
    requires ConcatMap(rules, RuleStep(dumps)).Ok?
    ensures multiset(ConcatMap(rules, RuleStep(dumps)).value)["  cors_rule {"] == |rules|
    decreases |rules|
  {
    if rules != [] {
      var init := rules[..|rules| - 1];
      OneBlockPerRule(init, dumps);
      RuleOpensOnce(rules[|rules| - 1], dumps);
    }
  }

  /** No rules, no configuration. */
  lemma CorsNeedsRules(res: Entries, dumps: Value -> string)
    ensures var details := GetOr(res, "details", Dict([]));
      details.Dict? && !Truthy(GetOr(details.entries, "cors_rules", List([]))) ==> Render(CorsLines(res, dumps)).None?
  {
  }

  /** A configuration that is written has one `cors_rule` block per rule,
      and it opens with the block its import command addresses. */
  lemma CorsBlocksCounted(res: Entries, dumps: Value -> string, modulePrefix: Option<string>)
    requires Render(CorsLines(res, dumps)).Some?
    ensures var rules := GetOr(GetOr(res, "details", Dict([])).entries, "cors_rules", List([]));
      multiset(CorsLines(res, dumps).value.value)["  cors_rule {"] == |Iter(rules).value|
    ensures var bucket := GetOr(res, "id", Null).s;
      [Header("aws_s3_bucket_cors_configuration", Name(bucket))] <= CorsLines(res, dumps).value.value
      && ImportCors(res, modulePrefix)
         == Some(ImportCommand(ImportPrefix(modulePrefix), "aws_s3_bucket_cors_configuration", Name(bucket), bucket))
  {
    var rules := GetOr(GetOr(res, "details", Dict([])).entries, "cors_rules", List([]));
    var items := Iter(rules).value;
    var bucket := GetOr(res, "id", Null).s;
    var body := ConcatMap(items, RuleStep(dumps)).value;
    OneBlockPerRule(items, dumps);
    assert CorsLines(res, dumps).value.value == CorsHead(bucket) + body + ["}"];
    HeadNotCounted(bucket, body);
  }

  function CorsHead(bucket: string): seq<string> {
    [Header("aws_s3_bucket_cors_configuration", Name(bucket)), "  bucket = \"" + bucket + "\""]
  }

  lemma HeadNotCounted(bucket: string, body: seq<string>)
    ensures multiset(CorsHead(bucket) + body + ["}"])["  cors_rule {"] == multiset(body)["  cors_rule {"]
  {
    assert Header("aws_s3_bucket_cors_configuration", Name(bucket))[0] == 'r';
    assert CorsHead(bucket)[1][2] == 'b';
    assert multiset(CorsHead(bucket))["  cors_rule {"] == 0;
  }
}
