/** `LambdaFunctionGenerator`: the `aws_lambda_function` block, preceded by
    an `archive_file` data source when the function's code is inline, and
    its import command.  Decoding the inline zip (`base64.b64decode(...)
    .decode('utf-8')`) is the parameter `b64`, None where it raises.
 */
module Lambda {
  import opened Py
  import opened HclText
  import opened GeneratorBase

  const ResourceType := "aws_lambda_function"

  // ------------------------------------------------------------ helpers

  /** `_get_lambda_code`: the decoded `ZipFile`, or None; every exception
      is caught. */
  function LambdaCode(location: Value, b64: Value -> Option<string>): Option<string> {
    if !Truthy(location) then None
    else
      var has := In("ZipFile", location);
      if has.Raised? || !has.value then None
      else
        var zip := Item(location, "ZipFile");
        if zip.Raised? then None else b64(zip.value)
  }

  /** The label of the `archive_file` data source for the function `name`. */
  function ArchiveLabel(name: string): string {
    name + "_lambda"
  }

  /** `"${data.archive_file.<label>.<attribute>}"` */
  function ArchiveRef(name: string, attribute: string): string {
    "\"${data.archive_file." + ArchiveLabel(name) + "." + attribute + "}\""
  }

  /** The archive lines of `_get_source_config` as written: two adjacent
      string literals without a comma between them are one string, so the
      second line holds two `source_code_hash` assignments. */
  function ArchiveLinesAsWritten(name: string): seq<string> {
    ["  filename = " + ArchiveRef(name, "output_path"),
     "  source_code_hash = " + ArchiveRef(name, "output_base64sha256")
       + "  source_code_hash = data.archive_file." + name + ".output_base64sha256"]
  }

  /** The archive lines as intended: the file and its hash, both from the
      `archive_file` data source the generator declares. */
  function ArchiveLines(name: string): seq<string> {
    ["  filename = " + ArchiveRef(name, "output_path"),
     "  source_code_hash = " + ArchiveRef(name, "output_base64sha256")]
  }

  /** `_get_source_config`: the source lines and the inline code, if any. */
  function SourceConfig(details: Entries, name: string, b64: Value -> Option<string>): Outcome<(seq<string>, Option<string>)> {
    var packageType := GetOr(details, "package_type", Str("Zip"));
    if packageType == Str("Image") then
      var uri := GetOr(details, "image_uri", Null);
      Ok((When(Truthy(uri), "  image_uri = \"" + Show(uri) + "\"") + ["  package_type = \"Image\""], None))
    else
      var location := GetOr(details, "code", Dict([]));
      if !location.Dict? then Raised
      else
        var bucket := GetOr(location.entries, "s3_bucket", Null);
        if Truthy(bucket) then
          var key := GetOr(location.entries, "s3_key", Null);
          var version := GetOr(location.entries, "s3_object_version", Null);
          Ok((["  s3_bucket = \"" + Show(bucket) + "\""]
            + When(Truthy(key), "  s3_key = \"" + Show(key) + "\"")
            + When(Truthy(version), "  s3_object_version = \"" + Show(version) + "\""), None))
        else
          var code := LambdaCode(location, b64);
          if code.Some? && code.value != "" then Ok((ArchiveLinesAsWritten(name), code))
          else Ok(([], None))
  }

  /** `_get_source_config` as intended: the same, with the archive lines of
      inline code written as two separate assignments. */
  function SourceConfigIntended(details: Entries, name: string, b64: Value -> Option<string>): Outcome<(seq<string>, Option<string>)> {
    var source :- SourceConfig(details, name, b64);
    if source.1.Some? then Ok((ArchiveLines(name), source.1)) else Ok(source)
  }

  /** `_get_main_file_name`: the handler's module (or `index`) with `.js`
      for a Node runtime and `.py` otherwise. */
  function MainFile(handler: Value, runtime: Value): Outcome<string> {
    var hasDot :- if Truthy(handler) then In(".", handler) else Ok(false);
    var base :- if hasDot then (var h :- AsStr(handler); Ok(BeforeFirst(h, '.'))) else Ok("index");
    if !Truthy(runtime) then Ok(base + ".py")
    else
      var r :- AsStr(runtime);
      if Contains(Lower(r), "python") then Ok(base + ".py")
      else if Contains(Lower(r), "node") then Ok(base + ".js")
      else Ok(base + ".py")
  }

  /** `_generate_archive_file`: the inline code is keyed `index.py`, so any
      other main file gets the placeholder text. */
  function ArchiveBlock(name: string, code: string, runtime: Value, handler: Value): Outcome<seq<string>> {
    var main :- MainFile(handler, runtime);
    Ok(ArchiveText(name, code, main))
  }

  /** The archive data source once the main file is known. */
  function ArchiveText(name: string, code: string, main: string): seq<string> {
    ["data \"archive_file\" \"" + ArchiveLabel(name) + "\" {",
     "  type        = \"zip\"",
     "  output_path = \"${path.module}/files/" + name + ".zip\"",
     "",
     "  source {",
     "    content  = <<EOF",
     if main == "index.py" then code else "# Empty function",
     "EOF",
     "    filename = \"" + main + "\"",
     "  }",
     "}"]
  }

  /** `_format_function_layers` */
  function Layers(layers: Value): Outcome<string> {
    if !Truthy(layers) then Ok("") else QuotedList("layers", layers)
  }

  /** One list field of the image configuration, when it is non-empty. */
  function ListField(key: string, v: Value): Outcome<seq<string>> {
    if !Truthy(v) then Ok([])
    else
      var items :- QuotedItems(v);
      Ok(["    " + key + " = [" + items + "]"])
  }

  /** `_format_image_config`: nothing for an empty configuration, else the
      block with the fields that are present.  `generate` does not call it. */
  function ImageConfig(config: Value): Outcome<seq<string>> {
    if !Truthy(config) then Ok([])
    else
      var command :- Get(config, "command", Null);
      var commands :- ListField("command", command);
      var entryPoint :- Get(config, "entry_point", Null);
      var entryPoints :- ListField("entry_point", entryPoint);
      var directory :- Get(config, "working_directory", Null);
      Ok(["  image_config {"] + commands + entryPoints
        + When(Truthy(directory), "    working_directory = \"" + Show(directory) + "\"") + ["  }"])
  }

  /** `for key, value in variables.items()` */
  function VariableLines(vars: Entries): seq<string> {
    seq(|vars|, i requires 0 <= i < |vars| => "      " + vars[i].0 + " = \"" + Show(vars[i].1) + "\"")
  }

  /** The `environment` block, only when it has variables, which must be a dict. */
  function Environment(env: Value): Outcome<seq<string>> {
    if !Truthy(env) then Ok([])
    else
      var vars :- Get(env, "variables", Null);
      if !Truthy(vars) then Ok([])
      else if !vars.Dict? then Raised
      else Ok(["  environment {", "    variables = {"] + VariableLines(vars.entries) + ["    }", "  }"])
  }

  /** The `vpc_config` block, with each id list only when non-empty. */
  function VpcConfig(vpc: Value): Outcome<seq<string>> {
    if !Truthy(vpc) then Ok([])
    else
      var subnets :- Get(vpc, "subnet_ids", List([]));
      var subnetLine :- if Truthy(subnets) then
        (var j :- JoinValues("\", \"", subnets); Ok(["    subnet_ids = [\"" + j + "\"]"])) else Ok([]);
      var groups :- Get(vpc, "security_group_ids", List([]));
      var groupLine :- if Truthy(groups) then
        (var j :- JoinValues("\", \"", groups); Ok(["    security_group_ids = [\"" + j + "\"]"])) else Ok([]);
      Ok(["  vpc_config {"] + subnetLine + groupLine + ["  }"])
  }

  /** A block of one field (`dead_letter_config`, `tracing_config`), written
      only when the configuration and the field are both non-empty. */
  function OneFieldBlock(config: Value, block: string, key: string): Outcome<seq<string>> {
    if !Truthy(config) then Ok([])
    else
      var x :- Get(config, key, Null);
      if !Truthy(x) then Ok([])
      else Ok(["  " + block + " {", "    " + key + " = \"" + Show(x) + "\"", "  }"])
  }

  /** The `file_system_config` block, with the fields that are present. */
  function FileSystem(config: Value): Outcome<seq<string>> {
    if !Truthy(config) then Ok([])
    else
      var arn :- Get(config, "arn", Null);
      var path :- Get(config, "local_mount_path", Null);
      Ok(["  file_system_config {"]
        + When(Truthy(arn), "    arn = \"" + Show(arn) + "\"")
        + When(Truthy(path), "    local_mount_path = \"" + Show(path) + "\"") + ["  }"])
  }

  /** `for key, value in tags.items()`: every value must be a string. */
  function TagPairs(tags: Entries): Outcome<seq<string>>
    decreases |tags|
  {
    if tags == [] then Ok([])
    else if !tags[0].1.Str? then Raised
    else
      var rest :- TagPairs(tags[1..]);
      Ok(["    \"" + Escape(tags[0].0) + "\" = \"" + Escape(tags[0].1.s) + "\""] + rest)
  }

  /** The tags block; Lambda tags are a dict, and any other non-empty value
      makes `.items()` raise. */
  function DictTags(tags: Value): Outcome<seq<string>> {
    if !Truthy(tags) then Ok([])
    else if !tags.Dict? then Raised
    else
      var body :- TagPairs(tags.entries);
      Ok(["  tags = {"] + body + ["  }"])
  }

  // ------------------------------------------------------------ generate

  /** The first lines of the function block. */
  function Head(name: string, functionName: string, details: Entries): seq<string> {
    var packageType := GetOr(details, "package_type", Null);
    [Header(ResourceType, name), "  function_name = \"" + functionName + "\"",
     "  role          = \"" + Show(GetOr(details, "role", Null)) + "\""]
      + When(Truthy(packageType), "  package_type = \"" + Show(packageType) + "\"")
  }

  /** The code lines: the image for an `Image` package, else the source
      configuration with the handler and runtime. */
  function Branch(details: Entries, source: seq<string>): seq<string> {
    if GetOr(details, "package_type", Null) == Str("Image") then
      var uri := GetOr(details, "image_uri", Null);
      When(Truthy(uri), "  image_uri = \"" + Show(uri) + "\"")
    else
      var handler := GetOr(details, "handler", Null);
      var runtime := GetOr(details, "runtime", Null);
      source + When(Truthy(handler), "  handler = \"" + Show(handler) + "\"")
        + When(Truthy(runtime), "  runtime = \"" + Show(runtime) + "\"")
  }

  function PublishLine(details: Entries): string {
    "  publish = " + ShowLower(GetOr(details, "publish", Bool(false)))
  }

  /** Description, memory and timeout when set, then `publish` always. */
  function Settings(details: Entries): seq<string> {
    var description := GetOr(details, "description", Null);
    var memory := GetOr(details, "memory_size", Null);
    var timeout := GetOr(details, "timeout", Null);
    When(Truthy(description), "  description = \"" + Show(description) + "\"")
      + When(Truthy(memory), "  memory_size = " + Show(memory))
      + When(Truthy(timeout), "  timeout = " + Show(timeout))
      + [PublishLine(details)]
  }

  /** Layers, environment, VPC, dead letter, tracing, file system and tags. */
  function Blocks(res: Entries, details: Entries): Outcome<seq<string>> {
    var layers := GetOr(details, "layers", List([]));
    var layerLine :- Layers(layers);
    var env :- Environment(GetOr(details, "environment", Dict([])));
    var vpc :- VpcConfig(GetOr(details, "vpc_config", Dict([])));
    var deadLetter :- OneFieldBlock(GetOr(details, "dead_letter_config", Dict([])), "dead_letter_config", "target_arn");
    var tracing :- OneFieldBlock(GetOr(details, "tracing_config", Dict([])), "tracing_config", "mode");
    var fileSystem :- FileSystem(GetOr(details, "file_system_config", Dict([])));
    var tags :- DictTags(GetOr(res, "tags", Dict([])));
    Ok(When(Truthy(layers), layerLine) + env + vpc + deadLetter + tracing + fileSystem + tags)
  }

  /** The archive data source and the blank line after it, for inline code. */
  function Archive(name: string, details: Entries, code: Option<string>): Outcome<seq<string>> {
    if code.None? then Ok([])
    else
      var block :- ArchiveBlock(name, code.value, GetOr(details, "runtime", Str("")), GetOr(details, "handler", Str("")));
      Ok(block + [""])
  }

  /** The archive (if any) and the function block, for a function name and
      dict details. */
  function Assemble(res: Entries, details: Entries, functionName: string, b64: Value -> Option<string>): Outcome<seq<string>> {
    var name := SafeName(functionName);
    var source :- SourceConfig(details, name, b64);
    Compose(res, details, name, functionName, source)
  }

  /** `Assemble` with the source configuration as intended. */
  function AssembleIntended(res: Entries, details: Entries, functionName: string, b64: Value -> Option<string>): Outcome<seq<string>> {
    var name := SafeName(functionName);
    var source :- SourceConfigIntended(details, name, b64);
    Compose(res, details, name, functionName, source)
  }

  /** The archive (if any) and the function block, once the source
      configuration is known. */
  function Compose(res: Entries, details: Entries, name: string, functionName: string,
                   source: (seq<string>, Option<string>)): Outcome<seq<string>> {
    var archive :- Archive(name, details, source.1);
    var blocks :- Blocks(res, details);
    Ok(archive + Head(name, functionName, details) + Branch(details, source.0)
      + Settings(details) + blocks + ["}"])
  }

  /** The lines `generate` joins: None without an id or details. */
  function Lines(res: Entries, b64: Value -> Option<string>): Outcome<Option<seq<string>>> {
    var id := GetOr(res, "id", Null);
    var details := GetOr(res, "details", Dict([]));
    if !Truthy(id) || !Truthy(details) then Ok(None)
    else
      var functionName :- AsStr(id);
      if !details.Dict? then Raised
      else
        var ls :- Assemble(res, details.entries, functionName, b64);
        Ok(Some(ls))
  }

  /** `generate` */
  method Generate(res: Entries, b64: Value -> Option<string>) returns (r: Option<string>)
    ensures r == Render(Lines(res, b64))
  {
    var id := GetOr(res, "id", Null);
    var details := GetOr(res, "details", Dict([]));
    if !Truthy(id) || !Truthy(details) || !id.Str? || !details.Dict? {
      return None;
    }
    var name := SafeName(id.s);
    var source := SourceConfig(details.entries, name, b64);
    if source.Raised? {
      return None;
    }
    var archive := Archive(name, details.entries, source.value.1);
    if archive.Raised? {
      return None;
    }
    // the archive data source, if any, goes before the function block
    var hcl := archive.value;
    hcl := hcl + Head(name, id.s, details.entries);
    hcl := hcl + Branch(details.entries, source.value.0);
    hcl := hcl + Settings(details.entries);
    var blocks := Blocks(res, details.entries);
    if blocks.Raised? {
      return None;
    }
    hcl := hcl + blocks.value;
    var hclBlocks := hcl + ["}"];
    r := Some(Join("\n", hclBlocks));
  }

  /** `generate_import`: the same name as the block, the function name as id. */
  function Import(res: Entries, modulePrefix: Option<string>): (r: Option<string>)
    ensures r.Some? <==> Truthy(GetOr(res, "id", Null)) && GetOr(res, "id", Null).Str?
  {
    var id := GetOr(res, "id", Null);
    if !Truthy(id) || !id.Str? then None
    else Some(ImportCommand(ImportPrefix(modulePrefix), ResourceType, SafeName(id.s), id.s))
  }

  // ------------------------------------------------------------ lemmas

  /** Nothing is written without a function name or details; whatever is
      written can be imported under the name its block declares. */
  lemma ImportMatchesBlock(res: Entries, b64: Value -> Option<string>, modulePrefix: Option<string>)
    ensures !Truthy(GetOr(res, "id", Null)) || !Truthy(GetOr(res, "details", Dict([]))) ==>
      Lines(res, b64) == Ok(None)
    ensures Render(Lines(res, b64)).Some? ==>
      var functionName := GetOr(res, "id", Null).s;
      Header(ResourceType, SafeName(functionName)) in Lines(res, b64).value.value
      && Import(res, modulePrefix) == Some(ImportCommand(ImportPrefix(modulePrefix), ResourceType,
        SafeName(functionName), functionName))
  {
    if Render(Lines(res, b64)).Some? {
      var functionName := GetOr(res, "id", Null).s;
      var details := GetOr(res, "details", Dict([])).entries;
      var name := SafeName(functionName);
      var source := SourceConfig(details, name, b64).value;
      var archive := Archive(name, details, source.1).value;
      var ls := Assemble(res, details, functionName, b64).value;
      assert ls[|archive|] == Head(name, functionName, details)[0];
    }
  }

  /** `publish` is always written. */
  lemma PublishAlways(res: Entries, details: Entries, functionName: string, b64: Value -> Option<string>)
    requires Assemble(res, details, functionName, b64).Ok?
    ensures PublishLine(details) in Assemble(res, details, functionName, b64).value
  {
    var name := SafeName(functionName);
    var source := SourceConfig(details, name, b64).value;
    var archive := Archive(name, details, source.1).value;
    var before := archive + Head(name, functionName, details) + Branch(details, source.0);
    var settings := Settings(details);
    var ls := Assemble(res, details, functionName, b64).value;
    assert settings[|settings| - 1] == PublishLine(details);
    assert ls[|before| + |settings| - 1] == settings[|settings| - 1];
  }

  /** `publish` is `false` when it is not given. */
  lemma PublishDefault(details: Entries)
    requires !HasKey(details, "publish")
    ensures PublishLine(details) == "  publish = false"
  {
    assert GetOr(details, "publish", Bool(false)) == Bool(false);
    ShowLowerBool(false);
  }

  /** An `Image` package gets at most its `image_uri` line and never a
      handler or runtime; any other package gets its source configuration
      followed by the handler and runtime that are set. */
  lemma BranchShape(details: Entries, source: seq<string>)
    ensures var b := Branch(details, source);
      var handler := GetOr(details, "handler", Null);
      var runtime := GetOr(details, "runtime", Null);
      if GetOr(details, "package_type", Null) == Str("Image") then
        |b| <= 1 && forall l :: l in b ==> l == "  image_uri = \"" + Show(GetOr(details, "image_uri", Null)) + "\""
      else
        |b| == |source| + (if Truthy(handler) then 1 else 0) + (if Truthy(runtime) then 1 else 0)
        && b[..|source|] == source
  {
  }

  /** The main file keeps the handler's module name, which has no dot, and
      ends in `.js` exactly for a Node runtime that does not mention Python. */
  lemma MainFileSpec(handler: Value, runtime: Value)
    requires MainFile(handler, runtime).Ok?
    ensures var m := MainFile(handler, runtime).value;
      var node := Truthy(runtime) && Contains(Lower(runtime.s), "node") && !Contains(Lower(runtime.s), "python");
      |m| >= 3 && '.' !in m[..|m| - 3]
      && m[|m| - 3..] == (if node then ".js" else ".py")
      && (!Truthy(handler) ==> m[..|m| - 3] == "index")
  {
    var hasDot := if Truthy(handler) then In(".", handler).value else false;
    var base := if hasDot then BeforeFirst(handler.s, '.') else "index";
    var m := MainFile(handler, runtime).value;
    assert '.' !in "index";
    if Truthy(runtime) && Contains(Lower(runtime.s), "python") {
      assert m == base + ".py";
    } else if Truthy(runtime) && Contains(Lower(runtime.s), "node") {
      assert m == base + ".js";
    } else {
      assert m == base + ".py";
    }
    assert m[..|m| - 3] == base;
  }

  /** For a Python runtime and a handler `<base>.<rest>`, the main file is
      `<base>.py`, and the inline code reaches the archive only when the
      base is `index`: a handler `app.handler` gets the placeholder text. */
  lemma InlineCodeOnlyForIndex(name: string, code: string, base: string, rest: string, runtime: Value)
    requires '.' !in base && runtime.Str? && Truthy(runtime) && Contains(Lower(runtime.s), "python")
    ensures MainFile(Str(base + "." + rest), runtime) == Ok(base + ".py")
    ensures ArchiveBlock(name, code, runtime, Str(base + "." + rest))
      == Ok(ArchiveText(name, code, base + ".py"))
    ensures ArchiveText(name, code, base + ".py")[6] == (if base == "index" then code else "# Empty function")
  {
    var h := base + "." + rest;
    assert h[|base|..|base| + 1] == ".";
    ContainsAt(h, ".", |base|);
    assert In(".", Str(h)) == Ok(true);
    BeforeFirstSep(base, '.', rest);
    assert BeforeFirst(h, '.') == base;
    if base + ".py" == "index.py" {
      assert (base + ".py")[..|base|] == base;
      assert base == "index";
    }
  }

  /** No layers, no line; otherwise one line listing them all, quoted. */
  lemma LayersLine(layers: seq<string>)
    ensures var v := List(seq(|layers|, i requires 0 <= i < |layers| => Str(layers[i])));
      Layers(v).Ok?
      && (layers == [] ==> Layers(v).value == "")
      && (layers != [] ==> Layers(v).value == "  " + "layers" + " = [\"" + Join("\", \"", layers) + "\"]")
  {
    var xs := seq(|layers|, i requires 0 <= i < |layers| => Str(layers[i]));
    if layers == [] {
      assert |xs| == 0;
      assert !Truthy(List(xs));
    } else {
      assert forall i :: 0 <= i < |xs| ==> xs[i].Str?;
      var ss := Strs(xs).value;
      assert forall i :: 0 <= i < |ss| ==> ss[i] == layers[i];
      assert ss == layers;
      assert JoinValues("\", \"", List(xs)) == Ok(Join("\", \"", layers));
    }
  }

  /** An empty image configuration writes nothing; otherwise one block whose
      size counts the fields that are present. */
  lemma ImageConfigShape(config: Value)
    requires ImageConfig(config).Ok?
    ensures var ls := ImageConfig(config).value;
      (ls == [] <==> !Truthy(config))
      && (Truthy(config) ==>
        var count := (if Truthy(GetOr(config.entries, "command", Null)) then 1 else 0)
          + (if Truthy(GetOr(config.entries, "entry_point", Null)) then 1 else 0)
          + (if Truthy(GetOr(config.entries, "working_directory", Null)) then 1 else 0);
        |ls| == 2 + count && ls[0] == "  image_config {" && ls[|ls| - 1] == "  }")
  {
  }

  /** Tags given as a Key/Value list, as other generators take them, make
      `.items()` raise, so such a function is not written at all. */
  lemma ListTagsFail(res: Entries, details: Entries, functionName: string, b64: Value -> Option<string>)
    requires GetOr(res, "tags", Dict([])).List? && Truthy(GetOr(res, "tags", Dict([])))
    ensures Blocks(res, details).Raised?
    ensures Assemble(res, details, functionName, b64).Raised?
  {
    assert DictTags(GetOr(res, "tags", Dict([]))).Raised?;
  }

  /** The archive lines as written assign `source_code_hash` twice on one
      line, the second time from `data.archive_file.<name>`, a data source
      that is never declared (the declared label is `<name>_lambda`). */
  lemma AsWrittenDoubleHash(name: string)
    ensures var bad := ArchiveLinesAsWritten(name);
      |bad| == 2 && bad[0] == ArchiveLines(name)[0]
      && bad[1] == ArchiveLines(name)[1] + "  source_code_hash = data.archive_file." + name + ".output_base64sha256"
      && name != ArchiveLabel(name) && bad != ArchiveLines(name)
  {
    var bad := ArchiveLinesAsWritten(name);
    assert |bad[1]| > |ArchiveLines(name)[1]|;
    assert |ArchiveLabel(name)| > |name|;
  }

  /** The source configuration carries inline code only for a package
      that is not an image, and then its lines are the archive lines: as
      written by `_get_source_config`, and as intended by its correction. */
  lemma InlineCodeUsesArchive(details: Entries, name: string, b64: Value -> Option<string>)
    requires SourceConfig(details, name, b64).Ok? && SourceConfig(details, name, b64).value.1.Some?
    ensures GetOr(details, "package_type", Str("Zip")) != Str("Image")
    ensures GetOr(details, "package_type", Null) != Str("Image")
    ensures SourceConfig(details, name, b64).value.0 == ArchiveLinesAsWritten(name)
    ensures SourceConfigIntended(details, name, b64)
      == Ok((ArchiveLines(name), SourceConfig(details, name, b64).value.1))
  {
  }

  /** With inline code, the archive opens with the data source declaration. */
  lemma ArchiveOpens(name: string, details: Entries, code: Option<string>)
    requires code.Some? && Archive(name, details, code).Ok?
    ensures |Archive(name, details, code).value| == 12
    ensures Archive(name, details, code).value[0] == "data \"archive_file\" \"" + ArchiveLabel(name) + "\" {"
  {
    var main := MainFile(GetOr(details, "handler", Str("")), GetOr(details, "runtime", Str(""))).value;
    assert Archive(name, details, code).value == ArchiveText(name, code.value, main) + [""];
  }

  /** The pieces `Assemble` joins, in order. */
  lemma AssembleParts(res: Entries, details: Entries, functionName: string, b64: Value -> Option<string>)
    requires Assemble(res, details, functionName, b64).Ok?
    ensures var name := SafeName(functionName);
      var source := SourceConfig(details, name, b64);
      source.Ok? && Archive(name, details, source.value.1).Ok? && Blocks(res, details).Ok?
      && Assemble(res, details, functionName, b64).value
        == Archive(name, details, source.value.1).value + Head(name, functionName, details)
          + Branch(details, source.value.0) + Settings(details) + Blocks(res, details).value + ["}"]
  {
  }

  /** With inline code, the composed lines open with the archive data
      source, and both source lines sit in the function block. */
  lemma ComposeArchiveFirst(res: Entries, details: Entries, name: string, functionName: string,
                            source: (seq<string>, Option<string>))
    requires Compose(res, details, name, functionName, source).Ok?
    requires source.1.Some? && |source.0| == 2
    requires GetOr(details, "package_type", Null) != Str("Image")
    ensures var ls := Compose(res, details, name, functionName, source).value;
      ls[0] == "data \"archive_file\" \"" + ArchiveLabel(name) + "\" {"
      && source.0[0] in ls && source.0[1] in ls
  {
    var archive := Archive(name, details, source.1).value;
    ArchiveOpens(name, details, source.1);
    var head := Head(name, functionName, details);
    var branch := Branch(details, source.0);
    BranchShape(details, source.0);
    var ls := Compose(res, details, name, functionName, source).value;
    assert ls == archive + head + branch + Settings(details) + Blocks(res, details).value + ["}"];
    assert ls[0] == archive[0];
    assert ls[|archive| + |head|] == branch[0];
    assert ls[|archive| + |head| + 1] == branch[1];
  }

  /** As written, a function with inline code is generated with the doubled
      `source_code_hash` line, whose second assignment reads from a data
      source the output never declares. */
  lemma GeneratedDoubleHash(res: Entries, details: Entries, functionName: string, b64: Value -> Option<string>)
    requires Assemble(res, details, functionName, b64).Ok?
    requires SourceConfig(details, SafeName(functionName), b64).value.1.Some?
    ensures var name := SafeName(functionName);
      var ls := Assemble(res, details, functionName, b64).value;
      ls[0] == "data \"archive_file\" \"" + ArchiveLabel(name) + "\" {"
      && ArchiveLinesAsWritten(name)[1] in ls
  {
    var name := SafeName(functionName);
    var source := SourceConfig(details, name, b64).value;
    InlineCodeUsesArchive(details, name, b64);
    ComposeArchiveFirst(res, details, name, functionName, source);
  }

  /** As intended, both archive lines refer to the data source the archive
      block declares, and when the function has inline code that block is
      written first, before the function block holding the lines. */
  lemma ArchiveLinesMatchBlock(res: Entries, details: Entries, functionName: string, b64: Value -> Option<string>)
    requires AssembleIntended(res, details, functionName, b64).Ok?
    requires SourceConfig(details, SafeName(functionName), b64).value.1.Some?
    ensures var name := SafeName(functionName);
      var ls := AssembleIntended(res, details, functionName, b64).value;
      ls[0] == "data \"archive_file\" \"" + ArchiveLabel(name) + "\" {"
      && ArchiveLines(name)[0] in ls && ArchiveLines(name)[1] in ls
  {
    var name := SafeName(functionName);
    InlineCodeUsesArchive(details, name, b64);
    var source := SourceConfigIntended(details, name, b64).value;
    ComposeArchiveFirst(res, details, name, functionName, source);
  }
}
