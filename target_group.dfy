/** `ALBTargetGroupGenerator`: the `aws_lb_target_group` block, with its
    health check written key by key, and its import command.  The target
    group's name is its id.
 */
module TargetGroup {
  import opened Py
  import opened HclText
  import opened GeneratorBase
  import Seqs

  const ResourceType := "aws_lb_target_group"

  // ------------------------------------------------------------ health check

  /** One health-check setting: nothing for None, a bool as `true`/`false`
      (checked before numbers, since a Python bool is an int), a number bare,
      anything else quoted. */
  function HealthLine(setting: (string, Value)): seq<string> {
    var (key, value) := setting;
    if value.Null? then []
    else if value.Bool? then ["    " + key + " = " + ShowLower(value)]
    else if value.Int? then ["    " + key + " = " + Show(value)]
    else ["    " + key + " = \"" + Show(value) + "\""]
  }

  /** `for key, value in health_check.items()` */
  function HealthLines(settings: Entries): seq<string>
    decreases |settings|
  {
    if settings == [] then []
    else HealthLines(settings[..|settings| - 1]) + HealthLine(settings[|settings| - 1])
  }

  /** The `health_check` block, for a truthy health check; one that is not
      a dict has no `items` and raises. */
  function HealthCheck(healthCheck: Value): Outcome<seq<string>> {
    if !Truthy(healthCheck) then Ok([])
    else if !healthCheck.Dict? then Raised
    else Ok(["  health_check {"] + HealthLines(healthCheck.entries) + ["  }"])
  }

  /** The health-check loop, setting by setting. */
  method EmitHealthLines(settings: Entries) returns (lines: seq<string>)
    ensures lines == HealthLines(settings)
  {
    lines := [];
    var i := 0;
    while i < |settings|
      invariant 0 <= i <= |settings|
      invariant lines == HealthLines(settings[..i])
    {
      var (key, value) := settings[i];
      if value != Null {
        if value.Bool? {
          lines := lines + ["    " + key + " = " + ShowLower(value)];
        } else if value.Int? {
          lines := lines + ["    " + key + " = " + Show(value)];
        } else {
          lines := lines + ["    " + key + " = \"" + Show(value) + "\""];
        }
      }
      assert settings[..i + 1][..i] == settings[..i];
      i := i + 1;
    }
    assert settings[..i] == settings;
  }

  // ------------------------------------------------------------ generate

  /** The header, the name and the optional basic settings. */
  function Opening(name: Value, protocol: Value, port: Value, vpc: Value, targetType: Value): seq<string> {
    [Header(ResourceType, Show(name)), "  name = \"" + Show(name) + "\""]
      + When(Truthy(protocol), QuotedSetting("protocol", protocol))
      + When(Truthy(port), BareSetting("port", port))
      + When(Truthy(vpc), QuotedSetting("vpc_id", vpc))
      + When(Truthy(targetType), QuotedSetting("target_type", targetType))
  }

  /** The opening lines of a target group's block. */
  function OpeningOf(res: Entries): seq<string> {
    Opening(GetOr(res, "id", Null), GetOr(res, "protocol", Null), GetOr(res, "port", Null),
      GetOr(res, "vpc_id", Null), GetOr(res, "target_type", Null))
  }

  /** The three attributes written for every target group, with their
      defaults false, false and 0. */
  function Flags(res: Entries): seq<string> {
    [BoolSetting("lambda_multi_value_headers_enabled", GetOr(res, "lambda_multi_value_headers_enabled", Bool(false))),
     BoolSetting("proxy_protocol_v2", GetOr(res, "proxy_protocol_v2", Bool(false))),
     BareSetting("slow_start", GetOr(res, "slow_start", Int(0)))]
  }

  /** `deregistration_delay`, only when truthy. */
  function Deregistration(delay: Value): seq<string> {
    When(Truthy(delay), "  deregistration_delay = " + Show(delay))
  }

  /** The block from its parts, in the order `generate` writes them. */
  function Assemble(opening: seq<string>, health: seq<string>, delay: Value, flags: seq<string>, tags: seq<string>): seq<string> {
    opening + health + Deregistration(delay) + flags + tags + ["}"]
  }

  /** The lines `generate` joins: None without an id. */
  function Lines(res: Entries): Outcome<Option<seq<string>>> {
    if !Truthy(GetOr(res, "id", Null)) then Ok(None)
    else
      var health :- HealthCheck(GetOr(res, "health_check", Null));
      var tags :- TagsBlock(GetOr(res, "tags", List([])), LooseTagLine);
      Ok(Some(Assemble(OpeningOf(res), health, GetOr(res, "deregistration_delay", Null), Flags(res), tags)))
  }

  /** The header, the name and the basic settings. */
  method EmitOpening(name: Value, protocol: Value, port: Value, vpc: Value, targetType: Value) returns (hcl: seq<string>)
    ensures hcl == Opening(name, protocol, port, vpc, targetType)
  {
    hcl := [Header(ResourceType, Show(name)), "  name = \"" + Show(name) + "\""];
    ghost var before := hcl;
    if Truthy(protocol) {
      hcl := hcl + [QuotedSetting("protocol", protocol)];
    }
    assert hcl == before + When(Truthy(protocol), QuotedSetting("protocol", protocol));
    before := hcl;
    if Truthy(port) {
      hcl := hcl + [BareSetting("port", port)];
    }
    assert hcl == before + When(Truthy(port), BareSetting("port", port));
    before := hcl;
    if Truthy(vpc) {
      hcl := hcl + [QuotedSetting("vpc_id", vpc)];
    }
    assert hcl == before + When(Truthy(vpc), QuotedSetting("vpc_id", vpc));
    before := hcl;
    if Truthy(targetType) {
      hcl := hcl + [QuotedSetting("target_type", targetType)];
    }
    assert hcl == before + When(Truthy(targetType), QuotedSetting("target_type", targetType));
  }

  /** The health-check block, or the exception a non-dict raises. */
  method EmitHealthCheck(healthCheck: Value) returns (r: Outcome<seq<string>>)
    ensures r == HealthCheck(healthCheck)
  {
    if !Truthy(healthCheck) {
      return Ok([]);
    }
    if !healthCheck.Dict? {
      return Raised;
    }
    var settings := EmitHealthLines(healthCheck.entries);
    r := Ok(["  health_check {"] + settings + ["  }"]);
  }

  /** `generate` */
  method Generate(res: Entries) returns (r: Option<string>)
    ensures r == Render(Lines(res))
  {
    if !Truthy(GetOr(res, "id", Null)) {
      return None;
    }
    var hcl := EmitOpening(GetOr(res, "id", Null), GetOr(res, "protocol", Null), GetOr(res, "port", Null),
      GetOr(res, "vpc_id", Null), GetOr(res, "target_type", Null));
    var health := EmitHealthCheck(GetOr(res, "health_check", Null));
    if health.Raised? {
      return None;
    }
    var opening := hcl;
    hcl := hcl + health.value;
    var delay := GetOr(res, "deregistration_delay", Null);
    if Truthy(delay) {
      hcl := hcl + ["  deregistration_delay = " + Show(delay)];
    }
    assert hcl == opening + health.value + Deregistration(delay);
    hcl := hcl + Flags(res);
    var tags := EmitTags(GetOr(res, "tags", List([])), LooseTagLine);
    if tags.Raised? {
      return None;
    }
    hcl := hcl + tags.value + ["}"];
    assert hcl == Assemble(opening, health.value, delay, Flags(res), tags.value);
    r := Some(Join("\n", hcl));
  }

  /** `generate_import`: the name is the id, the import id the ARN. */
  function Import(res: Entries, modulePrefix: Option<string>): (r: Option<string>)
    ensures r.None? <==> !Truthy(GetOr(res, "arn", Null)) || !Truthy(GetOr(res, "id", Null))
  {
    var arn := GetOr(res, "arn", Null);
    var name := GetOr(res, "id", Null);
    if !Truthy(arn) || !Truthy(name) then None
    else Some(ImportCommand(ImportPrefix(modulePrefix), ResourceType, Show(name), Show(arn)))
  }

  // ------------------------------------------------------------ lemmas

  /** A target group is left out exactly when it has no id. */
  lemma RequiredFields(res: Entries)
    ensures Lines(res) == Ok(None) <==> !Truthy(GetOr(res, "id", Null))
  {
  }

  /** A truthy health check that is not a dict makes `generate` raise,
      and an empty one writes no `health_check` block. */
  lemma HealthCheckShape(res: Entries)
    requires Truthy(GetOr(res, "id", Null))
    ensures var hc := GetOr(res, "health_check", Null);
      (Truthy(hc) && !hc.Dict? ==> Lines(res).Raised?)
      && (!Truthy(hc) ==> HealthCheck(hc) == Ok([]))
      && (Truthy(hc) && hc.Dict? ==> HealthCheck(hc).Ok? && HealthCheck(hc).value[0] == "  health_check {")
  {
  }

  /** A health-check setting that is not None. */
  predicate IsSet(setting: (string, Value)) {
    !setting.1.Null?
  }

  /** The health check has one line per setting that is not None. */
  lemma {:induction false} HealthLinesCount(settings: Entries)
    ensures |HealthLines(settings)| == |Seqs.Filter(settings, IsSet)|
    decreases |settings|
  {
    if settings != [] {
      HealthLinesCount(settings[..|settings| - 1]);
    }
  }

  /** Every setting that is not None is written, under its own key. */
  lemma {:induction false} HealthSettingWritten(settings: Entries, i: nat)
    requires i < |settings| && IsSet(settings[i])
    ensures HealthLine(settings[i]) != [] && HealthLine(settings[i])[0] in HealthLines(settings)
    decreases |settings|
  {
    var init := settings[..|settings| - 1];
    if i < |settings| - 1 {
      HealthSettingWritten(init, i);
      assert init[i] == settings[i];
    }
    assert HealthLines(settings) == HealthLines(init) + HealthLine(settings[|settings| - 1]);
  }

  /** Bools are written as HCL `true`/`false`, numbers bare and strings
      quoted. */
  lemma HealthValueKinds(key: string, b: bool, n: int, s: string)
    ensures HealthLine((key, Bool(b))) == ["    " + key + " = " + (if b then "true" else "false")]
    ensures HealthLine((key, Int(n))) == ["    " + key + " = " + IntToString(n)]
    ensures HealthLine((key, Str(s))) == ["    " + key + " = \"" + s + "\""]
    ensures HealthLine((key, Null)) == []
  {
    ShowLowerBool(b);
  }

  /** Without `lambda_multi_value_headers_enabled`, it is written false. */
  lemma MultiValueHeadersDefault(res: Entries)
    requires !HasKey(res, "lambda_multi_value_headers_enabled")
    ensures Flags(res)[0] == "  lambda_multi_value_headers_enabled = false"
  {
    BoolSettingLiteral("lambda_multi_value_headers_enabled", false);
    assert "  " + "lambda_multi_value_headers_enabled" + " = false" == "  lambda_multi_value_headers_enabled = false";
  }

  /** Without `proxy_protocol_v2`, it is written false. */
  lemma ProxyProtocolDefault(res: Entries)
    requires !HasKey(res, "proxy_protocol_v2")
    ensures Flags(res)[1] == "  proxy_protocol_v2 = false"
  {
    BoolSettingLiteral("proxy_protocol_v2", false);
    assert "  " + "proxy_protocol_v2" + " = false" == "  proxy_protocol_v2 = false";
  }

  /** Without `slow_start`, it is written 0. */
  lemma SlowStartDefault(res: Entries)
    requires !HasKey(res, "slow_start")
    ensures Flags(res)[2] == "  slow_start = 0"
  {
    assert Show(Int(0)) == "0";
    assert "  " + "slow_start" + " = " + "0" == "  slow_start = 0";
  }

  /** A block ends with the three attributes, the tags and the closing
      brace, and `deregistration_delay` comes right before them when set. */
  lemma AssembleTail(opening: seq<string>, health: seq<string>, delay: Value, flags: seq<string>, tags: seq<string>)
    ensures var ls := Assemble(opening, health, delay, flags, tags);
      var tail := flags + tags + ["}"];
      |ls| >= |tail| && ls[|ls| - |tail|..] == tail
      && (Truthy(delay) ==> ls[|ls| - |tail| - 1] == "  deregistration_delay = " + Show(delay))
  {
    var pre := opening + health + Deregistration(delay);
    var ls := Assemble(opening, health, delay, flags, tags);
    assert ls == pre + (flags + tags + ["}"]);
    assert ls[|pre|..] == flags + tags + ["}"];
  }

  /** Every block `generate` writes ends with the three attributes, the
      tags and the closing brace. */
  lemma FlagsAlways(res: Entries)
    requires Lines(res).Ok? && Lines(res).value.Some?
    ensures var ls := Lines(res).value.value;
      var tail := Flags(res) + TagsBlock(GetOr(res, "tags", List([])), LooseTagLine).value + ["}"];
      |ls| >= |tail| && ls[|ls| - |tail|..] == tail
  {
    AssembleTail(OpeningOf(res), HealthCheck(GetOr(res, "health_check", Null)).value, GetOr(res, "deregistration_delay", Null),
      Flags(res), TagsBlock(GetOr(res, "tags", List([])), LooseTagLine).value);
  }

  /** The import command addresses the block `generate` declares, named
      after the id, and imports it by its ARN. */
  lemma ImportMatchesBlock(res: Entries, modulePrefix: Option<string>)
    requires Lines(res).Ok? && Lines(res).value.Some? && Import(res, modulePrefix).Some?
    ensures var name := Show(GetOr(res, "id", Null));
      [Header(ResourceType, name)] <= Lines(res).value.value
      && Import(res, modulePrefix).value == ImportCommand(ImportPrefix(modulePrefix), ResourceType, name, Show(GetOr(res, "arn", Null)))
  {
  }
}
