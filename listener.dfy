/** `ALBListenerGenerator`: the `aws_lb_listener` block, with its SSL
    settings, its default action (forward, fixed response or redirect) and
    its tags, and the listener's import command.
 */
module Listener {
  import opened Py
  import opened HclText
  import opened GeneratorBase

  const ResourceType := "aws_lb_listener"

  /** `listener_{id}`, the resource name in both methods. */
  function Name(id: Value): string {
    "listener_" + Show(id)
  }

  // ------------------------------------------------------------ certificates

  /** The lines of one certificate block, before they are joined. */
  function CertLines(arn: Value, isDefault: Value): seq<string> {
    ["  certificate {", "    certificate_arn = \"" + Show(arn) + "\""]
      + When(Truthy(isDefault), "    is_default = true") + ["  }"]
  }

  /** One certificate: its joined block, or nothing when it has no ARN. */
  function CertBlock(cert: Value): Outcome<seq<string>> {
    var arn :- Get(cert, "CertificateArn", Null);
    if !Truthy(arn) then Ok([])
    else
      var isDefault :- Get(cert, "IsDefault", Null);
      Ok([Join("\n", CertLines(arn, isDefault))])
  }

  /** `_format_certificates`: the blocks joined by newlines, "" for none. */
  function Certificates(certs: Value): Outcome<string> {
    if !Truthy(certs) then Ok("")
    else
      var xs :- Iter(certs);
      var blocks :- ConcatMap(xs, CertBlock);
      Ok(Join("\n", blocks))
  }

  method FormatCertificates(certs: Value) returns (r: Outcome<string>)
    ensures r == Certificates(certs)
  {
    if !Truthy(certs) {
      return Ok("");
    }
    var blocks := IterLoop(certs, CertBlock);
    if blocks.Raised? {
      return Raised;
    }
    return Ok(Join("\n", blocks.value));
  }

  // ------------------------------------------------------------ forward

  /** The ARN written as `target_group_arn` (Null for none) and the target
      groups the forward block lists.  A direct ARN becomes one group whose
      weight defaults to 1; otherwise a single group's ARN is used.  A truthy
      value that is not a list makes `len`, the indexing or the loop over the
      groups raise. */
  function TargetGroups(action: Entries): Outcome<(Value, Value)> {
    if HasKey(action, "TargetGroupArn") then
      var arn := GetOr(action, "TargetGroupArn", Null);
      Ok((arn, List([Dict([("TargetGroupArn", arn), ("Weight", GetOr(action, "Weight", Int(1)))])])))
    else
      var groups :- Get(GetOr(action, "ForwardConfig", Dict([])), "TargetGroups", List([]));
      if !Truthy(groups) then Ok((Null, groups))
      else if !groups.List? then Raised
      else if |groups.items| == 1 then
        var arn :- Item(groups.items[0], "TargetGroupArn");
        Ok((arn, groups))
      else Ok((Null, groups))
  }

  /** One `target_group` block; the weight only when the group has one. */
  function TargetGroupLines(tg: Value): Outcome<seq<string>> {
    var arn :- Item(tg, "TargetGroupArn");
    var hasWeight :- In("Weight", tg);
    var weight := if hasWeight then Item(tg, "Weight") else Ok(Null);
    var w :- weight;
    Ok(["  target_group {", "    arn    = \"" + Show(arn) + "\""]
      + When(hasWeight, "    weight = " + Show(w)) + ["  }"])
  }

  /** The stickiness block, always written: `enabled` defaults to false and
      `duration` to 1. */
  function Stickiness(action: Entries): Outcome<seq<string>> {
    var stickiness :- Get(GetOr(action, "ForwardConfig", Dict([])), "TargetGroupStickinessConfig", Dict([]));
    var duration :- Get(stickiness, "DurationSeconds", Int(1));
    var enabled :- Get(stickiness, "Enabled", Bool(false));
    Ok(["  stickiness {", "    enabled  = " + ShowLower(enabled), "    duration = " + Show(duration), "  }"])
  }

  /** The `forward { ... }` lines, before they are indented and joined: the
      groups, then the stickiness block. */
  function ForwardBody(groups: Value, sticky: seq<string>): Outcome<seq<string>> {
    var xs :- Iter(groups);
    var tgs :- ConcatMap(xs, TargetGroupLines);
    Ok(["forward {"] + tgs + sticky + ["}"])
  }

  /** `_format_forward_config` */
  function ForwardConfig(action: Entries): Outcome<seq<string>> {
    var groups :- TargetGroups(action);
    var sticky :- Stickiness(action);
    var lines :- ForwardBody(groups.1, sticky);
    Ok(When(Truthy(groups.0), "    target_group_arn = \"" + Show(groups.0) + "\"")
      + ["    " + Join("\n    ", lines)])
  }

  method FormatForward(action: Entries) returns (r: Outcome<seq<string>>)
    ensures r == ForwardConfig(action)
  {
    var groups := TargetGroups(action);
    if groups.Raised? {
      return Raised;
    }
    var (arn, targetGroups) := groups.value;
    assert groups.value.0 == arn && groups.value.1 == targetGroups;
    var config: seq<string> := [];
    if Truthy(arn) {
      config := config + ["    target_group_arn = \"" + Show(arn) + "\""];
    }
    var lines := ["forward {"];
    var tgs := IterLoop(targetGroups, TargetGroupLines);
    if tgs.Raised? {
      return Raised;
    }
    lines := lines + tgs.value;
    var sticky := Stickiness(action);
    if sticky.Raised? {
      return Raised;
    }
    lines := lines + sticky.value + ["}"];
    assert ForwardBody(targetGroups, sticky.value) == Ok(lines);
    assert config == When(Truthy(arn), "    target_group_arn = \"" + Show(arn) + "\"");
    config := config + ["    " + Join("\n    ", lines)];
    return Ok(config);
  }

  // ------------------------------------------------------------ fixed response and redirect

  /** `if key in config: lines.append(f'      {label} = "{config[key]}"')` */
  function OptionalField(config: Value, key: string, attr: string): (r: Outcome<seq<string>>)
    ensures config.Dict? ==> r.Ok? && |r.value| == (if HasKey(config.entries, key) then 1 else 0)
  {
    var present :- In(key, config);
    if !present then Ok([])
    else
      var v :- Item(config, key);
      Ok(["      " + attr + " = \"" + Show(v) + "\""])
  }

  /** `_format_fixed_response_config` */
  function FixedResponse(action: Entries): Outcome<seq<string>> {
    var config := GetOr(action, "FixedResponseConfig", Dict([]));
    if !Truthy(config) then Ok([])
    else
      var contentType :- OptionalField(config, "ContentType", "content_type");
      var body :- OptionalField(config, "MessageBody", "message_body");
      var status :- OptionalField(config, "StatusCode", "status_code ");
      Ok(["    fixed_response {"] + contentType + body + status + ["    }"])
  }

  /** `_format_redirect_config`: its loop over the six-entry parameter map,
      in the map's order. */
  function Redirect(action: Entries): Outcome<seq<string>> {
    var config := GetOr(action, "RedirectConfig", Dict([]));
    if !Truthy(config) then Ok([])
    else
      var host :- OptionalField(config, "Host", "host");
      var path :- OptionalField(config, "Path", "path");
      var port :- OptionalField(config, "Port", "port");
      var protocol :- OptionalField(config, "Protocol", "protocol");
      var query :- OptionalField(config, "Query", "query");
      var status :- OptionalField(config, "StatusCode", "status_code");
      Ok(["    redirect {"] + host + path + port + protocol + query + status + ["    }"])
  }

  /** The formatter the lower-cased action type selects; any other type has
      no configuration lines. */
  function ActionConfig(actionType: string, action: Entries): Outcome<seq<string>> {
    if actionType == "forward" then ForwardConfig(action)
    else if actionType == "fixed-response" then FixedResponse(action)
    else if actionType == "redirect" then Redirect(action)
    else Ok([])
  }

  // ------------------------------------------------------------ generate

  /** The four lines every listener starts with; port and protocol default
      to 80 and HTTP. */
  function Opening(id: Value, d: Entries): seq<string> {
    [Header(ResourceType, Name(id)),
     "  load_balancer_arn = \"" + Show(GetOr(d, "load_balancer_arn", Null)) + "\"",
     "  port              = " + Show(GetOr(d, "port", Int(80))),
     "  protocol          = \"" + Show(GetOr(d, "protocol", Str("HTTP"))) + "\""]
  }

  /** The SSL policy and the certificate blocks, for HTTPS only. */
  function Https(d: Entries): Outcome<seq<string>> {
    if GetOr(d, "protocol", Null) != Str("HTTPS") then Ok([])
    else
      var ssl := GetOr(d, "ssl_policy", Null);
      var certs :- Certificates(GetOr(d, "certificates", List([])));
      Ok(When(Truthy(ssl), "  ssl_policy = \"" + Show(ssl) + "\"") + (if certs != "" then [certs] else []))
  }

  /** The lower-cased type of the first action; raises with no actions. */
  function ActionType(d: Entries): Outcome<string> {
    var actions := GetOr(d, "actions", List([]));
    if !Truthy(actions) || !actions.List? then Raised
    else
      var t :- Get(actions.items[0], "Type", Str(""));
      var s :- AsStr(t);
      Ok(Lower(s))
  }

  /** The `default_action` block built from the first action. */
  function DefaultAction(d: Entries): Outcome<seq<string>> {
    var actionType :- ActionType(d);
    var action := GetOr(d, "actions", List([])).items[0];
    var config :- ActionConfig(actionType, action.entries);
    Ok(["  default_action {", "    type = \"" + actionType + "\""] + config + ["  }"])
  }

  /** The lines `generate` joins.  A missing id or details, or no actions,
      raises, and `generate` returns None. */
  function Lines(res: Entries): Outcome<Option<seq<string>>> {
    var id := GetOr(res, "id", Null);
    var details := GetOr(res, "details", Dict([]));
    if !Truthy(id) || !Truthy(details) || !details.Dict? then Raised
    else Assemble(id, details.entries, GetOr(res, "tags", List([])))
  }

  /** The block of a listener that has an id and details. */
  function Assemble(id: Value, d: Entries, tags: Value): Outcome<Option<seq<string>>> {
    var https :- Https(d);
    var action :- DefaultAction(d);
    var tagLines :- TagsBlock(tags, StrictTagLine);
    Ok(Some(Opening(id, d) + https + action + tagLines + ["}"]))
  }

  /** The HTTPS part of `generate`. */
  method EmitHttps(d: Entries) returns (r: Outcome<seq<string>>)
    ensures r == Https(d)
  {
    var https: seq<string> := [];
    if GetOr(d, "protocol", Null) == Str("HTTPS") {
      var ssl := GetOr(d, "ssl_policy", Null);
      if Truthy(ssl) {
        https := https + ["  ssl_policy = \"" + Show(ssl) + "\""];
      }
      var certBlocks := FormatCertificates(GetOr(d, "certificates", List([])));
      if certBlocks.Raised? {
        return Raised;
      }
      ghost var sslLines := https;
      assert sslLines == When(Truthy(ssl), "  ssl_policy = \"" + Show(ssl) + "\"");
      if certBlocks.value != "" {
        https := https + [certBlocks.value];
      }
      assert https == sslLines + (if certBlocks.value != "" then [certBlocks.value] else []);
    }
    return Ok(https);
  }

  /** The default-action part of `generate`. */
  method EmitDefaultAction(d: Entries) returns (r: Outcome<seq<string>>)
    ensures r == DefaultAction(d)
  {
    var actionType := ActionType(d);
    if actionType.Raised? {
      return Raised;
    }
    var action := GetOr(d, "actions", List([])).items[0].entries;
    var block := ["  default_action {", "    type = \"" + actionType.value + "\""];
    var config: Outcome<seq<string>>;
    if actionType.value == "forward" {
      config := FormatForward(action);
    } else if actionType.value == "fixed-response" {
      config := FixedResponse(action);
    } else if actionType.value == "redirect" {
      config := Redirect(action);
    } else {
      config := Ok([]);
    }
    assert config == ActionConfig(actionType.value, action);
    if config.Raised? {
      return Raised;
    }
    block := block + config.value + ["  }"];
    return Ok(block);
  }

  /** `generate` */
  method Generate(res: Entries) returns (r: Option<string>)
    ensures r == Render(Lines(res))
  {
    var id := GetOr(res, "id", Null);
    var details := GetOr(res, "details", Dict([]));
    if !Truthy(id) || !Truthy(details) || !details.Dict? {
      return None;
    }
    var d := details.entries;
    var hcl := Opening(id, d);
    var https := EmitHttps(d);
    if https.Raised? {
      return None;
    }
    hcl := hcl + https.value;
    var action := EmitDefaultAction(d);
    if action.Raised? {
      return None;
    }
    hcl := hcl + action.value;
    var tags := EmitTags(GetOr(res, "tags", List([])), StrictTagLine);
    if tags.Raised? {
      return None;
    }
    hcl := hcl + tags.value + ["}"];
    assert Assemble(id, d, GetOr(res, "tags", List([]))) == Ok(Some(hcl));
    r := Some(Join("\n", hcl));
  }

  /** `generate_import` */
  function Import(res: Entries, modulePrefix: Option<string>): (r: Option<string>)
    ensures r.None? <==> !Truthy(GetOr(res, "arn", Null)) || !Truthy(GetOr(res, "id", Null))
  {
    var arn := GetOr(res, "arn", Null);
    var id := GetOr(res, "id", Null);
    if !Truthy(arn) || !Truthy(id) then None
    else Some(ImportCommand(ImportPrefix(modulePrefix), ResourceType, Name(id), Show(arn)))
  }

  // ------------------------------------------------------------ lemmas

  /** No listener is written without an id, without details or without an
      action. */
  lemma RequiredFields(res: Entries)
    ensures var details := GetOr(res, "details", Dict([]));
      !Truthy(GetOr(res, "id", Null)) || !Truthy(details) ==> Lines(res).Raised?
    ensures var details := GetOr(res, "details", Dict([]));
      details.Dict? && !Truthy(GetOr(details.entries, "actions", List([]))) ==> Lines(res).Raised?
    ensures Lines(res).Ok? ==> Lines(res).value.Some?
  {
  }

  /** A listener given no port and no protocol is written for port 80 over
      HTTP, and so (by `HttpsOnly`) with neither an SSL policy nor
      certificates. */
  lemma PortProtocolDefaults(id: Value, d: Entries)
    requires !HasKey(d, "port") && !HasKey(d, "protocol")
    ensures Opening(id, d)[2] == "  port              = 80"
    ensures Opening(id, d)[3] == "  protocol          = \"HTTP\""
    ensures Https(d) == Ok([])
  {
    assert Show(Int(80)) == "80" by {
      assert NatToString(80) == NatToString(8) + [Digit(0)];
    }
  }

  /** Whatever the protocol, only HTTPS gets an SSL policy or certificates. */
  lemma HttpsOnly(id: Value, d: Entries, tags: Value)
    requires Assemble(id, d, tags).Ok?
    requires GetOr(d, "protocol", Null) != Str("HTTPS")
    ensures Assemble(id, d, tags).value.value
      == Opening(id, d) + DefaultAction(d).value + TagsBlock(tags, StrictTagLine).value + ["}"]
  {
    assert Https(d) == Ok([]);
    assert Opening(id, d) + [] == Opening(id, d);
  }

  /** The type line is lower-case whatever the case of the action's type,
      and a type none of the three formatters handles gets an empty block. */
  lemma ActionTypeLowered(d: Entries)
    requires DefaultAction(d).Ok?
    ensures var block := DefaultAction(d).value;
      var t := ActionType(d).value;
      |block| >= 3 && block[0] == "  default_action {" && block[|block| - 1] == "  }"
      && (forall i :: 0 <= i < |t| ==> !('A' <= t[i] <= 'Z'))
      && (t != "forward" && t != "fixed-response" && t != "redirect" ==>
        block == ["  default_action {", "    type = \"" + t + "\"", "  }"])
  {
  }

  /** `target_group_arn` is written only for a direct ARN or a single target
      group; with two or more groups it is left out. */
  lemma TargetGroupArnOnlyForOne(action: Entries)
    requires ForwardConfig(action).Ok?
    ensures var config := ForwardConfig(action).value;
      var fc := GetOr(action, "ForwardConfig", Dict([]));
      1 <= |config| <= 2
      && (|config| == 2 ==>
        HasKey(action, "TargetGroupArn")
        || (fc.Dict? && GetOr(fc.entries, "TargetGroups", List([])).List?
          && |GetOr(fc.entries, "TargetGroups", List([])).items| == 1))
  {
  }

  /** The stickiness block, with nothing configured, is enabled = false and
      duration = 1. */
  lemma StickinessDefaults(action: Entries)
    requires GetOr(action, "ForwardConfig", Dict([])) == Dict([])
    ensures Stickiness(action) == Ok(["  stickiness {", "    enabled  = false", "    duration = 1", "  }"])
  {
    ShowLowerBool(false);
    assert Show(Int(1)) == "1";
    var empty: Entries := [];
    assert Get(Dict(empty), "TargetGroupStickinessConfig", Dict([])) == Ok(Dict(empty));
    assert Get(Dict(empty), "DurationSeconds", Int(1)) == Ok(Int(1));
    assert Get(Dict(empty), "Enabled", Bool(false)) == Ok(Bool(false));
    assert "    enabled  = " + ShowLower(Bool(false)) == "    enabled  = false";
    assert "    duration = " + Show(Int(1)) == "    duration = 1";
  }

  /** Every forward block ends with the stickiness block, whatever its
      groups, and is the last line of the configuration. */
  lemma ForwardAlwaysSticky(action: Entries)
    requires ForwardConfig(action).Ok?
    ensures Stickiness(action).Ok? && TargetGroups(action).Ok?
    ensures var body := ForwardBody(TargetGroups(action).value.1, Stickiness(action).value);
      var config := ForwardConfig(action).value;
      body.Ok? && |body.value| >= 6 && body.value[0] == "forward {"
      && body.value[|body.value| - 5..] == Stickiness(action).value + ["}"]
      && config[|config| - 1] == "    " + Join("\n    ", body.value)
  {
    var groups := TargetGroups(action).value;
    var sticky := Stickiness(action).value;
    var lines := ForwardBody(groups.1, sticky).value;
    assert ForwardConfig(action).value
      == When(Truthy(groups.0), "    target_group_arn = \"" + Show(groups.0) + "\"") + ["    " + Join("\n    ", lines)];
    ForwardBodyEnds(groups.1, sticky);
  }

  /** The forward lines open with `forward {` and end with the stickiness
      block and the closing brace. */
  lemma ForwardBodyEnds(groups: Value, sticky: seq<string>)
    requires ForwardBody(groups, sticky).Ok?
    ensures var lines := ForwardBody(groups, sticky).value;
      |lines| >= 2 + |sticky| && lines[0] == "forward {"
      && lines[|lines| - |sticky| - 1..] == sticky + ["}"]
  {
  }

  /** A direct ARN is listed as one group of weight 1 unless the action
      gives a weight. */
  lemma DirectArnWeight(action: Entries, sticky: seq<string>)
    requires HasKey(action, "TargetGroupArn") && !HasKey(action, "Weight")
    ensures var arn := GetOr(action, "TargetGroupArn", Null);
      var tg := Dict([("TargetGroupArn", arn), ("Weight", Int(1))]);
      TargetGroups(action) == Ok((arn, List([tg])))
      && ForwardBody(List([tg]), sticky) == Ok(["forward {", "  target_group {",
        "    arn    = \"" + Show(arn) + "\"", "    weight = 1", "  }"] + sticky + ["}"])
  {
    var arn := GetOr(action, "TargetGroupArn", Null);
    var tg := Dict([("TargetGroupArn", arn), ("Weight", Int(1))]);
    OneGroupLines(arn);
    var tgLines := TargetGroupLines(tg).value;
    assert Iter(List([tg])) == Ok([tg]);
    assert ConcatMap([tg], TargetGroupLines) == Ok([] + tgLines);
    assert [] + tgLines == tgLines;
    assert ForwardBody(List([tg]), sticky) == Ok(["forward {"] + tgLines + sticky + ["}"]);
    assert ["forward {"] + tgLines + sticky + ["}"] == ["forward {", "  target_group {",
        "    arn    = \"" + Show(arn) + "\"", "    weight = 1", "  }"] + sticky + ["}"];
  }

  /** The group a direct ARN of weight 1 becomes. */
  lemma OneGroupLines(arn: Value)
    ensures TargetGroupLines(Dict([("TargetGroupArn", arn), ("Weight", Int(1))]))
      == Ok(["  target_group {", "    arn    = \"" + Show(arn) + "\"", "    weight = 1", "  }"])
  {
    var tg := Dict([("TargetGroupArn", arn), ("Weight", Int(1))]);
    assert tg.entries[1].0 == "Weight";
    assert In("Weight", tg) == Ok(true);
    assert Item(tg, "Weight") == Ok(Int(1));
    assert Item(tg, "TargetGroupArn") == Ok(arn);
    assert "    weight = " + Show(Int(1)) == "    weight = 1";
    var open := ["  target_group {", "    arn    = \"" + Show(arn) + "\""];
    assert TargetGroupLines(tg) == Ok(open + When(true, "    weight = " + Show(Int(1))) + ["  }"]);
    assert open + ["    weight = 1"] + ["  }"] == ["  target_group {", "    arn    = \"" + Show(arn) + "\"", "    weight = 1", "  }"];
  }

  /** A certificate list none of whose entries has an ARN writes nothing. */
  lemma {:induction false} CertificatesWithoutArn(certs: seq<Value>)
    requires forall i :: 0 <= i < |certs| ==>
      certs[i].Dict? && !Truthy(GetOr(certs[i].entries, "CertificateArn", Null))
    ensures Certificates(List(certs)) == Ok("")
  {
    forall i | 0 <= i < |certs| ensures CertBlock(certs[i]) == Ok([]) {
    }
    ConcatMapEmpty(certs, CertBlock);
  }

  /** 1 when the key is present. */
  function Present(es: Entries, key: string): nat {
    if HasKey(es, key) then 1 else 0
  }

  /** A redirect writes one line per parameter that is present, between its
      opening and closing lines, and nothing for an empty configuration. */
  lemma RedirectOnlyPresent(action: Entries)
    requires GetOr(action, "RedirectConfig", Dict([])).Dict?
    ensures var es := GetOr(action, "RedirectConfig", Dict([])).entries;
      Redirect(action).Ok?
      && |Redirect(action).value| == if es == [] then 0 else
        2 + Present(es, "Host") + Present(es, "Path") + Present(es, "Port")
          + Present(es, "Protocol") + Present(es, "Query") + Present(es, "StatusCode")
  {
  }

  /** The import command addresses the block `generate` declares. */
  lemma ImportMatchesBlock(res: Entries, modulePrefix: Option<string>)
    requires Lines(res).Ok? && Import(res, modulePrefix).Some?
    ensures var name := Name(GetOr(res, "id", Null));
      Lines(res).value.value[0] == Header(ResourceType, name)
      && Import(res, modulePrefix).value == ImportCommand(ImportPrefix(modulePrefix), ResourceType, name, Show(GetOr(res, "arn", Null)))
  {
    var id := GetOr(res, "id", Null);
    var d := GetOr(res, "details", Dict([])).entries;
    var tags := GetOr(res, "tags", List([]));
    assert Lines(res) == Assemble(id, d, tags);
    AssembleOpens(id, d, tags);
  }

  /** The block opens with the header naming `listener_{id}` and is closed. */
  lemma AssembleOpens(id: Value, d: Entries, tags: Value)
    requires Assemble(id, d, tags).Ok?
    ensures var ls := Assemble(id, d, tags).value.value;
      |ls| >= 5 && ls[0] == Header(ResourceType, Name(id)) && ls[|ls| - 1] == "}"
  {
    var ls := Assemble(id, d, tags).value.value;
    assert ls == Opening(id, d) + Https(d).value + DefaultAction(d).value
      + TagsBlock(tags, StrictTagLine).value + ["}"];
  }
}
