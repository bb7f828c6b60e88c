/** `ALBListenerRuleGenerator`: the `aws_lb_listener_rule` block (its
    actions, its conditions and its tags) and its import command.  The
    condition values are written by `json.dumps`, the parameter `dumps`.
 */
module ListenerRule {
  import opened Py
  import opened HclText
  import opened GeneratorBase

  const ResourceType := "aws_lb_listener_rule"

  /** `rule_{id}`, the resource name in both methods. */
  function Name(id: Value): string {
    "rule_" + Show(id)
  }

  // ------------------------------------------------------------ forward action

  /** One `target_group` block; the weight defaults to 0. */
  function TargetGroupLines(tg: Value): Outcome<seq<string>> {
    var arn :- Get(tg, "TargetGroupArn", Null);
    var weight :- Get(tg, "Weight", Int(0));
    Ok(["      target_group {", "        arn = \"" + Show(arn) + "\"", "        weight = " + Show(weight), "      }"])
  }

  /** The stickiness block, always written: `enabled` defaults to true, and
      the duration is `DurationSeconds`, else `duration`, else 3600. */
  function Stickiness(stickiness: Value): Outcome<seq<string>> {
    var enabled :- Get(stickiness, "Enabled", Bool(true));
    var fallback :- Get(stickiness, "duration", Int(3600));
    var duration :- Get(stickiness, "DurationSeconds", fallback);
    Ok(["      stickiness {", "        enabled = " + ShowLower(enabled), "        duration = " + Show(duration), "      }"])
  }

  /** The lines of a `forward` block with at least one target group. */
  function ForwardBody(groups: seq<string>, sticky: seq<string>): seq<string> {
    ["    forward {"] + groups + sticky + ["    }"]
  }

  /** `_format_forward_action`: the joined `forward` block, or "" when the
      action has no target groups. */
  function Forward(action: Value): Outcome<string> {
    var fc :- Get(action, "ForwardConfig", Dict([]));
    var groups :- Get(fc, "TargetGroups", List([]));
    var stickiness :- Get(fc, "TargetGroupStickinessConfig", Dict([]));
    if !Truthy(groups) then Ok("")
    else
      var xs :- Iter(groups);
      var tgs :- ConcatMap(xs, TargetGroupLines);
      var sticky :- Stickiness(stickiness);
      Ok(Join("\n", ForwardBody(tgs, sticky)))
  }

  method FormatForward(action: Value) returns (r: Outcome<string>)
    ensures r == Forward(action)
  {
    if !action.Dict? {
      return Raised;
    }
    var fc := GetOr(action.entries, "ForwardConfig", Dict([]));
    if !fc.Dict? {
      return Raised;
    }
    var groups := GetOr(fc.entries, "TargetGroups", List([]));
    var stickiness := GetOr(fc.entries, "TargetGroupStickinessConfig", Dict([]));
    if !Truthy(groups) {
      return Ok("");
    }
    var tgs := IterLoop(groups, TargetGroupLines);
    if tgs.Raised? {
      return Raised;
    }
    var sticky := Stickiness(stickiness);
    if sticky.Raised? {
      return Raised;
    }
    var blocks := ["    forward {"];
    blocks := blocks + tgs.value;
    blocks := blocks + sticky.value + ["    }"];
    assert blocks == ForwardBody(tgs.value, sticky.value);
    return Ok(Join("\n", blocks));
  }

  /** One `action` block: the lower-cased type, then for `forward` the
      forward block when there is one. */
  function ActionLines(action: Value): Outcome<seq<string>> {
    var t :- Get(action, "Type", Str(""));
    var s :- AsStr(t);
    var actionType := Lower(s);
    var forward :- if actionType == "forward" then Forward(action) else Ok("");
    Ok(["  action {", "    type = \"" + actionType + "\""] + When(forward != "", forward) + ["  }"])
  }

  method EmitAction(action: Value) returns (r: Outcome<seq<string>>)
    ensures r == ActionLines(action)
  {
    var t := Get(action, "Type", Str(""));
    if t.Raised? || !t.value.Str? {
      return Raised;
    }
    var actionType := Lower(t.value.s);
    var block := ["  action {", "    type = \"" + actionType + "\""];
    var forward := Ok("");
    if actionType == "forward" {
      forward := FormatForward(action);
      if forward.Raised? {
        return Raised;
      }
      if forward.value != "" {
        block := block + [forward.value];
      }
    }
    assert forward == (if actionType == "forward" then Forward(action) else Ok(""));
    assert block == ["  action {", "    type = \"" + actionType + "\""] + When(forward.value != "", forward.value);
    block := block + ["  }"];
    return Ok(block);
  }

  /** `for action in actions`, one block per action. */
  method EmitActions(actions: seq<Value>) returns (r: Outcome<seq<string>>)
    ensures r == ConcatMap(actions, ActionLines)
  {
    var lines: seq<string> := [];
    var i := 0;
    while i < |actions|
      invariant 0 <= i <= |actions|
      invariant ConcatMap(actions[..i], ActionLines) == Ok(lines)
    {
      var block := EmitAction(actions[i]);
      if block.Raised? {
        ConcatMapRaises(actions, ActionLines, i);
        return Raised;
      }
      assert actions[..i + 1][..i] == actions[..i];
      lines := lines + block.value;
      i := i + 1;
    }
    assert actions[..i] == actions;
    return Ok(lines);
  }

  // ------------------------------------------------------------ conditions

  /** A condition whose configuration lists `Values`, under `kind`. */
  function ValuesCondition(config: Value, kind: string, dumps: Value -> string): Outcome<seq<string>> {
    var values :- Item(config, "Values");
    Ok(["  condition {", "    " + kind + " {", "      values = " + dumps(values), "    }", "  }"])
  }

  /** One condition: an HTTP header, else a path pattern, else a host header;
      any other condition writes nothing. */
  function ConditionLines(condition: Value, dumps: Value -> string): Outcome<seq<string>> {
    var isHeader :- In("HttpHeaderConfig", condition);
    if isHeader then
      var config :- Item(condition, "HttpHeaderConfig");
      var name :- Item(config, "HttpHeaderName");
      var values :- Item(config, "Values");
      Ok(["  condition {", "    http_header {", "      http_header_name = \"" + Show(name) + "\"",
          "      values = " + dumps(values), "    }", "  }"])
    else
      var isPath :- In("PathPatternConfig", condition);
      if isPath then
        var config :- Item(condition, "PathPatternConfig");
        ValuesCondition(config, "path_pattern", dumps)
      else
        var isHost :- In("HostHeaderConfig", condition);
        if isHost then
          var config :- Item(condition, "HostHeaderConfig");
          ValuesCondition(config, "host_header", dumps)
        else Ok([])
  }

  /** `_format_conditions`, before its lines are joined. */
  function Conditions(conditions: Value, dumps: Value -> string): Outcome<seq<string>> {
    var xs :- Iter(conditions);
    ConcatMap(xs, c => ConditionLines(c, dumps))
  }

  // ------------------------------------------------------------ tags

  /** `_format_tags`: None for no tags, else the joined `tags` block of the
      well-formed tags. */
  function FormatTags(tags: Value): (r: Outcome<Option<string>>)
    ensures r.Ok? && r.value.Some? ==> Truthy(tags)
  {
    if !Truthy(tags) then Ok(None)
    else
      var block :- TagsBlock(tags, StrictTagLine);
      Ok(Some(Join("\n", block)))
  }

  // ------------------------------------------------------------ generate

  /** The three lines every rule starts with. */
  function Opening(id: Value, listenerArn: Value, priority: Value): seq<string> {
    [Header(ResourceType, Name(id)),
     "  listener_arn = \"" + Show(listenerArn) + "\"",
     "  priority     = " + Show(priority)]
  }

  /** The lines `generate` joins: None unless the id, the listener ARN and
      the priority are all set; details that are not a dict raise. */
  function Lines(res: Entries, dumps: Value -> string): Outcome<Option<seq<string>>> {
    var id := GetOr(res, "id", Null);
    var details := GetOr(res, "details", Dict([]));
    if !details.Dict? then Raised
    else
      var d := details.entries;
      var listenerArn := GetOr(d, "listener_arn", Null);
      var priority := GetOr(d, "priority", Null);
      if !Truthy(id) || !Truthy(listenerArn) || !Truthy(priority) then Ok(None)
      else Assemble(Opening(id, listenerArn, priority), d, GetOr(res, "tags", List([])), dumps)
  }

  /** The condition lines `generate` appends, before they are joined: none
      for a falsy `conditions`. */
  function RuleConditions(d: Entries, dumps: Value -> string): Outcome<seq<string>> {
    var conditions := GetOr(d, "conditions", List([]));
    if Truthy(conditions) then Conditions(conditions, dumps) else Ok([])
  }

  /** The block of a rule that has its required fields. */
  function Assemble(opening: seq<string>, d: Entries, tags: Value, dumps: Value -> string): Outcome<Option<seq<string>>> {
    var xs :- Iter(GetOr(d, "actions", List([])));
    var actions :- ConcatMap(xs, ActionLines);
    var conditions :- RuleConditions(d, dumps);
    var tagBlock :- FormatTags(tags);
    Ok(Some(opening + actions
      + When(conditions != [], Join("\n", conditions))
      + (if tagBlock.Some? && tagBlock.value != "" then [tagBlock.value] else [])
      + ["}"]))
  }

  /** `generate` */
  method Generate(res: Entries, dumps: Value -> string) returns (r: Option<string>)
    ensures r == Render(Lines(res, dumps))
  {
    var id := GetOr(res, "id", Null);
    var details := GetOr(res, "details", Dict([]));
    if !details.Dict? {
      return None;
    }
    var d := details.entries;
    var listenerArn := GetOr(d, "listener_arn", Null);
    var priority := GetOr(d, "priority", Null);
    if !Truthy(id) || !Truthy(listenerArn) || !Truthy(priority) {
      return None;
    }
    var tags := GetOr(res, "tags", List([]));
    var hcl := EmitBlock(Opening(id, listenerArn, priority), d, tags, dumps);
    if hcl.Raised? {
      return None;
    }
    assert Lines(res, dumps) == Ok(Some(hcl.value));
    r := Some(Join("\n", hcl.value));
  }

  /** The conditions part of `generate`. */
  method EmitConditions(d: Entries, dumps: Value -> string) returns (r: Outcome<seq<string>>)
    ensures r == RuleConditions(d, dumps)
  {
    var conditions := GetOr(d, "conditions", List([]));
    if !Truthy(conditions) {
      return Ok([]);
    }
    r := IterLoop(conditions, c => ConditionLines(c, dumps));
  }

  /** The tags part of `generate`. */
  method EmitFormatTags(tags: Value) returns (r: Outcome<Option<string>>)
    ensures r == FormatTags(tags)
  {
    if !Truthy(tags) {
      return Ok(None);
    }
    var block := EmitTags(tags, StrictTagLine);
    if block.Raised? {
      return Raised;
    }
    return Ok(Some(Join("\n", block.value)));
  }

  /** The lines of a rule that has its required fields. */
  method EmitBlock(opening: seq<string>, d: Entries, tags: Value, dumps: Value -> string) returns (r: Outcome<seq<string>>)
    ensures Assemble(opening, d, tags, dumps) == (if r.Raised? then Raised else Ok(Some(r.value)))
  {
    var hcl := opening;
    var xs := Iter(GetOr(d, "actions", List([])));
    if xs.Raised? {
      return Raised;
    }
    var actions := EmitActions(xs.value);
    if actions.Raised? {
      return Raised;
    }
    hcl := hcl + actions.value;
    var conditions := EmitConditions(d, dumps);
    if conditions.Raised? {
      return Raised;
    }
    if conditions.value != [] {
      hcl := hcl + [Join("\n", conditions.value)];
    }
    assert hcl == opening + actions.value + When(conditions.value != [], Join("\n", conditions.value));
    ghost var withConditions := hcl;
    var tagBlock := EmitFormatTags(tags);
    if tagBlock.Raised? {
      return Raised;
    }
    if tagBlock.value.Some? && tagBlock.value.value != "" {
      hcl := hcl + [tagBlock.value.value];
    }
    assert hcl == withConditions
      + (if tagBlock.value.Some? && tagBlock.value.value != "" then [tagBlock.value.value] else []);
    hcl := hcl + ["}"];
    return Ok(hcl);
  }

  /** `generate_import` */
  function Import(res: Entries, modulePrefix: Option<string>): (r: Option<string>)
    ensures r.None? <==> !Truthy(GetOr(res, "arn", Null)) || !Truthy(GetOr(res, "id", Null))
  {
    var arn := GetOr(res, "arn", Null);
    var id := GetOr(res, "id", Null);
    if !Truthy(arn) || !Truthy(id) then None
    else Some(ImportCommand(ImportPrefix(modulePrefix), ResourceType, Name(id), Show(arn)))
  }

  // ------------------------------------------------------------ lemmas

  /** With dict details, no rule is written unless the id, the listener ARN
      and the priority are all set; other details make `get` raise. */
  lemma RequiredFields(res: Entries, dumps: Value -> string)
    ensures var details := GetOr(res, "details", Dict([]));
      (!details.Dict? ==> Lines(res, dumps).Raised?)
      && (details.Dict? ==>
        (Lines(res, dumps) == Ok(None) <==>
          !Truthy(GetOr(res, "id", Null)) || !Truthy(GetOr(details.entries, "listener_arn", Null))
          || !Truthy(GetOr(details.entries, "priority", Null))))
  {
    var id := GetOr(res, "id", Null);
    var details := GetOr(res, "details", Dict([]));
    if details.Dict? {
      var d := details.entries;
      var listenerArn := GetOr(d, "listener_arn", Null);
      var priority := GetOr(d, "priority", Null);
      var block := Assemble(Opening(id, listenerArn, priority), d, GetOr(res, "tags", List([])), dumps);
      assert block.Ok? ==> block.value.Some?;
    }
  }

  /** A target group with no weight is written with weight 0. */
  lemma WeightDefaultsToZero(arn: Value)
    ensures TargetGroupLines(Dict([("TargetGroupArn", arn)]))
      == Ok(["      target_group {", "        arn = \"" + Show(arn) + "\"", "        weight = 0", "      }"])
  {
    var tg := Dict([("TargetGroupArn", arn)]);
    assert Get(tg, "TargetGroupArn", Null) == Ok(arn);
    assert Get(tg, "Weight", Int(0)) == Ok(Int(0));
    assert "        weight = " + Show(Int(0)) == "        weight = 0";
  }

  /** With nothing configured, stickiness is written enabled, for 3600
      seconds. */
  lemma StickinessDefaults()
    ensures Stickiness(Dict([]))
      == Ok(["      stickiness {", "        enabled = true", "        duration = 3600", "      }"])
  {
    var empty: Entries := [];
    ShowLowerBool(true);
    assert Get(Dict(empty), "Enabled", Bool(true)) == Ok(Bool(true));
    assert Get(Dict(empty), "duration", Int(3600)) == Ok(Int(3600));
    assert Get(Dict(empty), "DurationSeconds", Int(3600)) == Ok(Int(3600));
    assert Show(Int(3600)) == "3600" by {
      assert NatToString(3600) == NatToString(360) + [Digit(0)];
      assert NatToString(360) == NatToString(36) + [Digit(0)];
      assert NatToString(36) == NatToString(3) + [Digit(6)];
    }
    assert "        enabled = " + ShowLower(Bool(true)) == "        enabled = true";
    assert "        duration = " + Show(Int(3600)) == "        duration = 3600";
  }

  /** The duration is `DurationSeconds` when given, else `duration` when
      given, else 3600. */
  lemma DurationPreference(s: Entries)
    ensures Stickiness(Dict(s)).Ok?
    ensures var duration :=
        if HasKey(s, "DurationSeconds") then GetOr(s, "DurationSeconds", Null)
        else if HasKey(s, "duration") then GetOr(s, "duration", Null)
        else Int(3600);
      Stickiness(Dict(s)).value[2] == "        duration = " + Show(duration)
  {
  }

  /** An action without target groups has no forward block; with groups, the
      block lists every group and ends with the stickiness block. */
  lemma ForwardOnlyWithGroups(action: Value)
    requires Forward(action).Ok?
    ensures var groups := GetOr(GetOr(action.entries, "ForwardConfig", Dict([])).entries, "TargetGroups", List([]));
      (Forward(action).value == "" <==> !Truthy(groups))
  {
    var fc := GetOr(action.entries, "ForwardConfig", Dict([]));
    var groups := GetOr(fc.entries, "TargetGroups", List([]));
    if Truthy(groups) {
      var tgs := ConcatMap(Iter(groups).value, TargetGroupLines).value;
      var sticky := Stickiness(GetOr(fc.entries, "TargetGroupStickinessConfig", Dict([]))).value;
      JoinNonEmpty(ForwardBody(tgs, sticky));
    }
  }

  /** Lines whose first line is not empty join to a non-empty text. */
  lemma JoinNonEmpty(lines: seq<string>)
    requires lines != [] && lines[0] != ""
    ensures Join("\n", lines) != ""
  {
    if |lines| > 1 {
      assert Join("\n", lines) == lines[0] + "\n" + Join("\n", lines[1..]);
    }
  }

  /** A forward block has one four-line group block per target group. */
  lemma {:induction false} GroupLinesPerGroup(xs: seq<Value>)
    requires ConcatMap(xs, TargetGroupLines).Ok?
    ensures |ConcatMap(xs, TargetGroupLines).value| == 4 * |xs|
    decreases |xs|
  {
    if xs != [] {
      GroupLinesPerGroup(xs[..|xs| - 1]);
    }
  }

  /** An HTTP header condition takes precedence over any other key of the
      condition, and names the header. */
  lemma HeaderCondition(condition: Value, dumps: Value -> string)
    requires ConditionLines(condition, dumps).Ok?
    requires condition.Dict? && HasKey(condition.entries, "HttpHeaderConfig")
    ensures var ls := ConditionLines(condition, dumps).value;
      |ls| == 6 && ls[0] == "  condition {" && ls[1] == "    http_header {"
      && StartsWith(ls[2], "      http_header_name = ")
  {
    assert In("HttpHeaderConfig", condition) == Ok(true);
  }

  /** Without a header, a path pattern is written. */
  lemma PathCondition(condition: Value, dumps: Value -> string)
    requires ConditionLines(condition, dumps).Ok?
    requires condition.Dict? && !HasKey(condition.entries, "HttpHeaderConfig")
    requires HasKey(condition.entries, "PathPatternConfig")
    ensures var ls := ConditionLines(condition, dumps).value;
      |ls| == 5 && ls[0] == "  condition {" && ls[1] == "    path_pattern {"
  {
    assert In("HttpHeaderConfig", condition) == Ok(false);
    assert In("PathPatternConfig", condition) == Ok(true);
    assert ConditionLines(condition, dumps)
      == ValuesCondition(Item(condition, "PathPatternConfig").value, "path_pattern", dumps);
    assert "    " + "path_pattern" + " {" == "    path_pattern {";
  }

  /** Without a header or a path pattern, a host header is written. */
  lemma HostCondition(condition: Value, dumps: Value -> string)
    requires ConditionLines(condition, dumps).Ok?
    requires condition.Dict? && !HasKey(condition.entries, "HttpHeaderConfig")
    requires !HasKey(condition.entries, "PathPatternConfig") && HasKey(condition.entries, "HostHeaderConfig")
    ensures var ls := ConditionLines(condition, dumps).value;
      |ls| == 5 && ls[0] == "  condition {" && ls[1] == "    host_header {"
  {
    assert In("HttpHeaderConfig", condition) == Ok(false);
    assert In("PathPatternConfig", condition) == Ok(false);
    assert In("HostHeaderConfig", condition) == Ok(true);
    assert ConditionLines(condition, dumps)
      == ValuesCondition(Item(condition, "HostHeaderConfig").value, "host_header", dumps);
    assert "    " + "host_header" + " {" == "    host_header {";
  }

  /** A condition that is not a dict writes nothing, or raises when it names
      a kind (a string containing the key, a list holding it). */
  lemma NonDictCondition(condition: Value, dumps: Value -> string)
    requires ConditionLines(condition, dumps).Ok? && !condition.Dict?
    ensures ConditionLines(condition, dumps).value == []
  {
  }

  /** A dict condition of none of the three kinds writes nothing. */
  lemma OtherConditionsIgnored(condition: Value, dumps: Value -> string)
    requires condition.Dict? && !HasKey(condition.entries, "HttpHeaderConfig")
    requires !HasKey(condition.entries, "PathPatternConfig") && !HasKey(condition.entries, "HostHeaderConfig")
    ensures ConditionLines(condition, dumps) == Ok([])
  {
  }

  /** `_format_tags` is None exactly for no tags; otherwise its block opens
      with `tags = {` and is closed. */
  lemma TagsNoneWhenEmpty(tags: Value)
    requires FormatTags(tags).Ok?
    ensures FormatTags(tags).value.None? <==> !Truthy(tags)
    ensures FormatTags(tags).value.Some? ==>
      var block := TagsBlock(tags, StrictTagLine).value;
      |block| >= 2 && block[0] == "  tags = {" && block[|block| - 1] == "  }"
      && FormatTags(tags).value.value == Join("\n", block)
  {
  }

  /** The import command addresses the block `generate` declares. */
  lemma ImportMatchesBlock(res: Entries, dumps: Value -> string, modulePrefix: Option<string>)
    requires Lines(res, dumps).Ok? && Lines(res, dumps).value.Some? && Import(res, modulePrefix).Some?
    ensures var name := Name(GetOr(res, "id", Null));
      |Lines(res, dumps).value.value| > 0 && Lines(res, dumps).value.value[0] == Header(ResourceType, name)
      && Import(res, modulePrefix).value == ImportCommand(ImportPrefix(modulePrefix), ResourceType, name, Show(GetOr(res, "arn", Null)))
  {
    var id := GetOr(res, "id", Null);
    var d := GetOr(res, "details", Dict([])).entries;
    var opening := Opening(id, GetOr(d, "listener_arn", Null), GetOr(d, "priority", Null));
    assert Lines(res, dumps) == Assemble(opening, d, GetOr(res, "tags", List([])), dumps);
    AssembleOpens(opening, d, GetOr(res, "tags", List([])), dumps);
    var ls := Lines(res, dumps).value.value;
    assert ls[0] == ls[..|opening|][0] == opening[0];
  }

  /** The block starts with the opening lines and is closed. */
  lemma AssembleOpens(opening: seq<string>, d: Entries, tags: Value, dumps: Value -> string)
    requires Assemble(opening, d, tags, dumps).Ok?
    ensures var ls := Assemble(opening, d, tags, dumps).value.value;
      |ls| > |opening| && ls[..|opening|] == opening && ls[|ls| - 1] == "}"
  {
  }
}
