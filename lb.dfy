/** `LoadBalancerGenerator`: the `aws_lb` block of an application load
    balancer and its import command.  The balancer's name is its id.
 */
module Lb {
  import opened Py
  import opened HclText
  import opened GeneratorBase
  import TimeFormat

  const ResourceType := "aws_lb"

  /** `'  internal = true'` exactly for the scheme `"internal"`. */
  function InternalLine(scheme: Value): string {
    if scheme == Str("internal") then "  internal = true" else "  internal = false"
  }

  /** `ip_address_type`, lower-cased, when truthy; it must be a string. */
  function IpAddressType(ipType: Value): Outcome<seq<string>> {
    if !Truthy(ipType) then Ok([])
    else
      var s :- AsStr(ipType);
      Ok(["  ip_address_type = \"" + Lower(s) + "\""])
  }

  /** `isinstance(v, (int, str)) and str(v).isdigit()` then `int(v)`: the
      timeout a number or a string of digits stands for. */
  function IdleTimeout(v: Value): Option<nat> {
    if (v.Int? || v.Str?) && IsDigits(Show(v)) then Some(TimeFormat.DigitsValue(Show(v))) else None
  }

  /** The `idle_timeout` line, when there is a timeout. */
  function IdleTimeoutLines(v: Value): seq<string> {
    match IdleTimeout(v)
    case Some(t) => ["  idle_timeout = " + NatToString(t)]
    case None => []
  }

  /** The header, the name and the type. */
  function Opening(name: Value): seq<string> {
    [Header(ResourceType, Show(name)), "  name = \"" + Show(name) + "\"", "  load_balancer_type = \"application\""]
  }

  /** The settings read from the details, in `generate`'s order. */
  function Settings(d: Entries): Outcome<seq<string>> {
    var groups :- ListSetting(d, "security_groups");
    var subnets :- ListSetting(d, "subnets");
    var ipType :- IpAddressType(GetOr(d, "ip_address_type", Null));
    Ok([InternalLine(GetOr(d, "scheme", Null))] + groups + subnets + ipType + IdleTimeoutLines(GetOr(d, "idle_timeout", Null)))
  }

  /** The lines `generate` joins: None without an id; details that are not
      a dict have no `get` and raise. */
  function Lines(res: Entries): Outcome<Option<seq<string>>> {
    var name := GetOr(res, "id", Null);
    if !Truthy(name) then Ok(None)
    else
      var details := GetOr(res, "details", Dict([]));
      if !details.Dict? then Raised
      else
        var settings :- Settings(details.entries);
        var tags :- TagsBlock(GetOr(res, "tags", List([])), StrictTagLine);
        Ok(Some(Opening(name) + settings + tags + ["}"]))
  }

  /** The settings, appended one by one. */
  method EmitSettings(d: Entries) returns (r: Outcome<seq<string>>)
    ensures r == Settings(d)
  {
    var hcl := [InternalLine(GetOr(d, "scheme", Null))];
    var groups := ListSetting(d, "security_groups");
    if groups.Raised? {
      return Raised;
    }
    hcl := hcl + groups.value;
    var subnets := ListSetting(d, "subnets");
    if subnets.Raised? {
      return Raised;
    }
    hcl := hcl + subnets.value;
    var ipType := IpAddressType(GetOr(d, "ip_address_type", Null));
    if ipType.Raised? {
      return Raised;
    }
    hcl := hcl + ipType.value;
    ghost var before := hcl;
    var timeout := IdleTimeout(GetOr(d, "idle_timeout", Null));
    if timeout.Some? {
      hcl := hcl + ["  idle_timeout = " + NatToString(timeout.value)];
    }
    assert hcl == before + IdleTimeoutLines(GetOr(d, "idle_timeout", Null));
    return Ok(hcl);
  }

  /** `generate` */
  method Generate(res: Entries) returns (r: Option<string>)
    ensures r == Render(Lines(res))
  {
    var name := GetOr(res, "id", Null);
    if !Truthy(name) {
      return None;
    }
    var details := GetOr(res, "details", Dict([]));
    if !details.Dict? {
      return None;
    }
    var settings := EmitSettings(details.entries);
    if settings.Raised? {
      return None;
    }
    var hcl := Opening(name) + settings.value;
    var tags := EmitTags(GetOr(res, "tags", List([])), StrictTagLine);
    if tags.Raised? {
      return None;
    }
    hcl := hcl + tags.value + ["}"];
    r := Some(Join("\n", hcl));
  }

  /** `generate_import`: named after the id, imported by the ARN. */
  function Import(res: Entries, modulePrefix: Option<string>): (r: Option<string>)
    ensures r.None? <==> !Truthy(GetOr(res, "arn", Null)) || !Truthy(GetOr(res, "id", Null))
  {
    var arn := GetOr(res, "arn", Null);
    var name := GetOr(res, "id", Null);
    if !Truthy(arn) || !Truthy(name) then None
    else Some(ImportCommand(ImportPrefix(modulePrefix), ResourceType, Show(name), Show(arn)))
  }

  // ------------------------------------------------------------ lemmas

  /** A load balancer is left out exactly when it has no id; without details
      it is still written, as an external application balancer. */
  lemma RequiredFields(res: Entries)
    ensures Lines(res) == Ok(None) <==> !Truthy(GetOr(res, "id", Null))
    ensures Truthy(GetOr(res, "id", Null)) && !HasKey(res, "details") && !Truthy(GetOr(res, "tags", List([])))
      ==> Lines(res) == Ok(Some(Opening(GetOr(res, "id", Null)) + ["  internal = false", "}"]))
  {
    if Truthy(GetOr(res, "id", Null)) && !HasKey(res, "details") && !Truthy(GetOr(res, "tags", List([]))) {
      assert GetOr(res, "details", Dict([])) == Dict([]);
      assert GetOr([], "scheme", Null) == Null;
      assert ListSetting([], "security_groups") == Ok([]);
      assert ListSetting([], "subnets") == Ok([]);
      assert IpAddressType(GetOr([], "ip_address_type", Null)) == Ok([]);
      assert IdleTimeoutLines(GetOr([], "idle_timeout", Null)) == [];
      assert InternalLine(GetOr([], "scheme", Null)) == "  internal = false";
      assert [InternalLine(GetOr([], "scheme", Null))] + [] + [] + [] + [] == ["  internal = false"];
      assert Settings([]) == Ok(["  internal = false"]);
      assert TagsBlock(GetOr(res, "tags", List([])), StrictTagLine) == Ok([]);
      var opening := Opening(GetOr(res, "id", Null));
      assert Lines(res) == Ok(Some(opening + ["  internal = false"] + [] + ["}"]));
      assert opening + ["  internal = false"] + [] + ["}"] == opening + ["  internal = false", "}"];
    }
  }

  /** The balancer is internal exactly when its scheme is `"internal"`. */
  lemma InternalIff(scheme: Value)
    ensures InternalLine(scheme) == "  internal = true" <==> scheme == Str("internal")
  {
  }

  /** A whole non-negative number is written as itself. */
  lemma IntTimeout(n: int)
    ensures n >= 0 ==> IdleTimeout(Int(n)) == Some(n)
    ensures n < 0 ==> IdleTimeout(Int(n)) == None
  {
    if n >= 0 {
      TimeFormat.NatToStringDigits(n);
      TimeFormat.DigitsValueOfNat(n);
    } else {
      assert Show(Int(n))[0] == '-';
    }
  }

  /** A string of digits is written as the number it stands for, whatever
      leading zeros it has; any other string is left out. */
  lemma StrTimeout(s: string)
    ensures IsDigits(s) ==> IdleTimeout(Str(s)) == Some(TimeFormat.DigitsValue(s))
    ensures !IsDigits(s) ==> IdleTimeout(Str(s)) == None
  {
  }

  /** Only numbers and strings give a timeout; a bool, a list, a dict or
      None never does. */
  lemma OtherTimeoutsIgnored(v: Value)
    requires !v.Int? && !v.Str?
    ensures IdleTimeoutLines(v) == []
  {
  }

  /** A timeout line reads back as the timeout it writes. */
  lemma TimeoutLineReadsBack(v: Value)
    requires IdleTimeout(v).Some?
    ensures var line := IdleTimeoutLines(v)[0];
      |line| > 17 && line[..17] == "  idle_timeout = "
      && TimeFormat.DigitsValue(line[17..]) == IdleTimeout(v).value
  {
    var t := IdleTimeout(v).value;
    var line := "  idle_timeout = " + NatToString(t);
    assert line[17..] == NatToString(t);
    TimeFormat.DigitsValueOfNat(t);
  }

  /** The IP address type is written lower-case. */
  lemma IpAddressTypeLowered(s: string)
    requires s != []
    ensures IpAddressType(Str(s)) == Ok(["  ip_address_type = \"" + Lower(s) + "\""])
    ensures forall i :: 0 <= i < |s| ==> !('A' <= Lower(s)[i] <= 'Z')
  {
  }

  /** The import command addresses the block `generate` declares, named
      after the id, and imports it by its ARN. */
  lemma ImportMatchesBlock(res: Entries, modulePrefix: Option<string>)
    requires Lines(res).Ok? && Lines(res).value.Some? && Import(res, modulePrefix).Some?
    ensures var name := Show(GetOr(res, "id", Null));
      [Header(ResourceType, name)] <= Lines(res).value.value
      && Import(res, modulePrefix).value == ImportCommand(ImportPrefix(modulePrefix), ResourceType, name, Show(GetOr(res, "arn", Null)))
  {
  }
}
