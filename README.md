# terraform-aws-migrator, modelled in Dafny

terraform-aws-migrator finds AWS resources that no Terraform state manages and writes the HCL and the `terraform import` commands that would bring them under management. terraform-aws-detector is its older sibling, which only reports them. This project models the deterministic core of both packages and proves properties of it:

- **Exclusion** (`exclusion.dfy`). The ignore file is read into an ordered pattern list. Each pattern is classified as a type, service or bare glob. A resource is excluded when any pattern matches any substring of one of its candidate values. `ExclusionConfig` is a class whose two lists are updated in place and stay in step. A pattern that `re.compile` rejects empties both lists, as the source's `except` branch does. Whether a pattern compiles is a parameter.
- **Identifiers and ARNs.**
  - The collectors' identifier, ARN and service rules: `collector_base.dfy`, `network_collector.dfy`, `arn.dfy`.
  - The state reader's keys and records: `state_reader.dfy`.
  - The detector's identifier sets and ARN harvesting: `detector_auditor.dfy`, `detector_collectors.dfy`.
- **Classification.**
  - The managed lookup and the deduplicating checker (`resource_management.dfy`).
  - Grouping by type and the target filter (`resource_processor.dfy`).
  - The migrator's auditor loops (`auditor.dfy`).
  - The route expansion and the EBS volume predicate of two collectors, with the API pages as inputs (`route_collector.dfy`, `ebs_collector.dfy`).
- **Registries and progress.**
  - The collector and generator registries are classes whose methods update their maps and lists (`collector_base.dfy`, `detector_collectors.dfy`, `gen_base.dfy`).
  - The status tracker and the time trackers (`collection_status.dfy`, `progress_tracking.dfy`).
  - The `[MM:SS]` clock text and its read-back (`time_format.dfy`).
- **HCL generators.** There is one module per generator: VPC, subnet, route, route table, NAT and internet gateways, network ACL and DHCP options, VPC endpoint, load balancer, target group, listener, listener rule, security group, EC2 instance, Lambda, S3, and the IAM role, policy, instance profile, user, user policy and the two attachment kinds.
  - Each generator has a specification function, `Lines`, that gives the block's lines, None for a skipped resource, or the exception the source lets escape. The `Generate` method builds the text with the source's own appends and loops, and is proved equal to `Lines` joined by newlines.
  - `Import` gives the `terraform import` command. For every block a generator writes, a lemma proves that the import command addresses that block's own address. The converse is not claimed everywhere: a route-table association with neither a subnet nor a gateway is imported although no block declares it, and the role-policy attachment's command as written addresses no block at all (see "## Findings").

Python values are modelled by `Py.Value`: None, bool, int, str, list, and a dict as an ordered list of entries. An exception is `Py.Outcome.Raised`, and `try`/`except` branches are written out where the source has them.

The following become parameters: the STS account id, the session region, the module prefix, the clock reading, `json.dumps`/`json.loads`, base64 decoding, and each collector's `generate_resource_identifier`. Loops that the source writes as loops are methods with loop invariants, each proved equal to a specification function.

## Model

| member | source | states |
|---|---|---|
| GeneratorBase.ImportPrefix | terraform_aws_migrator/generators/base.py:36-43 | the import prefix is `module.<p>` when a module prefix is set and non-empty, and "" otherwise |
| GeneratorBase.ImportCommandShape | terraform_aws_migrator/generators/base.py:36-43 | an import command names the address inside the module when a module prefix is set, and the bare `type.name` address otherwise |
| GeneratorBase.ImportCommandAddress | terraform_aws_migrator/generators/base.py:36-43 | with a type and name free of spaces, the import command reads back: the address is everything after `terraform import ` up to the first space, and the id is the rest |
| GeneratorBase.GeneratorRegistry.Register | terraform_aws_migrator/generators/base.py:52-58 | registering a class maps its resource type to it, replacing an earlier class for that type, and returns the class |
| GeneratorBase.GeneratorRegistry.GetGenerator | terraform_aws_migrator/generators/base.py:60-80 | there is no generator exactly when the type is not registered; otherwise the generator is an instance of the registered class carrying the module prefix |
| GeneratorBase.GeneratorRegistry.IsSupported | terraform_aws_migrator/generators/base.py:82-88 | a type is supported exactly when it is registered |
| GeneratorBase.GeneratorRegistry.ListSupportedTypes | terraform_aws_migrator/generators/base.py:142-151 | every registered type is listed, with its class's docstring or "" |
| GeneratorBase.RegisterAll | terraform_aws_migrator/generators/base.py:170-172 | after registering a list of classes, a type is registered exactly when it was before or some class handles it |
| GeneratorBase.RegisterAllLastWins | terraform_aws_migrator/generators/base.py:55-56 | the class found for a type is the last one registered for it |
| HclText.ConcatLoop | terraform_aws_migrator/generators/aws_compute/security_group.py:112-119 | the generators' `for x in xs: hcl.extend(f(x))` loop gives the concatenation of what each element contributes, and raises when one element raises |
| HclText.ConcatMapRaisedIff | terraform_aws_migrator/generators/aws_compute/security_group.py:112-119 | such a loop raises exactly when some element raises |
| HclText.ConcatMapContains | terraform_aws_migrator/generators/aws_compute/security_group.py:112-119 | what one element contributes is part of what the loop writes |
| HclText.IterLoop | terraform_aws_migrator/generators/aws_network/vpc.py:79-80 | a `for` loop over a value that cannot be iterated raises, and otherwise is the loop over its elements |
| HclText.EnumerateLoop | terraform_aws_migrator/generators/aws_network/vpc.py:121-122 | the `enumerate` loop numbers its elements from 1 and concatenates what each contributes |
| HclText.EnumerateContains | terraform_aws_migrator/generators/aws_network/vpc.py:121-122 | what the `i`-th element contributes, under number `i + 1`, is part of what the loop writes |
| HclText.UnescapeEscape | terraform_aws_migrator/generators/aws_network/nat_gateway.py:54-56 | escaping the double quotes of a tag key or value loses nothing: the text can be read back |
| HclText.EscapeHead | terraform_aws_migrator/generators/aws_network/nat_gateway.py:54-56 | an escaped text never starts with a bare quote |
| HclText.EmitTags | terraform_aws_migrator/generators/aws_network/nat_gateway.py:50-57 | the tag loop writes nothing for empty tags, and otherwise the opening line, one line per tag and the closing line |
| HclText.TagsBlockShape | terraform_aws_migrator/generators/aws_compute/security_group.py:122-130 | a non-empty list of well-formed tags is written one line per tag between the opening and the closing line |
| HclText.TagsBlockLines | terraform_aws_migrator/generators/aws_network/nat_gateway.py:50-57 | a tags block is its opening line, tag lines indented by four spaces, and its closing line |
| HclText.NotInTags | terraform_aws_migrator/generators/aws_network/nat_gateway.py:50-57 | a two-space attribute line whose key does not start with `t` is never one of the tag lines |
| HclText.BoolSettingLiteral | terraform_aws_migrator/generators/aws_network/subnet.py:53 | a setting written with `str(b).lower()` reads `true` or `false` |
| HclText.Sanitize | terraform_aws_migrator/generators/aws_network/nat_gateway.py:24 | a sanitised name holds no `-` and no space |
| HclText.SafeName | terraform_aws_migrator/generators/aws_compute/lambda.py:26-29 | a safe name holds no `-` and no `.` |
| HclText.TaggedNameNoDash | terraform_aws_migrator/generators/aws_network/nat_gateway.py:17-26 | a name made from the `Name` tag or from the prefix and the id never contains `-` |
| GeneratorBase.GeneratorRegistry.constructor | terraform_aws_migrator/generators/base.py:49-50 | the registry starts with no generator class |
| Subnet.EmitSettings | terraform_aws_migrator/generators/aws_network/subnet.py:47-61 | the optional settings appended one by one are exactly the settings list: IPv6 pair, public-IP flag, DNS64, customer-owned pool pair, in that order |
| Subnet.Generate | terraform_aws_migrator/generators/aws_network/subnet.py:28-80 | `generate` returns the block lines joined by newlines, and None wherever the source logs an error (no id or details, a missing required key, a bad tag) |
| Subnet.Import | terraform_aws_migrator/generators/aws_network/subnet.py:82-96 | an import command exists exactly when the subnet has an id and its resource name can be computed |
| Subnet.RequiredFields | terraform_aws_migrator/generators/aws_network/subnet.py:30-35 | a subnet is skipped (None without raising) exactly when its id or its details are missing |
| Subnet.MissingRequiredRaises | terraform_aws_migrator/generators/aws_network/subnet.py:40-45 | details lacking `vpc_id`, `cidr_block` or `availability_zone` make generation raise |
| Subnet.Ipv6Together | terraform_aws_migrator/generators/aws_network/subnet.py:48-50 | the IPv6 block and its assignment flag are written together, and only when the block is set |
| Subnet.AssignDefault | terraform_aws_migrator/generators/aws_network/subnet.py:50 | a missing `assign_ipv6_address_on_creation` is written as the false setting |
| Subnet.PublicIpDefault | terraform_aws_migrator/generators/aws_network/subnet.py:53 | a missing `map_public_ip_on_launch` is written `map_public_ip_on_launch = false` |
| Subnet.PublicIpAlways | terraform_aws_migrator/generators/aws_network/subnet.py:52-53 | the public-IP line is in every subnet block |
| Subnet.Dns64OnlyWhenSet | terraform_aws_migrator/generators/aws_network/subnet.py:55-56 | `enable_dns64` is written if and only if it is truthy |
| Subnet.PoolTogether | terraform_aws_migrator/generators/aws_network/subnet.py:59-61 | the customer-owned pool and its launch mapping are written together, and only when the pool is set |
| Subnet.NameHasNoDash | terraform_aws_migrator/generators/aws_network/subnet.py:17-26 | the resource name never contains `-` |
| Subnet.ImportMatchesBlock | terraform_aws_migrator/generators/aws_network/subnet.py:37-92 | whenever a block is generated, an import command exists and addresses the block's own header name, importing by the subnet id |
| Lb.EmitSettings | terraform_aws_migrator/generators/aws_network/lb.py:34-61 | the settings appended one by one are the settings list; a non-list group or subnet list, or a non-string IP type, raises |
| Lb.Generate | terraform_aws_migrator/generators/aws_network/lb.py:15-81 | `generate` returns the block lines joined by newlines, and None where the source logs an error |
| Lb.Import | terraform_aws_migrator/generators/aws_network/lb.py:83-98 | no import command exactly when the ARN or the id is missing |
| Lb.RequiredFields | terraform_aws_migrator/generators/aws_network/lb.py:18-39 | a balancer is skipped exactly when it has no id; without details or tags its block is the opening, `internal = false` and the closing brace |
| Lb.InternalIff | terraform_aws_migrator/generators/aws_network/lb.py:35-39 | `internal = true` is written if and only if the scheme is `"internal"` |
| Lb.IntTimeout | terraform_aws_migrator/generators/aws_network/lb.py:59-61 | a non-negative integer timeout is written as itself; a negative one (whose text is not all digits) is dropped |
| Lb.StrTimeout | terraform_aws_migrator/generators/aws_network/lb.py:59-61 | a string of digits is written as the number it denotes; any other string is dropped |
| Lb.OtherTimeoutsIgnored | terraform_aws_migrator/generators/aws_network/lb.py:60 | values that are neither int nor str never produce a timeout line |
| Lb.TimeoutLineReadsBack | terraform_aws_migrator/generators/aws_network/lb.py:61 | the digits after `idle_timeout = ` read back as the timeout |
| Lb.IpAddressTypeLowered | terraform_aws_migrator/generators/aws_network/lb.py:54-56 | a non-empty IP address type is written lower-cased: no upper-case letter remains |
| Lb.ImportMatchesBlock | terraform_aws_migrator/generators/aws_network/lb.py:27-94 | the import command addresses the header the block declares (named after the id) and imports by the ARN |
| TargetGroup.EmitHealthLines | terraform_aws_migrator/generators/aws_network/target_group.py:52-59 | the loop over `health_check.items()` yields exactly the health lines of the settings seen so far, in order |
| TargetGroup.EmitOpening | terraform_aws_migrator/generators/aws_network/target_group.py:26-46 | the header, the name and the protocol, port, VPC and target-type lines, each only when truthy |
| TargetGroup.EmitHealthCheck | terraform_aws_migrator/generators/aws_network/target_group.py:49-60 | the `health_check` block for a truthy dict, nothing for a falsy one, an exception for any other value |
| TargetGroup.Generate | terraform_aws_migrator/generators/aws_network/target_group.py:18-97 | `generate` returns the block lines joined by newlines, and None where the source catches an exception or lacks an id |
| TargetGroup.Import | terraform_aws_migrator/generators/aws_network/target_group.py:99-114 | no import command exactly when the ARN or the id is missing |
| TargetGroup.RequiredFields | terraform_aws_migrator/generators/aws_network/target_group.py:21-23 | a target group is skipped exactly when it has no id |
| TargetGroup.HealthCheckShape | terraform_aws_migrator/generators/aws_network/target_group.py:49-52 | a truthy non-dict health check makes generation raise; a falsy one writes no `health_check` block |
| TargetGroup.HealthLinesCount | terraform_aws_migrator/generators/aws_network/target_group.py:52-59 | the health check has one line per setting whose value is not None |
| TargetGroup.HealthSettingWritten | terraform_aws_migrator/generators/aws_network/target_group.py:53-59 | every setting that is not None appears in the health check, under its own key |
| TargetGroup.HealthValueKinds | terraform_aws_migrator/generators/aws_network/target_group.py:53-59 | bools are written `true`/`false`, integers bare, strings quoted, None not at all |
| TargetGroup.MultiValueHeadersDefault | terraform_aws_migrator/generators/aws_network/target_group.py:67-72 | a missing `lambda_multi_value_headers_enabled` is written false |
| TargetGroup.ProxyProtocolDefault | terraform_aws_migrator/generators/aws_network/target_group.py:74-75 | a missing `proxy_protocol_v2` is written false |
| TargetGroup.SlowStartDefault | terraform_aws_migrator/generators/aws_network/target_group.py:77-78 | a missing `slow_start` is written 0 |
| TargetGroup.AssembleTail | terraform_aws_migrator/generators/aws_network/target_group.py:62-91 | a block ends with the three attributes, the tags and the closing brace, with `deregistration_delay` just before them when set |
| TargetGroup.FlagsAlways | terraform_aws_migrator/generators/aws_network/target_group.py:67-91 | every generated block carries the three attribute lines right before its tags and closing brace |
| TargetGroup.ImportMatchesBlock | terraform_aws_migrator/generators/aws_network/target_group.py:27-110 | the import command addresses the header the block declares (named after the id) and imports by the ARN |
| Listener.FormatCertificates | terraform_aws_migrator/generators/aws_network/listener.py:21-39 | the certificate loop yields the certificate blocks joined by newlines: "" for no certificates, nothing for an entry without an ARN, an exception for a non-list or an entry that is not a dict |
| Listener.FormatForward | terraform_aws_migrator/generators/aws_network/listener.py:41-95 | the forward configuration: the optional `target_group_arn` line, then the indented `forward` block of groups and stickiness, or the exception the source would raise |
| Listener.OptionalField | terraform_aws_migrator/generators/aws_network/listener.py:105-135 | on a dict configuration, a field writes exactly one line when its key is present and none when absent |
| Listener.EmitHttps | terraform_aws_migrator/generators/aws_network/listener.py:157-167 | the HTTPS part appended step by step: the SSL policy when set, then the joined certificates when non-empty |
| Listener.EmitDefaultAction | terraform_aws_migrator/generators/aws_network/listener.py:169-194 | the default-action block built from the first action through the formatter its lower-cased type selects |
| Listener.Generate | terraform_aws_migrator/generators/aws_network/listener.py:140-214 | `generate` returns the block lines joined by newlines, and None wherever the source raises and logs |
| Listener.Import | terraform_aws_migrator/generators/aws_network/listener.py:216-230 | no import command exactly when the ARN or the id is missing |
| Listener.RequiredFields | terraform_aws_migrator/generators/aws_network/listener.py:146-172 | a missing id or details, or an empty action list, raises (so `generate` returns None); otherwise a block is always produced |
| Listener.PortProtocolDefaults | terraform_aws_migrator/generators/aws_network/listener.py:153-158 | without port and protocol the listener is written for port 80 over HTTP, with no SSL policy or certificates |
| Listener.HttpsOnly | terraform_aws_migrator/generators/aws_network/listener.py:158-167 | a listener whose protocol is not HTTPS gets no SSL policy and no certificate lines |
| Listener.ActionTypeLowered | terraform_aws_migrator/generators/aws_network/listener.py:174-194 | the default-action type line has no upper-case letter, and a type other than forward, fixed-response and redirect gets an empty block |
| Listener.TargetGroupArnOnlyForOne | terraform_aws_migrator/generators/aws_network/listener.py:44-61 | `target_group_arn` is written only for a direct ARN or a single forwarded group; with two or more groups it is left out |
| Listener.StickinessDefaults | terraform_aws_migrator/generators/aws_network/listener.py:80-90 | with nothing configured the stickiness block is `enabled = false` and `duration = 1` |
| Listener.ForwardAlwaysSticky | terraform_aws_migrator/generators/aws_network/listener.py:63-95 | every forward block opens with `forward {`, ends with the stickiness block and a closing brace, and is the last configuration line |
| Listener.ForwardBodyEnds | terraform_aws_migrator/generators/aws_network/listener.py:64-92 | the forward lines open with `forward {` and end with the stickiness lines and `}` |
| Listener.DirectArnWeight | terraform_aws_migrator/generators/aws_network/listener.py:47-78 | a direct ARN without a weight is listed as one group of weight 1 |
| Listener.OneGroupLines | terraform_aws_migrator/generators/aws_network/listener.py:68-77 | the group a direct ARN of weight 1 becomes is written as its ARN and `weight = 1` |
| Listener.CertificatesWithoutArn | terraform_aws_migrator/generators/aws_network/listener.py:27-39 | a certificate list none of whose entries has an ARN writes nothing |
| Listener.RedirectOnlyPresent | terraform_aws_migrator/generators/aws_network/listener.py:115-138 | a redirect writes one line per parameter present, between its opening and closing lines, and nothing for an empty configuration |
| Listener.ImportMatchesBlock | terraform_aws_migrator/generators/aws_network/listener.py:151-226 | the import command addresses the block's header `listener_{id}` and imports by the ARN |
| Listener.AssembleOpens | terraform_aws_migrator/generators/aws_network/listener.py:150-208 | the block opens with the header naming `listener_{id}` and ends with its closing brace |
| ListenerRule.FormatForward | terraform_aws_migrator/generators/aws_network/listener_rule.py:18-46 | the forward block built group by group is the joined `forward` block, "" without target groups, or the exception the source raises |
| ListenerRule.EmitAction | terraform_aws_migrator/generators/aws_network/listener_rule.py:125-135 | one `action` block: the lower-cased type, then the forward block for a forward action that has one |
| ListenerRule.EmitActions | terraform_aws_migrator/generators/aws_network/listener_rule.py:125-135 | the action loop yields the concatenation of every action's block, in order |
| ListenerRule.FormatTags | terraform_aws_migrator/generators/aws_network/listener_rule.py:89-101 | a tags block is produced only for truthy tags |
| ListenerRule.Generate | terraform_aws_migrator/generators/aws_network/listener_rule.py:103-153 | `generate` returns the rule's lines joined by newlines, and None where the source logs an error |
| ListenerRule.EmitConditions | terraform_aws_migrator/generators/aws_network/listener_rule.py:137-141 | the conditions appended only for truthy conditions, as `_format_conditions` writes them |
| ListenerRule.EmitFormatTags | terraform_aws_migrator/generators/aws_network/listener_rule.py:89-101 | the tag loop yields `_format_tags`' result: None for no tags, else the joined block of the well-formed tags |
| ListenerRule.EmitBlock | terraform_aws_migrator/generators/aws_network/listener_rule.py:124-149 | the lines appended after the opening are the rule's block, or the exception it raises |
| ListenerRule.Import | terraform_aws_migrator/generators/aws_network/listener_rule.py:155-170 | no import command exactly when the ARN or the id is missing |
| ListenerRule.RequiredFields | terraform_aws_migrator/generators/aws_network/listener_rule.py:105-115 | with dict details, no rule is written unless the id, listener ARN and priority are all set; non-dict details raise |
| ListenerRule.WeightDefaultsToZero | terraform_aws_migrator/generators/aws_network/listener_rule.py:28-34 | a target group without a weight is written with weight 0 |
| ListenerRule.StickinessDefaults | terraform_aws_migrator/generators/aws_network/listener_rule.py:37-43 | with nothing configured, stickiness is written enabled for 3600 seconds |
| ListenerRule.DurationPreference | terraform_aws_migrator/generators/aws_network/listener_rule.py:41 | the duration is `DurationSeconds` when given, else `duration`, else 3600 |
| ListenerRule.ForwardOnlyWithGroups | terraform_aws_migrator/generators/aws_network/listener_rule.py:20-46 | an action without target groups has no forward block; with groups the block lists every group and ends with stickiness |
| ListenerRule.GroupLinesPerGroup | terraform_aws_migrator/generators/aws_network/listener_rule.py:28-34 | the forward block has one four-line group block per target group |
| ListenerRule.HeaderCondition | terraform_aws_migrator/generators/aws_network/listener_rule.py:54-63 | an HTTP header condition wins over any other key and names the header |
| ListenerRule.PathCondition | terraform_aws_migrator/generators/aws_network/listener_rule.py:66-74 | without a header, a path-pattern condition is written |
| ListenerRule.HostCondition | terraform_aws_migrator/generators/aws_network/listener_rule.py:77-85 | without a header or path pattern, a host-header condition is written |
| ListenerRule.NonDictCondition | terraform_aws_migrator/generators/aws_network/listener_rule.py:52-85 | a condition that is not a dict writes nothing (when it does not raise) |
| ListenerRule.OtherConditionsIgnored | terraform_aws_migrator/generators/aws_network/listener_rule.py:52-87 | a dict condition of none of the three kinds writes nothing |
| ListenerRule.TagsNoneWhenEmpty | terraform_aws_migrator/generators/aws_network/listener_rule.py:89-101 | `_format_tags` is None exactly for no tags; otherwise its block opens with `tags = {` and is closed |
| ListenerRule.ImportMatchesBlock | terraform_aws_migrator/generators/aws_network/listener_rule.py:119-166 | the import command addresses the block's header `rule_{id}` and imports by the ARN |
| ListenerRule.AssembleOpens | terraform_aws_migrator/generators/aws_network/listener_rule.py:118-149 | the block starts with the opening lines and ends with its closing brace |
| Vpc.FormatCidrBlocks | terraform_aws_migrator/generators/aws_network/vpc.py:28-42 | the association loop yields one `cidr_block_association` block per association that sets primary, CIDR or tenant, in order |
| Vpc.EmitVpcBlock | terraform_aws_migrator/generators/aws_network/vpc.py:59-116 | the `aws_vpc` block appended line by line: opening, secondary CIDRs, IPv6, tags, flags and the closing brace, or the exception a missing `cidr_block` raises |
| Vpc.Generate | terraform_aws_migrator/generators/aws_network/vpc.py:44-142 | `generate` returns the VPC block and its numbered flow-log blocks joined by newlines, and None where the source logs and returns None |
| Vpc.GenerateImport | terraform_aws_migrator/generators/aws_network/vpc.py:144-171 | `generate_import` returns the VPC's command followed by one command per flow log with an id, joined by newlines |
| Vpc.FlowLogImport | terraform_aws_migrator/generators/aws_network/vpc.py:160-165 | a flow log raises unless it is a dict; it gets a command, numbered as its block is, exactly when it has an id |
| Vpc.FlowLogImports | terraform_aws_migrator/generators/aws_network/vpc.py:158-165 | no flow logs give no command, and a list of them gives one command per flow log with an id |
| Vpc.RequiredFields | terraform_aws_migrator/generators/aws_network/vpc.py:49-57 | a VPC without id or details is not written; the default VPC is written only when `include_default` is set |
| Vpc.DnsSettings | terraform_aws_migrator/generators/aws_network/vpc.py:71-75 | both DNS lines are always written; unset, support is `true` and hostnames `false` |
| Vpc.SecondaryPerAssociation | terraform_aws_migrator/generators/aws_network/vpc.py:78-81 | one `secondary_cidr_blocks` line per association that is not primary |
| Vpc.CidrAssociationShape | terraform_aws_migrator/generators/aws_network/vpc.py:31-41 | an association with none of primary, CIDR and tenant set contributes nothing; any other is one bracketed block |
| Vpc.FlowLogBlockShape | terraform_aws_migrator/generators/aws_network/vpc.py:121-136 | the n-th flow log's block is declared as `{name}_flow_log_{n}` and attached to the VPC of that name |
| Vpc.ImportsPerLoggedId | terraform_aws_migrator/generators/aws_network/vpc.py:159-165 | exactly the flow logs with an id get an import command, one each |
| Vpc.FlowLogInBlock | terraform_aws_migrator/generators/aws_network/vpc.py:120-124 | the i-th flow log (counting from 0) is declared as block i + 1 |
| Vpc.FlowLogImportIn | terraform_aws_migrator/generators/aws_network/vpc.py:160-165 | the i-th flow log with an id is imported as block i + 1 |
| Vpc.FlowLogImportMatchesBlock | terraform_aws_migrator/generators/aws_network/vpc.py:121-165 | the import command of the i-th flow log addresses the block `generate` declares for it, under the same VPC name |
| Vpc.ImportMatchesBlock | terraform_aws_migrator/generators/aws_network/vpc.py:59-155 | the VPC's own import command addresses the header the block declares and imports by the VPC id |
| Vpc.BlockOpens | terraform_aws_migrator/generators/aws_network/vpc.py:62-65 | every generated VPC block opens with the VPC's header |
| VpcEndpoint.Generate | terraform_aws_migrator/generators/aws_network/vpc_endpoint.py:46-124 | `generate` returns the endpoint's lines joined by newlines, and None where the source logs and returns None |
| VpcEndpoint.Import | terraform_aws_migrator/generators/aws_network/vpc_endpoint.py:126-140 | an import command exists exactly when the endpoint has an id and its resource name can be computed |
| VpcEndpoint.RequiredFields | terraform_aws_migrator/generators/aws_network/vpc_endpoint.py:48-53 | an endpoint is skipped (None without raising) exactly when its id or its details are missing |
| VpcEndpoint.ServicePart | terraform_aws_migrator/generators/aws_network/vpc_endpoint.py:28 | the service part of an untagged endpoint's name never contains `.`; for an id without a dot it is `vpce` |
| VpcEndpoint.UntaggedNameEnds | terraform_aws_migrator/generators/aws_network/vpc_endpoint.py:27-29 | an untagged endpoint's name ends with the lower-cased last eight characters of its id (all of it when shorter) |
| VpcEndpoint.AutoAcceptWhenSet | terraform_aws_migrator/generators/aws_network/vpc_endpoint.py:65-68 | `auto_accept` is written exactly when the field is not None, as `true` or `false` |
| VpcEndpoint.InterfaceSettings | terraform_aws_migrator/generators/aws_network/vpc_endpoint.py:72-85 | an interface endpoint always states its private DNS setting (false by default), after at most a subnet and a security-group line |
| VpcEndpoint.GatewaySettings | terraform_aws_migrator/generators/aws_network/vpc_endpoint.py:87-91 | a gateway endpoint writes at most its route tables; any other type writes nothing |
| VpcEndpoint.PolicyOnlyWhenValid | terraform_aws_migrator/generators/aws_network/vpc_endpoint.py:31-95 | no policy, or policy text that is not JSON, writes no policy line |
| VpcEndpoint.TimeoutsAlways | terraform_aws_migrator/generators/aws_network/vpc_endpoint.py:108-118 | every endpoint block ends with the fixed `timeouts` block and the closing brace, whatever its settings |
| VpcEndpoint.ImportMatchesBlock | terraform_aws_migrator/generators/aws_network/vpc_endpoint.py:55-136 | whenever a block is generated, its name is defined and the import command addresses that header, importing by the raw id |
| Route.Generate | terraform_aws_migrator/generators/aws_network/route.py:21-106 | `generate` returns the route's blocks (the endpoint association first, when there is one) joined by blank lines, and None where the source logs and returns None |
| Route.RequiredFields | terraform_aws_migrator/generators/aws_network/route.py:24-60 | a managed route or one without details is left out; with dict details, so is one without a route table or a destination |
| Route.DestinationOrder | terraform_aws_migrator/generators/aws_network/route.py:49-60 | the destination is the first of the IPv4 CIDR, the IPv6 CIDR and the prefix list that is set, and none exactly when none is set |
| Route.FirstOfKeys | terraform_aws_migrator/generators/aws_network/route.py:76-95 | an `elif` chain over keys writes at most one line, for the first key in order whose value is set, and none only when no key is set |
| Route.OneTarget | terraform_aws_migrator/generators/aws_network/route.py:76-95 | the target chain is that rule over gateway, instance, NAT gateway, interface, transit gateway, peering, carrier, egress-only and local gateway, in that order |
| Route.ImportPerBlock | terraform_aws_migrator/generators/aws_network/route.py:63-138 | a route that is an endpoint association is written as two blocks, otherwise one; with an `import_id` there is one import command per block, for the same addresses, and the association is imported as `vpce/rtb` |
| Route.AssocRequired | terraform_aws_migrator/generators/aws_network/route.py:145-211 | the association generator writes a block exactly when the association is unmanaged and has both ids; the block is four lines, and its import command addresses it by `vpce/rtb` |
| Route.Import | terraform_aws_migrator/generators/aws_network/route.py:108-142 | `generate_import` gives commands exactly when the route has an import id, a name and dict details, and the route's own command comes first |
| Route.AssocGenerate | terraform_aws_migrator/generators/aws_network/route.py:158-190 | the association generator writes a block exactly when the association is unmanaged, has non-empty dict details, a name, a route table and an endpoint |
| Route.AssocImport | terraform_aws_migrator/generators/aws_network/route.py:192-211 | the association's `generate_import` gives a command exactly when the details are a dict with a route table and an endpoint, and a name can be formed |
| RouteTable.EmitTableBlock | terraform_aws_migrator/generators/aws_network/route_table.py:62-94 | the table's own block appended step by step: header, VPC, every non-local route, propagating gateways, tags and the closing brace, or the exception the source raises |
| RouteTable.Generate | terraform_aws_migrator/generators/aws_network/route_table.py:53-122 | `generate` returns the table block and its association blocks joined by newlines, and None where the source logs and returns None |
| RouteTable.GenerateImport | terraform_aws_migrator/generators/aws_network/route_table.py:124-156 | `generate_import` returns the table's command and one command per non-main association, joined by newlines |
| RouteTable.RequiredFields | terraform_aws_migrator/generators/aws_network/route_table.py:55-60 | a route table without an id or details is not written (and only then is the result None without raising) |
| RouteTable.LocalRouteSkipped | terraform_aws_migrator/generators/aws_network/route_table.py:72-75 | the local route is never written |
| RouteTable.TargetWritten | terraform_aws_migrator/generators/aws_network/route_table.py:38-48 | every target field a route sets is written, under its own name |
| RouteTable.RouteLength | terraform_aws_migrator/generators/aws_network/route_table.py:28-51 | a route block holds one line per target field set, at most one destination line (present exactly when a CIDR is set), and its braces |
| RouteTable.MainAssociationSkipped | terraform_aws_migrator/generators/aws_network/route_table.py:99-145 | the main association gets neither a block nor an import command |
| RouteTable.AssociationKind | terraform_aws_migrator/generators/aws_network/route_table.py:99-116 | any other association is written as a subnet association when it has a subnet, else as a gateway association when it has a gateway, else not at all |
| RouteTable.ImportsPerAssociation | terraform_aws_migrator/generators/aws_network/route_table.py:144-150 | exactly one import command per non-main association |
| RouteTable.ImportCount | terraform_aws_migrator/generators/aws_network/route_table.py:132-152 | `generate_import` writes the table's command plus one per non-main association |
| RouteTable.ImportMatchesBlock | terraform_aws_migrator/generators/aws_network/route_table.py:66-139 | the table's import command addresses the header the block declares and imports by the table id |
| RouteTable.AssembleOpens | terraform_aws_migrator/generators/aws_network/route_table.py:65-68 | the lines open with the table's header |
| RouteTable.AssociationInBlock | terraform_aws_migrator/generators/aws_network/route_table.py:97-116 | an association that gets a block is declared among the lines as `{name}_{assoc_id}` |
| RouteTable.AssociationImported | terraform_aws_migrator/generators/aws_network/route_table.py:144-150 | a non-main association is imported under `{name}_{assoc_id}` by its id |
| RouteTable.AssociationImportMatchesBlock | terraform_aws_migrator/generators/aws_network/route_table.py:104-150 | every association that gets a block gets an import command for the same address, importing it by its id |
| RouteTable.AssociationImportWithoutBlock | terraform_aws_migrator/generators/aws_network/route_table.py:98-150 | a non-main association with neither a subnet nor a gateway gets no block but still gets an import command |
| NaclDhcp.PortLines | terraform_aws_migrator/generators/aws_network/nacl_dhcp.py:43-47 | a rule has two port lines exactly when its protocol is neither `-1` nor `all`, and none otherwise |
| NaclDhcp.ActionLine | terraform_aws_migrator/generators/aws_network/nacl_dhcp.py:36 | the action line contains no upper-case letter |
| NaclDhcp.AclGenerate | terraform_aws_migrator/generators/aws_network/nacl_dhcp.py:52-106 | the ACL generator's `generate` returns the block lines joined by newlines, and None where the source logs and returns None |
| NaclDhcp.DhcpGenerate | terraform_aws_migrator/generators/aws_network/nacl_dhcp.py:150-210 | the DHCP generator's `generate` returns the options block, and its VPC association when there is a VPC, joined by newlines; None where the source returns None |
| NaclDhcp.AclSkipped | terraform_aws_migrator/generators/aws_network/nacl_dhcp.py:54-64 | an ACL without an id or details, or the VPC's default ACL, is not written |
| NaclDhcp.AclImportMatchesBlock | terraform_aws_migrator/generators/aws_network/nacl_dhcp.py:66-118 | a written ACL is imported under the tagged name its block declares, by its id |
| NaclDhcp.AclImport | terraform_aws_migrator/generators/aws_network/nacl_dhcp.py:108-122 | the ACL's `generate_import` gives a command exactly when the ACL has an id and its tagged name can be formed |
| NaclDhcp.DhcpImport | terraform_aws_migrator/generators/aws_network/nacl_dhcp.py:212-235 | the DHCP options' `generate_import` gives commands exactly when there is an id, a name and dict details, and the options' own command comes first |
| NaclDhcp.RuleFormat | terraform_aws_migrator/generators/aws_network/nacl_dhcp.py:28-50 | a rule opens with its direction, its action line is lower-cased, it has the two port lines exactly when the protocol has ports, and it closes its block |
| NaclDhcp.CidrPreferred | terraform_aws_migrator/generators/aws_network/nacl_dhcp.py:38-41 | at most one CIDR line, the IPv4 block winning over the IPv6 one, and none exactly when the rule has neither |
| NaclDhcp.PortDefault | terraform_aws_migrator/generators/aws_network/nacl_dhcp.py:44-45 | a missing port range gives port 0 |
| NaclDhcp.SubnetIdsFromAssociations | terraform_aws_migrator/generators/aws_network/nacl_dhcp.py:75-79 | `subnet_ids` lists one id per association that has a `SubnetId`, each taken from such an association |
| NaclDhcp.ListValuesFormat | terraform_aws_migrator/generators/aws_network/nacl_dhcp.py:144-148 | an empty list is written `[]`; otherwise every value quoted and comma-separated in brackets |
| NaclDhcp.FirstElementOnly | terraform_aws_migrator/generators/aws_network/nacl_dhcp.py:167-180 | `domain_name` and `netbios_node_type` keep only the first element of their list |
| NaclDhcp.AssociationWithVpc | terraform_aws_migrator/generators/aws_network/nacl_dhcp.py:195-231 | the association block and its import command come together, exactly when the options name a VPC; the association refers to the options block by the name that block declares and is imported as `vpc:dhcp` |
| NatGateway.GenerateIgw | terraform_aws_migrator/generators/aws_network/nat_gateway.py:28-66 | the internet gateway's `generate` returns its block lines joined by newlines, and None where the source logs and returns None |
| NatGateway.IgwImport | terraform_aws_migrator/generators/aws_network/nat_gateway.py:68-82 | an import command exists exactly when the gateway has an id and its name can be formed |
| NatGateway.GenerateNat | terraform_aws_migrator/generators/aws_network/nat_gateway.py:104-150 | the NAT gateway's `generate` returns its block lines joined by newlines, and None where the source logs and returns None |
| NatGateway.NatImport | terraform_aws_migrator/generators/aws_network/nat_gateway.py:152-166 | an import command exists exactly when the gateway has an id and its name can be formed |
| NatGateway.IgwRequiredFields | terraform_aws_migrator/generators/aws_network/nat_gateway.py:30-35 | an internet gateway is left out exactly when its id is missing; its details are optional |
| NatGateway.VpcOnlyWhenAvailable | terraform_aws_migrator/generators/aws_network/nat_gateway.py:45-47 | the `vpc_id` line is written exactly when the first attachment is available, and names that attachment's VPC |
| NatGateway.NatRequiredFields | terraform_aws_migrator/generators/aws_network/nat_gateway.py:106-111 | a NAT gateway is left out exactly when its id or its details are missing |
| NatGateway.DefaultIsPublic | terraform_aws_migrator/generators/aws_network/nat_gateway.py:122-131 | a gateway without a connectivity type is public: it gets the note and the allocation id, which defaults to "" |
| NatGateway.PrivateHasNoAllocation | terraform_aws_migrator/generators/aws_network/nat_gateway.py:122-131 | a gateway that is not public gets its connectivity type and neither the note nor an allocation id |
| NatGateway.IgwImportMatchesBlock | terraform_aws_migrator/generators/aws_network/nat_gateway.py:37-78 | the internet gateway's import command addresses the block `generate` declares and imports it by its id |
| NatGateway.NatImportMatchesBlock | terraform_aws_migrator/generators/aws_network/nat_gateway.py:113-162 | the NAT gateway's import command addresses the block `generate` declares and imports it by its id |
| SecurityGroup.FormatRule | terraform_aws_migrator/generators/aws_compute/security_group.py:38-84 | `_format_rule` builds the rule block of its specification, and raises for a rule that is not a dict |
| SecurityGroup.EmitBody | terraform_aws_migrator/generators/aws_compute/security_group.py:106-119 | the VPC line, when the VPC is set, is followed by every ingress rule and then every egress rule, in order |
| SecurityGroup.Generate | terraform_aws_migrator/generators/aws_compute/security_group.py:86-139 | `generate` returns the block lines joined by newlines, and None where the source logs and returns None |
| SecurityGroup.Import | terraform_aws_migrator/generators/aws_compute/security_group.py:141-159 | an import command exists exactly when the group has an id and its name can be formed |
| SecurityGroup.RequiredFields | terraform_aws_migrator/generators/aws_compute/security_group.py:88-93 | a group is left out exactly when its id or its details are missing |
| SecurityGroup.PortDefaults | terraform_aws_migrator/generators/aws_compute/security_group.py:46-55 | an egress rule that lacks a port gets 0 for both ports; an ingress rule keeps what it has, even a missing port |
| SecurityGroup.ProtocolAll | terraform_aws_migrator/generators/aws_compute/security_group.py:58-61 | protocol `-1` is written `all`, and any other protocol as it is |
| SecurityGroup.RuleListOnlyWhenSet | terraform_aws_migrator/generators/aws_compute/security_group.py:64-79 | each of a rule's CIDR, IPv6 CIDR and group lists is written, as one line, exactly when it is non-empty |
| SecurityGroup.RuleShape | terraform_aws_migrator/generators/aws_compute/security_group.py:43-82 | a rule block opens with its type, then the ports and the protocol, holds the lists and closes |
| SecurityGroup.RuleListsAtMostThree | terraform_aws_migrator/generators/aws_compute/security_group.py:64-79 | a rule carries at most its three lists |
| SecurityGroup.RuleMustBeDict | terraform_aws_migrator/generators/aws_compute/security_group.py:46-119 | a rule that is not a dict makes the rule loop raise |
| SecurityGroup.DescriptionDefault | terraform_aws_migrator/generators/aws_compute/security_group.py:102 | a group without a description is described as `Managed by Terraform` |
| SecurityGroup.RevokeDefault | terraform_aws_migrator/generators/aws_compute/security_group.py:103 | a group without `revoke_rules_on_delete` is written with `false` |
| SecurityGroup.NameShape | terraform_aws_migrator/generators/aws_compute/security_group.py:25-36 | the resource name is lower-case and holds no `-` |
| SecurityGroup.ImportMatchesBlock | terraform_aws_migrator/generators/aws_compute/security_group.py:96-153 | a written group has an import command, which addresses the block `generate` declares and imports it by its raw id |
| Ec2.EmitOptional | terraform_aws_migrator/generators/aws_compute/ec2.py:64-78 | one `if details.get(key)` step appends the quoted setting exactly when the key is truthy |
| Ec2.EmitPlacement | terraform_aws_migrator/generators/aws_compute/ec2.py:64-78 | the AMI, type, zone, subnet and key-name settings, each written only when set, in that order |
| Ec2.EmitBody | terraform_aws_migrator/generators/aws_compute/ec2.py:64-124 | the body holds the settings, the security groups, the IAM profile, monitoring, the root device and every EBS device in order, then the user data and `user_data_replace_on_change`; a device that cannot be read raises |
| Ec2.Generate | terraform_aws_migrator/generators/aws_compute/ec2.py:44-144 | `generate` returns the block lines joined by newlines, and None where the source logs and returns None |
| Ec2.Import | terraform_aws_migrator/generators/aws_compute/ec2.py:146-162 | an import command exists exactly when the instance has an id and its name can be formed |
| Ec2.RequiredFields | terraform_aws_migrator/generators/aws_compute/ec2.py:47-50 | an instance is left out exactly when it has no id |
| Ec2.ShortIdShape | terraform_aws_migrator/generators/aws_compute/ec2.py:25-27 | the short id is the id's last four characters, or all of it when it is shorter, and "" for an empty id |
| Ec2.NameMatchesExclusion | terraform_aws_migrator/generators/aws_compute/ec2.py:29-39 | with a `Name` tag, the instance's name is the tag with `-` and spaces made `_`, an underscore and the short id; for an `aws_instance` with an id whose candidates can be built, that name is among the exclusion candidates, bare and as `aws_instance:<name>` |
| Ec2.NameWithoutTag | terraform_aws_migrator/generators/aws_compute/ec2.py:40-42 | without a `Name` tag the name is the id with `-` turned into `_`, so it never holds a `-` |
| Ec2.DeviceDefaults | terraform_aws_migrator/generators/aws_compute/ec2.py:99-113 | a device that sets nothing gets size 8, type `gp2` and no encryption |
| Ec2.EbsLinesPerDevice | terraform_aws_migrator/generators/aws_compute/ec2.py:106-115 | every EBS device gets its own six-line block |
| Ec2.EbsDeviceMustBeDict | terraform_aws_migrator/generators/aws_compute/ec2.py:107-110 | an EBS device that is not a dict makes `generate` raise |
| Ec2.AlwaysWritten | terraform_aws_migrator/generators/aws_compute/ec2.py:91-124 | `monitoring` and `user_data_replace_on_change = false` are in every body |
| Ec2.MonitoringDefault | terraform_aws_migrator/generators/aws_compute/ec2.py:91-92 | `monitoring` is false when the details do not set it |
| Ec2.ImportMatchesBlock | terraform_aws_migrator/generators/aws_compute/ec2.py:53-158 | a written instance has an import command, which addresses the block `generate` declares and imports it by its raw id |
| Lambda.Generate | terraform_aws_migrator/generators/aws_compute/lambda.py:146-286 | `generate` returns the archive data source (for inline code) and the function block, joined by newlines, and None where the source logs and returns None; the base64 decoder is a parameter. Inline code gets the doubled `source_code_hash` line the source writes |
| Lambda.Import | terraform_aws_migrator/generators/aws_compute/lambda.py:288-304 | an import command exists exactly when the function has a name that is a string |
| Lambda.ImportMatchesBlock | terraform_aws_migrator/generators/aws_compute/lambda.py:149-300 | nothing is written without a function name or details; a written function has an import command, which addresses the block `generate` declares and imports it by the function name |
| Lambda.PublishAlways | terraform_aws_migrator/generators/aws_compute/lambda.py:210-212 | every function block holds its `publish` line |
| Lambda.PublishDefault | terraform_aws_migrator/generators/aws_compute/lambda.py:211-212 | `publish` is `false` when it is not given |
| Lambda.BranchShape | terraform_aws_migrator/generators/aws_compute/lambda.py:187-198 | an `Image` package gets at most its `image_uri` line and no handler or runtime; any other package gets its source configuration, then the handler and the runtime that are set |
| Lambda.MainFileSpec | terraform_aws_migrator/generators/aws_compute/lambda.py:109-125 | the main file keeps the handler's module name, which has no dot, and ends in `.js` exactly for a Node runtime that does not mention Python, else `.py` |
| Lambda.InlineCodeOnlyForIndex | terraform_aws_migrator/generators/aws_compute/lambda.py:68-144 | for a Python runtime and a handler `<base>.<rest>` the main file is `<base>.py`, and the inline code reaches the archive only when the base is `index`; any other base gets the placeholder text |
| Lambda.LayersLine | terraform_aws_migrator/generators/aws_compute/lambda.py:81-86 | no layers give no line; otherwise one line lists them all, quoted |
| Lambda.ImageConfigShape | terraform_aws_migrator/generators/aws_compute/lambda.py:88-107 | an empty image configuration writes nothing; otherwise one block whose size counts the fields present |
| Lambda.ListTagsFail | terraform_aws_migrator/generators/aws_compute/lambda.py:267-274 | tags given as a Key/Value list make `.items()` raise, so the function is not written |
| Lambda.AsWrittenDoubleHash | terraform_aws_migrator/generators/aws_compute/lambda.py:73-77 | the archive lines as written assign `source_code_hash` twice on one line, the second time from a data source label that is never declared |
| Lambda.GeneratedDoubleHash | terraform_aws_migrator/generators/aws_compute/lambda.py:73-193 | as written, a function with inline code is generated with the archive data source first and the doubled `source_code_hash` line in its function block |
| Lambda.InlineCodeUsesArchive | terraform_aws_migrator/generators/aws_compute/lambda.py:44-79 | the source configuration carries inline code only for a package that is not an image; its lines are then the archive lines as written, with the doubled hash line, and the corrected configuration replaces just those lines |
| Lambda.ArchiveOpens | terraform_aws_migrator/generators/aws_compute/lambda.py:131-174 | with inline code, the archive part is twelve lines, opening with the `archive_file` data source declaration |
| Lambda.AssembleParts | terraform_aws_migrator/generators/aws_compute/lambda.py:163-282 | the output is the archive, the head, the package branch, the settings, the optional blocks and the closing brace, in that order |
| Lambda.ArchiveLinesMatchBlock | terraform_aws_migrator/generators/aws_compute/lambda.py:73-193 | corrected, the output opens with the archive data source, and both lines naming it are written in the function block |
| S3.Name | terraform_aws_migrator/generators/aws_storage/s3.py:16-18 | a bucket's resource name holds no `-` and no `.` |
| S3.BucketImport | terraform_aws_migrator/generators/aws_storage/s3.py:55-68 | an S3 import command exists exactly when the bucket name is given and is a string |
| S3.ImportBucket | terraform_aws_migrator/generators/aws_storage/s3.py:55-68 | the bucket's command exists exactly when the bucket name is a string, and imports the bucket by its name under the name its block declares |
| S3.GenerateBucket | terraform_aws_migrator/generators/aws_storage/s3.py:20-53 | the bucket generator's `generate` returns the bucket block joined by newlines, and None where the source returns None |
| S3.BucketShape | terraform_aws_migrator/generators/aws_storage/s3.py:20-64 | a bucket without a name is left out; it is written exactly when it has a string name and its tags can be written; it always says `force_destroy = false`, and it is imported under the name its block declares |
| S3.GenerateAcl | terraform_aws_migrator/generators/aws_storage/s3.py:82-143 | the ACL generator's `generate` returns the ACL block joined by newlines, and None where the source returns None |
| S3.AclNameIsName | terraform_aws_migrator/generators/aws_storage/s3.py:78-80 | the ACL generator's own name rule gives the same name as the bucket's, for every bucket name |
| S3.ImportAcl | terraform_aws_migrator/generators/aws_storage/s3.py:145-157 | the ACL's command exists exactly when the bucket name is a string, and addresses the name the ACL block declares, although the ACL generator has its own name rule |
| S3.GrantShape | terraform_aws_migrator/generators/aws_storage/s3.py:112-132 | a grant block has its seven fixed lines, plus the `id` line when the grantee has an id and the `uri` line when it has a URI |
| S3.GranteeIdOnlyWhenSet | terraform_aws_migrator/generators/aws_storage/s3.py:124-125 | the grantee's `id` line is in the grant block exactly when the grantee has an id |
| S3.AclNeedsDetails | terraform_aws_migrator/generators/aws_storage/s3.py:84-153 | empty details give no ACL; a written ACL opens with its block and can be imported under that block's name |
| S3.PolicyNeedsJsonString | terraform_aws_migrator/generators/aws_storage/s3.py:173-230 | a policy is written exactly when the bucket has a name and the policy is a non-empty string that parses as JSON; then it is six lines around the re-indented document, opening with the block header its import command addresses |
| S3.GeneratePolicy | terraform_aws_migrator/generators/aws_storage/s3.py:173-220 | the policy's `generate` writes a block exactly when the bucket name is a string, the details are a dict, and the policy is a non-empty string that parses as JSON |
| S3.ImportPolicy | terraform_aws_migrator/generators/aws_storage/s3.py:222-234 | the policy's command exists exactly when the bucket name is a string, and imports the policy by the bucket name |
| S3.FlagsDefaultTrue | terraform_aws_migrator/generators/aws_storage/s3.py:261-264 | a public-access flag that is not given is written `true`, and a given bool as itself |
| S3.PublicAccessShape | terraform_aws_migrator/generators/aws_storage/s3.py:247-266 | non-empty details always give all four flags, in a fixed order, in a block whose header is the address its import command names |
| S3.GeneratePublicAccess | terraform_aws_migrator/generators/aws_storage/s3.py:247-270 | the public-access block is written exactly when the bucket name is a string and the details are a non-empty dict |
| S3.ImportPublicAccess | terraform_aws_migrator/generators/aws_storage/s3.py:272-285 | the public-access block's command exists exactly when the bucket name is a string, and imports it by the bucket name |
| S3.RuleFieldsIndented | terraform_aws_migrator/generators/aws_storage/s3.py:315-324 | the fields of a CORS rule are indented inside its block |
| S3.GenerateCors | terraform_aws_migrator/generators/aws_storage/s3.py:297-332 | the CORS generator's `generate` returns the configuration joined by newlines, and None where the source returns None; the JSON encoder is a parameter |
| S3.ImportCors | terraform_aws_migrator/generators/aws_storage/s3.py:334-346 | the CORS configuration's command exists exactly when the bucket name is a string, and imports it by the bucket name |
| S3.RuleOpensOnce | terraform_aws_migrator/generators/aws_storage/s3.py:313-325 | each rule opens exactly one `cors_rule` block |
| S3.OneBlockPerRule | terraform_aws_migrator/generators/aws_storage/s3.py:313-325 | the rules give one `cors_rule` block per rule |
| S3.CorsNeedsRules | terraform_aws_migrator/generators/aws_storage/s3.py:304-306 | no rules, no configuration |
| S3.CorsBlocksCounted | terraform_aws_migrator/generators/aws_storage/s3.py:308-328 | a written configuration has one `cors_rule` block per rule and opens with the block header its import command addresses |
| IamRole.Generate | terraform_aws_migrator/generators/aws_iam/role.py:19-65 | `generate` returns the role block for an `aws_iam_role` record, the empty text for any other type, and None where the source catches an exception; the JSON encoder is a parameter |
| IamRole.Import | terraform_aws_migrator/generators/aws_iam/role.py:67-80 | there is no import command exactly when the role name is missing |
| IamRole.OnlyRoles | terraform_aws_migrator/generators/aws_iam/role.py:25-61 | a record without a type gives None; one of another type gives the empty text; a role is written exactly when its lines can be written, as that one block |
| IamRole.Shape | terraform_aws_migrator/generators/aws_iam/role.py:29-58 | the role block is written exactly when the details are a dict and the tags can be written; it holds the header, the name, the description when set, the path when it is not `/`, the trust policy (`{}` by default), the tags and the closing brace |
| IamRole.PathLineOnlyThere | terraform_aws_migrator/generators/aws_iam/role.py:41-42 | no other line of the block looks like a `path` line, so a path line is there only when the path is not `/` |
| IamRole.ImportMatchesBlock | terraform_aws_migrator/generators/aws_iam/role.py:34-76 | the import command addresses the block `generate` declares, and imports it by the role name |
| IamPolicy.Generate | terraform_aws_migrator/generators/aws_iam/policy.py:19-66 | `generate` returns the policy block joined by newlines, and None where the source logs and returns None; the JSON encoder is a parameter |
| IamPolicy.Import | terraform_aws_migrator/generators/aws_iam/policy.py:68-86 | there is no import command exactly when the ARN or the policy name is missing |
| IamPolicy.RequiredFields | terraform_aws_migrator/generators/aws_iam/policy.py:21-27 | details that are not a dict make `get` raise; with dict details, the policy is left out exactly when its name or its document is missing |
| IamPolicy.Shape | terraform_aws_migrator/generators/aws_iam/policy.py:30-60 | a written policy is the opening lines, the `path` line exactly when the path is not `/`, the document, the tags and the closing brace |
| IamPolicy.PathLineOnlyThere | terraform_aws_migrator/generators/aws_iam/policy.py:41-43 | no other line of the block looks like a `path` line |
| IamPolicy.ImportMatchesBlock | terraform_aws_migrator/generators/aws_iam/policy.py:31-82 | the import command addresses the block `generate` declares and imports it by its ARN |
| IamInstanceProfile.Generate | terraform_aws_migrator/generators/aws_iam/instance_profile.py:17-60 | `generate` returns the profile block joined by newlines, and None where the source logs and returns None |
| IamInstanceProfile.Import | terraform_aws_migrator/generators/aws_iam/instance_profile.py:62-75 | there is no import command exactly when the profile name is missing |
| IamInstanceProfile.RequiredFields | terraform_aws_migrator/generators/aws_iam/instance_profile.py:20-68 | without a name nothing is written; with one, the block is written exactly when the details are a dict and the tags can be written; whatever is written can be imported |
| IamInstanceProfile.RoleLineOnlyThere | terraform_aws_migrator/generators/aws_iam/instance_profile.py:28-54 | the `role` line sits between the opening lines and the tags exactly when a role is named, and no other line looks like it |
| IamInstanceProfile.PathOnlyWhenNotRoot | terraform_aws_migrator/generators/aws_iam/instance_profile.py:33-36 | the path line is written exactly for a path that is set and is not `/` |
| IamInstanceProfile.ImportMatchesBlock | terraform_aws_migrator/generators/aws_iam/instance_profile.py:29-71 | the import command addresses the block `generate` declares, and imports it by the profile name |
| IamUser.Generate | terraform_aws_migrator/generators/aws_iam/user.py:18-60 | `generate` returns the user block joined by newlines, and None where the source catches an exception |
| IamUser.Import | terraform_aws_migrator/generators/aws_iam/user.py:62-75 | there is no import command exactly when the user name is missing |
| IamUser.AlwaysNamed | terraform_aws_migrator/generators/aws_iam/user.py:20-56 | with no guard on the id, the block is written exactly when the details are a dict and the tags can be written; it opens with the header and the `name` line, both from the id, and is closed |
| IamUser.EmptyRecord | terraform_aws_migrator/generators/aws_iam/user.py:20-56 | a user with no id, no details and no tags is still written, under the name `None` |
| IamUser.Shape | terraform_aws_migrator/generators/aws_iam/user.py:24-54 | `force_destroy = true` sits between the opening lines and the tags exactly when the flag is set |
| IamUser.ForceDestroyLineOnlyThere | terraform_aws_migrator/generators/aws_iam/user.py:40-42 | no other line looks like a `force_destroy` line, so it is written only when the flag is set, and `force_destroy = false` never |
| IamUser.ImportMatchesBlock | terraform_aws_migrator/generators/aws_iam/user.py:25-71 | the import command addresses the block `generate` declares, and imports it by the user name |
| IamUserPolicy.ResourceId | terraform_aws_migrator/generators/aws_iam/user_policy.py:30-58 | the resource name shared by both methods holds no `-` |
| IamUserPolicy.Generate | terraform_aws_migrator/generators/aws_iam/user_policy.py:19-46 | `generate` gives a block exactly when the user, the policy name and the document are all given |
| IamUserPolicy.Import | terraform_aws_migrator/generators/aws_iam/user_policy.py:48-70 | `generate_import` gives a command exactly when the user and the policy name are given |
| IamUserPolicy.RequiredFields | terraform_aws_migrator/generators/aws_iam/user_policy.py:19-64 | a policy is written exactly when user, policy name and document are all given, and imported exactly when user and policy name are; so whatever is written can be imported; the block is header, name, user, blank line, policy, closing brace |
| IamUserPolicy.ImportWithoutDocument | terraform_aws_migrator/generators/aws_iam/user_policy.py:23-55 | a policy without a document is not written, yet its import command is |
| IamUserPolicy.ImportMatchesBlock | terraform_aws_migrator/generators/aws_iam/user_policy.py:30-64 | the import command addresses the block `generate` declares and imports it as `user:policy` |
| IamUserPolicyAttachment.RequiredFields | terraform_aws_migrator/generators/aws_iam/user_policy_attachment.py:18-74 | both methods give something exactly when the user and a string policy ARN are given; the block is then exactly the header (named from the user and the ARN's last segment), the user, the ARN and the closing brace |
| IamUserPolicyAttachment.ImportMatchesBlock | terraform_aws_migrator/generators/aws_iam/user_policy_attachment.py:30-68 | the import command addresses the block `generate` declares and imports it as `user/policy_arn` |
| IamUserPolicyAttachment.Generate | terraform_aws_migrator/generators/aws_iam/user_policy_attachment.py:18-47 | `generate` gives a block exactly when the user is given and the policy ARN is a non-empty string |
| IamUserPolicyAttachment.Import | terraform_aws_migrator/generators/aws_iam/user_policy_attachment.py:49-74 | `generate_import` gives a command exactly when the user is given and the policy ARN is a non-empty string |
| IamRolePolicyAttachment.RequiredFields | terraform_aws_migrator/generators/aws_iam/role_policy_attachment.py:18-63 | `generate`, the import as written and the corrected import give something exactly when the role and a string policy ARN are given; the block is then four lines |
| IamRolePolicyAttachment.AsWrittenLeadingDot | terraform_aws_migrator/generators/aws_iam/role_policy_attachment.py:62-63 | the import command as written addresses `.aws_iam_role_policy_attachment...`, starting with a dot, whatever the module prefix, and so differs from the corrected command |
| IamRolePolicyAttachment.ImportMatchesBlock | terraform_aws_migrator/generators/aws_iam/role_policy_attachment.py:28-61 | corrected, the import command addresses the block `generate` declares (inside the module when there is one) and imports it as `role/policy_arn` |
| IamRolePolicyAttachment.Generate | terraform_aws_migrator/generators/aws_iam/role_policy_attachment.py:18-45 | `generate` gives a block exactly when the role is given and the policy ARN is a non-empty string |
| IamRolePolicyAttachment.ImportAsWritten | terraform_aws_migrator/generators/aws_iam/role_policy_attachment.py:47-69 | `generate_import` as written: a command exactly when the role and a string policy ARN are given, and it always starts `terraform import .` |
| IamRolePolicyAttachment.Import | terraform_aws_migrator/generators/aws_iam/role_policy_attachment.py:47-69 | the corrected `generate_import`, with the import prefix every other generator uses: a command exactly when the role and a string policy ARN are given |
| Exclusion.Translate | terraform_aws_migrator/exclusion.py:51-63 | the glob's translation has one token per character: `*` any run, `?` any one character, anything else itself |
| Exclusion.Convert | terraform_aws_migrator/exclusion.py:46-63 | a pattern gets a prefix exactly when it has a `:`; the prefix is the text before the first `:`, a type when it starts `aws_` and a service otherwise, and the glob is the translation of the rest; without a `:` the whole pattern is the glob |
| Exclusion.LoadStep | terraform_aws_migrator/exclusion.py:29-37 | reading one more line appends that line's pattern, if any, after those already loaded |
| Exclusion.SearchAll | terraform_aws_migrator/exclusion.py:141-148 | the nested search loop finds a match exactly when some pattern is found in some candidate value |
| Exclusion.ConvertAll | terraform_aws_migrator/exclusion.py:36-37 | there is one compiled pattern per pattern |
| Exclusion.ConvertAllSnoc | terraform_aws_migrator/exclusion.py:34-37 | compiling one more pattern appends its expression |
| Exclusion.ConvertAllAt | terraform_aws_migrator/exclusion.py:34-37 | the `i`-th compiled pattern is the `i`-th pattern compiled |
| Exclusion.ExclusionConfig.constructor | terraform_aws_migrator/exclusion.py:14-44 | a new configuration holds exactly the patterns its file yields, each with its compiled expression, and none at all when the file cannot be read or one of its patterns does not compile |
| Exclusion.ExclusionConfig.LoadPatterns | terraform_aws_migrator/exclusion.py:20-44 | a missing file changes nothing; a read error, or one pattern that does not compile, leaves both lists empty; otherwise the file's patterns are appended in file order; the two lists are in step afterwards |
| Exclusion.ExclusionConfig.AddLines | terraform_aws_migrator/exclusion.py:28-37 | the loop reports failure exactly when some pattern of the file does not compile, and otherwise has appended the file's patterns in order, keeping the compiled list in step |
| Exclusion.ExclusionConfig.AddLine | terraform_aws_migrator/exclusion.py:30-37 | one line read appends its pattern, if it has one; failure means that pattern does not compile, and so not all of the file's patterns do |
| Exclusion.ExclusionConfig.AddPattern | terraform_aws_migrator/exclusion.py:34-37 | the pattern is always appended; its compiled expression is appended too exactly when it compiles, and otherwise the call fails with the compiled list unchanged |
| Exclusion.ExclusionConfig.ShouldExclude | terraform_aws_migrator/exclusion.py:66-148 | a resource is excluded exactly when some compiled pattern is found in one of its candidate values; with no patterns nothing is excluded; a candidate that cannot be built raises |
| Exclusion.ExclusionConfig.GetPatterns | terraform_aws_migrator/exclusion.py:150-152 | the copy holds the loaded patterns |
| Exclusion.ParseLineSpec | terraform_aws_migrator/exclusion.py:30-34 | a line gives a pattern exactly when, stripped, it is neither empty nor a comment; the pattern has no `#` and no surrounding whitespace |
| Exclusion.LoadedPatternsAppend | terraform_aws_migrator/exclusion.py:29-34 | the patterns of two pieces of a file are those of the first followed by those of the second |
| Exclusion.LoadedPatternsMembers | terraform_aws_migrator/exclusion.py:29-34 | a pattern is loaded exactly when some line of the file gives it |
| Exclusion.Monotone | terraform_aws_migrator/exclusion.py:141-146 | adding patterns never turns an exclusion into a non-exclusion |
| Exclusion.Unanchored | terraform_aws_migrator/exclusion.py:63-144 | matching is unanchored: a value that matches still matches with any text around it |
| Exclusion.AnyRunMatchesAll | terraform_aws_migrator/exclusion.py:51-63 | the glob `*` matches any text, line breaks included |
| Exclusion.LiteralGlobMatchesItself | terraform_aws_migrator/exclusion.py:51-63 | a glob without `*` or `?` matches its own text |
| Exclusion.ConvertTyped | terraform_aws_migrator/exclusion.py:48-56 | a pattern `aws_type:glob` is split at its first colon into the type, which must precede the match, and the glob |
| Exclusion.ConvertService | terraform_aws_migrator/exclusion.py:57-60 | a pattern `service:glob` whose prefix does not start `aws_` becomes the service form `(service:|aws_service.*:)glob` |
| Exclusion.TypedNeedsType | terraform_aws_migrator/exclusion.py:54-56 | a type-scoped pattern only matches text that contains `type:` |
| Exclusion.IdContainingLiteralIsExcluded | terraform_aws_migrator/exclusion.py:63-146 | a bare literal pattern excludes every resource whose id contains it |
| Exclusion.CheckValuesHoldIds | terraform_aws_migrator/exclusion.py:82-99 | the candidates of a resource with an id and a type hold the id, `service:id` and `type:id`, and the ARN when it is set |
| Exclusion.CheckValuesHoldNames | terraform_aws_migrator/exclusion.py:119-137 | the candidates of a resource with a string Name tag and a type hold the Name, `service:Name` and `type:Name` |
| Exclusion.CheckValuesHoldEc2Name | terraform_aws_migrator/exclusion.py:100-117 | the candidates of an `aws_instance` with an id and a string Name tag hold its Terraform name, bare and as `aws_instance:<name>` |
| Exclusion.ServicePatternMatchesTypeForm | terraform_aws_migrator/exclusion.py:57-60 | a service pattern also matches the `type:` form of any type of that service whose rest has no line break |
| Exclusion.LineLoaded | terraform_aws_migrator/exclusion.py:29-37 | the pattern of every line of the file is loaded |
| Exclusion.LoadedFromLine | terraform_aws_migrator/exclusion.py:29-37 | every loaded pattern comes from some line of the file |
| Exclusion.CompileStep | terraform_aws_migrator/exclusion.py:29-37 | after a line, every pattern read so far compiles exactly when that line's pattern does; a line whose pattern does not compile means the file's patterns do not all compile |
| Exclusion.UncompilableLineEmpties | terraform_aws_migrator/exclusion.py:36-44 | one line whose pattern does not compile makes loading fail and leaves no pattern at all |
| Exclusion.CompilingFileLoadsAll | terraform_aws_migrator/exclusion.py:28-37 | when every line's pattern compiles, loading succeeds and yields every pattern of the file |
| StateReader.ResourceId | terraform_aws_migrator/state_reader.py:246-254 | a resource's id is its `id` attribute, else its `name`, else None |
| StateReader.TagRecords | terraform_aws_migrator/state_reader.py:260-263 | a dict of tags becomes one Key/Value record per tag, in order, each value stringified |
| StateReader.ExtractStateTags | terraform_aws_migrator/state_reader.py:256-266 | a dict of tags gives one `{"Key": k, "Value": str(v)}` record per tag, in order; a list of tags is passed through unchanged; no tags, or tags of any other kind, give [] |
| StateReader.FormatResource | terraform_aws_migrator/state_reader.py:168-244 | `_format_resource` returns the formatted record of its specification, or None for a resource without an id or when anything raises; `json.loads` is a parameter |
| StateReader.ManagedResources.constructor | terraform_aws_migrator/state_reader.py:38 | the managed-resource map starts empty |
| StateReader.ExtractResourcesFromState | terraform_aws_migrator/state_reader.py:37-125 | the caller's map is updated in place to what reading the state into it gives |
| StateReader.AddInstancesLoop | terraform_aws_migrator/state_reader.py:58-121 | every instance of a resource is tried in turn, an error skipping only that instance |
| StateReader.AddRecord | terraform_aws_migrator/state_reader.py:113-117 | an instance's record is stored under its key unless that key is already present |
| StateReader.ProcessInstance | terraform_aws_migrator/state_reader.py:60-111 | one instance gives its key and record as the IAM special forms or the generic form prescribe |
| StateReader.NoResourcesKeepsMap | terraform_aws_migrator/state_reader.py:47-48 | a state without `resources` leaves the map as it was |
| StateReader.UnmanagedModeIgnored | terraform_aws_migrator/state_reader.py:51-53 | resources whose mode is not `managed` add nothing |
| StateReader.AddInstancesFirstWins | terraform_aws_migrator/state_reader.py:113-117 | a key already in the map keeps its record across a resource's instances |
| StateReader.AddResourcesFirstWins | terraform_aws_migrator/state_reader.py:50-121 | a key already in the map keeps its record across all resources |
| StateReader.ExtractedFirstWins | terraform_aws_migrator/state_reader.py:37-125 | reading a state never changes or drops an entry already in the map |
| StateReader.InstanceRecordManaged | terraform_aws_migrator/state_reader.py:64-111 | every record an instance contributes is marked `managed` |
| StateReader.RolePolicyAttachmentManaged | terraform_aws_migrator/state_reader.py:64-75 | a role policy attachment's record is marked `managed` |
| StateReader.UserPolicyManaged | terraform_aws_migrator/state_reader.py:76-86 | a user policy's record is marked `managed` |
| StateReader.UserPolicyAttachmentManaged | terraform_aws_migrator/state_reader.py:87-98 | a user policy attachment's record is marked `managed` |
| StateReader.AddInstancesManaged | terraform_aws_migrator/state_reader.py:58-121 | the instance loop keeps every stored record marked `managed` |
| StateReader.AddResourcesManaged | terraform_aws_migrator/state_reader.py:50-121 | the resource loop keeps every stored record marked `managed` |
| StateReader.ExtractedAllManaged | terraform_aws_migrator/state_reader.py:37-125 | after reading a state every stored record carries `managed: True` |
| StateReader.IamKeysAgree | terraform_aws_migrator/state_reader.py:64-98 | the three IAM forms are stored exactly when the collectors would name them, and under the same key |
| StateReader.RolePolicyAttachmentKey | terraform_aws_migrator/state_reader.py:64-68 | a role policy attachment is keyed `arn:aws:iam::<account>:role/<role>/<policy_arn>` |
| StateReader.UserPolicyKeys | terraform_aws_migrator/state_reader.py:76-98 | a user policy is stored exactly when user and name are set, keyed `user:name`; a user policy attachment exactly when user and policy ARN are set, keyed `user:policy_arn` |
| StateReader.ManagedSetIdentifierOrder | terraform_aws_migrator/state_reader.py:127-166 | the key falls back in order: the `arn` entry, then `type:id` for a type outside IAM, then the bare id |
| StateReader.ManagedSetIdentifier | terraform_aws_migrator/state_reader.py:127-166 | the `arn` entry wins whenever present; the call raises exactly when there is no `arn` and the type is truthy but not a string; without a type the key is the `id` entry |
| StateReader.IdentifiersAgree | terraform_aws_migrator/state_reader.py:127-166 | the state side and the collector side name a resource the same way when it has an `arn`, or when it has an id, no Name tag and is not a VPC endpoint |
| StateReader.FormattedNeedsId | terraform_aws_migrator/state_reader.py:173-178 | `_format_resource` gives None exactly when the resource has no id, and otherwise the record carries that id |
| StateReader.IamResourceKeyedByArn | terraform_aws_migrator/state_reader.py:137-190 | an IAM resource without an ARN in its state gets `arn:aws:iam::<account>:<type without aws_>/<id>`, and is stored under that ARN |
| StateReader.MergeDetailsLookup | terraform_aws_migrator/state_reader.py:235-238 | copying attributes into the details keeps the keys already there, never copies `id`, `arn` or `tags`, and copies every other key with its attribute value |
| StateReader.Stringified | terraform_aws_migrator/state_reader.py:262 | each tag keeps its key, with its value turned into a string |
| StateReader.StateTagsReadBack | terraform_aws_migrator/state_reader.py:256-266 | a dict of tags written as Key/Value records by the state reader reads back, through the collectors' tag reader, as the same tags with their values stringified |
| MigratorAuditor.ResourceKey | terraform_aws_migrator/auditor.py:309-315 | a collected resource is looked up by its `arn`, else its `id`, else its printed form |
| MigratorAuditor.AWSResourceAuditor.constructor | terraform_aws_migrator/auditor.py:44-51 | a new auditor holds its target type and no display names yet |
| MigratorAuditor.AWSResourceAuditor.FilterUnmanagedResources | terraform_aws_migrator/auditor.py:289-306 | the filter loop keeps, in order, the resources its specification keeps, and raises where a key cannot be hashed or the exclusion check raises |
| MigratorAuditor.AWSResourceAuditor.GetRelevantCollectors | terraform_aws_migrator/auditor.py:67-101 | every collector without a target; with one, the collectors of the target's service, whose display names are merged into the auditor's map in order |
| MigratorAuditor.AWSResourceAuditor.AuditAllResources | terraform_aws_migrator/auditor.py:230-273 | the collector loop gives, per service, the unmanaged resources its collectors report, in order; a collector that raises is skipped |
| MigratorAuditor.Dicts | terraform_aws_migrator/auditor.py:182-183 | only the dict values are kept, so there are no more of them than values |
| MigratorAuditor.GroupByType | terraform_aws_migrator/auditor.py:179-188 | the loop raises exactly when some dict value's type is a list or dict, which `resource_type not in grouped` cannot hash; otherwise the dict values are grouped by their type, `unknown` when it is missing, keeping their order |
| MigratorAuditor.UnmanagedSnoc | terraform_aws_migrator/auditor.py:295-304 | one more resource is kept exactly when its check says so, and raises the filter when its check raises |
| MigratorAuditor.UnmanagedRaises | terraform_aws_migrator/auditor.py:295-299 | a resource whose check raises makes the whole filter raise |
| MigratorAuditor.UnmanagedIsFilter | terraform_aws_migrator/auditor.py:295-306 | the kept resources are exactly those whose key is not managed, that are not excluded and that have the target type when there is one, in input order |
| MigratorAuditor.UnmanagedMember | terraform_aws_migrator/auditor.py:295-306 | a resource is reported unmanaged exactly when it is in the input, its key is not managed, it is not excluded, and it matches the target |
| MigratorAuditor.UnmanagedIsSubsequence | terraform_aws_migrator/auditor.py:295-306 | the output is the input with some resources left out |
| MigratorAuditor.RelevantService | terraform_aws_migrator/auditor.py:76-99 | a target `aws_<service>_<rest>` selects exactly the collectors of `<service>` |
| MigratorAuditor.RelevantNeedsTwoParts | terraform_aws_migrator/auditor.py:76-79 | a target without `_` selects no collector |
| MigratorAuditor.AuditKeysNonEmpty | terraform_aws_migrator/auditor.py:249-268 | a service appears in the result only with at least one unmanaged resource |
| MigratorAuditor.FailingCollectorIgnored | terraform_aws_migrator/auditor.py:233-273 | a collector that raises does not change what the others report |
| MigratorAuditor.ReportedUnderService | terraform_aws_migrator/auditor.py:266-268 | what a collector reports lands under its service, after what earlier collectors of that service reported; other services are untouched |
| DetectorAuditor.AuditResources | terraform_aws_detector/auditor.py:110-130 | the two loops give, per service, the resources none of whose identifiers the state knows, keeping only services that have some, or raise where an identifier cannot go into a set |
| DetectorAuditor.UnmanagedRaises | terraform_aws_detector/auditor.py:119-127 | one resource whose identifiers cannot be computed makes its service's loop raise |
| DetectorAuditor.AuditRaises | terraform_aws_detector/auditor.py:112-130 | one service whose loop raises makes the whole audit raise |
| DetectorAuditor.IdentifiersMembers | terraform_aws_detector/auditor.py:149-181 | the identifiers are exactly the `arn`, the `id`, `type:id` when both are present, and `arn:aws:s3:::<name>` for an S3 bucket with a name; computing them fails exactly when the arn or id is unhashable |
| DetectorAuditor.Identifiers | terraform_aws_detector/auditor.py:149-168 | computing the identifiers raises exactly when the `arn` or the `id` present cannot go into a set; otherwise both are among them |
| DetectorAuditor.AdditionalIdentifiers | terraform_aws_detector/auditor.py:170-181 | an extra identifier is added exactly for an S3 bucket with a `name`, and it is `arn:aws:s3:::<name>` |
| DetectorAuditor.UnmanagedMember | terraform_aws_detector/auditor.py:117-127 | a resource is reported exactly when it is one of the service's resources and none of its identifiers is known |
| DetectorAuditor.UnmanagedOk | terraform_aws_detector/auditor.py:119-121 | when a service's loop succeeds, every one of its resources had computable identifiers |
| DetectorAuditor.KnownArnIsManaged | terraform_aws_detector/auditor.py:124-155 | a resource whose `arn` is known is never reported |
| DetectorAuditor.AuditEntries | terraform_aws_detector/auditor.py:112-130 | a service is in the report only with a non-empty list, the unmanaged resources of one of its entries |
| DetectorAuditor.AuditKeepsService | terraform_aws_detector/auditor.py:129-130 | a service with an unmanaged resource is in the report |
| DetectorAuditor.HarvestLoop | terraform_aws_detector/auditor.py:201-240 | each state loop adds to the known set what its elements add, stopping at the first exception |
| DetectorAuditor.ProcessResource | terraform_aws_detector/auditor.py:231-263 | a root resource adds what its instances add; an exception ends it and is caught |
| DetectorAuditor.ProcessModuleResource | terraform_aws_detector/auditor.py:212-229 | a module resource adds its instances' `arn`s and nested ARNs; an exception ends it and is caught |
| DetectorAuditor.ProcessStateData | terraform_aws_detector/auditor.py:196-210 | the state's resources are processed in order, and the call reports whether it ended with an exception |
| DetectorAuditor.ConstructArnKinds | terraform_aws_detector/auditor.py:281-303 | an ARN is built exactly for the seven EC2 kinds, matched against the text after the last `.` of the argument without its `aws_` |
| DetectorAuditor.ConstructArnShape | terraform_aws_detector/auditor.py:284-301 | a constructed ARN starts with `arn:aws:ec2:<region>:<account>:` and ends with the id |
| DetectorAuditor.ConstructArn | terraform_aws_detector/auditor.py:277-303 | a constructed ARN starts with `arn:aws:ec2:<region>:<account>:` and ends with the id |
| DetectorAuditor.ConstructArnUsesName | terraform_aws_detector/auditor.py:236-294 | since the argument is `type.name`, the kind looked up is the resource's name: `aws_vpc.main` gets no ARN, `aws_vpc.vpc` gets a VPC ARN |
| DetectorAuditor.ValueArnsAreArns | terraform_aws_detector/auditor.py:265-275 | every value harvested from one attribute is a string containing `:arn:` |
| DetectorAuditor.NestedArnsAreArns | terraform_aws_detector/auditor.py:265-275 | every value harvested from a dict of attributes is a string containing `:arn:` |
| DetectorAuditor.ListArnsAreArns | terraform_aws_detector/auditor.py:272-275 | every value harvested from a list is a string containing `:arn:` |
| DetectorAuditor.NestedArnsCover | terraform_aws_detector/auditor.py:267-275 | everything every attribute holds is harvested: its ARN string, the ARNs of a nested dict, those of the dicts in a list |
| DetectorAuditor.ListArnsCover | terraform_aws_detector/auditor.py:273-275 | the ARNs of every dict in a list are harvested |
| DetectorAuditor.BareStringsIgnored | terraform_aws_detector/auditor.py:272-275 | strings directly inside a list are never harvested |
| DetectorAuditor.HarvestKeepsPrefix | terraform_aws_detector/auditor.py:219-259 | what the loop added before an exception stays added |
| DetectorAuditor.HarvestUnion | terraform_aws_detector/auditor.py:219-259 | when no element raises, the loop adds everything each element adds and does not raise |
| DetectorAuditor.HarvestThrough | terraform_aws_detector/auditor.py:219-259 | an element reached with no earlier exception adds everything it adds |
| DetectorAuditor.StateStepRoutes | terraform_aws_detector/auditor.py:201-210 | data sources add nothing; a resource with a truthy `module` goes the module way, any other the root way |
| DetectorAuditor.InstanceAttributes | terraform_aws_detector/auditor.py:220-242 | an instance contributes what its `attributes` contribute |
| DetectorAuditor.InstanceArnAdded | terraform_aws_detector/auditor.py:222-246 | a hashable `arn` in an instance's attributes is added, in a root and in a module resource |
| DetectorAuditor.AttributesWithoutArn | terraform_aws_detector/auditor.py:244-259 | attributes without an `arn` add only the constructed ARN and the nested ARNs |
| DetectorAuditor.ConstructedWithId | terraform_aws_detector/auditor.py:248-254 | with an `id` and no `arn`, the constructed ARN is added exactly when there is one |
| DetectorAuditor.RootInstanceConstructs | terraform_aws_detector/auditor.py:240-259 | a root instance with an `id` and no `arn` adds the constructed ARN when there is one |
| DetectorAuditor.ModuleInstanceConstructsNothing | terraform_aws_detector/auditor.py:219-225 | a module instance never adds a constructed ARN |
| DetectorAuditor.StateArnManages | terraform_aws_detector/auditor.py:124-246 | end to end: an `arn` reached in the state makes every collected resource with that `arn` managed |
| DetectorCollectors.BuildArnJoin | terraform_aws_detector/collectors/base.py:39-50 | the ARN is its six fields joined by `:`: S3 names neither region nor account, IAM names no region |
| DetectorCollectors.BuildArn | terraform_aws_detector/collectors/base.py:39-50 | every ARN built starts with `arn:aws:` and the collector's service, and ends with the resource id |
| DetectorCollectors.BuildArnFields | terraform_aws_detector/collectors/base.py:39-50 | when no part holds a `:`, splitting the ARN at `:` gives those six fields back |
| DetectorCollectors.BuildArnEndsWithId | terraform_aws_detector/collectors/base.py:45-50 | the resource id is read back after the last `/`, or for S3 after the last `:` |
| DetectorCollectors.Installed | terraform_aws_detector/collectors/base.py:62 | after storing a collector, its service finds it and every other service finds what it found before |
| DetectorCollectors.InstalledNames | terraform_aws_detector/collectors/base.py:62 | storing adds the service name and keeps the names distinct |
| DetectorCollectors.ResourceRegistry.constructor | terraform_aws_detector/collectors/base.py:55-56 | a new registry holds no collector |
| DetectorCollectors.ResourceRegistry.Register | terraform_aws_detector/collectors/base.py:58-64 | a collector that cannot be made leaves the registry unchanged; one that can is stored under its service name, replacing any earlier one |
| DetectorCollectors.ResourceRegistry.CollectAll | terraform_aws_detector/collectors/base.py:66-97 | the collection loop gives one result per collector in registration order, and the callbacks only when a callback is given |
| DetectorCollectors.RegisterReplaces | terraform_aws_detector/collectors/base.py:62 | registering a second collector for a service replaces the first without adding a name |
| DetectorCollectors.ResultsPerService | terraform_aws_detector/collectors/base.py:77-95 | every registered service gets exactly one result, at its position, with its list or `[]` when its collector raised |
| DetectorCollectors.CallbacksPerService | terraform_aws_detector/collectors/base.py:79-94 | the callbacks come two per service, in registration order: `Starting`, then `Completed` with the count or `Failed` with 0 |
| DetectorCollectors.ResultKeysAreServices | terraform_aws_detector/collectors/base.py:76-97 | a service has a result exactly when it is registered |
| CollectorBase.ServiceForResourceType | terraform_aws_migrator/collectors/base.py:33-58 | the EC2 prefixes give `ec2`; a type not starting with `aws_` gives ""; outside EC2 the service holds no `_` |
| CollectorBase.ServiceRoundTrip | terraform_aws_migrator/collectors/base.py:53-56 | for `aws_<service>_<rest>` outside EC2, the service is read back |
| CollectorBase.Route53CountsAsEc2 | terraform_aws_migrator/collectors/base.py:44-51 | the EC2 test is a prefix test, so `aws_route53_zone` counts as EC2 |
| CollectorBase.TypeDisplayName | terraform_aws_migrator/collectors/base.py:60-64 | the collector's display name for a known type, else the type itself |
| CollectorBase.TagEntriesLastWins | terraform_aws_migrator/collectors/base.py:93-96 | each key maps to the value of the last tag with that key |
| CollectorBase.ExtractOneTag | terraform_aws_migrator/collectors/base.py:93-96 | a list with one well-formed tag gives a one-key dict |
| CollectorBase.ExtractTags | terraform_aws_migrator/collectors/base.py:93-96 | no tags give an empty dict; a tag list gives a dict exactly when every tag has a string `Key` and a `Value`, and its keys are exactly the tags' keys; anything else that is truthy raises |
| CollectorBase.BuildArnFields | terraform_aws_migrator/collectors/base.py:103-117 | split at `:`, the ARN has its fields in place: S3 for buckets and IAM for roles and policies, no region for those, no account for buckets, `type/id` or just the id for buckets |
| CollectorBase.BuildArnJoin | terraform_aws_migrator/collectors/base.py:103-117 | the ARN is those fields joined by `:` |
| CollectorBase.BuildArn | terraform_aws_migrator/collectors/base.py:103-117 | every ARN built starts with `arn:aws:` and the service it names (S3 for buckets, IAM for roles and policies, the collector's own otherwise) and ends with the resource id |
| CollectorBase.ArnKeyWins | terraform_aws_migrator/collectors/base.py:131-133 | the `arn` entry is the identifier whenever the key is present |
| CollectorBase.ResourceIdentifier | terraform_aws_migrator/collectors/base.py:119-216 | the `arn` entry wins whenever present; the call raises exactly when there is no `arn` and the type is truthy but not a string (`startswith` fails); with neither type nor id the identifier is "" (the IAM and VPC-endpoint forms: IamIdentifierForms, EndpointIdentifierForms) |
| CollectorBase.DefaultIdentifier | terraform_aws_migrator/collectors/base.py:198-213 | a plain resource with a type and an id is identified by `type:id`, or `type:Name:id` when it has a Name tag |
| CollectorBase.EndpointWithoutId | terraform_aws_migrator/collectors/base.py:153-196 | a VPC endpoint without an id has no identifier: the unbound local raises and is caught |
| CollectorBase.NoTypeNoId | terraform_aws_migrator/collectors/base.py:215-216 | a resource with neither type nor id is identified by "" |
| CollectorBase.IamIdentifierForms | terraform_aws_migrator/collectors/base.py:136-151 | without an `arn`, a role policy attachment with role and policy ARN is identified by `arn:aws:iam::<account>:role/<role>/<policy_arn>`, a user policy with user and name by `user:name`, a user policy attachment with user and policy ARN by `user:policy_arn` |
| CollectorBase.EndpointIdentifierForms | terraform_aws_migrator/collectors/base.py:154-196 | a VPC endpoint with an id is identified by `aws_vpc_endpoint:<name>:<vpc>:<service>:<id>` with all three of name, VPC and service, by `aws_vpc_endpoint:<vpc>:<service>:<id>` with VPC and service but no name, and by `aws_vpc_endpoint:<id>` otherwise; details that are not a dict give None |
| CollectorBase.InstancesMember | terraform_aws_migrator/collectors/base.py:240-255 | a collector is returned exactly when its class could be instantiated and, with a target, the target is its service or one of its types |
| CollectorBase.CollectorRegistry.constructor | terraform_aws_migrator/collectors/base.py:226-227 | a new registry holds no class |
| CollectorBase.CollectorRegistry.Register | terraform_aws_migrator/collectors/base.py:229-232 | the class is appended and returned unchanged |
| CollectorBase.CollectorRegistry.GetCollectors | terraform_aws_migrator/collectors/base.py:234-255 | the loop returns the wanted instances in registration order, skipping classes whose constructor raises |
| CollectorBase.CollectorRegistry.Length | terraform_aws_migrator/collectors/base.py:265-267 | the number of registered classes |
| NetworkCollector.ArnAlwaysWins | terraform_aws_migrator/collectors/aws_network/network.py:196-198 | the `arn` entry always wins, and then the identifier agrees with the base collector's |
| NetworkCollector.LbIdentifier | terraform_aws_migrator/collectors/aws_network/network.py:183-218 | the `arn` entry wins; the call raises exactly when a load balancer, listener or rule with an id has details that are not a dict; without both type and id the identifier is the id, or "" |
| NetworkCollector.LoadBalancerArn | terraform_aws_migrator/collectors/aws_network/network.py:201-205 | a load balancer without an arn gets an application-load-balancer ARN in the region and account, ending in its details' `uuid` or `1234567890` |
| NetworkCollector.TargetGroupArn | terraform_aws_migrator/collectors/aws_network/network.py:206-207 | a target group without an arn gets `...:targetgroup/<id>` |
| NetworkCollector.ChildArn | terraform_aws_migrator/collectors/aws_network/network.py:208-218 | a listener or rule is identified under its parent's ARN when the details hold it, else by `type:id` |
| NetworkCollector.DerivedArnIsIdentifier | terraform_aws_migrator/collectors/aws_network/network.py:200-215 | a derived ARN, when there is one, is the identifier |
| NetworkCollector.DerivedArnEndsWithId | terraform_aws_migrator/collectors/aws_network/network.py:206-215 | the derived ARNs of target groups, listeners and rules give the id back after the last `/` |
| NetworkCollector.NoReaderNothingManaged | terraform_aws_migrator/collectors/aws_network/network.py:171-174 | without a state reader nothing is managed |
| NetworkCollector.ManagedIffArnKnown | terraform_aws_migrator/collectors/aws_network/network.py:176-181 | with a state reader, a resource is managed exactly when its `LoadBalancerArn` is a managed key |
| NetworkCollector.IsManaged | terraform_aws_migrator/collectors/aws_network/network.py:171-181 | the test raises exactly when there is a state reader and `LoadBalancerArn` cannot be hashed; it holds exactly when there is a state reader and that ARN is a managed key |
| EbsCollector.Collect | terraform_aws_migrator/collectors/aws_storage/ebs.py:44-83 | the volume loop reports the records of the volumes that pass the predicate, in order, up to the first exception, which ends the collection |
| EbsCollector.UnattachedIsManaged | terraform_aws_migrator/collectors/aws_storage/ebs.py:29-33 | a volume without attachments is reported |
| EbsCollector.ShouldManageVolume | terraform_aws_migrator/collectors/aws_storage/ebs.py:18-42 | a volume that is not a dict raises; a volume without attachments is managed; a list of dict attachments never raises; a truthy scalar as attachments raises when iterated |
| EbsCollector.AnyPreserved | terraform_aws_migrator/collectors/aws_storage/ebs.py:37-42 | the scan over dict attachments never raises, and it finds a preserved attachment only in a non-empty list |
| EbsCollector.AnyPreservedIff | terraform_aws_migrator/collectors/aws_storage/ebs.py:37-42 | the scan finds a preserved attachment exactly when one has a falsy `DeleteOnTermination`, which defaults to true |
| EbsCollector.AttachedVolume | terraform_aws_migrator/collectors/aws_storage/ebs.py:18-42 | an attached volume is reported exactly when some attachment keeps it after its instance ends |
| EbsCollector.AttachmentDefault | terraform_aws_migrator/collectors/aws_storage/ebs.py:66-75 | an attachment without the flag is reported with `delete_on_termination` true |
| EbsCollector.CollectKeepsExactly | terraform_aws_migrator/collectors/aws_storage/ebs.py:49-78 | when no volume raises, the collection does not stop and reports exactly the records of the passing volumes |
| EbsCollector.KeptMember | terraform_aws_migrator/collectors/aws_storage/ebs.py:50-78 | a passing volume's record is reported |
| EbsCollector.KeptOnlyManaged | terraform_aws_migrator/collectors/aws_storage/ebs.py:50-78 | every reported record is the record of a passing volume |
| RouteCollector.Collect | terraform_aws_migrator/collectors/aws_network/route.py:46-190 | the table and route loops report their records in order up to the first exception, which ends the collection |
| RouteCollector.ReplaceCharAt | terraform_aws_migrator/collectors/aws_network/route.py:25 | replacing one character keeps the length and changes exactly that character |
| RouteCollector.ReplaceCharLength | terraform_aws_migrator/collectors/aws_network/route.py:25 | replacing one character keeps the length |
| RouteCollector.SanitizeDestinationAt | terraform_aws_migrator/collectors/aws_network/route.py:23-25 | the sanitised destination has `_` where the destination has `.`, `/` or `:`, and the same character elsewhere |
| RouteCollector.SanitizeDestinationClean | terraform_aws_migrator/collectors/aws_network/route.py:23-25 | no `.`, `/` or `:` is left |
| RouteCollector.RecordFields | terraform_aws_migrator/collectors/aws_network/route.py:170-183 | a record reads back its type, id, import id and details, and is managed exactly when `type:id` is a managed key |
| RouteCollector.FieldsReadBack | terraform_aws_migrator/collectors/aws_network/route.py:175-183 | the seven fields of a record read back as given |
| RouteCollector.DetailsReadBack | terraform_aws_migrator/collectors/aws_network/route.py:181 | the details field reads back as given |
| RouteCollector.ManagedReadBack | terraform_aws_migrator/collectors/aws_network/route.py:182 | the managed field reads back as given |
| RouteCollector.LocalRouteSkipped | terraform_aws_migrator/collectors/aws_network/route.py:67-70 | a local route yields nothing |
| RouteCollector.DestinationOrder | terraform_aws_migrator/collectors/aws_network/route.py:72-82 | the destination is the first truthy of the IPv4 CIDR, the IPv6 CIDR and the prefix list, and exists exactly when one is truthy |
| RouteCollector.NoDestinationSkipped | terraform_aws_migrator/collectors/aws_network/route.py:84-87 | a route without a destination yields nothing |
| RouteCollector.OrdinaryRoute | terraform_aws_migrator/collectors/aws_network/route.py:89-184 | an ordinary route yields one `aws_route` record with id `<rtb>_<sanitised destination>`, import id `<rtb>_<destination>`, its gateway in the details, managed exactly when `aws_route:<id>` is a managed key |
| RouteCollector.EndpointRoute | terraform_aws_migrator/collectors/aws_network/route.py:114-184 | a prefix-list route through a VPC endpoint yields the endpoint records |
| RouteCollector.EndpointNotLocal | terraform_aws_migrator/collectors/aws_network/route.py:68-116 | an endpoint gateway is never `local`, so the route is not skipped |
| RouteCollector.EndpointRecordsFields | terraform_aws_migrator/collectors/aws_network/route.py:116-184 | an endpoint route yields three records: the flagged route, the association `<rtb>_<vpce>` with import id `<vpce>/<rtb>`, and the same route again, each managed exactly when its key is known |
| RouteCollector.RouteRecordsTyped | terraform_aws_migrator/collectors/aws_network/route.py:66-184 | every record one route yields is a route or an endpoint association |
| RouteCollector.EndpointRecordsTyped | terraform_aws_migrator/collectors/aws_network/route.py:132-163 | the endpoint records are routes or associations |
| RouteCollector.SingleRouteTyped | terraform_aws_migrator/collectors/aws_network/route.py:175-184 | an ordinary route's record is a route |
| RouteCollector.RunStepsTyped | terraform_aws_migrator/collectors/aws_network/route.py:66 | a loop over steps that yield routes and associations yields only those |
| RouteCollector.RoutesFromTyped | terraform_aws_migrator/collectors/aws_network/route.py:66-184 | a table's routes yield only routes and associations |
| RouteCollector.TablesFromTyped | terraform_aws_migrator/collectors/aws_network/route.py:59-184 | the whole collection yields only routes and associations |
| RouteCollector.LocalRoutesOnly | terraform_aws_migrator/collectors/aws_network/route.py:66-70 | a table whose routes are all local contributes nothing |
| Arn.S3Fields | terraform_aws_migrator/collectors/base.py:110-111 | a bucket ARN has empty region and account fields and the id as its resource |
| Arn.IamFields | terraform_aws_migrator/collectors/base.py:112-113 | an IAM ARN has an empty region field, the account, and `type/id` |
| Arn.RegionalFields | terraform_aws_migrator/collectors/base.py:116-117 | a regional ARN has service, region, account and `type/id` as its fields |
| Arn.Ec2Fields | terraform_aws_migrator/collectors/base.py:114-115 | the EC2 ARN is the regional layout with the service `ec2` |
| ResourceManagement.Candidates | terraform_aws_migrator/resource_management.py:33-37 | the identifiers tried start with the collector's identifier |
| ResourceManagement.CreateManagedLookup | terraform_aws_migrator/resource_management.py:48-88 | the loop over the managed records builds the lookup its specification gives, or raises where a key cannot be computed or hashed |
| ResourceManagement.ResourceManagementChecker.constructor | terraform_aws_migrator/resource_management.py:10-11 | a new checker has processed no identifier |
| ResourceManagement.ResourceManagementChecker.IsResourceManaged | terraform_aws_migrator/resource_management.py:13-46 | the identifiers are tried in order, and the record of the first one in the lookup is returned; nothing for a missing or already processed identifier |
| ResourceManagement.ResourceManagementChecker.ProcessResource | terraform_aws_migrator/resource_management.py:90-124 | the result is the marked copy of the resource, and the identifier is remembered exactly when a copy is returned |
| ResourceManagement.UpdateLookup | terraform_aws_migrator/resource_management.py:115 | after `update`, a key of the found record has its value from it, and any other key keeps its value |
| ResourceManagement.ManagedLookupRaises | terraform_aws_migrator/resource_management.py:56-85 | a managed record whose key cannot be computed makes the whole lookup raise |
| ResourceManagement.FirstHitFirst | terraform_aws_migrator/resource_management.py:40-46 | the first identifier found in the lookup wins and no earlier one is there; nothing is returned exactly when none is there |
| ResourceManagement.FirstHitIn | terraform_aws_migrator/resource_management.py:40-43 | a returned record is one of the lookup's records |
| ResourceManagement.NoIdentifierOrRepeat | terraform_aws_migrator/resource_management.py:23-105 | with a falsy identifier, or one already processed, both calls return nothing |
| ResourceManagement.SecondCallSkipped | terraform_aws_migrator/resource_management.py:103-123 | processing the same resource a second time returns nothing |
| ResourceManagement.ProcessedShape | terraform_aws_migrator/resource_management.py:108-120 | the copy is marked managed exactly when a managed record was found; then it takes that record's fields, keeps the resource's own details, and keeps its identifier unless the record brings one; otherwise every field but `identifier` and `managed` is the resource's own |
| ResourceManagement.LookupValuesManaged | terraform_aws_migrator/resource_management.py:81-85 | every record in the lookup is a managed record marked `managed` true |
| ResourceManagement.LookupKeyFamily | terraform_aws_migrator/resource_management.py:57-78 | a record of type `<prefix>.<t>` is filed under `t`, keyed by its `arn` when it has one, else by `t:id` |
| ResourceManagement.FiledTypeDotted | terraform_aws_migrator/resource_management.py:57-59 | a dotted type is cut to the part after its last `.` |
| ResourceManagement.LastPiece | terraform_aws_migrator/resource_management.py:59 | splitting at every `.` ends with the text after the last `.` |
| ResourceProcessor.GroupResourcesByType | terraform_aws_migrator/resource_processor.py:13-43 | the loop raises exactly when some resource's type is a list or dict, which `not in type_groups` cannot hash; otherwise it groups the resources by type, keeping their order, with the groups in the order their type first appears |
| ResourceProcessor.MissingTypeIsUnknown | terraform_aws_migrator/resource_processor.py:27 | a resource without a type is grouped under `unknown` |
| ResourceProcessor.ProcessS3Resource | terraform_aws_migrator/resource_processor.py:45-59 | a resource is managed this way exactly when it is a bucket policy or ACL and some managed record has the same type and id |
| ResourceProcessor.TargetBasics | terraform_aws_migrator/resource_processor.py:67-71 | no target matches everything; a target never matches a missing type |
| ResourceProcessor.MatchesTargetType | terraform_aws_migrator/resource_processor.py:61-100 | no target (None or "") matches everything; a match with a target needs a type; a full `aws_` target matches exactly that type; a service target matches exactly an `aws_` type whose mapped service is that target |
| ResourceProcessor.FullTypeTarget | terraform_aws_migrator/resource_processor.py:74-75 | a full `aws_` type as target matches exactly that type |
| ResourceProcessor.NonAwsTypeNeverMatchesService | terraform_aws_migrator/resource_processor.py:78-100 | a service target never matches a type outside the `aws_` namespace |
| ResourceProcessor.MappedServices | terraform_aws_migrator/resource_processor.py:83-93 | every mapped type matches the service it is mapped to |
| ResourceProcessor.MappedType | terraform_aws_migrator/resource_processor.py:80-98 | an `aws_` type whose remainder is mapped as a whole matches its service |
| ResourceProcessor.FirstSegmentService | terraform_aws_migrator/resource_processor.py:94-98 | any other type matches exactly the service of its first segment, mapped again when that segment is mapped |
| CollectionStatus.StrLessIrreflexive | terraform_aws_migrator/collection_status.py:61-63 | no service name sorts before itself |
| CollectionStatus.StrLessTransitive | terraform_aws_migrator/collection_status.py:61-63 | the string order of the sort is transitive |
| CollectionStatus.StrLessTotal | terraform_aws_migrator/collection_status.py:61-63 | of two different names, one sorts first |
| CollectionStatus.StrLessAsymmetric | terraform_aws_migrator/collection_status.py:61-63 | two names never sort before each other |
| CollectionStatus.BeforeTransitive | terraform_aws_migrator/collection_status.py:61-63 | the sort key `(status != "Processing", service)` orders rows transitively |
| CollectionStatus.BeforeTotal | terraform_aws_migrator/collection_status.py:61-63 | rows of different services are always ordered |
| CollectionStatus.BeforeAsymmetric | terraform_aws_migrator/collection_status.py:61-63 | two rows never come before each other |
| CollectionStatus.ProcessingFirst | terraform_aws_migrator/collection_status.py:61-63 | a processing row comes before every finished row, whatever the names |
| CollectionStatus.InsertSorted | terraform_aws_migrator/collection_status.py:61-63 | inserting the row of a new service into a sorted table keeps it sorted and adds exactly that row |
| CollectionStatus.ConsSorted | terraform_aws_migrator/collection_status.py:61-63 | a row before every row of a sorted table heads a sorted table |
| CollectionStatus.SortedUnique | terraform_aws_migrator/collection_status.py:53-63 | two sorted tables with the same rows are equal, so the progress data does not depend on the order services were started in |
| CollectionStatus.BeforeIrreflexiveAt | terraform_aws_migrator/collection_status.py:61-63 | the rows of a sorted table are distinct |
| CollectionStatus.SortedHead | terraform_aws_migrator/collection_status.py:61-63 | the head of a sorted table comes first among the same rows in any order |
| CollectionStatus.StatusTracker.constructor | terraform_aws_migrator/collection_status.py:34-35 | a new tracker tracks no service |
| CollectionStatus.StatusTracker.StartCollection | terraform_aws_migrator/collection_status.py:37-41 | the service's entry is created or replaced: processing, started now, unfinished |
| CollectionStatus.StatusTracker.CompleteCollection | terraform_aws_migrator/collection_status.py:43-48 | a tracked service gets `Completed` or `Failed` and ends now; an untracked one changes nothing |
| CollectionStatus.StatusTracker.GetProgressData | terraform_aws_migrator/collection_status.py:50-63 | one row per tracked service, each its service, status and duration, sorted processing first and then by name |
| CollectionStatus.ProgressRows | terraform_aws_migrator/collection_status.py:52-63 | inserting the services' rows one at a time gives the sorted table of all of them |
| CollectionStatus.AddService | terraform_aws_migrator/collection_status.py:53-63 | one insertion step extends the sorted table by the row of one more service |
| CollectionStatus.TableEmpty | terraform_aws_migrator/collection_status.py:52 | no service, no row |
| CollectionStatus.TableComplete | terraform_aws_migrator/collection_status.py:50-63 | the table of every service is sorted, distinct, and holds exactly one row per tracked service |
| CollectionStatus.AddRow | terraform_aws_migrator/collection_status.py:53-63 | inserting the row of one more service keeps the table sorted and complete for the services done |
| CollectionStatus.FinishedDuration | terraform_aws_migrator/collection_status.py:17-28 | a finished entry's duration no longer depends on the clock and reads back as the whole seconds between start and end |
| CollectionStatus.StartThenComplete | terraform_aws_migrator/collection_status.py:37-48 | starting then completing a service leaves it finished with the outcome; other services are untouched |
| CollectionStatus.Duration | terraform_aws_migrator/collection_status.py:17-28 | for a non-negative elapsed time (to the end, or to now while unfinished, truncated) the text reads back as that number of seconds, and under 100 minutes it is seven characters wide |
| ProgressTracking.CompactTimeColumn.constructor | terraform_aws_migrator/progress_tracking.py:9-11 | the column's start is the clock reading at creation |
| ProgressTracking.CompactTimeColumn.Render | terraform_aws_migrator/progress_tracking.py:13-18 | the text is the whole seconds since creation, truncated, as `[MM:SS]` |
| ProgressTracking.TimeTracker.constructor | terraform_aws_migrator/progress_tracking.py:23-24 | a new tracker has no start time |
| ProgressTracking.TimeTracker.Start | terraform_aws_migrator/progress_tracking.py:26-28 | the start time is now, replacing any earlier one |
| ProgressTracking.TimeTracker.GetElapsedTime | terraform_aws_migrator/progress_tracking.py:30-37 | `[00:00]` before the start, else the elapsed time as `[MM:SS]` |
| ProgressTracking.TimeTracker.GetTotalTime | terraform_aws_migrator/progress_tracking.py:39-46 | nothing before the start, else the elapsed time as `[MM:SS]` |
| ProgressTracking.TotalIsElapsed | terraform_aws_migrator/progress_tracking.py:30-46 | before the start the elapsed time shows zero and there is no total; after it the total is the elapsed time |
| ProgressTracking.ElapsedReadsBack | terraform_aws_migrator/progress_tracking.py:34-37 | once the clock has not gone back, the text reads back as the whole seconds elapsed |
| ProgressTracking.ElapsedReadsAs | terraform_aws_migrator/progress_tracking.py:34-37 | once started, the text reads back as the truncated seconds elapsed |
| TimeFormat.TruncBounds | terraform_aws_migrator/progress_tracking.py:34 | `int()` truncates toward zero by less than a second |
| TimeFormat.DigitRoundTrip | terraform_aws_migrator/progress_tracking.py:37 | each decimal digit reads back as its value |
| TimeFormat.NatToStringDigits | terraform_aws_migrator/progress_tracking.py:37 | a number is written with decimal digits only |
| TimeFormat.DigitsValueOfNat | terraform_aws_migrator/progress_tracking.py:37 | decimal writing reads back as the number |
| TimeFormat.LeadingZero | terraform_aws_migrator/progress_tracking.py:37 | a leading zero of the padding does not change the value |
| TimeFormat.Pad2Value | terraform_aws_migrator/progress_tracking.py:37 | two-digit padding reads back as the number and holds no colon |
| TimeFormat.ClockRoundTrip | terraform_aws_migrator/progress_tracking.py:34-37 | for non-negative seconds the text reads back as that number, minutes `e // 60` and seconds `e % 60` |
| TimeFormat.ParseBracketed | terraform_aws_migrator/progress_tracking.py:37 | `[mm:ss]` reads back as its two numbers |
| TimeFormat.ClockWidth | terraform_aws_migrator/collection_status.py:25-28 | under 100 minutes the text is exactly seven characters wide |

## Left out

- The boto3 calls (paginators, `describe_*`, tag fetches, STS) are not modelled. The route and EBS collectors take the API responses as input sequences, and the account id and region are parameters.
- Reading state and ignore files is not modelled: the filesystem walk, S3 state download, hcl2 parsing of backends, and the detector's `_process_state_file`. The state data and the file's lines are inputs.
- Logging, console and `rich` progress output, and the CLI entry points are left out, because they produce no result the core returns.
- The migrator auditor's `AuditAllResources` updates the progress display and prints counts; only the collected result is modelled.
- Dynamic discovery of generator and collector modules is not modelled. The registries start empty and are filled by `Register`, as the decorators would fill them.
- `json.dumps`, `json.loads` and base64 decoding are parameters. Nothing is assumed about them beyond what each lemma states.
- Exclusion.Translate: globs support `*`, `?` and literal characters. fnmatch character classes `[...]` are read as literal characters.
- Exclusion.ConvertTyped: the type before the colon goes into the expression unescaped. The model matches it literally, so a `.` or `[` in it that still compiles keeps no regex meaning.
- Exclusion.ConvertService: the same holds for the service before the colon, in both alternatives of its expression.
- Exclusion.ExclusionConfig.LoadPatterns: whether `re.compile` accepts a pattern's expression is the parameter `compiles`. Python's regular-expression syntax is not modelled, so no lemma says which prefixes compile.
- Lambda.Generate: models the code as written, with the doubled `source_code_hash` line. The corrected lines are used only by `Lambda.AssembleIntended`, about which `Lambda.ArchiveLinesMatchBlock` is proved.
- RouteTable.AssociationImportMatchesBlock: proves only that every association block has its import command. The converse fails for an association with neither a subnet nor a gateway (`RouteTable.AssociationImportWithoutBlock`). EC2 gives every non-main association one of the two, so this is not claimed as a finding.
- Py.Repr: the quote choice and the escapes of backslashes, the quote, tab, newline and carriage return are modelled; other non-printable characters, which Python writes as `\xNN` or `\uNNNN`, are written as they are.
- CollectorBase.TagEntries: dict keys are modelled as strings only. A tag whose `Key` is not a string is modelled as raising, where Python builds the dict with any hashable key.
- `Py.Lower` folds ASCII letters only, and the digit tests accept ASCII digits only. Python's Unicode case folding and digit classes are wider.
- Floating point values are not modelled: a Python float is not a `Py.Value`. Clock readings are `real`, and `int()` of a duration truncates toward zero (`TimeFormat.Trunc`).
- In Python, `bool` is a subtype of `int`; the model keeps `Bool` and `Int` apart. They differ only for dict keys or equality tests that mix `True` with `1`, which the core does not do on purpose.
- Dicts are ordered entry lists with the first binding winning. The model does not require keys to be unique where the source does not rely on it. Lemmas that need unique keys say so in their `requires`.
- Deep copies are plain values in the model, so the model cannot express "the input resource is never mutated". It holds by construction, because functions cannot change their arguments.
- `Lambda.ImageConfig` models `_format_image_config`, which `generate` never calls. `_get_name_from_tags` of the Lambda generator is never called and is not modelled.
- `Vpc.FormatCidrBlocks` models `_format_cidr_blocks`, which `generate` never calls.
- Collectors of other services (API Gateway, Route 53, CloudFront, VPC, EFS, S3, IAM, databases, security) are not modelled. They only wrap SDK calls.
- The output formatters and `utils/resource_utils.py` in both packages are left out. They render reports and compute a float ratio.
- Ec2.ShortId: an `id` that is not a string is modelled as raising. Python slicing would accept a list, but the generator always receives string ids.

## Findings

| source | as written | input that shows it | evidently intended | confidence | as-written member | corrected member |
|---|---|---|---|---|---|---|
| terraform_aws_migrator/generators/aws_iam/role_policy_attachment.py:62-63 | the import command uses `prefix = ""` followed by a literal `.`, so the address starts with a dot | a role `r` and policy ARN `arn:aws:iam::1:policy/p` give `terraform import .aws_iam_role_policy_attachment.r_p r/arn:aws:iam::1:policy/p` | the address is the generator's import prefix followed by `aws_iam_role_policy_attachment.<name>`, the resource the block declares | not executed | IamRolePolicyAttachment.AsWrittenLeadingDot | IamRolePolicyAttachment.ImportMatchesBlock |
| terraform_aws_migrator/generators/aws_compute/lambda.py:73-77 | a missing comma makes Python join two string literals, so one line assigns `source_code_hash` twice, the second time from `data.archive_file.<name>`, which is never declared | any inline-code function named `f` gives the line `  source_code_hash = "${data.archive_file.f_lambda.output_base64sha256}"  source_code_hash = data.archive_file.f.output_base64sha256` | one `source_code_hash` line that refers to the declared `data.archive_file.<name>_lambda` | not executed | Lambda.GeneratedDoubleHash | Lambda.ArchiveLinesMatchBlock |
