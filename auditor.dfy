/** The migrator's auditor: which collectors run for a target type, which
    collected resources count as unmanaged, and how the unmanaged resources
    are grouped by service and by type.  Collecting from AWS and reading the
    state files are parameters: each collector's output arrives as a value.
 */
module MigratorAuditor {
  import opened Py
  import Seqs
  import CollectorBase
  import Exclusion
  import ResourceProcessor

  // ------------------------------------------------------------ identifiers

  /** `_get_resource_identifiers`: the `arn` entry, else the `id` entry,
      else the printed resource. */
  function ResourceKey(res: Entries): (r: Value)
    ensures HasKey(res, "arn") ==> r == Lookup(res, "arn").value
    ensures !HasKey(res, "arn") && HasKey(res, "id") ==> r == Lookup(res, "id").value
    ensures !HasKey(res, "arn") && !HasKey(res, "id") ==> r == Str(Show(Dict(res)))
  {
    match Lookup(res, "arn")
    case Some(a) => a
    case None =>
      match Lookup(res, "id")
      case Some(i) => i
      case None => Str(Show(Dict(res)))
  }

  // ------------------------------------------------------------ filtering

  /** Whether one resource is kept as unmanaged; raises when its key cannot
      be looked up or the exclusion check raises. */
  function Keeps(res: Entries, managedKeys: set<Value>, ps: seq<Exclusion.Pattern>, target: Option<string>)
    : Outcome<bool>
  {
    var key := ResourceKey(res);
    if !Hashable(key) then Raised
    else if key in managedKeys then Ok(false)
    else
      var excluded :- Exclusion.Excludes(ps, res);
      if excluded then Ok(false)
      else Ok(target.None? || target.value == "" || GetOr(res, "type", Null) == Str(target.value))
  }

  /** `_filter_unmanaged_resources` */
  function Unmanaged(resources: seq<Entries>, managedKeys: set<Value>, ps: seq<Exclusion.Pattern>,
                     target: Option<string>): Outcome<seq<Entries>>
    decreases |resources|
  {
    if resources == [] then Ok([])
    else
      var kept :- Unmanaged(resources[..|resources| - 1], managedKeys, ps, target);
      var last := resources[|resources| - 1];
      var keep :- Keeps(last, managedKeys, ps, target);
      Ok(kept + if keep then [last] else [])
  }

  /** The auditor's own state: the target type and the display names it
      gathers from the collectors. */
  class AWSResourceAuditor {
    var targetResourceType: Option<string>
    var resourceTypeMappings: map<string, string>

    constructor (target: Option<string>)
      ensures targetResourceType == target && resourceTypeMappings == map[]
    {
      targetResourceType := target;
      resourceTypeMappings := map[];
    }

    /** `_filter_unmanaged_resources` */
    method FilterUnmanagedResources(resources: seq<Entries>, managedKeys: set<Value>,
                                    exclusion: Exclusion.ExclusionConfig)
      returns (r: Outcome<seq<Entries>>)
      requires exclusion.Valid()
      ensures r == Unmanaged(resources, managedKeys, exclusion.regexPatterns, targetResourceType)
    {
      var unmanaged: seq<Entries> := [];
      var i := 0;
      while i < |resources|
        invariant 0 <= i <= |resources|
        invariant Unmanaged(resources[..i], managedKeys, exclusion.regexPatterns, targetResourceType) == Ok(unmanaged)
      {
        var res := resources[i];
        var key := ResourceKey(res);
        var decision: Outcome<bool>;
        if !Hashable(key) {
          decision := Raised;
        } else if key in managedKeys {
          decision := Ok(false);
        } else {
          var excluded := exclusion.ShouldExclude(res);
          if excluded.Raised? {
            decision := Raised;
          } else if excluded.value {
            decision := Ok(false);
          } else if targetResourceType.Some? && targetResourceType.value != "" {
            decision := Ok(GetOr(res, "type", Null) == Str(targetResourceType.value));
          } else {
            decision := Ok(true);
          }
        }
        assert decision == Keeps(res, managedKeys, exclusion.regexPatterns, targetResourceType);
        assert resources[..i + 1] == resources[..i] + [res];
        UnmanagedSnoc(resources[..i], res, managedKeys, exclusion.regexPatterns, targetResourceType);
        if decision.Raised? {
          UnmanagedRaises(resources, managedKeys, exclusion.regexPatterns, targetResourceType, i + 1);
          return Raised;
        }
        if decision.value {
          unmanaged := unmanaged + [res];
        } else {
          assert unmanaged + [] == unmanaged;
        }
        i := i + 1;
      }
      assert resources[..i] == resources;
      r := Ok(unmanaged);
    }

    /** `_get_relevant_collectors`: also gathers the display names of the
        chosen collectors. */
    method GetRelevantCollectors(collectors: seq<CollectorBase.Collector>) returns (r: seq<CollectorBase.Collector>)
      modifies this
      ensures r == Relevant(targetResourceType, collectors)
      ensures targetResourceType == old(targetResourceType)
      ensures targetResourceType.None? || targetResourceType.value == "" ==>
        resourceTypeMappings == old(resourceTypeMappings)
      ensures targetResourceType.Some? && targetResourceType.value != "" ==>
        resourceTypeMappings == old(resourceTypeMappings) + MergedTypes(r)
    {
      if targetResourceType.None? || targetResourceType.value == "" {
        return collectors;
      }
      var parts := Split(targetResourceType.value, '_');
      if |parts| < 2 {
        return [];
      }
      var service := parts[1];
      r := [];
      var i := 0;
      while i < |collectors|
        invariant 0 <= i <= |collectors|
        invariant r == Seqs.Filter(collectors[..i], OfService(service))
        invariant targetResourceType == old(targetResourceType)
        invariant resourceTypeMappings == old(resourceTypeMappings) + MergedTypes(r)
      {
        assert collectors[..i + 1][..i] == collectors[..i];
        var c := collectors[i];
        if c.serviceName == service {
          MergeAssoc(old(resourceTypeMappings), MergedTypes(r), c.resourceTypes);
          assert (r + [c])[..|r|] == r;
          resourceTypeMappings := resourceTypeMappings + c.resourceTypes;
          r := r + [c];
        } else {
          assert r + [] == r;
        }
        i := i + 1;
      }
      assert collectors[..i] == collectors;
    }

    /** The collector loop of `audit_all_resources`. */
    method AuditAllResources(cs: seq<Collected>, managedKeys: set<Value>, exclusion: Exclusion.ExclusionConfig)
      returns (result: map<string, seq<Entries>>)
      requires exclusion.Valid()
      ensures result == AuditResult(cs, managedKeys, exclusion.regexPatterns, targetResourceType)
    {
      result := map[];
      var i := 0;
      while i < |cs|
        invariant 0 <= i <= |cs|
        invariant result == AuditResult(cs[..i], managedKeys, exclusion.regexPatterns, targetResourceType)
      {
        assert cs[..i + 1][..i] == cs[..i];
        var c := cs[i];
        if c.resources.Ok? {
          var unmanaged := FilterUnmanagedResources(c.resources.value, managedKeys, exclusion);
          if unmanaged.Ok? && unmanaged.value != [] && ResourceProcessor.TypesHashable(unmanaged.value) {
            if c.serviceName !in result {
              result := result[c.serviceName := []];
            }
            result := result[c.serviceName := result[c.serviceName] + unmanaged.value];
          }
        }
        i := i + 1;
      }
      assert cs[..i] == cs;
    }
  }

  /** The display names of several collectors, later ones winning. */
  function MergedTypes(cs: seq<CollectorBase.Collector>): map<string, string>
    decreases |cs|
  {
    if cs == [] then map[] else MergedTypes(cs[..|cs| - 1]) + cs[|cs| - 1].resourceTypes
  }

  /** The test a collector passes to be chosen for a service. */
  function OfService(service: string): CollectorBase.Collector -> bool {
    (c: CollectorBase.Collector) => c.serviceName == service
  }

  /** The collectors for a target: all of them without a target; for a
      target, the ones whose service is the second `_`-separated part, and
      none when there is no second part. */
  function Relevant(target: Option<string>, collectors: seq<CollectorBase.Collector>): seq<CollectorBase.Collector> {
    if target.None? || target.value == "" then collectors
    else
      var parts := Split(target.value, '_');
      if |parts| < 2 then []
      else Seqs.Filter(collectors, OfService(parts[1]))
  }

  // ------------------------------------------------------------ grouping

  /** The dict values among the values of a dict, in order. */
  function Dicts(values: seq<Value>): (r: seq<Entries>)
    ensures |r| <= |values|
    decreases |values|
  {
    if values == [] then []
    else
      var last := values[|values| - 1];
      Dicts(values[..|values| - 1]) + (if last.Dict? then [last.entries] else [])
  }

  /** `_group_by_type`: non-dict values are skipped, the rest are grouped
      by type ("unknown" when missing); the membership test
      `resource_type not in grouped` raises for a type that cannot be
      hashed. */
  method GroupByType(values: seq<Value>) returns (r: Outcome<map<Value, seq<Entries>>>)
    ensures r.Raised? <==> !ResourceProcessor.TypesHashable(Dicts(values))
    ensures r.Ok? ==> r.value == Seqs.GroupBy(Dicts(values), ResourceProcessor.TypeOf)
  {
    var groups: map<Value, seq<Entries>> := map[];
    var i := 0;
    while i < |values|
      invariant 0 <= i <= |values|
      invariant ResourceProcessor.TypesHashable(Dicts(values[..i]))
      invariant groups == Seqs.GroupBy(Dicts(values[..i]), ResourceProcessor.TypeOf)
    {
      DictsStep(values, i);
      var v := values[i];
      if v.Dict? {
        var t := ResourceProcessor.TypeOf(v.entries);
        if !Hashable(t) {
          UnhashableDict(values, i);
          return Raised;
        }
        GroupStep(values, i);
        groups := groups[t := (if t in groups then groups[t] else []) + [v.entries]];
      }
      i := i + 1;
    }
    assert values[..i] == values;
    return Ok(groups);
  }

  /** The dict values of one more value. */
  lemma DictsStep(values: seq<Value>, i: nat)
    requires i < |values|
    ensures values[i].Dict? ==> Dicts(values[..i + 1]) == Dicts(values[..i]) + [values[i].entries]
    ensures !values[i].Dict? ==> Dicts(values[..i + 1]) == Dicts(values[..i])
  {
    assert values[..i + 1][..i] == values[..i];
  }

  /** Grouping one more dict value adds it to the group of its type. */
  lemma GroupStep(values: seq<Value>, i: nat)
    requires i < |values| && values[i].Dict?
    ensures var g := Seqs.GroupBy(Dicts(values[..i]), ResourceProcessor.TypeOf);
      var t := ResourceProcessor.TypeOf(values[i].entries);
      Seqs.GroupBy(Dicts(values[..i + 1]), ResourceProcessor.TypeOf)
        == g[t := (if t in g then g[t] else []) + [values[i].entries]]
  {
    DictsStep(values, i);
    var d := Dicts(values[..i]) + [values[i].entries];
    assert d[..|d| - 1] == Dicts(values[..i]);
  }

  /** A dict value whose type cannot be hashed makes the grouping raise. */
  lemma UnhashableDict(values: seq<Value>, i: nat)
    requires i < |values| && values[i].Dict? && !Hashable(ResourceProcessor.TypeOf(values[i].entries))
    ensures !ResourceProcessor.TypesHashable(Dicts(values))
  {
    DictsStep(values, i);
    DictsPrefix(values, i + 1);
    assert Dicts(values)[|Dicts(values[..i])|] == values[i].entries;
  }

  /** The dict values of a prefix are a prefix of the dict values. */
  lemma {:induction false} DictsPrefix(values: seq<Value>, n: nat)
    requires n <= |values|
    ensures Dicts(values[..n]) <= Dicts(values)
    decreases |values|
  {
    if n < |values| {
      assert values[..|values| - 1][..n] == values[..n];
      DictsPrefix(values[..|values| - 1], n);
    } else {
      assert values[..n] == values;
    }
  }

  /** What one collector yields in `audit_all_resources`: its collected
      resources, or an exception. */
  datatype Collected = Collected(serviceName: string, resources: Outcome<seq<Entries>>)

  /** The result of `audit_all_resources`: for each service, the unmanaged
      resources of its collectors in order; a collector whose collection,
      filtering or display raises adds nothing, and a service appears only
      with at least one resource. */
  function AuditResult(cs: seq<Collected>, managedKeys: set<Value>, ps: seq<Exclusion.Pattern>,
                       target: Option<string>): map<string, seq<Entries>>
    decreases |cs|
  {
    if cs == [] then map[]
    else
      var m := AuditResult(cs[..|cs| - 1], managedKeys, ps, target);
      var c := cs[|cs| - 1];
      match c.resources
      case Raised => m
      case Ok(rs) =>
        match Unmanaged(rs, managedKeys, ps, target)
        case Raised => m
        case Ok(u) =>
          if u == [] || !ResourceProcessor.TypesHashable(u) then m
          else m[c.serviceName := (if c.serviceName in m then m[c.serviceName] else []) + u]
  }

  // ------------------------------------------------------------ lemmas

  lemma MergeAssoc(a: map<string, string>, b: map<string, string>, c: map<string, string>)
    ensures (a + b) + c == a + (b + c)
  {
  }

  lemma UnmanagedSnoc(xs: seq<Entries>, x: Entries, managedKeys: set<Value>, ps: seq<Exclusion.Pattern>,
                      target: Option<string>)
    requires Unmanaged(xs, managedKeys, ps, target).Ok?
    ensures Unmanaged(xs + [x], managedKeys, ps, target) ==
      match Keeps(x, managedKeys, ps, target)
      case Raised => Raised
      case Ok(keep) => Ok(Unmanaged(xs, managedKeys, ps, target).value + if keep then [x] else [])
  {
    assert (xs + [x])[..|xs|] == xs;
  }

  lemma {:induction false} UnmanagedRaises(resources: seq<Entries>, managedKeys: set<Value>,
                                          ps: seq<Exclusion.Pattern>, target: Option<string>, n: nat)
    requires 0 < n <= |resources|
    requires Unmanaged(resources[..n - 1], managedKeys, ps, target).Ok?
    requires Keeps(resources[n - 1], managedKeys, ps, target).Raised?
    ensures Unmanaged(resources, managedKeys, ps, target).Raised?
    decreases |resources|
  {
    if n < |resources| {
      var init := resources[..|resources| - 1];
      assert init[..n - 1] == resources[..n - 1] && init[n - 1] == resources[n - 1];
      UnmanagedRaises(init, managedKeys, ps, target, n);
    } else {
      assert resources[..|resources| - 1] == resources[..n - 1];
    }
  }

  /** The kept resources are exactly those whose key is not managed, that
      are not excluded, and that have the target type when there is one;
      they keep their order. */
  lemma {:induction false} UnmanagedIsFilter(resources: seq<Entries>, managedKeys: set<Value>,
                                            ps: seq<Exclusion.Pattern>, target: Option<string>)
    requires Unmanaged(resources, managedKeys, ps, target).Ok?
    ensures Unmanaged(resources, managedKeys, ps, target).value
      == Seqs.Filter(resources, res => Keeps(res, managedKeys, ps, target) == Ok(true))
    decreases |resources|
  {
    if resources != [] {
      UnmanagedIsFilter(resources[..|resources| - 1], managedKeys, ps, target);
    }
  }

  /** A resource is reported unmanaged iff it is one of the input, its key
      is not managed, it is not excluded, and it matches the target. */
  lemma UnmanagedMember(resources: seq<Entries>, managedKeys: set<Value>, ps: seq<Exclusion.Pattern>,
                        target: Option<string>, res: Entries)
    requires Unmanaged(resources, managedKeys, ps, target).Ok?
    ensures res in Unmanaged(resources, managedKeys, ps, target).value <==>
      res in resources
      && ResourceKey(res) !in managedKeys
      && Exclusion.Excludes(ps, res) == Ok(false)
      && (target.None? || target.value == "" || GetOr(res, "type", Null) == Str(target.value))
  {
    var keep := r => Keeps(r, managedKeys, ps, target) == Ok(true);
    UnmanagedIsFilter(resources, managedKeys, ps, target);
    Seqs.FilterMember(resources, keep, res);
  }

  /** The output is the input with some resources left out. */
  lemma UnmanagedIsSubsequence(resources: seq<Entries>, managedKeys: set<Value>, ps: seq<Exclusion.Pattern>,
                               target: Option<string>)
    requires Unmanaged(resources, managedKeys, ps, target).Ok?
    ensures Seqs.IsSubseq(Unmanaged(resources, managedKeys, ps, target).value, resources)
  {
    UnmanagedIsFilter(resources, managedKeys, ps, target);
    Seqs.FilterIsSubseq(resources, res => Keeps(res, managedKeys, ps, target) == Ok(true));
  }

  /** A target `aws_<service>_<rest>` selects the collectors of `<service>`. */
  lemma RelevantService(service: string, rest: string, collectors: seq<CollectorBase.Collector>)
    requires '_' !in service
    ensures Relevant(Some("aws_" + service + "_" + rest), collectors)
      == Seqs.Filter(collectors, OfService(service))
  {
    var t := "aws_" + service + "_" + rest;
    BeforeFirstSep("aws", '_', service + "_" + rest);
    assert t == "aws" + "_" + (service + "_" + rest);
    assert t[4..] == service + "_" + rest;
    BeforeFirstSep(service, '_', rest);
    assert Split(t, '_')[1..] == Split(service + "_" + rest, '_');
  }

  /** A target without `_` selects no collector. */
  lemma RelevantNeedsTwoParts(target: string, collectors: seq<CollectorBase.Collector>)
    requires target != "" && '_' !in target
    ensures Relevant(Some(target), collectors) == []
  {
  }

  /** A service gets a key only with at least one unmanaged resource. */
  lemma {:induction false} AuditKeysNonEmpty(cs: seq<Collected>, managedKeys: set<Value>, ps: seq<Exclusion.Pattern>,
                                            target: Option<string>, s: string)
    requires s in AuditResult(cs, managedKeys, ps, target)
    ensures AuditResult(cs, managedKeys, ps, target)[s] != []
    decreases |cs|
  {
    var init := AuditResult(cs[..|cs| - 1], managedKeys, ps, target);
    if s in init {
      AuditKeysNonEmpty(cs[..|cs| - 1], managedKeys, ps, target, s);
    }
  }

  /** A collector that raises does not change what the others report. */
  lemma FailingCollectorIgnored(cs: seq<Collected>, s: string, managedKeys: set<Value>, ps: seq<Exclusion.Pattern>,
                                target: Option<string>)
    ensures AuditResult(cs + [Collected(s, Raised)], managedKeys, ps, target) == AuditResult(cs, managedKeys, ps, target)
  {
    assert (cs + [Collected(s, Raised)])[..|cs|] == cs;
  }

  /** What a collector reports lands under its service, after what earlier
      collectors of the same service reported; other services are untouched. */
  lemma ReportedUnderService(cs: seq<Collected>, c: Collected, managedKeys: set<Value>, ps: seq<Exclusion.Pattern>,
                             target: Option<string>, other: string)
    requires c.resources.Ok? && Unmanaged(c.resources.value, managedKeys, ps, target).Ok?
    requires Unmanaged(c.resources.value, managedKeys, ps, target).value != []
    requires ResourceProcessor.TypesHashable(Unmanaged(c.resources.value, managedKeys, ps, target).value)
    requires other != c.serviceName
    ensures var before := AuditResult(cs, managedKeys, ps, target);
      var after := AuditResult(cs + [c], managedKeys, ps, target);
      && c.serviceName in after
      && after[c.serviceName]
        == (if c.serviceName in before then before[c.serviceName] else []) + Unmanaged(c.resources.value, managedKeys, ps, target).value
      && (other in after <==> other in before)
      && (other in before ==> after[other] == before[other])
  {
    assert (cs + [c])[..|cs|] == cs;
  }
}
