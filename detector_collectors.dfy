/** The detector's collector base: the ARN builder shared by its collectors and
    the registry that runs every collector once.  A collector is abstracted as
    its service name and the outcome of its `collect` call (the AWS calls
    themselves are not modelled); the account id and the region are
    parameters.
 */
module DetectorCollectors {
  import opened Py
  import Arn

  // ------------------------------------------------------------ ARNs

  /** `ResourceCollector.build_arn`: an ARN of the collector's service,
      ending in the resource id. */
  function BuildArn(service: string, account: string, region: string, resourceType: string, id: string): (r: string)
    ensures StartsWith(r, "arn:aws:" + service + ":")
    ensures |r| >= |id| && r[|r| - |id|..] == id
  {
    if service == "s3" then "arn:aws:s3:::" + id
    else if service == "iam" then "arn:aws:iam::" + account + ":" + resourceType + "/" + id
    else "arn:aws:" + service + ":" + region + ":" + account + ":" + resourceType + "/" + id
  }

  /** The six colon-separated fields of an ARN the builder writes: S3 names
      neither region nor account, IAM names no region. */
  function ArnFields(service: string, account: string, region: string, resourceType: string, id: string): seq<string> {
    if service == "s3" then ["arn", "aws", "s3", "", "", id]
    else if service == "iam" then ["arn", "aws", "iam", "", account, resourceType + "/" + id]
    else ["arn", "aws", service, region, account, resourceType + "/" + id]
  }

  /** The ARN is its fields joined by `:`. */
  lemma BuildArnJoin(service: string, account: string, region: string, resourceType: string, id: string)
    ensures BuildArn(service, account, region, resourceType, id) == Join(":", ArnFields(service, account, region, resourceType, id))
  {
    if service == "s3" {
      Arn.S3Fields(id);
    } else if service == "iam" {
      Arn.IamFields(account, resourceType, id);
    } else {
      Arn.RegionalFields(service, region, account, resourceType, id);
    }
  }

  /** When no part contains a colon, splitting the ARN at `:` gives its
      fields back. */
  lemma BuildArnFields(service: string, account: string, region: string, resourceType: string, id: string)
    requires ':' !in service && ':' !in account && ':' !in region && ':' !in resourceType && ':' !in id
    ensures Split(BuildArn(service, account, region, resourceType, id), ':') == ArnFields(service, account, region, resourceType, id)
  {
    var fs := ArnFields(service, account, region, resourceType, id);
    BuildArnJoin(service, account, region, resourceType, id);
    assert ':' !in resourceType + "/" + id;
    assert forall i :: 0 <= i < |fs| ==> ':' !in fs[i];
    SplitJoin(fs, ':');
  }

  /** The resource id can be read back from the ARN: after the last `/`, or
      for S3, which has no resource type, after the last `:`. */
  lemma BuildArnEndsWithId(service: string, account: string, region: string, resourceType: string, id: string)
    ensures service != "s3" && '/' !in id ==> AfterLast(BuildArn(service, account, region, resourceType, id), '/') == id
    ensures service == "s3" && ':' !in id ==> AfterLast(BuildArn(service, account, region, resourceType, id), ':') == id
  {
    var s := BuildArn(service, account, region, resourceType, id);
    if service == "s3" {
      if ':' !in id {
        assert s == "arn:aws:s3::" + [':'] + id;
        AfterLastSep("arn:aws:s3::", ':', id);
      }
    } else if '/' !in id {
      if service == "iam" {
        assert s == ("arn:aws:iam::" + account + ":" + resourceType) + ['/'] + id;
        AfterLastSep("arn:aws:iam::" + account + ":" + resourceType, '/', id);
      } else {
        assert s == ("arn:aws:" + service + ":" + region + ":" + account + ":" + resourceType) + ['/'] + id;
        AfterLastSep("arn:aws:" + service + ":" + region + ":" + account + ":" + resourceType, '/', id);
      }
    }
  }

  // ------------------------------------------------------------ registry

  /** A registered collector: its service name and what its `collect`
      returns or that it raises. */
  datatype Collector = Collector(serviceName: string, collected: Outcome<seq<Entries>>)

  /** One call of the progress callback: service, status, resource count. */
  datatype Event = Event(service: string, status: string, count: Option<int>)

  /** The collector registered for a service, if any. */
  function Find(cs: seq<Collector>, service: string): Option<Collector> {
    if cs == [] then None
    else if cs[0].serviceName == service then Some(cs[0])
    else Find(cs[1..], service)
  }

  function Names(cs: seq<Collector>): set<string> {
    set i | 0 <= i < |cs| :: cs[i].serviceName
  }

  predicate DistinctNames(cs: seq<Collector>) {
    forall i, j :: 0 <= i < j < |cs| ==> cs[i].serviceName != cs[j].serviceName
  }

  /** `self._collectors[name] = collector`: an existing service keeps its
      place and gets the new collector; a new one goes last. */
  function Installed(cs: seq<Collector>, c: Collector): (r: seq<Collector>)
    ensures Find(r, c.serviceName) == Some(c)
    ensures forall n :: n != c.serviceName ==> Find(r, n) == Find(cs, n)
    decreases |cs|
  {
    if cs == [] then [c]
    else if cs[0].serviceName == c.serviceName then [c] + cs[1..]
    else [cs[0]] + Installed(cs[1..], c)
  }

  lemma NamesCons(c: Collector, cs: seq<Collector>)
    ensures Names([c] + cs) == {c.serviceName} + Names(cs)
  {
    var r := [c] + cs;
    assert r[0].serviceName == c.serviceName;
    forall n | n in Names(r) ensures n in {c.serviceName} + Names(cs) {
      var i :| 0 <= i < |r| && r[i].serviceName == n;
      if i > 0 { assert cs[i - 1].serviceName == n; }
    }
    forall n | n in Names(cs) ensures n in Names(r) {
      var i :| 0 <= i < |cs| && cs[i].serviceName == n;
      assert r[i + 1].serviceName == n;
    }
  }

  /** Installing adds the service name, and keeps the names distinct. */
  lemma {:induction false} InstalledNames(cs: seq<Collector>, c: Collector)
    ensures Names(Installed(cs, c)) == Names(cs) + {c.serviceName}
    ensures DistinctNames(cs) ==> DistinctNames(Installed(cs, c))
    decreases |cs|
  {
    if cs != [] {
      NamesCons(cs[0], cs[1..]);
      assert [cs[0]] + cs[1..] == cs;
      if cs[0].serviceName == c.serviceName {
        NamesCons(c, cs[1..]);
      } else {
        var rest := Installed(cs[1..], c);
        InstalledNames(cs[1..], c);
        NamesCons(cs[0], rest);
        if DistinctNames(cs) {
          assert DistinctNames(cs[1..]) by {
            forall i, j | 0 <= i < j < |cs[1..]| ensures cs[1..][i].serviceName != cs[1..][j].serviceName {
              assert cs[1..][i] == cs[i + 1] && cs[1..][j] == cs[j + 1];
            }
          }
          forall i | 0 <= i < |cs[1..]| ensures cs[1..][i].serviceName != cs[0].serviceName {
            assert cs[1..][i] == cs[i + 1];
          }
          assert cs[0].serviceName !in Names(cs[1..]);
          forall i | 0 <= i < |rest| ensures rest[i].serviceName != cs[0].serviceName {
            assert rest[i].serviceName in Names(rest);
          }
        }
      }
    }
  }

  /** What one collector contributes to the results: its list, or `[]` when
      it raised. */
  function Contribution(c: Collector): seq<Entries> {
    match c.collected
    case Ok(rs) => rs
    case Raised => []
  }

  /** The callbacks made for one collector. */
  function Reports(c: Collector): seq<Event> {
    match c.collected
    case Ok(rs) => [Event(c.serviceName, "Starting", None), Event(c.serviceName, "Completed", Some(|rs|))]
    case Raised => [Event(c.serviceName, "Starting", None), Event(c.serviceName, "Failed", Some(0))]
  }

  /** The result of `collect_all` over collectors in registration order. */
  function Results(cs: seq<Collector>): seq<(string, seq<Entries>)>
    decreases |cs|
  {
    if cs == [] then [] else Results(cs[..|cs| - 1]) + [(cs[|cs| - 1].serviceName, Contribution(cs[|cs| - 1]))]
  }

  /** The callbacks of `collect_all`, when a callback is given. */
  function Callbacks(cs: seq<Collector>): seq<Event>
    decreases |cs|
  {
    if cs == [] then [] else Callbacks(cs[..|cs| - 1]) + Reports(cs[|cs| - 1])
  }

  /** `ResourceRegistry`: the collectors by service name, in the order a
      Python dict keeps them. */
  class ResourceRegistry {
    var collectors: seq<Collector>

    ghost predicate Valid()
      reads this
    {
      DistinctNames(collectors)
    }

    constructor ()
      ensures collectors == [] && Valid()
    {
      collectors := [];
    }

    /** `register`: `made` is the outcome of instantiating the collector
        class; one that raised is not registered. */
    method Register(made: Outcome<Collector>)
      requires Valid()
      modifies this
      ensures Valid()
      ensures made.Raised? ==> collectors == old(collectors)
      ensures made.Ok? ==> collectors == Installed(old(collectors), made.value)
    {
      if made.Ok? {
        InstalledNames(collectors, made.value);
        collectors := Installed(collectors, made.value);
      }
    }

    /** `collect_all`: one result per registered collector; `events` are the
        progress callbacks, made only when `hasCallback`. */
    method CollectAll(hasCallback: bool) returns (results: seq<(string, seq<Entries>)>, events: seq<Event>)
      ensures results == Results(collectors)
      ensures events == if hasCallback then Callbacks(collectors) else []
    {
      results := [];
      events := [];
      var i := 0;
      while i < |collectors|
        invariant 0 <= i <= |collectors|
        invariant results == Results(collectors[..i])
        invariant events == if hasCallback then Callbacks(collectors[..i]) else []
      {
        var c := collectors[i];
        assert collectors[..i + 1][..i] == collectors[..i];
        if hasCallback {
          events := events + [Event(c.serviceName, "Starting", None)];
        }
        match c.collected {
          case Ok(rs) =>
            if hasCallback {
              events := events + [Event(c.serviceName, "Completed", Some(|rs|))];
            }
            results := results + [(c.serviceName, rs)];
          case Raised =>
            if hasCallback {
              events := events + [Event(c.serviceName, "Failed", Some(0))];
            }
            results := results + [(c.serviceName, [])];
        }
        i := i + 1;
      }
      assert collectors[..i] == collectors;
    }
  }

  // ------------------------------------------------------------ lemmas

  /** Registering a collector makes it the one found for its service, leaves
      the other services alone, and a later one for the same service replaces
      the earlier one without adding an entry. */
  lemma RegisterReplaces(cs: seq<Collector>, c: Collector, d: Collector)
    requires c.serviceName == d.serviceName
    ensures Find(Installed(Installed(cs, c), d), c.serviceName) == Some(d)
    ensures Names(Installed(Installed(cs, c), d)) == Names(cs) + {c.serviceName}
  {
    InstalledNames(cs, c);
    InstalledNames(Installed(cs, c), d);
  }

  /** Every registered service has exactly one result, at its registration
      position, holding its list or `[]` when its collector raised. */
  lemma {:induction false} ResultsPerService(cs: seq<Collector>)
    ensures |Results(cs)| == |cs|
    ensures forall i :: 0 <= i < |cs| ==> Results(cs)[i] == (cs[i].serviceName, Contribution(cs[i]))
    decreases |cs|
  {
    if cs != [] {
      var init := cs[..|cs| - 1];
      ResultsPerService(init);
      forall i | 0 <= i < |cs| - 1 ensures Results(cs)[i] == (cs[i].serviceName, Contribution(cs[i])) {
        assert init[i] == cs[i];
      }
    }
  }

  /** The callbacks come in pairs, one pair per service in registration
      order: `Starting`, then `Completed` with the count or `Failed` with 0. */
  lemma {:induction false} CallbacksPerService(cs: seq<Collector>)
    ensures |Callbacks(cs)| == 2 * |cs|
    ensures forall i :: 0 <= i < |cs| ==>
      Callbacks(cs)[2 * i] == Reports(cs[i])[0] && Callbacks(cs)[2 * i + 1] == Reports(cs[i])[1]
    decreases |cs|
  {
    if cs != [] {
      var init := cs[..|cs| - 1];
      CallbacksPerService(init);
      assert Callbacks(cs) == Callbacks(init) + Reports(cs[|cs| - 1]);
      forall i | 0 <= i < |cs| - 1
        ensures Callbacks(cs)[2 * i] == Reports(cs[i])[0] && Callbacks(cs)[2 * i + 1] == Reports(cs[i])[1]
      {
        assert init[i] == cs[i];
      }
    }
  }

  /** The result has one entry per registered service and no other. */
  lemma ResultKeysAreServices(cs: seq<Collector>, service: string)
    ensures (exists i :: 0 <= i < |Results(cs)| && Results(cs)[i].0 == service) <==> service in Names(cs)
  {
    ResultsPerService(cs);
    if service in Names(cs) {
      var i :| 0 <= i < |cs| && cs[i].serviceName == service;
      assert Results(cs)[i].0 == service;
    }
  }
}
