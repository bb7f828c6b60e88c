/** Deciding whether a collected resource is managed by Terraform: a lookup
    table built from the managed records, and a checker that remembers the
    identifiers it has already processed.  The collector's
    `generate_resource_identifier` is the parameter `generate`.
 */
module ResourceManagement {
  import opened Py

  type ManagedMap = map<Value, Entries>

  /** The identifiers tried, in order: the collector's, the `arn` entry,
      `type:id`. */
  function Candidates(res: Entries, rid: Value): (r: seq<Value>)
    ensures |r| >= 1 && r[0] == rid
  {
    var rtype := GetOr(res, "type", Null);
    [rid]
    + (if HasKey(res, "arn") then [GetOr(res, "arn", Null)] else [])
    + (if Truthy(rtype) && HasKey(res, "id") then [Str(Show(rtype) + ":" + Show(GetOr(res, "id", Null)))] else [])
  }

  /** The record of the first candidate in the lookup; asking for an
      unhashable key raises. */
  function FirstHit(cands: seq<Value>, lookup: ManagedMap): Outcome<Option<Entries>>
    decreases |cands|
  {
    if cands == [] then Ok(None)
    else if !Hashable(cands[0]) then Raised
    else if cands[0] in lookup then Ok(Some(lookup[cands[0]]))
    else FirstHit(cands[1..], lookup)
  }

  /** `is_resource_managed` */
  function IsManaged(processed: set<Value>, res: Entries, lookup: ManagedMap, generate: Entries -> Outcome<Value>)
    : Outcome<Option<Entries>>
  {
    var rid :- generate(res);
    if !Truthy(rid) then Ok(None)
    else if !Hashable(rid) then Raised
    else if rid in processed then Ok(None)
    else FirstHit(Candidates(res, rid), lookup)
  }

  /** `dict.update`: every entry of `b` is set in `a`, in order. */
  function Update(a: Entries, b: Entries): Entries
    decreases |b|
  {
    if b == [] then a else Put(Update(a, b[..|b| - 1]), b[|b| - 1].0, b[|b| - 1].1)
  }

  /** `process_resource` as a function of the identifiers processed so far. */
  function Processed(processed: set<Value>, res: Entries, lookup: ManagedMap, generate: Entries -> Outcome<Value>)
    : Outcome<Option<Entries>>
  {
    var rid :- generate(res);
    if !Truthy(rid) then Ok(None)
    else if !Hashable(rid) then Raised
    else if rid in processed then Ok(None)
    else
      var copy := Put(res, "identifier", rid);
      var found :- IsManaged(processed, res, lookup, generate);
      match found
      case Some(m) =>
        Ok(Some(Put(Put(Update(copy, m), "details", GetOr(res, "details", Dict([]))), "managed", Bool(true))))
      case None => Ok(Some(Put(copy, "managed", Bool(false))))
  }

  // ------------------------------------------------------------ the lookup

  /** The type a managed record is filed under: the part after its last `.`. */
  function FiledType(rec: Entries): Outcome<Value> {
    var t := GetOr(rec, "type", Str(""));
    var dotted :- In(".", t);
    if dotted then
      var s :- AsStr(t);
      var parts := Split(s, '.');
      Ok(Str(parts[|parts| - 1]))
    else Ok(t)
  }

  /** The one key a managed record is filed under: its `arn`, else
      `type:id`, else whatever the collector makes of it; None when that is
      falsy. */
  function LookupKey(rec: Entries, generate: Entries -> Outcome<Value>): Outcome<Option<Value>> {
    var t :- FiledType(rec);
    var key :-
      if HasKey(rec, "arn") then Ok(Some(GetOr(rec, "arn", Null)))
      else if Truthy(t) && HasKey(rec, "id") then Ok(Some(Str(Show(t) + ":" + Show(GetOr(rec, "id", Null)))))
      else
        var custom :- generate(Put(rec, "type", t));
        Ok(if Truthy(custom) then Some(custom) else None);
    if key.Some? && !Hashable(key.value) then Raised else Ok(key)
  }

  /** `create_managed_lookup` over the managed records in the order the
      dict holds them; a later record filed under the same key replaces an
      earlier one. */
  function ManagedLookup(records: seq<Entries>, generate: Entries -> Outcome<Value>): Outcome<ManagedMap>
    decreases |records|
  {
    if records == [] then Ok(map[])
    else
      var m :- ManagedLookup(records[..|records| - 1], generate);
      var last := records[|records| - 1];
      var key :- LookupKey(last, generate);
      if key.Some? then Ok(m[key.value := Put(last, "managed", Bool(true))]) else Ok(m)
  }

  method CreateManagedLookup(records: seq<Entries>, generate: Entries -> Outcome<Value>) returns (r: Outcome<ManagedMap>)
    ensures r == ManagedLookup(records, generate)
  {
    var lookup: ManagedMap := map[];
    var i := 0;
    while i < |records|
      invariant 0 <= i <= |records|
      invariant ManagedLookup(records[..i], generate) == Ok(lookup)
    {
      assert records[..i + 1][..i] == records[..i];
      var rec := records[i];
      var key := LookupKey(rec, generate);
      if key.Raised? {
        assert records[..i + 1][i] == rec;
        ManagedLookupRaises(records, generate, i + 1);
        return Raised;
      }
      if key.value.Some? {
        lookup := lookup[key.value.value := Put(rec, "managed", Bool(true))];
      }
      i := i + 1;
    }
    assert records[..i] == records;
    r := Ok(lookup);
  }

  /** `ResourceManagementChecker` */
  class ResourceManagementChecker {
    var processed: set<Value>

    constructor ()
      ensures processed == {}
    {
      processed := {};
    }

    /** `is_resource_managed`: the identifiers are tried in order. */
    method IsResourceManaged(res: Entries, lookup: ManagedMap, generate: Entries -> Outcome<Value>)
      returns (r: Outcome<Option<Entries>>)
      ensures r == IsManaged(processed, res, lookup, generate)
    {
      var rid := generate(res);
      if rid.Raised? {
        return Raised;
      }
      if !Truthy(rid.value) {
        return Ok(None);
      }
      if !Hashable(rid.value) {
        return Raised;
      }
      if rid.value in processed {
        return Ok(None);
      }
      var cands := Candidates(res, rid.value);
      var i := 0;
      while i < |cands|
        invariant 0 <= i <= |cands|
        invariant FirstHit(cands[i..], lookup) == FirstHit(cands, lookup)
      {
        assert cands[i..][1..] == cands[i + 1..];
        var c := cands[i];
        if !Hashable(c) {
          return Raised;
        }
        if c in lookup {
          return Ok(Some(lookup[c]));
        }
        i := i + 1;
      }
      r := Ok(None);
    }

    /** `process_resource`: the identifier is remembered once a result is
        returned. */
    method ProcessResource(res: Entries, lookup: ManagedMap, generate: Entries -> Outcome<Value>)
      returns (r: Outcome<Option<Entries>>)
      modifies this
      ensures r == Processed(old(processed), res, lookup, generate)
      ensures processed ==
        if r.Ok? && r.value.Some? then old(processed) + {generate(res).value} else old(processed)
    {
      var rid := generate(res);
      if rid.Raised? {
        return Raised;
      }
      if !Truthy(rid.value) {
        return Ok(None);
      }
      if !Hashable(rid.value) {
        return Raised;
      }
      if rid.value in processed {
        return Ok(None);
      }
      var copy := Put(res, "identifier", rid.value);
      var found := IsResourceManaged(res, lookup, generate);
      if found.Raised? {
        return Raised;
      }
      if found.value.Some? {
        copy := Put(Put(Update(copy, found.value.value), "details", GetOr(res, "details", Dict([]))), "managed", Bool(true));
      } else {
        copy := Put(copy, "managed", Bool(false));
      }
      processed := processed + {rid.value};
      r := Ok(Some(copy));
    }
  }

  // ------------------------------------------------------------ lemmas

  /** After `a.update(b)` a key of `b` has its value from `b`, and any
      other key keeps its value from `a`. */
  lemma {:induction false} UpdateLookup(a: Entries, b: Entries, k: string)
    requires UniqueKeys(b)
    ensures HasKey(b, k) ==> Lookup(Update(a, b), k) == Lookup(b, k)
    ensures !HasKey(b, k) ==> Lookup(Update(a, b), k) == Lookup(a, k)
    decreases |b|
  {
    if b != [] {
      var init := b[..|b| - 1];
      var (lk, lv) := b[|b| - 1];
      assert b == init + [(lk, lv)];
      UpdateLookup(a, init, k);
      LookupSnoc(init, lk, lv, k);
      if k == lk {
        assert !HasKey(init, lk);
      } else if HasKey(b, k) {
        var i :| 0 <= i < |b| && b[i].0 == k;
        assert init[i].0 == k;
      }
    }
  }

  lemma {:induction false} ManagedLookupRaises(records: seq<Entries>, generate: Entries -> Outcome<Value>, n: nat)
    requires 0 < n <= |records|
    requires ManagedLookup(records[..n - 1], generate).Ok?
    requires LookupKey(records[n - 1], generate).Raised?
    ensures ManagedLookup(records, generate).Raised?
    decreases |records|
  {
    if n < |records| {
      var init := records[..|records| - 1];
      assert init[..n - 1] == records[..n - 1] && init[n - 1] == records[n - 1];
      ManagedLookupRaises(init, generate, n);
    } else {
      assert records[..|records| - 1] == records[..n - 1];
    }
  }

  /** The first candidate found in the lookup wins: its record is returned
      and no earlier candidate is in the lookup; None means no candidate is. */
  lemma {:induction false} FirstHitFirst(cands: seq<Value>, lookup: ManagedMap)
    requires forall i :: 0 <= i < |cands| ==> Hashable(cands[i])
    ensures var r := FirstHit(cands, lookup);
      r.Ok?
      && (r.value.None? <==> forall i :: 0 <= i < |cands| ==> cands[i] !in lookup)
      && (r.value.Some? ==> exists i :: 0 <= i < |cands| && cands[i] in lookup && r.value.value == lookup[cands[i]]
                                      && forall j :: 0 <= j < i ==> cands[j] !in lookup)
    decreases |cands|
  {
    if cands != [] {
      FirstHitFirst(cands[1..], lookup);
      var r := FirstHit(cands, lookup);
      if cands[0] !in lookup && r.value.Some? {
        var i :| 0 <= i < |cands[1..]| && cands[1..][i] in lookup && r.value.value == lookup[cands[1..][i]]
                 && forall j :: 0 <= j < i ==> cands[1..][j] !in lookup;
        assert cands[i + 1] in lookup && r.value.value == lookup[cands[i + 1]];
        forall j | 0 <= j < i + 1 ensures cands[j] !in lookup {
          if j > 0 {
            assert cands[1..][j - 1] == cands[j];
          }
        }
      }
    }
  }

  /** With no identifier, or one already processed, there is no result. */
  lemma NoIdentifierOrRepeat(processed: set<Value>, res: Entries, lookup: ManagedMap, generate: Entries -> Outcome<Value>)
    requires generate(res).Ok?
    requires !Truthy(generate(res).value) || (Hashable(generate(res).value) && generate(res).value in processed)
    ensures IsManaged(processed, res, lookup, generate) == Ok(None)
    ensures Processed(processed, res, lookup, generate) == Ok(None)
  {
  }

  /** A second `process_resource` for the same resource returns None. */
  lemma SecondCallSkipped(processed: set<Value>, res: Entries, lookup: ManagedMap, generate: Entries -> Outcome<Value>)
    requires Processed(processed, res, lookup, generate).Ok?
    requires Processed(processed, res, lookup, generate).value.Some?
    ensures Processed(processed + {generate(res).value}, res, lookup, generate) == Ok(None)
  {
  }

  /** The result carries the management verdict: a found record is merged
      in but the collector's details are kept and `managed` is True;
      otherwise `managed` is False and every other field of the resource is
      kept.  The identifier survives unless the managed record brings its
      own. */
  lemma ProcessedShape(processed: set<Value>, res: Entries, lookup: ManagedMap, generate: Entries -> Outcome<Value>)
    requires Processed(processed, res, lookup, generate).Ok?
    requires Processed(processed, res, lookup, generate).value.Some?
    requires forall k :: k in lookup ==> UniqueKeys(lookup[k])
    ensures var out := Processed(processed, res, lookup, generate).value.value;
      var found := IsManaged(processed, res, lookup, generate).value;
      Lookup(out, "managed") == Some(Bool(found.Some?))
      && (found.Some? ==> Lookup(out, "details") == Some(GetOr(res, "details", Dict([]))))
      && (found.None? || !HasKey(found.value, "identifier") ==> Lookup(out, "identifier") == Some(generate(res).value))
      && (found.Some? ==> forall k :: HasKey(found.value, k) && k != "details" && k != "managed" ==>
                            Lookup(out, k) == Lookup(found.value, k))
      && (found.None? ==> forall k :: k != "identifier" && k != "managed" ==> Lookup(out, k) == Lookup(res, k))
  {
    var rid := generate(res).value;
    var found := IsManaged(processed, res, lookup, generate).value;
    if found.Some? {
      FirstHitIn(Candidates(res, rid), lookup);
      var copy := Put(res, "identifier", rid);
      UpdateLookup(copy, found.value, "identifier");
      forall k | HasKey(found.value, k) && k != "details" && k != "managed"
        ensures Lookup(Update(copy, found.value), k) == Lookup(found.value, k)
      {
        UpdateLookup(copy, found.value, k);
      }
    }
  }

  lemma {:induction false} FirstHitIn(cands: seq<Value>, lookup: ManagedMap)
    ensures var r := FirstHit(cands, lookup);
      r.Ok? && r.value.Some? ==> exists k :: k in lookup && lookup[k] == r.value.value
    decreases |cands|
  {
    if cands != [] && Hashable(cands[0]) && cands[0] !in lookup {
      FirstHitIn(cands[1..], lookup);
    }
  }

  /** Every record in the lookup is a managed record marked managed. */
  lemma {:induction false} LookupValuesManaged(records: seq<Entries>, generate: Entries -> Outcome<Value>)
    requires ManagedLookup(records, generate).Ok?
    ensures var m := ManagedLookup(records, generate).value;
      forall k :: k in m ==>
        Lookup(m[k], "managed") == Some(Bool(true))
        && exists i :: 0 <= i < |records| && m[k] == Put(records[i], "managed", Bool(true))
    decreases |records|
  {
    if records != [] {
      var init := records[..|records| - 1];
      LookupValuesManaged(init, generate);
      var m := ManagedLookup(records, generate).value;
      forall k | k in m
        ensures exists i :: 0 <= i < |records| && m[k] == Put(records[i], "managed", Bool(true))
      {
        if k in ManagedLookup(init, generate).value && m[k] == ManagedLookup(init, generate).value[k] {
          var i :| 0 <= i < |init| && m[k] == Put(init[i], "managed", Bool(true));
          assert init[i] == records[i];
        } else {
          assert m[k] == Put(records[|records| - 1], "managed", Bool(true));
        }
      }
    }
  }

  /** The key family of a record: its `arn` when it has one, else
      `type:id` with the type cut after its last `.`. */
  lemma LookupKeyFamily(rec: Entries, generate: Entries -> Outcome<Value>, prefix: string, t: string)
    requires GetOr(rec, "type", Str("")) == Str(prefix + "." + t) && '.' !in t
    ensures FiledType(rec) == Ok(Str(t))
    ensures HasKey(rec, "arn") && Hashable(GetOr(rec, "arn", Null)) ==>
      LookupKey(rec, generate) == Ok(Some(GetOr(rec, "arn", Null)))
    ensures !HasKey(rec, "arn") && t != "" && HasKey(rec, "id") ==>
      LookupKey(rec, generate) == Ok(Some(Str(t + ":" + Show(GetOr(rec, "id", Null)))))
  {
    FiledTypeDotted(rec, prefix, t);
  }

  lemma FiledTypeDotted(rec: Entries, prefix: string, t: string)
    requires GetOr(rec, "type", Str("")) == Str(prefix + "." + t) && '.' !in t
    ensures FiledType(rec) == Ok(Str(t))
  {
    var s := prefix + "." + t;
    assert s[|prefix|..|prefix| + 1] == ".";
    ContainsAt(s, ".", |prefix|);
    LastPiece(prefix, t);
  }

  /** Cutting at every `.` ends with the text after the last `.`. */
  lemma {:induction false} LastPiece(prefix: string, t: string)
    requires '.' !in t
    ensures var parts := Split(prefix + "." + t, '.'); parts[|parts| - 1] == t
    decreases |prefix|
  {
    var s := prefix + "." + t;
    var b := BeforeFirst(s, '.');
    assert '.' in s by { assert s[|prefix|] == '.'; }
    var rest := s[|b| + 1..];
    if '.' in prefix {
      var pb := BeforeFirst(prefix, '.');
      BeforeFirstSep(pb, '.', prefix[|pb| + 1..] + "." + t);
      assert prefix == pb + "." + prefix[|pb| + 1..];
      assert s == pb + "." + (prefix[|pb| + 1..] + "." + t);
      assert rest == prefix[|pb| + 1..] + "." + t;
      LastPiece(prefix[|pb| + 1..], t);
    } else {
      BeforeFirstSep(prefix, '.', t);
      assert rest == t;
    }
  }
}
