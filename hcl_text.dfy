/** The text-building idioms that every HCL generator repeats: the loop that
    appends a block of lines per element, the `tags = { ... }` block, quoting,
    `", "`-joined lists and the resource name derived from a `Name` tag.
 */
module HclText {
  import opened Py

  /** What a generator returns: `"\n".join(lines)`, or None when it returned
      None or raised (every `generate` catches every exception). */
  function Render(o: Outcome<Option<seq<string>>>): Option<string> {
    match Catch(o)
    case Some(lines) => Some(Join("\n", lines))
    case None => None
  }

  // ------------------------------------------------------------ loops

  /** `for x in xs: lines.extend(f(x))`, where `f` may raise. */
  function ConcatMap(xs: seq<Value>, f: Value -> Outcome<seq<string>>): Outcome<seq<string>>
    decreases |xs|
  {
    if xs == [] then Ok([])
    else
      var init :- ConcatMap(xs[..|xs| - 1], f);
      var last :- f(xs[|xs| - 1]);
      Ok(init + last)
  }

  /** One element that raises makes the whole loop raise. */
  lemma {:induction false} ConcatMapRaises(xs: seq<Value>, f: Value -> Outcome<seq<string>>, i: nat)
    requires i < |xs| && f(xs[i]).Raised?
    ensures ConcatMap(xs, f).Raised?
    decreases |xs|
  {
    if i < |xs| - 1 {
      ConcatMapRaises(xs[..|xs| - 1], f, i);
    }
  }

  /** The loop raises exactly when some element raises. */
  lemma {:induction false} ConcatMapRaisedIff(xs: seq<Value>, f: Value -> Outcome<seq<string>>)
    ensures ConcatMap(xs, f).Raised? <==> exists i :: 0 <= i < |xs| && f(xs[i]).Raised?
    decreases |xs|
  {
    if xs != [] {
      var init := xs[..|xs| - 1];
      ConcatMapRaisedIff(init, f);
      if ConcatMap(xs, f).Raised? {
        if ConcatMap(init, f).Raised? {
          var i :| 0 <= i < |init| && f(init[i]).Raised?;
          assert f(xs[i]).Raised?;
        } else {
          assert f(xs[|xs| - 1]).Raised?;
        }
      } else {
        forall i | 0 <= i < |xs| ensures !f(xs[i]).Raised? {
          if i < |xs| - 1 {
            assert init[i] == xs[i];
          }
        }
      }
    }
  }

  /** What one element contributes is part of what the loop writes. */
  lemma {:induction false} ConcatMapContains(xs: seq<Value>, f: Value -> Outcome<seq<string>>, i: nat, line: string)
    requires ConcatMap(xs, f).Ok? && i < |xs|
    ensures f(xs[i]).Ok?
    ensures line in f(xs[i]).value ==> line in ConcatMap(xs, f).value
    decreases |xs|
  {
    if i < |xs| - 1 {
      ConcatMapContains(xs[..|xs| - 1], f, i, line);
      assert xs[..|xs| - 1][i] == xs[i];
    }
  }

  /** A loop whose every element contributes nothing contributes nothing. */
  lemma {:induction false} ConcatMapEmpty(xs: seq<Value>, f: Value -> Outcome<seq<string>>)
    requires forall i :: 0 <= i < |xs| ==> f(xs[i]) == Ok([])
    ensures ConcatMap(xs, f) == Ok([])
    decreases |xs|
  {
    if xs != [] {
      ConcatMapEmpty(xs[..|xs| - 1], f);
      var none: seq<string> := [];
      assert f(xs[|xs| - 1]) == Ok(none);
      assert ConcatMap(xs[..|xs| - 1], f) == Ok(none);
      assert ConcatMap(xs, f) == Ok(none + none);
      assert none + none == none;
    }
  }

  /** The loop of the generators, run element by element. */
  method ConcatLoop(xs: seq<Value>, f: Value -> Outcome<seq<string>>) returns (r: Outcome<seq<string>>)
    ensures r == ConcatMap(xs, f)
  {
    var lines: seq<string> := [];
    var i := 0;
    while i < |xs|
      invariant 0 <= i <= |xs|
      invariant ConcatMap(xs[..i], f) == Ok(lines)
    {
      var item := f(xs[i]);
      if item.Raised? {
        ConcatMapRaises(xs, f, i);
        return Raised;
      }
      assert xs[..i + 1][..i] == xs[..i];
      lines := lines + item.value;
      i := i + 1;
    }
    assert xs[..i] == xs;
    return Ok(lines);
  }

  /** `for x in v` over a value that may not be iterable. */
  method IterLoop(v: Value, f: Value -> Outcome<seq<string>>) returns (r: Outcome<seq<string>>)
    ensures r == (var xs :- Iter(v); ConcatMap(xs, f))
  {
    var xs := Iter(v);
    if xs.Raised? {
      return Raised;
    }
    r := ConcatLoop(xs.value, f);
  }

  /** `for i, x in enumerate(xs): lines.extend(f(i + 1, x))`: the loops that
      number their blocks from 1. */
  function Enumerate(xs: seq<Value>, f: (nat, Value) -> Outcome<seq<string>>): Outcome<seq<string>>
    decreases |xs|
  {
    if xs == [] then Ok([])
    else
      var init :- Enumerate(xs[..|xs| - 1], f);
      var last :- f(|xs|, xs[|xs| - 1]);
      Ok(init + last)
  }

  lemma {:induction false} EnumerateRaises(xs: seq<Value>, f: (nat, Value) -> Outcome<seq<string>>, i: nat)
    requires i < |xs| && f(i + 1, xs[i]).Raised?
    ensures Enumerate(xs, f).Raised?
    decreases |xs|
  {
    if i < |xs| - 1 {
      EnumerateRaises(xs[..|xs| - 1], f, i);
    }
  }

  /** What the `i`-th element contributes is part of the whole, under its
      1-based number. */
  lemma {:induction false} EnumerateContains(xs: seq<Value>, f: (nat, Value) -> Outcome<seq<string>>, i: nat, line: string)
    requires Enumerate(xs, f).Ok? && i < |xs|
    ensures f(i + 1, xs[i]).Ok?
    ensures line in f(i + 1, xs[i]).value ==> line in Enumerate(xs, f).value
    decreases |xs|
  {
    if i < |xs| - 1 {
      EnumerateContains(xs[..|xs| - 1], f, i, line);
      assert xs[..|xs| - 1][i] == xs[i];
    }
  }

  /** The numbered loop, run element by element. */
  method EnumerateLoop(xs: seq<Value>, f: (nat, Value) -> Outcome<seq<string>>) returns (r: Outcome<seq<string>>)
    ensures r == Enumerate(xs, f)
  {
    var lines: seq<string> := [];
    var i := 0;
    while i < |xs|
      invariant 0 <= i <= |xs|
      invariant Enumerate(xs[..i], f) == Ok(lines)
    {
      var block := f(i + 1, xs[i]);
      if block.Raised? {
        EnumerateRaises(xs, f, i);
        return Raised;
      }
      assert xs[..i + 1][..i] == xs[..i];
      lines := lines + block.value;
      i := i + 1;
    }
    assert xs[..i] == xs;
    return Ok(lines);
  }

  /** `if v: for x in v: lines.extend(f(x))` */
  function ForEach(v: Value, f: Value -> Outcome<seq<string>>): Outcome<seq<string>> {
    if !Truthy(v) then Ok([])
    else
      var xs :- Iter(v);
      ConcatMap(xs, f)
  }

  // ------------------------------------------------------------ quoting

  /** `s.replace('"', '\\"')` */
  function Escape(s: string): string {
    Replace(s, "\"", "\\\"")
  }

  /** Reads back a string written by `Escape`. */
  function Unescape(s: string): string
    decreases |s|
  {
    if |s| >= 2 && s[0] == '\\' && s[1] == '"' then "\"" + Unescape(s[2..])
    else if s == [] then []
    else [s[0]] + Unescape(s[1..])
  }

  lemma EscapeStep(s: string)
    requires s != []
    ensures Escape(s) == (if s[0] == '"' then "\\\"" else [s[0]]) + Escape(s[1..])
  {
  }

  /** Escaping loses nothing: the key and value of a tag can be read back from the HCL. */
  lemma {:induction false} UnescapeEscape(s: string)
    ensures Unescape(Escape(s)) == s
    decreases |s|
  {
    if s != [] {
      EscapeStep(s);
      UnescapeEscape(s[1..]);
      var rest := Escape(s[1..]);
      if s[0] == '"' {
        assert Escape(s) == "\\\"" + rest;
        assert Escape(s)[2..] == rest;
      } else {
        assert Escape(s) == [s[0]] + rest;
        assert Escape(s)[1..] == rest;
        if s[0] == '\\' && rest != [] {
          EscapeHead(s[1..]);
        }
      }
    }
  }

  /** An escaped string starts with a quote only when it starts with `\"`. */
  lemma EscapeHead(s: string)
    requires s != []
    ensures Escape(s)[0] != '"'
  {
    EscapeStep(s);
  }

  /** `'  key = ["' + '", "'.join(v) + '"]'` */
  function QuotedList(key: string, v: Value): Outcome<string> {
    var body :- JoinValues("\", \"", v);
    Ok("  " + key + " = [\"" + body + "\"]")
  }

  /** `", ".join(f'"{x}"' for x in v)` */
  function QuotedItems(v: Value): Outcome<string> {
    var xs :- Iter(v);
    Ok(Join(", ", seq(|xs|, i requires 0 <= i < |xs| => "\"" + Show(xs[i]) + "\"")))
  }

  /** `if v := details.get(key): hcl.append(f'  {key} = ["..."]')`: a list
      of ids, written only when it is truthy. */
  function ListSetting(d: Entries, key: string): Outcome<seq<string>> {
    var v := GetOr(d, key, Null);
    if !Truthy(v) then Ok([])
    else
      var line :- QuotedList(key, v);
      Ok([line])
  }

  // ------------------------------------------------------------ tags

  /** One tag, in the generators that skip anything but a dict holding both
      `Key` and `Value`. */
  function StrictTagLine(tag: Value): Outcome<seq<string>> {
    if tag.Dict? && HasKey(tag.entries, "Key") && HasKey(tag.entries, "Value") then
      var k :- Item(tag, "Key");
      var key :- AsStr(k);
      var v :- Item(tag, "Value");
      var value :- AsStr(v);
      Ok(["    \"" + Escape(key) + "\" = \"" + Escape(value) + "\""])
    else Ok([])
  }

  /** One tag, in the generators that read it with `tag.get("Key", "")`. */
  function LooseTagLine(tag: Value): Outcome<seq<string>> {
    var k :- Get(tag, "Key", Str(""));
    var key :- AsStr(k);
    var v :- Get(tag, "Value", Str(""));
    var value :- AsStr(v);
    Ok(["    \"" + Escape(key) + "\" = \"" + Escape(value) + "\""])
  }

  /** `if tags: hcl.append("  tags = {") ... hcl.append("  }")` */
  function TagsBlock(tags: Value, line: Value -> Outcome<seq<string>>): Outcome<seq<string>> {
    if !Truthy(tags) then Ok([])
    else
      var items :- Iter(tags);
      var body :- ConcatMap(items, line);
      Ok(["  tags = {"] + body + ["  }"])
  }

  method EmitTags(tags: Value, line: Value -> Outcome<seq<string>>) returns (r: Outcome<seq<string>>)
    ensures r == TagsBlock(tags, line)
  {
    if !Truthy(tags) {
      return Ok([]);
    }
    var body := IterLoop(tags, line);
    if body.Raised? {
      return Raised;
    }
    return Ok(["  tags = {"] + body.value + ["  }"]);
  }

  /** A tag list whose every entry is a well-formed string pair is written one
      line per tag, between the opening and the closing line. */
  lemma {:induction false} TagsBlockShape(tags: seq<Value>)
    requires tags != []
    requires forall i :: 0 <= i < |tags| ==> StrictTagLine(tags[i]).Ok? && |StrictTagLine(tags[i]).value| == 1
    ensures TagsBlock(List(tags), StrictTagLine).Ok?
    ensures |TagsBlock(List(tags), StrictTagLine).value| == |tags| + 2
  {
    ConcatMapLength(tags, StrictTagLine);
  }

  lemma {:induction false} ConcatMapLength(xs: seq<Value>, f: Value -> Outcome<seq<string>>)
    requires forall i :: 0 <= i < |xs| ==> f(xs[i]).Ok? && |f(xs[i]).value| == 1
    ensures ConcatMap(xs, f).Ok? && |ConcatMap(xs, f).value| == |xs|
    decreases |xs|
  {
    if xs != [] {
      ConcatMapLength(xs[..|xs| - 1], f);
    }
  }

  /** Every line a tag loop writes is indented by four spaces, so it is never
      mistaken for one of the two-space attribute lines of a block. */
  predicate Indented(l: string) {
    |l| >= 4 && l[0] == ' ' && l[1] == ' ' && l[2] == ' ' && l[3] == ' '
  }

  predicate AllIndented(ls: seq<string>) {
    forall i :: 0 <= i < |ls| ==> Indented(ls[i])
  }

  lemma IndentedConcat(a: seq<string>, b: seq<string>)
    requires AllIndented(a) && AllIndented(b)
    ensures AllIndented(a + b)
  {
    forall i | 0 <= i < |a + b| ensures Indented((a + b)[i]) {
      if i >= |a| {
        assert (a + b)[i] == b[i - |a|];
      }
    }
  }

  /** A block assembled from its opening lines, four groups of settings and
      the closing brace starts with the opening's first line. */
  lemma BlockHead(opening: seq<string>, a: seq<string>, b: seq<string>, c: seq<string>, e: seq<string>)
    requires |opening| > 0
    ensures var ls := opening + a + b + c + e + ["}"];
      |ls| > 0 && ls[0] == opening[0]
  {
    var ls := opening + a + b + c + e + ["}"];
    assert ls == opening + (a + b + c + e + ["}"]);
  }

  /** `"    " + key + " = " + value`, the line of a nested attribute. */
  function Nested(key: string, value: string): (r: string)
    ensures Indented(r)
  {
    "    " + key + " = " + value
  }

  lemma LooseTagLineIndented(tag: Value)
    ensures LooseTagLine(tag).Ok? ==> AllIndented(LooseTagLine(tag).value)
  {
  }

  lemma StrictTagLineIndented(tag: Value)
    ensures StrictTagLine(tag).Ok? ==> AllIndented(StrictTagLine(tag).value)
  {
  }

  lemma {:induction false} ConcatMapIndented(xs: seq<Value>, f: Value -> Outcome<seq<string>>)
    requires forall i :: 0 <= i < |xs| ==> f(xs[i]).Ok? ==> AllIndented(f(xs[i]).value)
    ensures ConcatMap(xs, f).Ok? ==> AllIndented(ConcatMap(xs, f).value)
    decreases |xs|
  {
    if xs != [] {
      ConcatMapIndented(xs[..|xs| - 1], f);
    }
  }

  /** A tags block is its opening line, indented tag lines and its closing line. */
  lemma TagsBlockLines(tags: Value)
    ensures var t := TagsBlock(tags, LooseTagLine);
      t.Ok? ==> forall l :: l in t.value ==> l == "  tags = {" || l == "  }" || Indented(l)
    ensures var t := TagsBlock(tags, StrictTagLine);
      t.Ok? ==> forall l :: l in t.value ==> l == "  tags = {" || l == "  }" || Indented(l)
  {
    var items := Iter(tags);
    if Truthy(tags) && items.Ok? {
      forall i | 0 <= i < |items.value|
        ensures LooseTagLine(items.value[i]).Ok? ==> AllIndented(LooseTagLine(items.value[i]).value)
        ensures StrictTagLine(items.value[i]).Ok? ==> AllIndented(StrictTagLine(items.value[i]).value)
      {
        LooseTagLineIndented(items.value[i]);
        StrictTagLineIndented(items.value[i]);
      }
      ConcatMapIndented(items.value, LooseTagLine);
      ConcatMapIndented(items.value, StrictTagLine);
    }
  }

  /** An attribute line `  k...` whose key starts with neither `t` nor `}`
      is not part of a tags block. */
  lemma NotInTagsBlock(l: string, tags: Value)
    requires |l| >= 3 && l[0] == ' ' && l[1] == ' ' && l[2] != ' ' && l[2] != 't' && l[2] != '}'
    ensures TagsBlock(tags, LooseTagLine).Ok? ==> l !in TagsBlock(tags, LooseTagLine).value
    ensures TagsBlock(tags, StrictTagLine).Ok? ==> l !in TagsBlock(tags, StrictTagLine).value
  {
    TagsBlockLines(tags);
    assert "  tags = {"[2] == 't' && "  }"[2] == '}';
    assert "    "[2] == ' ';
  }

  /** The tag lines of a record whose tags can be written. */
  function LooseTags(res: Entries): seq<string> {
    var t := TagsBlock(GetOr(res, "tags", List([])), LooseTagLine);
    if t.Ok? then t.value else []
  }

  function StrictTags(res: Entries): seq<string> {
    var t := TagsBlock(GetOr(res, "tags", List([])), StrictTagLine);
    if t.Ok? then t.value else []
  }

  /** An attribute line is never one of the tag lines. */
  lemma NotInTags(l: string, res: Entries)
    requires |l| >= 3 && l[0] == ' ' && l[1] == ' ' && l[2] != ' ' && l[2] != 't' && l[2] != '}'
    ensures l !in LooseTags(res) && l !in StrictTags(res)
  {
    NotInTagsBlock(l, GetOr(res, "tags", List([])));
  }

  /** `if c: hcl.append(line)` */
  function When(c: bool, line: string): (r: seq<string>)
    ensures c ==> r == [line]
    ensures !c ==> r == []
  {
    if c then [line] else []
  }

  /** A top-level setting whose value is written in quotes. */
  function QuotedSetting(key: string, value: Value): string {
    "  " + key + " = \"" + Show(value) + "\""
  }

  /** `if details.get(key): hcl.append(f'  {key} = "{details[key]}"')` */
  function OptionalSetting(d: Entries, key: string): seq<string> {
    When(Truthy(GetOr(d, key, Null)), QuotedSetting(key, GetOr(d, key, Null)))
  }

  /** A top-level setting whose value is written bare. */
  function BareSetting(key: string, value: Value): string {
    "  " + key + " = " + Show(value)
  }

  /** A top-level setting written with `str(value).lower()`, so that a
      Python bool becomes `true` or `false`. */
  function BoolSetting(key: string, value: Value): string {
    "  " + key + " = " + ShowLower(value)
  }

  /** A bool setting reads `true` or `false`. */
  lemma BoolSettingLiteral(key: string, b: bool)
    ensures BoolSetting(key, Bool(b)) == "  " + key + (if b then " = true" else " = false")
  {
    ShowLowerBool(b);
    assert ("  " + key + " = ") + "true" == "  " + key + " = true";
    assert ("  " + key + " = ") + "false" == "  " + key + " = false";
  }

  /** The opening line of a resource block. */
  function Header(resourceType: string, name: string): string {
    "resource \"" + resourceType + "\" \"" + name + "\" {"
  }

  // ------------------------------------------------------------ names

  /** `next((tag["Value"] for tag in tags if tag["Key"] == "Name"), None)` */
  function FirstNameTag(tags: seq<Value>): Outcome<Value>
    decreases |tags|
  {
    if tags == [] then Ok(Null)
    else
      var key :- Item(tags[0], "Key");
      if key == Str("Name") then Item(tags[0], "Value") else FirstNameTag(tags[1..])
  }

  /** `for tag in tags: if isinstance(tag, dict) and tag.get("Key") == "Name": return tag.get("Value")` */
  function ScanNameTag(tags: seq<Value>): Value
    decreases |tags|
  {
    if tags == [] then Null
    else if tags[0].Dict? && GetOr(tags[0].entries, "Key", Null) == Str("Name") then
      GetOr(tags[0].entries, "Value", Null)
    else ScanNameTag(tags[1..])
  }

  /** The `Name` tag of a resource whose tags are either a list of
      Key/Value dicts (the first `Name` entry) or a plain dict. */
  function NameTagOf(tags: Value): Value {
    match tags
    case List(ts) => ScanNameTag(ts)
    case Dict(es) => GetOr(es, "Name", Null)
    case _ => Null
  }

  /** The resource name of a policy attachment: the owner, `_`, and the last
      `/` segment of the policy ARN with every `-` turned into `_`. */
  function AttachmentName(owner: Value, policyArn: string): string {
    Show(owner) + "_" + Replace(AfterLast(policyArn, '/'), "-", "_")
  }

  /** `name.replace("-", "_").replace(" ", "_")` */
  function Sanitize(name: string): (r: string)
    ensures '-' !in r && ' ' !in r
  {
    ReplaceRemoves(name, '-', "_");
    ReplaceKeepsAbsentAfter(name);
    ReplaceRemoves(Replace(name, "-", "_"), ' ', "_");
    Replace(Replace(name, "-", "_"), " ", "_")
  }

  /** `name.replace("-", "_").replace(".", "_")` */
  function SafeName(name: string): (r: string)
    ensures '-' !in r && '.' !in r
  {
    ReplaceRemoves(name, '-', "_");
    ReplaceKeepsAbsent(Replace(name, "-", "_"), '.', "_", '-');
    ReplaceRemoves(Replace(name, "-", "_"), '.', "_");
    Replace(Replace(name, "-", "_"), ".", "_")
  }

  lemma ReplaceKeepsAbsentAfter(name: string)
    ensures '-' !in Replace(Replace(name, "-", "_"), " ", "_")
  {
    ReplaceRemoves(name, '-', "_");
    ReplaceKeepsAbsent(Replace(name, "-", "_"), ' ', "_", '-');
  }

  /** The name rule of most network generators: the sanitised, lower-cased
      `Name` tag, else `{prefix}_{id with - as _, lower-cased}`. */
  function TaggedName(res: Entries, prefix: string): Outcome<string> {
    var rid := GetOr(res, "id", Str(""));
    var tags :- Iter(GetOr(res, "tags", List([])));
    var nameTag :- FirstNameTag(tags);
    if Truthy(nameTag) then
      var n :- AsStr(nameTag);
      Ok(Lower(Sanitize(n)))
    else
      var i :- AsStr(rid);
      Ok(prefix + "_" + Lower(Replace(i, "-", "_")))
  }

  /** Such a name never contains `-`, which Terraform would reject in a resource name. */
  lemma TaggedNameNoDash(res: Entries, prefix: string)
    requires '-' !in prefix
    ensures TaggedName(res, prefix).Ok? ==> '-' !in TaggedName(res, prefix).value
  {
    var r := TaggedName(res, prefix);
    if r.Ok? {
      var tags := Iter(GetOr(res, "tags", List([]))).value;
      var nameTag := FirstNameTag(tags).value;
      if Truthy(nameTag) {
        LowerKeepsAbsent(Sanitize(nameTag.s), '-');
      } else {
        var i := GetOr(res, "id", Str("")).s;
        ReplaceRemoves(i, '-', "_");
        LowerKeepsAbsent(Replace(i, "-", "_"), '-');
        assert r.value == prefix + "_" + Lower(Replace(i, "-", "_"));
      }
    }
  }
}
