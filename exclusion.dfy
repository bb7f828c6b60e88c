/** The exclusion engine: the ignore file is read into an ordered list of
    patterns, each pattern is compiled to a matcher, and a resource is
    excluded when any matcher is found anywhere in any of its candidate values.

    A pattern is `aws_type:glob`, `service:glob` or a bare `glob`; a glob is
    made of `*` (any run of characters), `?` (any one character) and literal
    characters.  The compiled expression keeps fnmatch's translation without
    its end anchor and is used with a search, so a pattern matches a value
    when it matches some substring of it.
 */
module Exclusion {
  import opened Py
  import opened HclText

  datatype GlobToken = AnyRun | AnyChar | Literal(c: char)

  datatype Prefix = NoPrefix | TypePrefix(resourceType: string) | ServicePrefix(service: string)

  /** A compiled pattern: what must precede the glob, and the glob. */
  datatype Pattern = Pattern(prefix: Prefix, glob: seq<GlobToken>)

  /** The ignore file as the loader finds it. */
  datatype IgnoreFile = Missing | Unreadable | Readable(lines: seq<string>)

  // ------------------------------------------------------------ compiling

  /** `fnmatch.translate`, for `*`, `?` and literal characters. */
  function Translate(g: string): (r: seq<GlobToken>)
    ensures |r| == |g|
    ensures forall i :: 0 <= i < |g| ==>
      r[i] == (if g[i] == '*' then AnyRun else if g[i] == '?' then AnyChar else Literal(g[i]))
  {
    if g == [] then []
    else [if g[0] == '*' then AnyRun else if g[0] == '?' then AnyChar else Literal(g[0])] + Translate(g[1..])
  }

  /** `_convert_pattern_to_regex`: split at the first `:`; a prefix starting
      `aws_` is a resource type, any other prefix a service. */
  function Convert(p: string): (r: Pattern)
    ensures r.prefix.NoPrefix? <==> ':' !in p
    ensures r.prefix.NoPrefix? ==> r.glob == Translate(p)
    ensures r.prefix.TypePrefix? ==> var t := r.prefix.resourceType;
      StartsWith(t, "aws_") && ':' !in t && |t| < |p| && p == t + ":" + p[|t| + 1..] && r.glob == Translate(p[|t| + 1..])
    ensures r.prefix.ServicePrefix? ==> var s := r.prefix.service;
      !StartsWith(s, "aws_") && ':' !in s && |s| < |p| && p == s + ":" + p[|s| + 1..] && r.glob == Translate(p[|s| + 1..])
  {
    if ':' in p then
      var prefix := BeforeFirst(p, ':');
      var glob := Translate(AfterFirst(p, ':'));
      if StartsWith(prefix, "aws_") then Pattern(TypePrefix(prefix), glob)
      else Pattern(ServicePrefix(prefix), glob)
    else Pattern(NoPrefix, Translate(p))
  }

  // ------------------------------------------------------------ matching

  /** The glob's expression matches all of `w`.  `*` and `?` match any
      character, line breaks included. */
  predicate GlobMatch(g: seq<GlobToken>, w: string)
    decreases |g| + |w|
  {
    if g == [] then w == []
    else match g[0]
      case AnyRun => GlobMatch(g[1..], w) || (w != [] && GlobMatch(g, w[1..]))
      case AnyChar => w != [] && GlobMatch(g[1..], w[1..])
      case Literal(c) => w != [] && w[0] == c && GlobMatch(g[1..], w[1..])
  }

  /** The compiled expression of `p` matches all of `w`.  For a service `s`
      the expression is `(s:|aws_s.*:)glob`, whose `.*` stops at a line break. */
  predicate FullMatch(p: Pattern, w: string) {
    match p.prefix
    case NoPrefix => GlobMatch(p.glob, w)
    case TypePrefix(t) => StartsWith(w, t + ":") && GlobMatch(p.glob, w[|t| + 1..])
    case ServicePrefix(s) =>
      (StartsWith(w, s + ":") && GlobMatch(p.glob, w[|s| + 1..]))
      || (StartsWith(w, "aws_" + s) && ServiceTail(p.glob, w, |s| + 4))
  }

  /** After `aws_s`: a run without line breaks, a `:`, then the glob. */
  predicate ServiceTail(g: seq<GlobToken>, w: string, from: nat)
    requires from <= |w|
  {
    exists k :: from <= k < |w| && w[k] == ':' && '\n' !in w[from..k] && GlobMatch(g, w[k + 1..])
  }

  /** `pattern.search(value)`: the expression matches some substring. */
  predicate Search(p: Pattern, v: string) {
    exists i, j :: 0 <= i <= j <= |v| && FullMatch(p, v[i..j])
  }

  // ------------------------------------------------------------ loading

  /** What one line of the ignore file contributes. */
  function ParseLine(line: string): Option<string> {
    var l := Strip(line);
    if l != [] && !StartsWith(l, "#") then
      var p := Strip(BeforeFirst(l, '#'));
      if p != [] then Some(p) else None
    else None
  }

  /** `re.compile` accepts the compiled expression of every pattern.
      Whether it does is the parameter `compiles`: the type or service
      before the colon goes into the expression unescaped. */
  predicate AllCompile(ps: seq<string>, compiles: Pattern -> bool) {
    forall p | p in ps :: compiles(Convert(p))
  }

  /** `_load_patterns` ends in its `except` branch: the file cannot be
      read, or one of its patterns does not compile. */
  predicate LoadFails(file: IgnoreFile, compiles: Pattern -> bool) {
    file.Unreadable? || (file.Readable? && !AllCompile(LoadedPatterns(file.lines), compiles))
  }

  /** The patterns a file yields: none unless it is readable and every one
      of its patterns compiles. */
  function Loaded(file: IgnoreFile, compiles: Pattern -> bool): seq<string> {
    if file.Readable? && AllCompile(LoadedPatterns(file.lines), compiles) then LoadedPatterns(file.lines) else []
  }

  /** The patterns of a readable file, in file order. */
  function LoadedPatterns(lines: seq<string>): seq<string>
    decreases |lines|
  {
    if lines == [] then []
    else
      LoadedPatterns(lines[..|lines| - 1]) + Contribution(lines[|lines| - 1])
  }

  /** The patterns one line adds: none or one. */
  function Contribution(line: string): seq<string> {
    match ParseLine(line) case Some(p) => [p] case None => []
  }

  /** One more line read: its contribution goes at the end. */
  lemma LoadStep(start: seq<string>, lines: seq<string>, i: nat)
    requires i < |lines|
    ensures start + LoadedPatterns(lines[..i + 1]) == start + LoadedPatterns(lines[..i]) + Contribution(lines[i])
  {
    assert lines[..i + 1][..i] == lines[..i];
  }

  // ------------------------------------------------------------ candidates

  /** The service part of a type: the first `aws_` removed, cut at the first `_`. */
  function ServiceOf(resourceType: string): string {
    BeforeFirst(ReplaceFirst(resourceType, "aws_", ""), '_')
  }

  /** The name the EC2 generator gives an instance with a `Name` tag. */
  function Ec2TerraformName(name: string, id: string): string {
    Sanitize(name) + "_" + LastN(id, 4)
  }

  /** `check_values`, as the strings that are searched (`str(value)`);
      raises where Python would (a non-string type or Name tag used as a
      string, an unhashable value added to the set). */
  function CheckValues(res: Entries): Outcome<seq<string>> {
    var rid := GetOr(res, "id", Null);
    var arn := GetOr(res, "arn", Null);
    var rtype := GetOr(res, "type", Null);
    var ids :- if Truthy(rid) then (if Hashable(rid) then Ok([Show(rid)]) else Raised) else Ok([]);
    var arns :- if Truthy(arn) then (if Hashable(arn) then Ok([Show(arn)]) else Raised) else Ok([]);
    var typed :- TypedValues(res, rid, rtype);
    var named :- NameValues(res, rtype);
    Ok(ids + arns + typed + named)
  }

  /** `svc:id`, `type:id` and, for an instance with a Name tag, its Terraform name. */
  function TypedValues(res: Entries, rid: Value, rtype: Value): Outcome<seq<string>> {
    if Truthy(rtype) && Truthy(rid) then
      var t :- AsStr(rtype);
      var base := [ServiceOf(t) + ":" + Show(rid), t + ":" + Show(rid)];
      if t == "aws_instance" then
        var name := NameTagOf(GetOr(res, "tags", List([])));
        if Truthy(name) then
          var n :- AsStr(name);
          var i :- AsStr(rid);
          var tfName := Ec2TerraformName(n, i);
          Ok(base + [tfName, t + ":" + tfName])
        else Ok(base)
      else Ok(base)
    else Ok([])
  }

  /** The Name tag, `svc:Name` and `type:Name`. */
  function NameValues(res: Entries, rtype: Value): Outcome<seq<string>> {
    var name := NameTagOf(GetOr(res, "tags", List([])));
    if Truthy(name) then
      if !Hashable(name) then Raised
      else if Truthy(rtype) then
        var t :- AsStr(rtype);
        Ok([Show(name), ServiceOf(t) + ":" + Show(name), t + ":" + Show(name)])
      else Ok([Show(name)])
    else Ok([])
  }

  /** Some pattern is found in some value. */
  predicate AnySearch(ps: seq<Pattern>, vs: seq<string>) {
    exists i, j :: 0 <= i < |vs| && 0 <= j < |ps| && Search(ps[j], vs[i])
  }

  /** `should_exclude` over the compiled patterns. */
  function Excludes(ps: seq<Pattern>, res: Entries): Outcome<bool> {
    if ps == [] then Ok(false)
    else
      var vs :- CheckValues(res);
      Ok(AnySearch(ps, vs))
  }

  /** The nested loop of `should_exclude`: stops at the first value and
      pattern that match. */
  method SearchAll(ps: seq<Pattern>, vs: seq<string>) returns (found: bool)
    ensures found == AnySearch(ps, vs)
  {
    var i := 0;
    while i < |vs|
      invariant 0 <= i <= |vs|
      invariant forall a, b :: 0 <= a < i && 0 <= b < |ps| ==> !Search(ps[b], vs[a])
    {
      var j := 0;
      while j < |ps|
        invariant 0 <= j <= |ps|
        invariant forall b :: 0 <= b < j ==> !Search(ps[b], vs[i])
      {
        if Search(ps[j], vs[i]) {
          return true;
        }
        j := j + 1;
      }
      i := i + 1;
    }
    return false;
  }

  /** Every pattern compiled, in order. */
  function ConvertAll(ps: seq<string>): (r: seq<Pattern>)
    ensures |r| == |ps|
    decreases |ps|
  {
    if ps == [] then [] else ConvertAll(ps[..|ps| - 1]) + [Convert(ps[|ps| - 1])]
  }

  /** Compiling one more pattern appends its expression. */
  lemma ConvertAllSnoc(ps: seq<string>, p: string)
    ensures ConvertAll(ps + [p]) == ConvertAll(ps) + [Convert(p)]
  {
    assert (ps + [p])[..|ps|] == ps;
  }

  /** The i-th compiled pattern is the i-th pattern compiled. */
  lemma {:induction false} ConvertAllAt(ps: seq<string>, i: nat)
    requires i < |ps|
    ensures ConvertAll(ps)[i] == Convert(ps[i])
    decreases |ps|
  {
    if i < |ps| - 1 {
      ConvertAllAt(ps[..|ps| - 1], i);
    }
  }

  // ------------------------------------------------------------ the config

  /** `ResourceExclusionConfig` */
  class ExclusionConfig {
    var patterns: seq<string>
    var regexPatterns: seq<Pattern>

    /** The two lists always have equal length and hold the same patterns. */
    ghost predicate Valid()
      reads this
    {
      regexPatterns == ConvertAll(patterns)
    }

    constructor (file: IgnoreFile, compiles: Pattern -> bool)
      ensures Valid()
      ensures patterns == Loaded(file, compiles)
    {
      patterns := [];
      regexPatterns := [];
      new;
      LoadPatterns(file, compiles);
    }

    /** `_load_patterns`: a missing file changes nothing, a readable file
        whose patterns all compile appends them in order, and a read error
        or a pattern that does not compile resets both lists. */
    method LoadPatterns(file: IgnoreFile, compiles: Pattern -> bool)
      requires Valid()
      modifies this
      ensures Valid()
      ensures patterns == if LoadFails(file, compiles) then [] else old(patterns) + Loaded(file, compiles)
    {
      match file {
        case Missing =>
        case Unreadable =>
          patterns := [];
          regexPatterns := [];
        case Readable(lines) =>
          var ok := AddLines(lines, compiles);
          if !ok {
            patterns := [];
            regexPatterns := [];
          }
      }
    }

    /** The loop over the lines of a readable file; false when a pattern
        does not compile, which ends the loop with the two lists out of
        step. */
    method AddLines(lines: seq<string>, compiles: Pattern -> bool) returns (ok: bool)
      requires Valid()
      modifies this
      ensures ok == AllCompile(LoadedPatterns(lines), compiles)
      ensures ok ==> Valid() && patterns == old(patterns) + LoadedPatterns(lines)
    {
      var i := 0;
      while i < |lines|
        invariant 0 <= i <= |lines|
        invariant Valid()
        invariant patterns == old(patterns) + LoadedPatterns(lines[..i])
        invariant AllCompile(LoadedPatterns(lines[..i]), compiles)
      {
        ok := AddLine(old(patterns), lines, i, compiles);
        if !ok {
          return false;
        }
        i := i + 1;
      }
      assert lines[..i] == lines;
      return true;
    }

    /** One line of the file read: its pattern, if any, appended; false when
        that pattern does not compile. */
    method AddLine(ghost start: seq<string>, lines: seq<string>, i: nat, compiles: Pattern -> bool) returns (ok: bool)
      requires Valid() && i < |lines| && patterns == start + LoadedPatterns(lines[..i])
      requires AllCompile(LoadedPatterns(lines[..i]), compiles)
      modifies this
      ensures !ok ==> !AllCompile(LoadedPatterns(lines), compiles)
      ensures ok ==> Valid() && patterns == start + LoadedPatterns(lines[..i + 1])
      ensures ok ==> AllCompile(LoadedPatterns(lines[..i + 1]), compiles)
    {
      LoadStep(start, lines, i);
      CompileStep(lines, i, compiles);
      var p := ParseLine(lines[i]);
      ok := true;
      if p.Some? {
        ok := AddPattern(p.value, compiles);
      }
    }

    /** One pattern appended to the pattern list, then its compiled
        expression to the other list; a pattern that does not compile
        raises between the two appends. */
    method AddPattern(p: string, compiles: Pattern -> bool) returns (ok: bool)
      requires Valid()
      modifies this
      ensures ok == compiles(Convert(p))
      ensures patterns == old(patterns) + [p]
      ensures regexPatterns == if ok then old(regexPatterns) + [Convert(p)] else old(regexPatterns)
      ensures ok ==> Valid()
    {
      ConvertAllSnoc(patterns, p);
      patterns := patterns + [p];
      var e := Convert(p);
      if !compiles(e) {
        return false;
      }
      regexPatterns := regexPatterns + [e];
      return true;
    }

    /** `should_exclude`: the candidate values are built, then every value is
        searched with every pattern until one is found. */
    method ShouldExclude(res: Entries) returns (r: Outcome<bool>)
      requires Valid()
      ensures r == Excludes(regexPatterns, res)
      ensures patterns == [] ==> r == Ok(false)
    {
      if |patterns| == 0 {
        return Ok(false);
      }
      var values := CheckValues(res);
      if values.Raised? {
        return Raised;
      }
      var found := SearchAll(regexPatterns, values.value);
      return Ok(found);
    }

    /** `get_patterns`: a copy of the pattern list. */
    method GetPatterns() returns (r: seq<string>)
      ensures r == patterns
    {
      r := patterns;
    }
  }

  // ------------------------------------------------------------ properties

  /** A line contributes a pattern exactly when, once stripped, it is neither
      empty nor a comment; the pattern has no comment and no surrounding
      whitespace. */
  lemma ParseLineSpec(line: string)
    ensures ParseLine(line).Some? <==> Strip(line) != [] && Strip(line)[0] != '#'
    ensures ParseLine(line).Some? ==> var p := ParseLine(line).value;
      p != [] && '#' !in p && !IsSpace(p[0]) && !IsSpace(p[|p| - 1])
  {
    var l := Strip(line);
    if l != [] && l[0] != '#' {
      assert !StartsWith(l, "#");
      UncommentedPart(l);
    } else {
      assert l == [] || StartsWith(l, "#");
    }
  }

  /** The text before the first `#` of a stripped line that does not start
      with one, stripped again, is non-empty and holds no `#`. */
  lemma UncommentedPart(l: string)
    requires l != [] && l[0] != '#' && !IsSpace(l[0])
    ensures var p := Strip(BeforeFirst(l, '#'));
      p != [] && '#' !in p && !IsSpace(p[0]) && !IsSpace(p[|p| - 1])
  {
    var b := BeforeFirst(l, '#');
    assert b != [] && b[0] == l[0];
    StripKeepsFirst(b);
    StripSubstring(b, '#');
  }

  lemma StripKeepsFirst(s: string)
    requires s != [] && !IsSpace(s[0])
    ensures Strip(s) != []
  {
    RStripKeepsFirst(s);
  }

  lemma {:induction false} RStripKeepsFirst(s: string)
    requires s != [] && !IsSpace(s[0])
    ensures RStrip(s) != [] && RStrip(s)[0] == s[0]
    decreases |s|
  {
    if IsSpace(s[|s| - 1]) {
      RStripKeepsFirst(s[..|s| - 1]);
    }
  }

  /** Stripping only removes characters, so it never brings one in. */
  lemma StripSubstring(s: string, c: char)
    requires c !in s
    ensures c !in Strip(s)
  {
    var t := RStrip(s);
    assert c !in t;
  }

  /** Loading is line by line: the patterns of two pieces of a file are the
      patterns of the first followed by those of the second. */
  lemma {:induction false} LoadedPatternsAppend(a: seq<string>, b: seq<string>)
    ensures LoadedPatterns(a + b) == LoadedPatterns(a) + LoadedPatterns(b)
    decreases |b|
  {
    if b != [] {
      var init := b[..|b| - 1];
      assert (a + b)[..|a + b| - 1] == a + init;
      assert (a + b)[|a + b| - 1] == b[|b| - 1];
      LoadedPatternsAppend(a, init);
      assert LoadedPatterns(a + b) == LoadedPatterns(a + init) + Contribution(b[|b| - 1]);
    } else {
      assert a + b == a;
    }
  }

  /** Every loaded pattern comes from a line of the file, and every line that
      holds a pattern contributes it. */
  lemma LoadedPatternsMembers(lines: seq<string>)
    ensures forall p :: p in LoadedPatterns(lines) <==> exists i :: 0 <= i < |lines| && ParseLine(lines[i]) == Some(p)
  {
    forall p ensures p in LoadedPatterns(lines) <==> exists i :: 0 <= i < |lines| && ParseLine(lines[i]) == Some(p) {
      if p in LoadedPatterns(lines) {
        LoadedFromLine(lines, p);
      }
      if exists i :: 0 <= i < |lines| && ParseLine(lines[i]) == Some(p) {
        var i :| 0 <= i < |lines| && ParseLine(lines[i]) == Some(p);
        LineLoaded(lines, i, p);
      }
    }
  }

  /** A loaded pattern is the pattern of some line. */
  lemma {:induction false} LoadedFromLine(lines: seq<string>, p: string)
    requires p in LoadedPatterns(lines)
    ensures exists i :: 0 <= i < |lines| && ParseLine(lines[i]) == Some(p)
    decreases |lines|
  {
    var init := lines[..|lines| - 1];
    if p in LoadedPatterns(init) {
      LoadedFromLine(init, p);
      var i :| 0 <= i < |init| && ParseLine(init[i]) == Some(p);
      assert lines[i] == init[i];
    } else {
      assert ParseLine(lines[|lines| - 1]) == Some(p);
    }
  }

  /** The pattern of every line is loaded. */
  lemma {:induction false} LineLoaded(lines: seq<string>, i: nat, p: string)
    requires i < |lines| && ParseLine(lines[i]) == Some(p)
    ensures p in LoadedPatterns(lines)
    decreases |lines|
  {
    var init := lines[..|lines| - 1];
    if i < |lines| - 1 {
      assert init[i] == lines[i];
      LineLoaded(init, i, p);
    }
  }

  /** Reading one more line keeps every pattern compiling exactly when that
      line's pattern compiles; when it does not, the file's patterns do not
      all compile. */
  lemma CompileStep(lines: seq<string>, i: nat, compiles: Pattern -> bool)
    requires i < |lines| && AllCompile(LoadedPatterns(lines[..i]), compiles)
    ensures AllCompile(LoadedPatterns(lines[..i + 1]), compiles) <==> AllCompile(Contribution(lines[i]), compiles)
    ensures !AllCompile(Contribution(lines[i]), compiles) ==> !AllCompile(LoadedPatterns(lines), compiles)
  {
    LoadStep([], lines, i);
    assert [] + LoadedPatterns(lines[..i + 1]) == LoadedPatterns(lines[..i + 1]);
    assert [] + LoadedPatterns(lines[..i]) == LoadedPatterns(lines[..i]);
    if !AllCompile(Contribution(lines[i]), compiles) {
      UncompilableLineEmpties(lines, i, ParseLine(lines[i]).value, compiles);
    }
  }

  /** One line whose pattern does not compile empties the whole list: the
      file then excludes nothing. */
  lemma UncompilableLineEmpties(lines: seq<string>, i: nat, p: string, compiles: Pattern -> bool)
    requires i < |lines| && ParseLine(lines[i]) == Some(p) && !compiles(Convert(p))
    ensures LoadFails(Readable(lines), compiles)
    ensures Loaded(Readable(lines), compiles) == []
  {
    LineLoaded(lines, i, p);
  }

  /** When every line's pattern compiles, the file yields all of them. */
  lemma CompilingFileLoadsAll(lines: seq<string>, compiles: Pattern -> bool)
    requires forall i :: 0 <= i < |lines| && ParseLine(lines[i]).Some? ==> compiles(Convert(ParseLine(lines[i]).value))
    ensures !LoadFails(Readable(lines), compiles)
    ensures Loaded(Readable(lines), compiles) == LoadedPatterns(lines)
  {
    forall p | p in LoadedPatterns(lines) ensures compiles(Convert(p)) {
      LoadedFromLine(lines, p);
    }
  }

  /** Adding a pattern never turns an exclusion into a non-exclusion. */
  lemma Monotone(ps: seq<Pattern>, extra: seq<Pattern>, res: Entries)
    requires Excludes(ps, res) == Ok(true)
    ensures Excludes(ps + extra, res) == Ok(true)
  {
    var vs := CheckValues(res).value;
    var i, j :| 0 <= i < |vs| && 0 <= j < |ps| && Search(ps[j], vs[i]);
    assert (ps + extra)[j] == ps[j];
  }

  /** Matching is unanchored: a value that matches still matches with any
      text around it. */
  lemma Unanchored(p: Pattern, v: string, before: string, after: string)
    requires Search(p, v)
    ensures Search(p, before + v + after)
  {
    var i, j :| 0 <= i <= j <= |v| && FullMatch(p, v[i..j]);
    var w := before + v + after;
    assert w[|before| + i..|before| + j] == v[i..j];
  }

  /** `*` matches any text, line breaks included. */
  lemma {:induction false} AnyRunMatchesAll(w: string)
    ensures GlobMatch([AnyRun], w)
    decreases |w|
  {
    if w != [] {
      AnyRunMatchesAll(w[1..]);
    } else {
      assert GlobMatch([AnyRun][1..], w);
    }
  }

  /** A glob without `*` or `?` matches exactly its own text. */
  lemma {:induction false} LiteralGlobMatchesItself(g: string)
    requires '*' !in g && '?' !in g
    ensures GlobMatch(Translate(g), g)
    decreases |g|
  {
    if g != [] {
      assert Translate(g)[1..] == Translate(g[1..]);
      LiteralGlobMatchesItself(g[1..]);
    }
  }

  /** A pattern `aws_type:glob` splits at its first colon: its type is the text
      before it, and its glob the text after it. */
  lemma ConvertTyped(t: string, g: string)
    requires StartsWith(t, "aws_") && ':' !in t
    ensures Convert(t + ":" + g) == Pattern(TypePrefix(t), Translate(g))
  {
    SplitAtColon(t, g);
  }

  /** A pattern `service:glob` whose prefix does not start `aws_`. */
  lemma ConvertService(s: string, g: string)
    requires !StartsWith(s, "aws_") && ':' !in s
    ensures Convert(s + ":" + g) == Pattern(ServicePrefix(s), Translate(g))
  {
    SplitAtColon(s, g);
  }

  lemma {:induction false} SplitAtColon(a: string, b: string)
    requires ':' !in a
    ensures ':' in a + ":" + b
    ensures BeforeFirst(a + ":" + b, ':') == a && AfterFirst(a + ":" + b, ':') == b
    decreases |a|
  {
    assert (a + ":" + b)[|a|] == ':';
    if a != [] {
      assert (a + ":" + b)[1..] == a[1..] + ":" + b;
      SplitAtColon(a[1..], b);
    }
  }

  /** A type-scoped pattern only ever matches text that contains `type:`, so
      `aws_instance:test-*` never excludes through a value that does not name
      the type. */
  lemma TypedNeedsType(t: string, g: seq<GlobToken>, v: string)
    requires Search(Pattern(TypePrefix(t), g), v)
    ensures Contains(v, t + ":")
  {
    var i, j :| 0 <= i <= j <= |v| && FullMatch(Pattern(TypePrefix(t), g), v[i..j]);
    ContainsAt(v, t + ":", i);
  }

  /** A bare literal pattern excludes a resource whose id contains it. */
  lemma IdContainingLiteralIsExcluded(lit: string, res: Entries, before: string, after: string)
    requires lit != [] && ':' !in lit && '*' !in lit && '?' !in lit
    requires GetOr(res, "id", Null) == Str(before + lit + after)
    requires CheckValues(res).Ok?
    ensures Excludes([Convert(lit)], res) == Ok(true)
  {
    var vs := CheckValues(res).value;
    var id := before + lit + after;
    assert vs[0] == id;
    LiteralGlobMatchesItself(lit);
    assert FullMatch(Convert(lit), lit);
    assert lit[0..|lit|] == lit;
    assert Search(Convert(lit), lit);
    Unanchored(Convert(lit), lit, before, after);
    assert Search([Convert(lit)][0], vs[0]);
  }

  /** The candidates of a resource with a string id and a string type hold
      the id, `svc:id` and `type:id`; the arn is there too when it is a
      non-empty string. */
  lemma CheckValuesHoldIds(res: Entries, i: string, t: string)
    requires GetOr(res, "id", Null) == Str(i) && i != []
    requires GetOr(res, "type", Null) == Str(t) && t != []
    requires CheckValues(res).Ok?
    ensures i in CheckValues(res).value
    ensures ServiceOf(t) + ":" + i in CheckValues(res).value
    ensures t + ":" + i in CheckValues(res).value
    ensures forall a :: GetOr(res, "arn", Null) == Str(a) && a != [] ==> a in CheckValues(res).value
  {
    var vs := CheckValues(res).value;
    var typed := TypedValues(res, Str(i), Str(t)).value;
    assert ServiceOf(t) + ":" + i == typed[0] && t + ":" + i == typed[1];
    assert typed[0] in vs && typed[1] in vs;
  }

  /** The candidates of a resource with a string Name tag and a string type
      hold the Name, `svc:Name` and `type:Name`. */
  lemma CheckValuesHoldNames(res: Entries, n: string, t: string)
    requires NameTagOf(GetOr(res, "tags", List([]))) == Str(n) && n != []
    requires GetOr(res, "type", Null) == Str(t) && t != []
    requires CheckValues(res).Ok?
    ensures n in CheckValues(res).value
    ensures ServiceOf(t) + ":" + n in CheckValues(res).value
    ensures t + ":" + n in CheckValues(res).value
  {
    NamedInCheckValues(res);
    var named := NameValues(res, Str(t)).value;
    assert named == [n, ServiceOf(t) + ":" + n, t + ":" + n];
    assert named[0] in named && named[1] in named && named[2] in named;
  }

  /** The candidates of an `aws_instance` with a string id and a string Name
      tag hold its Terraform name, bare and as `aws_instance:<name>`. */
  lemma CheckValuesHoldEc2Name(res: Entries, n: string, i: string, t: string)
    requires NameTagOf(GetOr(res, "tags", List([]))) == Str(n) && n != []
    requires GetOr(res, "id", Null) == Str(i) && i != []
    requires GetOr(res, "type", Null) == Str(t) && t == "aws_instance"
    requires CheckValues(res).Ok?
    ensures Ec2TerraformName(n, i) in CheckValues(res).value
    ensures "aws_instance:" + Ec2TerraformName(n, i) in CheckValues(res).value
  {
    TypedInCheckValues(res);
    var tfName := Ec2TerraformName(n, i);
    InstanceTypedValues(res, n, i, t);
    var typed := TypedValues(res, Str(i), Str(t)).value;
    assert typed[2] == tfName && typed[3] == t + ":" + tfName;
    assert typed[2] in typed && typed[3] in typed;
    InstancePrefix(t, tfName);
  }

  /** Kept apart so that the literal is compared in a small context. */
  lemma InstancePrefix(t: string, x: string)
    requires t == "aws_instance"
    ensures t + ":" + x == "aws_instance:" + x
  {
  }

  /** An `aws_instance` with an id and a Name tag adds its Terraform name,
      bare and prefixed, after `svc:id` and `type:id`. */
  lemma InstanceTypedValues(res: Entries, n: string, i: string, t: string)
    requires NameTagOf(GetOr(res, "tags", List([]))) == Str(n) && n != []
    requires i != [] && t == "aws_instance"
    ensures var tfName := Ec2TerraformName(n, i);
      TypedValues(res, Str(i), Str(t)) == Ok([ServiceOf(t) + ":" + i, t + ":" + i, tfName, t + ":" + tfName])
  {
    var tfName := Ec2TerraformName(n, i);
    var base := [ServiceOf(t) + ":" + i, t + ":" + i];
    assert base + [tfName, t + ":" + tfName] == [ServiceOf(t) + ":" + i, t + ":" + i, tfName, t + ":" + tfName];
  }

  /** Every `svc:id`, `type:id` or instance-name candidate is a candidate. */
  lemma TypedInCheckValues(res: Entries)
    requires CheckValues(res).Ok?
    ensures var typed := TypedValues(res, GetOr(res, "id", Null), GetOr(res, "type", Null));
      typed.Ok? && forall x :: x in typed.value ==> x in CheckValues(res).value
  {
  }

  /** Every Name-tag candidate is a candidate. */
  lemma NamedInCheckValues(res: Entries)
    requires CheckValues(res).Ok?
    ensures var named := NameValues(res, GetOr(res, "type", Null));
      named.Ok? && forall x :: x in named.value ==> x in CheckValues(res).value
  {
  }

  /** After `aws_s` in `aws_s{rest}:v` come a run without line breaks, a
      `:` and a value the glob matches. */
  lemma ServiceTailOf(s: string, rest: string, g: seq<GlobToken>, v: string)
    requires '\n' !in rest && GlobMatch(g, v)
    ensures ServiceTail(g, "aws_" + s + rest + ":" + v, |s| + 4)
  {
    var w := "aws_" + s + rest + ":" + v;
    var k := |s| + 4 + |rest|;
    assert w[|s| + 4..k] == rest;
    assert w[k] == ':';
    assert w[k + 1..] == v;
  }

  /** A service pattern also matches the `type:` form of any type of that
      service, as long as the rest of the type has no line break:
      `ec2:i-*` matches `aws_ec2_thing:i-123`. */
  lemma ServicePatternMatchesTypeForm(s: string, rest: string, g: seq<GlobToken>, v: string)
    requires '\n' !in rest && GlobMatch(g, v)
    ensures Search(Pattern(ServicePrefix(s), g), "aws_" + s + rest + ":" + v)
  {
    var w := "aws_" + s + rest + ":" + v;
    ServiceTailOf(s, rest, g, v);
    assert StartsWith(w, "aws_" + s) by {
      assert w[..|s| + 4] == "aws_" + s;
    }
    assert FullMatch(Pattern(ServicePrefix(s), g), w[0..|w|]) by {
      assert w[0..|w|] == w;
    }
  }
}
