/** Python values and the small part of Python's built-in behaviour the tool relies on.

    A record handled by the tool is a Python `dict` of loosely typed values.  It is
    modelled by `Value`, whose `Dict` keeps its entries in insertion order (the
    first entry with a key is the one Python sees).  Code that may raise (a
    missing key, a method called on the wrong kind of value) returns an
    `Outcome`, so that every `try`/`except` in the tool can be stated exactly.
 */
module Py {

  datatype Option<+T> = None | Some(value: T) {
    predicate IsFailure() { None? }
    function PropagateFailure<U>(): Option<U> requires None? { None }
    function Extract(): T requires Some? { value }
  }

  /** The outcome of Python code that may raise: a value, or an exception. */
  datatype Outcome<+T> = Ok(value: T) | Raised {
    predicate IsFailure() { Raised? }
    function PropagateFailure<U>(): Outcome<U> requires Raised? { Raised }
    function Extract(): T requires Ok? { value }
  }

  /** A JSON-like Python value.  Floats are not modelled. */
  datatype Value =
    | Null
    | Bool(b: bool)
    | Int(i: int)
    | Str(s: string)
    | List(items: seq<Value>)
    | Dict(entries: seq<(string, Value)>)

  type Entries = seq<(string, Value)>

  /** `except Exception: return None` */
  function Catch<T>(o: Outcome<Option<T>>): Option<T> {
    if o.Ok? then o.value else None
  }

  // ---------------------------------------------------------------- dicts

  predicate HasKey(entries: Entries, key: string) {
    exists i :: 0 <= i < |entries| && entries[i].0 == key
  }

  /** The value Python's `d[key]` sees: the first entry with that key. */
  function Lookup(entries: Entries, key: string): (r: Option<Value>)
    ensures r.Some? <==> HasKey(entries, key)
    ensures r.Some? ==> (key, r.value) in entries
  {
    if entries == [] then None
    else if entries[0].0 == key then Some(entries[0].1)
    else
      var r := Lookup(entries[1..], key);
      assert HasKey(entries[1..], key) ==> HasKey(entries, key) by {
        if HasKey(entries[1..], key) {
          var i :| 0 <= i < |entries[1..]| && entries[1..][i].0 == key;
          assert entries[i + 1].0 == key;
        }
      }
      assert HasKey(entries, key) && entries[0].0 != key ==> HasKey(entries[1..], key) by {
        if HasKey(entries, key) && entries[0].0 != key {
          var i :| 0 <= i < |entries| && entries[i].0 == key;
          assert i > 0 && entries[1..][i - 1].0 == key;
        }
      }
      r
  }

  /** No key appears twice, as in any Python dict. */
  predicate UniqueKeys(es: Entries) {
    forall i, j :: 0 <= i < j < |es| ==> es[i].0 != es[j].0
  }

  /** `d[key] = v`: an existing key keeps its position, a new key goes last. */
  function Put(entries: Entries, key: string, v: Value): (r: Entries)
    ensures Lookup(r, key) == Some(v)
    ensures forall k :: k != key ==> Lookup(r, k) == Lookup(entries, k)
  {
    if entries == [] then [(key, v)]
    else if entries[0].0 == key then [(key, v)] + entries[1..]
    else [entries[0]] + Put(entries[1..], key, v)
  }

  function Keys(entries: Entries): (r: seq<string>)
    ensures |r| == |entries|
    ensures forall i :: 0 <= i < |r| ==> r[i] == entries[i].0
  {
    if entries == [] then [] else [entries[0].0] + Keys(entries[1..])
  }

  /** `v.get(key, default)`; raises when `v` is not a dict. */
  function Get(v: Value, key: string, default: Value): Outcome<Value> {
    if v.Dict? then
      Ok(match Lookup(v.entries, key) case Some(x) => x case None => default)
    else Raised
  }

  /** `fields.get(key, default)` on a record that is known to be a dict. */
  function GetOr(fields: Entries, key: string, default: Value): Value {
    match Lookup(fields, key) case Some(x) => x case None => default
  }

  /** `v[key]`: a KeyError or TypeError is an exception. */
  function Item(v: Value, key: string): Outcome<Value> {
    if v.Dict? then
      match Lookup(v.entries, key) case Some(x) => Ok(x) case None => Raised
    else Raised
  }

  /** `key in v`. */
  function In(key: string, v: Value): Outcome<bool> {
    match v
    case Dict(es) => Ok(HasKey(es, key))
    case List(xs) => Ok(Str(key) in xs)
    case Str(s) => Ok(Contains(s, key))
    case _ => Raised
  }

  /** The elements a Python `for` loop visits. */
  function Iter(v: Value): (r: Outcome<seq<Value>>)
    ensures v.List? ==> r == Ok(v.items)
    ensures v.Null? || v.Bool? || v.Int? ==> r.Raised?
  {
    match v
    case List(xs) => Ok(xs)
    case Dict(es) => Ok(seq(|es|, i requires 0 <= i < |es| => Str(es[i].0)))
    case Str(s) => Ok(seq(|s|, i requires 0 <= i < |s| => Str([s[i]])))
    case _ => Raised
  }

  /** A value can be a set element or a dict key (lists and dicts cannot). */
  predicate Hashable(v: Value) {
    !v.List? && !v.Dict?
  }

  /** Python truthiness. */
  predicate Truthy(v: Value) {
    match v
    case Null => false
    case Bool(b) => b
    case Int(i) => i != 0
    case Str(s) => s != ""
    case List(xs) => xs != []
    case Dict(es) => es != []
  }

  /** `a or b` */
  function Or(a: Value, b: Value): Value {
    if Truthy(a) then a else b
  }

  /** `s.method(...)` on a value that must be a string. */
  function AsStr(v: Value): Outcome<string> {
    if v.Str? then Ok(v.s) else Raised
  }

  // ---------------------------------------------------------------- str()

  function Digit(d: nat): char
    requires d < 10
  {
    "0123456789"[d]
  }

  function NatToString(n: nat): (r: string)
    ensures |r| >= 1
    decreases n
  {
    if n < 10 then [Digit(n)] else NatToString(n / 10) + [Digit(n % 10)]
  }

  function IntToString(i: int): string {
    if i < 0 then "-" + NatToString(-i) else NatToString(i)
  }

  /** `str(v)`, which is also what an f-string writes for `{v}`. */
  function Show(v: Value): string
    decreases v, 1
  {
    match v
    case Null => "None"
    case Bool(b) => if b then "True" else "False"
    case Int(i) => IntToString(i)
    case Str(s) => s
    case List(xs) => "[" + ReprItems(xs) + "]"
    case Dict(es) => "{" + ReprEntries(es) + "}"
  }

  /** `repr(v)` as it appears inside a list or dict. */
  function Repr(v: Value): string
    decreases v, 2
  {
    if v.Str? then StrRepr(v.s) else Show(v)
  }

  /** `repr` of a string: in single quotes, unless the text holds a `'` and
      no `"`; backslashes, the chosen quote, tabs, newlines and carriage
      returns are escaped. */
  function StrRepr(s: string): (r: string)
    ensures |r| >= 2 && r[0] == r[|r| - 1]
    ensures r[0] == (if '\'' in s && '"' !in s then '"' else '\'')
  {
    var q := if '\'' in s && '"' !in s then '"' else '\'';
    [q] + EscapeRepr(s, q) + [q]
  }

  function EscapeRepr(s: string, q: char): string {
    if s == [] then [] else EscapeChar(s[0], q) + EscapeRepr(s[1..], q)
  }

  function EscapeChar(c: char, q: char): string {
    if c == '\\' then "\\\\"
    else if c == q then ['\\', q]
    else if c == '\n' then "\\n"
    else if c == '\r' then "\\r"
    else if c == '\t' then "\\t"
    else [c]
  }

  /** A character `repr` writes as it is. */
  predicate PlainChar(c: char, q: char) {
    c != '\\' && c != q && c != '\n' && c != '\r' && c != '\t'
  }

  function ReprItems(xs: seq<Value>): string
    decreases xs, 0
  {
    if xs == [] then ""
    else if |xs| == 1 then Repr(xs[0])
    else Repr(xs[0]) + ", " + ReprItems(xs[1..])
  }

  function ReprEntries(es: Entries): string
    decreases es, 0
  {
    if es == [] then ""
    else
      var kv := es[0];
      assert kv in es;
      assert kv.1 < kv;
      var e := StrRepr(kv.0) + ": " + Repr(kv.1);
      if |es| == 1 then e else e + ", " + ReprEntries(es[1..])
  }

  /** `str(v).lower()`, the tool's way of writing a flag as HCL `true`/`false`. */
  function ShowLower(v: Value): string {
    Lower(Show(v))
  }

  /** A Python bool is written `true` or `false`. */
  lemma ShowLowerBool(b: bool)
    ensures ShowLower(Bool(b)) == if b then "true" else "false"
  {
    if b {
      assert Lower("True") == "t" + Lower("rue");
      assert Lower("rue") == "r" + Lower("ue");
      assert Lower("ue") == "u" + Lower("e");
    } else {
      assert Lower("False") == "f" + Lower("alse");
      assert Lower("alse") == "a" + Lower("lse");
      assert Lower("lse") == "l" + Lower("se");
      assert Lower("se") == "s" + Lower("e");
    }
  }

  /** `f"{n:02d}"` for a non-negative integer. */
  function Pad2(n: nat): (r: string)
    ensures |r| >= 2
    ensures n < 100 ==> |r| == 2
  {
    if n < 10 then "0" + NatToString(n)
    else
      assert n < 100 ==> NatToString(n) == NatToString(n / 10) + [Digit(n % 10)] && |NatToString(n / 10)| == 1;
      NatToString(n)
  }

  // ---------------------------------------------------------------- strings

  predicate StartsWith(s: string, p: string) {
    |p| <= |s| && s[..|p|] == p
  }

  predicate Contains(s: string, sub: string)
    decreases |s|
  {
    StartsWith(s, sub) || (|s| > 0 && Contains(s[1..], sub))
  }

  /** `s.lower()` on ASCII letters. */
  function Lower(s: string): (r: string)
    ensures |r| == |s|
    ensures forall i :: 0 <= i < |s| ==> !('A' <= r[i] <= 'Z')
  {
    if s == [] then []
    else [if 'A' <= s[0] <= 'Z' then (s[0] as int + 32) as char else s[0]] + Lower(s[1..])
  }

  /** Python's `str.isspace` characters. */
  predicate IsSpace(c: char) {
    c == ' ' || '\t' <= c <= '\r' || '\U{1C}' <= c <= '\U{1F}' || c == '\U{85}' || c == '\U{A0}'
    || c == '\U{1680}' || '\U{2000}' <= c <= '\U{200A}' || c == '\U{2028}' || c == '\U{2029}'
    || c == '\U{202F}' || c == '\U{205F}' || c == '\U{3000}'
  }

  function LStrip(s: string): (r: string)
    ensures |r| <= |s| && r == s[|s| - |r|..]
    ensures r == [] || !IsSpace(r[0])
  {
    if s != [] && IsSpace(s[0]) then LStrip(s[1..]) else s
  }

  function RStrip(s: string): (r: string)
    ensures |r| <= |s| && r == s[..|r|]
    ensures r == [] || !IsSpace(r[|r| - 1])
  {
    if s != [] && IsSpace(s[|s| - 1]) then RStrip(s[..|s| - 1]) else s
  }

  /** `s.strip()` */
  function Strip(s: string): (r: string)
    ensures r == [] || (!IsSpace(r[0]) && !IsSpace(r[|r| - 1]))
  {
    var t := RStrip(s);
    var u := LStrip(t);
    assert u != [] ==> u[|u| - 1] == t[|t| - 1];
    u
  }

  /** `s.replace(pat, rep)`: every occurrence, left to right, without overlap. */
  function Replace(s: string, pat: string, rep: string): string
    requires |pat| > 0
    decreases |s|
  {
    if |s| < |pat| then s
    else if s[..|pat|] == pat then rep + Replace(s[|pat|..], pat, rep)
    else [s[0]] + Replace(s[1..], pat, rep)
  }

  /** `s.replace(pat, rep, 1)` */
  function ReplaceFirst(s: string, pat: string, rep: string): string
    requires |pat| > 0
    decreases |s|
  {
    if |s| < |pat| then s
    else if s[..|pat|] == pat then rep + s[|pat|..]
    else [s[0]] + ReplaceFirst(s[1..], pat, rep)
  }

  /** `s.split(c)[0]` */
  function BeforeFirst(s: string, c: char): (r: string)
    ensures |r| <= |s| && r == s[..|r|]
    ensures c !in r
    ensures |r| < |s| ==> s[|r|] == c
  {
    if s == [] || s[0] == c then [] else [s[0]] + BeforeFirst(s[1..], c)
  }

  /** The text after the first `c`; the whole string when there is none. */
  function AfterFirst(s: string, c: char): (r: string)
    ensures |r| <= |s|
  {
    var b := BeforeFirst(s, c);
    if |b| < |s| then s[|b| + 1..] else s
  }

  /** `s.split(c)[-1]` */
  function AfterLast(s: string, c: char): (r: string)
    ensures |r| <= |s| && r == s[|s| - |r|..]
    ensures c !in r
    ensures |r| < |s| ==> s[|s| - |r| - 1] == c
  {
    if s == [] || s[|s| - 1] == c then [] else AfterLast(s[..|s| - 1], c) + [s[|s| - 1]]
  }

  /** `s[-n:]` */
  function LastN(s: string, n: nat): (r: string)
    ensures |r| == if |s| < n then |s| else n
    ensures r == s[|s| - |r|..]
  {
    if |s| <= n then s else s[|s| - n..]
  }

  /** `sep.join(xs)` */
  function Join(sep: string, xs: seq<string>): string {
    if xs == [] then "" else if |xs| == 1 then xs[0] else xs[0] + sep + Join(sep, xs[1..])
  }

  /** A joined list starts with its first element. */
  lemma JoinStartsWithHead(sep: string, xs: seq<string>)
    requires xs != []
    ensures StartsWith(Join(sep, xs), xs[0])
  {
    if |xs| > 1 {
      assert Join(sep, xs)[..|xs[0]|] == xs[0];
    }
  }

  /** `s.split(c)` for a one-character separator. */
  function Split(s: string, c: char): (r: seq<string>)
    ensures r != []
    decreases |s|
  {
    if c in s then
      var b := BeforeFirst(s, c);
      [b] + Split(s[|b| + 1..], c)
    else [s]
  }

  /** `sep.join(v)`: iterates `v` and raises on any element that is not a string. */
  function JoinValues(sep: string, v: Value): Outcome<string> {
    var xs :- Iter(v);
    var ss :- Strs(xs);
    Ok(Join(sep, ss))
  }

  function Strs(xs: seq<Value>): (r: Outcome<seq<string>>)
    ensures r.Ok? <==> forall i :: 0 <= i < |xs| ==> xs[i].Str?
    ensures r.Ok? ==> |r.value| == |xs| && forall i :: 0 <= i < |xs| ==> r.value[i] == xs[i].s
  {
    if xs == [] then Ok([])
    else if !xs[0].Str? then Raised
    else
      var rest := Strs(xs[1..]);
      if rest.Raised? then Raised else Ok([xs[0].s] + rest.value)
  }

  /** `str(v).isdigit()` for ASCII digits. */
  predicate IsDigits(s: string) {
    s != [] && forall i :: 0 <= i < |s| ==> '0' <= s[i] <= '9'
  }

  // ---------------------------------------------------------------- lemmas

  /** A string without quotes, backslashes, tabs or line breaks is written
      by `repr` as itself between single quotes. */
  lemma PlainRepr(s: string)
    requires forall i :: 0 <= i < |s| ==> PlainChar(s[i], '\'') && s[i] != '"'
    ensures StrRepr(s) == "'" + s + "'"
  {
    PlainEscape(s, '\'');
  }

  lemma {:induction false} PlainEscape(s: string, q: char)
    requires forall i :: 0 <= i < |s| ==> PlainChar(s[i], q)
    ensures EscapeRepr(s, q) == s
    decreases |s|
  {
    if s != [] {
      PlainEscape(s[1..], q);
    }
  }

  /** A string holding `'` and no `"` is written between double quotes,
      its `'` unescaped. */
  lemma DoubleQuotedRepr(s: string)
    requires '\'' in s && '"' !in s
    requires forall i :: 0 <= i < |s| ==> s[i] != '\\' && s[i] != '\n' && s[i] != '\r' && s[i] != '\t'
    ensures StrRepr(s) == "\"" + s + "\""
  {
    PlainEscape(s, '"');
  }


  /** Replacing every occurrence of a character by text that does not contain it
      leaves no occurrence behind; this is what name sanitisation relies on. */
  lemma {:induction false} ReplaceRemoves(s: string, c: char, rep: string)
    requires c !in rep
    ensures c !in Replace(s, [c], rep)
    decreases |s|
  {
    if |s| >= 1 {
      ReplaceRemoves(s[1..], c, rep);
    }
  }

  /** Replacing one character leaves every other character that is not in the replacement out. */
  lemma {:induction false} ReplaceKeepsAbsent(s: string, c: char, rep: string, d: char)
    requires d !in s && d !in rep
    ensures d !in Replace(s, [c], rep)
    decreases |s|
  {
    if |s| >= 1 {
      ReplaceKeepsAbsent(s[1..], c, rep, d);
    }
  }

  lemma {:induction false} LowerKeepsAbsent(s: string, d: char)
    requires d !in s && !('A' <= d <= 'Z') && !('a' <= d <= 'z')
    ensures d !in Lower(s)
    decreases |s|
  {
    if s != [] {
      LowerKeepsAbsent(s[1..], d);
    }
  }

  /** Splitting and joining with the same separator gives the text back. */
  lemma {:induction false} JoinSplit(s: string, c: char)
    ensures Join([c], Split(s, c)) == s
    decreases |s|
  {
    if c in s {
      var b := BeforeFirst(s, c);
      var rest := s[|b| + 1..];
      JoinSplit(rest, c);
      assert Split(s, c)[1..] == Split(rest, c);
      assert s == b + [c] + rest;
    }
  }

  /** Joining pieces free of the separator and splitting gives the pieces back. */
  lemma {:induction false} SplitJoin(xs: seq<string>, c: char)
    requires xs != []
    requires forall i :: 0 <= i < |xs| ==> c !in xs[i]
    ensures Split(Join([c], xs), c) == xs
    decreases |xs|
  {
    if |xs| == 1 {
      assert Join([c], xs) == xs[0];
    } else {
      var s := Join([c], xs);
      assert s == xs[0] + [c] + Join([c], xs[1..]);
      BeforeFirstSep(xs[0], c, Join([c], xs[1..]));
      assert s[|xs[0]| + 1..] == Join([c], xs[1..]);
      SplitJoin(xs[1..], c);
    }
  }

  /** Six fields joined: the separator between each neighbouring pair. */
  lemma JoinSix(sep: string, a: string, b: string, c: string, d: string, e: string, f: string)
    ensures Join(sep, [a, b, c, d, e, f]) == a + sep + b + sep + c + sep + d + sep + e + sep + f
  {
    assert Join(sep, [e, f]) == e + sep + f;
    assert [d, e, f][1..] == [e, f];
    assert Join(sep, [d, e, f]) == d + sep + (e + sep + f);
    assert [c, d, e, f][1..] == [d, e, f];
    assert Join(sep, [c, d, e, f]) == c + sep + (d + sep + (e + sep + f));
    assert [b, c, d, e, f][1..] == [c, d, e, f];
    assert Join(sep, [b, c, d, e, f]) == b + sep + (c + sep + (d + sep + (e + sep + f)));
    assert [a, b, c, d, e, f][1..] == [b, c, d, e, f];
  }

  lemma {:induction false} BeforeFirstSep(a: string, c: char, b: string)
    requires c !in a
    ensures c in a + [c] + b
    ensures BeforeFirst(a + [c] + b, c) == a
    ensures AfterFirst(a + [c] + b, c) == b
    decreases |a|
  {
    assert (a + [c] + b)[|a|] == c;
    if a != [] {
      assert (a + [c] + b)[1..] == a[1..] + [c] + b;
      BeforeFirstSep(a[1..], c, b);
    }
    assert (a + [c] + b)[|a| + 1..] == b;
  }

  /** The entry at `i` is found when no earlier entry has its key. */
  lemma {:induction false} LookupAt(es: Entries, i: nat)
    requires i < |es| && forall j :: 0 <= j < i ==> es[j].0 != es[i].0
    ensures Lookup(es, es[i].0) == Some(es[i].1)
    decreases i
  {
    if i > 0 {
      LookupAt(es[1..], i - 1);
    }
  }

  /** Appending an entry: earlier keys keep their value, a new key gets it. */
  lemma {:induction false} LookupSnoc(es: Entries, k: string, v: Value, x: string)
    ensures HasKey(es, x) ==> Lookup(es + [(k, v)], x) == Lookup(es, x)
    ensures !HasKey(es, x) ==> Lookup(es + [(k, v)], x) == (if x == k then Some(v) else None)
    decreases |es|
  {
    if es != [] {
      assert (es + [(k, v)])[1..] == es[1..] + [(k, v)];
      LookupSnoc(es[1..], k, v, x);
      if es[0].0 != x && HasKey(es, x) {
        var i :| 0 <= i < |es| && es[i].0 == x;
        assert es[1..][i - 1].0 == x;
      }
    }
  }

  /** Setting a key that is not there yet appends it. */
  lemma {:induction false} PutNew(es: Entries, k: string, v: Value)
    requires !HasKey(es, k)
    ensures Put(es, k, v) == es + [(k, v)]
    decreases |es|
  {
    if es != [] {
      PutNew(es[1..], k, v);
    }
  }

  /** Text with `sub` at position `i` contains it. */
  lemma {:induction false} ContainsAt(v: string, sub: string, i: nat)
    requires i + |sub| <= |v| && v[i..i + |sub|] == sub
    ensures Contains(v, sub)
    decreases i
  {
    if i > 0 {
      assert v[1..][i - 1..i - 1 + |sub|] == sub;
      ContainsAt(v[1..], sub, i - 1);
    } else {
      assert v[..|sub|] == sub;
    }
  }

  /** Text without `c` is its own last piece. */
  lemma {:induction false} AfterLastNone(s: string, c: char)
    requires c !in s
    ensures AfterLast(s, c) == s
    decreases |s|
  {
    if s != [] {
      AfterLastNone(s[..|s| - 1], c);
      assert s[..|s| - 1] + [s[|s| - 1]] == s;
    }
  }

  /** The last piece of `a + c + b` is `b` when `b` has no `c`. */
  lemma {:induction false} AfterLastSep(a: string, c: char, b: string)
    requires c !in b
    ensures AfterLast(a + [c] + b, c) == b
    decreases |b|
  {
    if b == [] {
      assert (a + [c] + b)[|a + [c] + b| - 1] == c;
    } else {
      var s := a + [c] + b;
      assert s[..|s| - 1] == a + [c] + b[..|b| - 1];
      AfterLastSep(a, c, b[..|b| - 1]);
      assert b[..|b| - 1] + [b[|b| - 1]] == b;
    }
  }

  // ---------------------------------------------------------------- loops

  /** What a stretch of the loop produced before it ended, and whether it
      ended because of an exception. */
  datatype Partial = Partial(out: seq<Entries>, stopped: bool)

  /** `for x in xs: out.extend(step(x))`, stopping at the first element
      that raises and keeping what came before it. */
  function RunSteps(xs: seq<Value>, step: Value -> Outcome<seq<Entries>>): Partial
    decreases |xs|
  {
    if xs == [] then Partial([], false)
    else match step(xs[0])
      case Raised => Partial([], true)
      case Ok(rs) =>
        var rest := RunSteps(xs[1..], step);
        Partial(rs + rest.out, rest.stopped)
  }

  /** The loop of `RunSteps`, element by element. */
  method RunLoop(step: Value -> Outcome<seq<Entries>>, xs: seq<Value>)
    returns (produced: seq<Entries>, stopped: bool)
    ensures Partial(produced, stopped) == RunSteps(xs, step)
  {
    produced := [];
    var j := 0;
    while j < |xs|
      invariant 0 <= j <= |xs|
      invariant RunSteps(xs, step).out == produced + RunSteps(xs[j..], step).out
      invariant RunSteps(xs, step).stopped == RunSteps(xs[j..], step).stopped
    {
      assert xs[j..][1..] == xs[j + 1..];
      var records := step(xs[j]);
      if records.Raised? {
        assert produced + [] == produced;
        return produced, true;
      }
      AppendAssoc(produced, records.value, RunSteps(xs[j + 1..], step).out);
      produced := produced + records.value;
      j := j + 1;
    }
    assert produced + [] == produced;
    stopped := false;
  }

  lemma AppendAssoc(a: seq<Entries>, b: seq<Entries>, c: seq<Entries>)
    ensures a + (b + c) == (a + b) + c
  {
  }
}
