/** The base of the HCL generators: the `module.<prefix>` part of an import
    command, the import command itself, and the registry that maps a resource
    type to its generator class.
 */
module GeneratorBase {
  import opened Py

  /** `get_import_prefix`: `module.<p>` when a module prefix is set, else "". */
  function ImportPrefix(modulePrefix: Option<string>): (r: string)
    ensures modulePrefix.Some? && modulePrefix.value != "" ==> r == "module." + modulePrefix.value
    ensures modulePrefix.None? || modulePrefix.value == "" ==> r == ""
  {
    if modulePrefix.Some? && modulePrefix.value != "" then "module." + modulePrefix.value else ""
  }

  /** The Terraform address written by every `generate_import`:
      `{prefix + '.' if prefix else ''}{type}.{name}`. */
  function Address(prefix: string, resourceType: string, name: string): string {
    (if prefix != "" then prefix + "." else "") + resourceType + "." + name
  }

  /** `terraform import <address> <id>` */
  function ImportCommand(prefix: string, resourceType: string, name: string, id: string): string {
    "terraform import " + Address(prefix, resourceType, name) + " " + id
  }

  /** The command names the address in the module when a module prefix is set,
      and the bare address otherwise. */
  lemma ImportCommandShape(modulePrefix: Option<string>, resourceType: string, name: string, id: string)
    ensures var cmd := ImportCommand(ImportPrefix(modulePrefix), resourceType, name, id);
      if modulePrefix.Some? && modulePrefix.value != "" then
        cmd == "terraform import module." + modulePrefix.value + "." + resourceType + "." + name + " " + id
      else
        cmd == "terraform import " + resourceType + "." + name + " " + id
  {
  }

  /** The first character of an address: the module's `m` or the type's first. */
  lemma AddressHead(modulePrefix: Option<string>, resourceType: string, name: string, id: string)
    requires resourceType != []
    ensures var a := Address(ImportPrefix(modulePrefix), resourceType, name);
      a[0] == (if modulePrefix.Some? && modulePrefix.value != "" then 'm' else resourceType[0])
      && ImportCommand(ImportPrefix(modulePrefix), resourceType, name, id)[17] == a[0]
  {
  }

  /** The text of an import command after `terraform import `: the address,
      a space and the id.  With a name and type free of spaces, the address is
      everything up to the first space. */
  lemma {:induction false} ImportCommandAddress(prefix: string, resourceType: string, name: string, id: string)
    requires ' ' !in prefix && ' ' !in resourceType && ' ' !in name
    ensures var cmd := ImportCommand(prefix, resourceType, name, id);
      StartsWith(cmd, "terraform import ")
      && BeforeFirst(cmd[17..], ' ') == Address(prefix, resourceType, name)
      && AfterFirst(cmd[17..], ' ') == id
  {
    var a := Address(prefix, resourceType, name);
    assert ' ' !in a;
    var cmd := ImportCommand(prefix, resourceType, name, id);
    assert cmd[17..] == a + " " + id;
    BeforeFirstAt(a, id);
  }

  lemma {:induction false} BeforeFirstAt(a: string, id: string)
    requires ' ' !in a
    ensures BeforeFirst(a + " " + id, ' ') == a
    decreases |a|
  {
    if a != [] {
      assert (a + " " + id)[1..] == a[1..] + " " + id;
      BeforeFirstAt(a[1..], id);
    }
  }

  /** A generator class: the resource type it handles and its docstring. */
  datatype GeneratorClass = GeneratorClass(resourceType: string, doc: Option<string>)

  /** An instance made by `get_generator`, carrying its module prefix. */
  datatype Generator = Generator(cls: GeneratorClass, modulePrefix: Option<string>)

  /** `HCLGeneratorRegistry`, already populated (module discovery is not modelled). */
  class GeneratorRegistry {
    var generators: map<string, GeneratorClass>

    constructor ()
      ensures generators == map[]
    {
      generators := map[];
    }

    /** `register`: keyed by the class's resource type; a later class replaces
        an earlier one; the class is returned unchanged. */
    method Register(g: GeneratorClass) returns (r: GeneratorClass)
      modifies this
      ensures generators == old(generators)[g.resourceType := g]
      ensures r == g
    {
      generators := generators[g.resourceType := g];
      r := g;
    }

    /** `get_generator`: an instance of the registered class, or None. */
    method GetGenerator(resourceType: string, modulePrefix: Option<string>) returns (r: Option<Generator>)
      ensures r.None? <==> resourceType !in generators
      ensures r.Some? ==> r.value.cls == generators[resourceType] && r.value.modulePrefix == modulePrefix
    {
      if resourceType in generators {
        r := Some(Generator(generators[resourceType], modulePrefix));
      } else {
        r := None;
      }
    }

    method IsSupported(resourceType: string) returns (b: bool)
      ensures b <==> resourceType in generators
    {
      b := resourceType in generators;
    }

    /** `list_supported_types`: every registered type with its docstring or "". */
    method ListSupportedTypes() returns (m: map<string, string>)
      ensures m.Keys == generators.Keys
      ensures forall t :: t in m ==> m[t] == (match generators[t].doc case Some(d) => d case None => "")
    {
      m := map t | t in generators :: match generators[t].doc case Some(d) => d case None => "";
    }
  }

  /** After registering a list of classes, a type is supported iff some class
      handles it, and the generator found for it is the last such class. */
  function RegisterAll(start: map<string, GeneratorClass>, gs: seq<GeneratorClass>): (m: map<string, GeneratorClass>)
    ensures forall t :: t in m <==> t in start || exists i :: 0 <= i < |gs| && gs[i].resourceType == t
    ensures forall i :: 0 <= i < |gs| ==> gs[i].resourceType in m
    decreases |gs|
  {
    if gs == [] then start
    else
      var m := RegisterAll(start, gs[..|gs| - 1]);
      var last := gs[|gs| - 1];
      var r := m[last.resourceType := last];
      assert forall i :: 0 <= i < |gs| - 1 ==> gs[..|gs| - 1][i] == gs[i];
      r
  }

  lemma {:induction false} RegisterAllLastWins(start: map<string, GeneratorClass>, gs: seq<GeneratorClass>, i: nat)
    requires i < |gs|
    requires forall j :: i < j < |gs| ==> gs[j].resourceType != gs[i].resourceType
    ensures RegisterAll(start, gs)[gs[i].resourceType] == gs[i]
    decreases |gs|
  {
    if i < |gs| - 1 {
      RegisterAllLastWins(start, gs[..|gs| - 1], i);
    }
  }
}
