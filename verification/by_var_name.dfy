/**
 `CC3GLProgramSemanticsByVarName`: a registry from GLSL variable names to
 variable configurations, and the `configureVariable:` that consults it.
 */
module ByVarName {
  import opened Semantics
  import opened Configuration

  /** The `_varConfigsByName` dictionary. */
  type Registry = map<string, VariableConfiguration>

  /** Every configuration is filed under its own name. */
  predicate WellKeyed(r: Registry) {
    forall n :: n in r ==> r[n].name == n
  }

  /** A delegate that has not been given any mapping yet. */
  function EmptyRegistry(): (r: Registry)
    ensures WellKeyed(r)
    ensures forall n :: n !in r
  {
    map[]
  }

  /**
   `addVariableConfiguration:` files the configuration under its name,
   replacing any configuration already filed under that name.
   */
  function AddVariableConfiguration(r: Registry, c: VariableConfiguration): (r': Registry)
    ensures r'.Keys == r.Keys + {c.name}
    ensures r'[c.name] == c
    ensures forall n :: n in r && n != c.name ==> r'[n] == r[n]
    ensures WellKeyed(r) ==> WellKeyed(r')
  {
    r[c.name := c]
  }

  /**
   A freshly initialized configuration given a name, a semantic and an index
   through its setters; both values keep only the low bits their fields hold.
   */
  function MakeConfiguration(name: string, semantic: uint32, index: uint32): (c: VariableConfiguration)
    ensures c.name == name
    ensures (semantic - c.semantic) % 0x1_0000 == 0
    ensures semantic <= Max ==> c.semantic == semantic
    ensures (index - c.semanticIndex) % 0x100 == 0
    ensures index < 0x100 ==> c.semanticIndex == index
  {
    SetSemanticIndex(SetSemantic(NewConfiguration(name), semantic), index)
  }

  /**
   `mapVarName:toSemantic:at:` builds a fresh configuration with the given
   name, semantic and index and adds it.
   */
  function MapVarNameAt(r: Registry, name: string, semantic: uint32, index: uint32): (r': Registry)
    ensures r'.Keys == r.Keys + {name}
    ensures r'[name].name == name
    ensures (semantic - r'[name].semantic) % 0x1_0000 == 0
    ensures semantic <= Max ==> r'[name].semantic == semantic
    ensures (index - r'[name].semanticIndex) % 0x100 == 0
    ensures index < 0x100 ==> r'[name].semanticIndex == index
    ensures forall n :: n in r && n != name ==> r'[n] == r[n]
    ensures WellKeyed(r) ==> WellKeyed(r')
  {
    AddVariableConfiguration(r, MakeConfiguration(name, semantic, index))
  }

  /** `mapVarName:toSemantic:` maps the name at semantic index zero. */
  function MapVarName(r: Registry, name: string, semantic: uint32): (r': Registry)
    ensures r'.Keys == r.Keys + {name}
    ensures r'[name].name == name
    ensures (semantic - r'[name].semantic) % 0x1_0000 == 0
    ensures semantic <= Max ==> r'[name].semantic == semantic
    ensures r'[name].semanticIndex == 0
    ensures forall n :: n in r && n != name ==> r'[n] == r[n]
    ensures WellKeyed(r) ==> WellKeyed(r')
  {
    MapVarNameAt(r, name, semantic, 0)
  }

  /**
   `configureVariable:` looks the variable's name up. On a hit it copies the
   configuration's semantic and index onto the variable and answers YES; on a
   miss it leaves the variable alone and answers NO.
   */
  function ConfigureVariable(r: Registry, v: Variable): (out: Configured)
    ensures out.success <==> v.name in r
    ensures out.success ==> out.variable.semantic == r[v.name].semantic
    ensures out.success ==> out.variable.semanticIndex == r[v.name].semanticIndex
    ensures out.variable.name == v.name
    ensures out.variable.location == v.location && out.variable.size == v.size
    ensures !out.success ==> out.variable == v
  {
    if v.name in r then Configured(true, Assign(v, r[v.name])) else Configured(false, v)
  }

  /**
   Mapping a name and then configuring a variable of that name succeeds and
   gives the variable the mapped semantic and index.
   */
  lemma ConfigureAfterMap(r: Registry, name: string, semantic: uint32, index: uint32, v: Variable)
    requires v.name == name
    requires semantic <= Max && index < 0x100
    ensures ConfigureVariable(MapVarNameAt(r, name, semantic, index), v).success
    ensures ConfigureVariable(MapVarNameAt(r, name, semantic, index), v).variable.semantic == semantic
    ensures ConfigureVariable(MapVarNameAt(r, name, semantic, index), v).variable.semanticIndex == index
  {
  }

  /**
   Whatever GLenum and GLuint are mapped, configuring a variable of that name
   succeeds; the variable receives the semantic's low 16 bits and the index's
   low 8 bits, the parts the configuration's bit-fields keep.
   */
  lemma ConfigureAfterMapKeepsLowBits(r: Registry, name: string, semantic: uint32, index: uint32, v: Variable)
    requires v.name == name
    ensures ConfigureVariable(MapVarNameAt(r, name, semantic, index), v).success
    ensures ConfigureVariable(MapVarNameAt(r, name, semantic, index), v).variable.semantic == semantic % 0x1_0000
    ensures ConfigureVariable(MapVarNameAt(r, name, semantic, index), v).variable.semanticIndex == index % 0x100
  {
  }

  /** Mapping one name does not change how variables of any other name are configured. */
  lemma MapLeavesOtherNames(r: Registry, name: string, semantic: uint32, index: uint32, v: Variable)
    requires v.name != name
    ensures ConfigureVariable(MapVarNameAt(r, name, semantic, index), v) == ConfigureVariable(r, v)
  {
  }

  /** A name never mapped is not configured, and the variable keeps no semantic. */
  lemma UnknownNameStaysUnconfigured(r: Registry, v: Variable)
    requires v.name !in r && Unconfigured(v)
    ensures !ConfigureVariable(r, v).success
    ensures ConfigureVariable(r, v).variable.semantic == SemanticNone
  {
  }

  /** Last write wins: a second mapping of a name erases every trace of the first. */
  lemma MapOverwrites(r: Registry, name: string, s1: uint32, i1: uint32, s2: uint32, i2: uint32)
    ensures MapVarNameAt(MapVarNameAt(r, name, s1, i1), name, s2, i2) == MapVarNameAt(r, name, s2, i2)
  {
  }

  /**
   `mapVarName:toSemantic:at:` is the same as adding any configuration that
   carries that name, semantic and index.
   */
  lemma MapIsAddConfiguration(r: Registry, c: VariableConfiguration, semantic: uint32, index: uint32)
    requires c.semantic == semantic && c.semanticIndex == index
    ensures MapVarNameAt(r, c.name, semantic, index) == AddVariableConfiguration(r, c)
  {
  }

  /**
   Mapping a name without an index and then configuring a variable of that
   name succeeds with semantic index zero and the semantic's low 16 bits.
   */
  lemma ConfigureAfterMapVarName(r: Registry, name: string, semantic: uint32, v: Variable)
    requires v.name == name
    ensures ConfigureVariable(MapVarName(r, name, semantic), v).success
    ensures ConfigureVariable(MapVarName(r, name, semantic), v).variable.semantic == semantic % 0x1_0000
    ensures ConfigureVariable(MapVarName(r, name, semantic), v).variable.semanticIndex == 0
  {
  }

  /** Configuring an already configured variable again changes nothing. */
  lemma ConfigureIdempotent(r: Registry, v: Variable)
    ensures ConfigureVariable(r, ConfigureVariable(r, v).variable) == ConfigureVariable(r, v)
  {
  }
}
