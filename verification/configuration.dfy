/**
 `CC3GLSLVariableConfiguration`, the record a name-based delegate stores per
 variable name, and the part of `CC3GLSLVariable` that configuration touches.

 The configuration keeps its semantic in a 16-bit bit-field and its semantic
 index in an 8-bit bit-field, while the setters take a full GLenum / GLuint;
 storing a wider value keeps only its low bits, as C assignment to an unsigned
 bit-field does.
 */
module Configuration {
  import opened Semantics

  datatype VariableConfiguration = VariableConfiguration(
    name: string,
    semantic: uint16,
    semanticIndex: uint8)

  /** A newly initialized configuration: no semantic, index zero. */
  function NewConfiguration(name: string): (c: VariableConfiguration)
    ensures c.name == name
    ensures c.semantic == SemanticNone && !IsCore(c.semantic) && !IsApp(c.semantic)
    ensures c.semanticIndex == 0
  {
    VariableConfiguration(name, 0, 0)
  }

  /**
   The `semantic` setter. The stored value is the GLenum's low 16 bits, so
   every semantic up to Max is stored unchanged.
   */
  function SetSemantic(c: VariableConfiguration, semantic: uint32): (r: VariableConfiguration)
    ensures r.name == c.name && r.semanticIndex == c.semanticIndex
    ensures (semantic - r.semantic) % 0x1_0000 == 0
    ensures semantic <= Max ==> r.semantic == semantic
  {
    c.(semantic := semantic % 0x1_0000)
  }

  /**
   The `semanticIndex` setter. The stored value is the GLuint's low 8 bits, so
   every index below 256 is stored unchanged.
   */
  function SetSemanticIndex(c: VariableConfiguration, index: uint32): (r: VariableConfiguration)
    ensures r.name == c.name && r.semantic == c.semantic
    ensures (index - r.semanticIndex) % 0x100 == 0
    ensures index < 0x100 ==> r.semanticIndex == index
  {
    c.(semanticIndex := index % 0x100)
  }

  /** An index of 256 or more does not survive the 8-bit field: 256 reads back as 0. */
  lemma IndexWrapsAt256(c: VariableConfiguration)
    ensures SetSemanticIndex(c, 0x100).semanticIndex == 0
    ensures SetSemanticIndex(c, 0x101).semanticIndex == 1
  {
  }

  /**
   The external GLSL variable, reduced to the fields configuration reads or
   writes (`location` and `size` stand for everything configuration leaves alone).
   */
  datatype Variable = Variable(
    name: string,
    semantic: uint32,
    semanticIndex: uint32,
    location: int,
    size: nat)

  /** A variable as it is before any configuration: no semantic, index zero. */
  predicate Unconfigured(v: Variable) {
    v.semantic == SemanticNone && v.semanticIndex == 0
  }

  /** The outcome of `configureVariable:`: the YES/NO answer and the variable afterwards. */
  datatype Configured = Configured(success: bool, variable: Variable)

  /**
   Copies a configuration's semantic and semantic index onto a variable. The
   configuration's 16- and 8-bit fields always fit the variable's wider ones.
   */
  function Assign(v: Variable, c: VariableConfiguration): (r: Variable)
    ensures r.semantic == c.semantic && r.semanticIndex == c.semanticIndex
    ensures r.name == v.name && r.location == v.location && r.size == v.size
  {
    v.(semantic := c.semantic, semanticIndex := c.semanticIndex)
  }
}
