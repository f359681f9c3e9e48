/**
 `CC3PVRShamanGLProgramSemantics`: translation of the semantic names used in
 PVRShaman PFX effect files into `CC3Semantic` values. The class keeps one
 table for the whole process; it starts with the standard mappings (whose
 contents belong to the implementation, not to this model) and can be
 extended or overridden at run time.
 */
module PVRShaman {
  import opened Semantics

  /** The class-level table from PVRShaman semantic names to semantic values. */
  type ShamanTable = map<string, uint32>

  /**
   `semanticForPVRShamanSemanticName:`: the mapped semantic, or
   kCC3SemanticNone when the name has no mapping.
   */
  function SemanticForPVRShamanSemanticName(t: ShamanTable, semanticName: string): (s: uint32)
    ensures semanticName in t ==> s == t[semanticName]
    ensures semanticName !in t ==> s == SemanticNone
  {
    if semanticName in t then t[semanticName] else SemanticNone
  }

  /** `addSemantic:forPVRShamanSemanticName:`: adds a mapping, or replaces the existing one. */
  function AddSemantic(t: ShamanTable, semantic: uint32, semanticName: string): (t': ShamanTable)
    ensures t'.Keys == t.Keys + {semanticName}
    ensures t'[semanticName] == semantic
    ensures forall n :: n in t && n != semanticName ==> t'[n] == t[n]
  {
    t[semanticName := semantic]
  }

  /**
   The instance-side `semanticForPFXSemanticName:`, which answers from the
   class-level table.
   */
  function SemanticForPFXSemanticName(t: ShamanTable, semanticName: string): (s: uint32)
    ensures semanticName in t ==> s == t[semanticName]
    ensures semanticName !in t ==> s == SemanticNone
  {
    SemanticForPVRShamanSemanticName(t, semanticName)
  }

  /**
   The instance side reads the live class-level table: a mapping added on the
   class side is seen by the instance lookup for its name, and every other
   name is answered as the class side answered it before the addition.
   */
  lemma InstanceSeesClassAdditions(t: ShamanTable, semantic: uint32, semanticName: string, other: string)
    ensures SemanticForPFXSemanticName(AddSemantic(t, semantic, semanticName), semanticName) == semantic
    ensures other != semanticName ==>
              SemanticForPFXSemanticName(AddSemantic(t, semantic, semanticName), other)
              == SemanticForPVRShamanSemanticName(t, other)
  {
  }

  /** After adding a mapping, looking its name up yields the added semantic. */
  lemma LookupAfterAdd(t: ShamanTable, semantic: uint32, semanticName: string)
    ensures SemanticForPVRShamanSemanticName(AddSemantic(t, semantic, semanticName), semanticName) == semantic
  {
  }

  /**
   Adding a mapping overrides any earlier one for the same name and leaves
   the answer for every other name as it was.
   */
  lemma AddOverridesOnlyItsName(t: ShamanTable, s1: uint32, s2: uint32, semanticName: string, other: string)
    requires other != semanticName
    ensures AddSemantic(AddSemantic(t, s1, semanticName), s2, semanticName) == AddSemantic(t, s2, semanticName)
    ensures SemanticForPVRShamanSemanticName(AddSemantic(t, s2, semanticName), other)
            == SemanticForPVRShamanSemanticName(t, other)
  {
  }

  /** A name with no mapping translates to no semantic, which is neither core nor app. */
  lemma UnknownNameHasNoSemantic(t: ShamanTable, semanticName: string)
    requires semanticName !in t
    ensures SemanticForPVRShamanSemanticName(t, semanticName) == SemanticNone
    ensures !IsCore(SemanticForPVRShamanSemanticName(t, semanticName))
    ensures !IsApp(SemanticForPVRShamanSemanticName(t, semanticName))
  {
  }
}
