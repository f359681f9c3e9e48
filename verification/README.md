# cocos3d shader semantics binding — a Dafny model

This project models the bookkeeping by which cocos3d assigns a *semantic*
(an abstract meaning such as "modelview matrix" or "diffuse color of light 2")
to the variables of a linked GLSL program:

- the `CC3Semantic` vocabulary: `kCC3SemanticNone = 0`, the 74 core semantics
  numbered contiguously from 1 to `kCC3SemanticPointSpritesIsEnabled = 74`, and
  the application range `[kCC3SemanticAppBase = 75, kCC3SemanticMax = 0xFFFF]`
  (`semantics.dfy`). The core semantics form a datatype with one
  sub-enumeration per section of the declaration (vertex content, environment
  matrices, camera, materials, lighting, textures, particles); `Value` gives
  each its C value and `FromValue` inverts it;
- `CC3GLSLVariableConfiguration`, with its 16-bit semantic and 8-bit index
  bit-fields, and the configured fields of a GLSL variable (`configuration.dfy`);
- `CC3GLProgramSemanticsByVarName`: the name-keyed registry,
  `addVariableConfiguration:`, both `mapVarName:` forms and `configureVariable:`
  (`by_var_name.dfy`);
- the base delegate's `configureVariable:`, which always answers NO, and the
  try-in-order chaining the protocol's YES/NO answer is designed for, including
  the configure pass over all variables of a program (`delegates.dfy`);
- the default-mappings extension: the builder, the two class-side capacity
  settings (both 4 at start-up) and the lazily built `sharedDefaultDelegate`
  (`default_mappings.dfy`);
- `CC3PVRShamanGLProgramSemantics`: the class-level table from PVRShaman
  semantic names to semantics, its lookup, `addSemantic:forPVRShamanSemanticName:`
  and the instance-side `semanticForPFXSemanticName:` (`pvrshaman.dfy`).

Everything is a pure function over immutable values. Object state that the
Objective-C code mutates in place (a variable's semantic, a delegate's
dictionary, the class-side settings and shared instance) is passed in and
returned. The integer widths of the source are explicit: GLenum and GLuint
are `uint32`; the configuration's bit-fields are `uint16` and `uint8`, and
their setters keep the low bits of a wider value, as C does when it assigns
to an unsigned bit-field.

The standard variable names that `populateWithDefaultVariableNameMappings`
installs are in its implementation file, which is not part of this model. The
builder is modelled by its shape: a `NamingConvention` gives a leading block of
mappings, a block per light index, a block per texture-unit index and a
trailing block. The builder issues them in that order for the given
capacities. `WellFormed` states what the model assumes of the convention: each
block uses only its own kind of semantic, and block `i` binds an index no
greater than `i`.

The header's comment on `CC3GLProgramSemanticsByVarName`'s `configureVariable:`
(CC3GLProgramSemantics.h:334-337) mentions only the semantic. The model copies
both the semantic and the semantic index. The configuration carries the index
only so that it can be given to the variable, and the variable has a field for
it.

## Model

| member | source | states |
|---|---|---|
| `Semantics.Value` | cocos3d/cocos3d/Shaders/CC3GLProgramSemantics.h:52-150 | every core semantic lies strictly between kCC3SemanticNone and kCC3SemanticAppBase |
| `Semantics.FromValue` | cocos3d/cocos3d/Shaders/CC3GLProgramSemantics.h:52-148 | a value names a core semantic exactly when it is in 1..74, and then the semantic it names has that value |
| `Semantics.FromValueOfValue` | cocos3d/cocos3d/Shaders/CC3GLProgramSemantics.h:53-146 | the numbering is invertible: reading back a core semantic's value gives that semantic |
| `Semantics.ValueInjective` | cocos3d/cocos3d/Shaders/CC3GLProgramSemantics.h:53-146 | two core semantics share a value only if they are the same semantic |
| `Semantics.CoreIsContiguous` | cocos3d/cocos3d/Shaders/CC3GLProgramSemantics.h:53-148 | the core semantics fill 1..AppBase-1 with no gaps, from kCC3SemanticVertexLocations = 1 to kCC3SemanticPointSpritesIsEnabled = 74: each value in that range belongs to a core semantic and no other value does |
| `Semantics.Partition` | cocos3d/cocos3d/Shaders/CC3GLProgramSemantics.h:47-150 | every 16-bit value is exactly one of: None, a core semantic, an app semantic in [AppBase, Max] |
| `Semantics.StructuredGroups` | cocos3d/cocos3d/Shaders/CC3GLProgramSemantics.h:106-138 | the per-light and per-texture-unit semantics are core semantics, and no semantic is in both groups |
| `Configuration.NewConfiguration` | cocos3d/cocos3d/Shaders/CC3GLProgramSemantics.h:244-259 | a fresh configuration has semantic kCC3SemanticNone and semantic index 0 |
| `Configuration.SetSemantic` | cocos3d/cocos3d/Shaders/CC3GLProgramSemantics.h:231-250 | the stored semantic is the given GLenum modulo 2^16, so any semantic up to Max is kept exactly; name and index are untouched |
| `Configuration.SetSemanticIndex` | cocos3d/cocos3d/Shaders/CC3GLProgramSemantics.h:231-259 | the stored index is the given GLuint modulo 2^8, so any index below 256 is kept exactly; name and semantic are untouched |
| `Configuration.IndexWrapsAt256` | cocos3d/cocos3d/Shaders/CC3GLProgramSemantics.h:234 | an index of 256 is stored as 0 and 257 as 1 by the 8-bit field |
| `Configuration.Assign` | cocos3d/cocos3d/Shaders/CC3GLProgramSemantics.h:334-337 | configuring a variable sets its semantic and index from the configuration and changes nothing else |
| `ByVarName.AddVariableConfiguration` | cocos3d/cocos3d/Shaders/CC3GLProgramSemantics.h:344-353 | the configuration is filed under its name, replacing any earlier one of that name; every other entry is unchanged; entries stay filed under their own names |
| `ByVarName.MakeConfiguration` | cocos3d/cocos3d/Shaders/CC3GLProgramSemantics.h:355-360 | the configuration built for a mapping call carries the call's name, and its semantic and index as far as the bit-fields hold them |
| `ByVarName.MapVarNameAt` | cocos3d/cocos3d/Shaders/CC3GLProgramSemantics.h:355-367 | the name becomes mapped to the given semantic and index (modulo the field widths); other names keep their configurations |
| `ByVarName.MapVarName` | cocos3d/cocos3d/Shaders/CC3GLProgramSemantics.h:369-376 | the name becomes mapped to the given semantic (modulo 2^16, so exactly when it is at most Max) at index 0; other names keep their configurations |
| `ByVarName.ConfigureVariable` | cocos3d/cocos3d/Shaders/CC3GLProgramSemantics.h:334-342 | answers YES exactly when the variable's name is registered; on YES the variable takes the registered semantic and index; on NO the variable is unchanged |
| `ByVarName.ConfigureAfterMap` | cocos3d/cocos3d/Shaders/CC3GLProgramSemantics.h:334-367 | after mapping a name to (semantic, index), configuring a variable of that name succeeds with exactly that semantic and index |
| `ByVarName.ConfigureAfterMapKeepsLowBits` | cocos3d/cocos3d/Shaders/CC3GLProgramSemantics.h:231-234 | for any GLenum and GLuint mapped to a name, configuring a variable of that name succeeds and receives the semantic modulo 2^16 and the index modulo 2^8 |
| `ByVarName.MapLeavesOtherNames` | cocos3d/cocos3d/Shaders/CC3GLProgramSemantics.h:350-353 | mapping one name does not change the outcome of configuring a variable of any other name |
| `ByVarName.UnknownNameStaysUnconfigured` | cocos3d/cocos3d/Shaders/CC3GLProgramSemantics.h:339-341 | a variable whose name is not registered is not configured and keeps semantic None |
| `ByVarName.MapOverwrites` | cocos3d/cocos3d/Shaders/CC3GLProgramSemantics.h:350-353 | mapping a name twice leaves the registry as if only the second mapping had been made |
| `ByVarName.MapIsAddConfiguration` | cocos3d/cocos3d/Shaders/CC3GLProgramSemantics.h:356-360 | `mapVarName:toSemantic:at:` gives the same registry as adding any configuration with that name, semantic and index |
| `ByVarName.ConfigureAfterMapVarName` | cocos3d/cocos3d/Shaders/CC3GLProgramSemantics.h:369-376 | after `mapVarName:toSemantic:`, configuring a variable of that name succeeds with index 0 and the semantic modulo 2^16, as the `at:` form with index 0 would give |
| `ByVarName.ConfigureIdempotent` | cocos3d/cocos3d/Shaders/CC3GLProgramSemantics.h:334-342 | configuring an already configured variable again gives the same answer and the same variable |
| `Delegates.Configure` | cocos3d/cocos3d/Shaders/CC3GLProgramSemantics.h:299-304 | the base delegate answers NO and leaves the variable alone; a by-name delegate answers YES exactly when its registry holds the variable's name |
| `Delegates.BaseNeverConfigures` | cocos3d/cocos3d/Shaders/CC3GLProgramSemantics.h:278-279 | the base delegate never configures any variable |
| `Delegates.ConfigureChain` | cocos3d/cocos3d/Shaders/CC3GLProgramSemantics.h:178-181 | a chain answers YES exactly when some delegate in it does; the variable is then as the first delegate answering YES left it; when none does it is unchanged |
| `Delegates.ChainFallsThroughToDefault` | cocos3d/cocos3d/Shaders/CC3GLProgramSemantics.h:178-181 | with an application delegate that lacks a name chained before a default delegate that has it, the first answers NO, the second YES, and the variable gets the default's semantic |
| `Delegates.ConfigureProgramVariables` | cocos3d/cocos3d/Shaders/CC3GLProgramSemantics.h:178-184 | the link-time pass returns every variable of the program, each as the delegate chain configures it; names are kept, and a variable that no delegate in the chain configures is returned unchanged |
| `DefaultMappings.ApplyMappings` | cocos3d/cocos3d/Shaders/CC3GLProgramSemantics.h:396-399 | a sequence of mapping calls registers exactly the names it mentions in addition to those already there, and leaves the others untouched |
| `DefaultMappings.LastMappingWins` | cocos3d/cocos3d/Shaders/CC3GLProgramSemantics.h:396-399 | after a sequence of mapping calls, a name holds the configuration of the last call that mapped it |
| `DefaultMappings.EntryProvenance` | cocos3d/cocos3d/Shaders/CC3GLProgramSemantics.h:394-399 | every entry after a sequence of mapping calls was there before or was filed by one of the calls |
| `DefaultMappings.PopulateWithDefaultVariableNameMappings` | cocos3d/cocos3d/Shaders/CC3GLProgramSemantics.h:394-412 | the builder adds exactly the plan's names to the registry and leaves every other name's configuration as it was (which configuration a plan name gets: `DefaultMappings.DefaultsLastWriteWins`) |
| `DefaultMappings.DefaultsRespectCapacities` | cocos3d/cocos3d/Shaders/CC3GLProgramSemantics.h:414-442 | in defaults built from scratch, every per-light configuration has an index below the light capacity and every per-texture-unit one an index below the texture-unit capacity |
| `DefaultMappings.DefaultsLastWriteWins` | cocos3d/cocos3d/Shaders/CC3GLProgramSemantics.h:394-403 | the builder overlays by last-write-wins: a plan name ends up with the configuration of the last plan mapping naming it, whatever was there before |
| `DefaultMappings.DefaultsAreCore` | cocos3d/cocos3d/Shaders/CC3GLProgramSemantics.h:47-50 | in defaults built from scratch every configuration carries a core semantic, never None and never one in the application range [AppBase, Max] |
| `DefaultMappings.CapacityMonotone` | cocos3d/cocos3d/Shaders/CC3GLProgramSemantics.h:405-410 | raising either capacity only adds mapped names |
| `DefaultMappings.InitialSharedDefaults` | cocos3d/cocos3d/Shaders/CC3GLProgramSemantics.h:414-442 | at start-up both capacities are 4 and no shared delegate exists |
| `DefaultMappings.SetMaxDefaultMappingLightVariables` | cocos3d/cocos3d/Shaders/CC3GLProgramSemantics.h:423-430 | sets the light capacity and changes nothing else, in particular not an already built shared delegate |
| `DefaultMappings.SetMaxDefaultMappingTextureUnitVariables` | cocos3d/cocos3d/Shaders/CC3GLProgramSemantics.h:444-454 | sets the texture-unit capacity and changes nothing else, in particular not an already built shared delegate |
| `DefaultMappings.SharedDefaultDelegate` | cocos3d/cocos3d/Shaders/CC3GLProgramSemantics.h:459-478 | the first access builds the defaults from scratch with the capacities current then and keeps them; later accesses return what was kept |
| `DefaultMappings.SharedBuiltOnce` | cocos3d/cocos3d/Shaders/CC3GLProgramSemantics.h:463-470 | a second access returns the same delegate and leaves the state as it is |
| `DefaultMappings.LateCapacityChangeIgnored` | cocos3d/cocos3d/Shaders/CC3GLProgramSemantics.h:472-476 | capacities changed after the first access do not change the shared delegate |
| `DefaultMappings.EarlyCapacityChangeHonoured` | cocos3d/cocos3d/Shaders/CC3GLProgramSemantics.h:405-411 | capacities set before the first access are the ones the shared delegate is built with |
| `PVRShaman.SemanticForPVRShamanSemanticName` | cocos3d/cc3PVR/CC3PVRShamanGLProgramSemantics.h:53-57 | a mapped name yields its semantic; an unmapped name yields kCC3SemanticNone |
| `PVRShaman.AddSemantic` | cocos3d/cc3PVR/CC3PVRShamanGLProgramSemantics.h:59-63 | the name is mapped to the given semantic, added or replacing the old one; all other mappings are unchanged |
| `PVRShaman.SemanticForPFXSemanticName` | cocos3d/cc3PVR/CC3PVRShamanGLProgramSemantics.h:45-51 | the instance-side lookup yields the mapped semantic or kCC3SemanticNone, from the class-level table |
| `PVRShaman.InstanceSeesClassAdditions` | cocos3d/cc3PVR/CC3PVRShamanGLProgramSemantics.h:45-63 | the instance-side lookup reads the live class table: after a class-side addition it yields the added semantic for that name and the class side's earlier answer for every other name |
| `PVRShaman.LookupAfterAdd` | cocos3d/cc3PVR/CC3PVRShamanGLProgramSemantics.h:59-63 | after adding a mapping, looking its name up yields the added semantic |
| `PVRShaman.AddOverridesOnlyItsName` | cocos3d/cc3PVR/CC3PVRShamanGLProgramSemantics.h:59-63 | a second mapping of a name overrides the first, and no other name's lookup changes |
| `PVRShaman.UnknownNameHasNoSemantic` | cocos3d/cc3PVR/CC3PVRShamanGLProgramSemantics.h:53-57 | an unmapped name translates to no semantic, neither core nor app |

## Left out

- `populateUniform:withVisitor:` (per-frame uniform population and change suppression): it reads GL state caches and scene objects and writes float data through the uniform class. Neither its implementation nor the uniform class is part of this model.
- `NSStringFromCC3Semantic` and `nameOfSemantic:`: diagnostic strings whose contents are not part of this model.
- The standard variable names of `populateWithDefaultVariableNameMappings` and the standard PVRShaman name table: both live in implementation files that are not part of this model. They appear as parameters: a `NamingConvention`, and the initial `ShamanTable`.
- `DefaultMappings.DefaultsRespectCapacities`: holds only for conventions satisfying `WellFormed`, which is an assumption about the unseen builder, not a fact read from it.
- `DefaultMappings.DefaultsAreCore`: likewise holds only for `WellFormed` conventions. That the builder uses core semantics only is the header's promise that the framework leaves the application range alone, not something read from the builder's code.
- `ByVarName.AddVariableConfiguration`: the source keeps the caller's configuration object by reference, and its name, semantic and index stay writable. A caller that changes the object after adding it changes the registry's answers, and can make the name differ from the key it is filed under. The model stores configurations as values, so `WellKeyed` holds only in the model.
- The `CC3PFXGLProgramSemantics` superclass, including its `configureVariable:`, and PFX file parsing: not part of this model.
- The `semanticsDelegate` allocator, retain/autorelease and other `NSObject` plumbing: no behaviour beyond creating an object.
- Aliasing of the shared default delegate: changes made through the returned object reach every program that holds it. The model returns the registry as a value, so this sharing is not represented.
- The capacity settings are `NSUInteger`; the model uses unbounded naturals, as no overflow is reachable through the operations modelled.
- `kCC3MaxTextureUnits` (8) is declared beside the enumeration but no modelled operation reads it.
