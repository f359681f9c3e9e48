/**
 The semantic vocabulary of the shader-binding subsystem: the `CC3Semantic`
 enumeration. Value 0 means "no semantic"; the core semantics follow it
 contiguously, in declaration order; the range [AppBase, Max] is reserved for
 application-defined semantics.
 */
module Semantics {

  /** Unsigned integer widths used by the GL interfaces (GLenum, GLuint). */
  type uint32 = x: int | 0 <= x < 0x1_0000_0000
  type uint16 = x: int | 0 <= x < 0x1_0000
  type uint8 = x: int | 0 <= x < 0x100

  /** kCC3SemanticNone: no defined semantic usage. */
  const SemanticNone: int := 0

  /** The value of the last core semantic, kCC3SemanticPointSpritesIsEnabled. */
  const LastCore: int := 74

  /** kCC3SemanticAppBase: the enumerator declared right after the last core semantic. */
  const AppBase: int := LastCore + 1

  /** kCC3SemanticMax: the largest app-specific semantic. */
  const Max: int := 0xFFFF

  /**
   The core semantics, grouped by the sections of the enumeration: vertex
   content, environment matrices, camera, materials, lighting, textures and
   particles. Within a section the members keep their declaration order.
   */
  datatype CoreSemantic =
    | Vertex(vertex: VertexSemantic)
    | Matrix(matrix: MatrixSemantic)
    | CameraPosition
    | Material(material: MaterialSemantic)
    | Lighting(lighting: LightingSemantic)
    | Texture(texture: TextureSemantic)
    | Particle(particle: ParticleSemantic)

  /** The vertex content: attributes and their availability flags. */
  datatype VertexSemantic =
    | VertexLocations
    | VertexNormals
    | VertexColors
    | VertexPointSizes
    | VertexWeights
    | VertexMatrices
    | VertexTexture
    | HasVertexNormal
    | ShouldNormalizeVertexNormal
    | ShouldRescaleVertexNormal
    | HasVertexColor
    | HasVertexTextureCoordinate
    | HasVertexPointSize
    | IsDrawingPoints

  /** The environment matrices. */
  datatype MatrixSemantic =
    | ModelMatrix
    | ModelMatrixInv
    | ModelMatrixInvTran
    | ViewMatrix
    | ViewMatrixInv
    | ViewMatrixInvTran
    | ModelViewMatrix
    | ModelViewMatrixInv
    | ModelViewMatrixInvTran
    | ProjMatrix
    | ProjMatrixInv
    | ProjMatrixInvTran
    | ModelViewProjMatrix
    | ModelViewProjMatrixInv
    | ModelViewProjMatrixInvTran

  /** The material content. */
  datatype MaterialSemantic =
    | Color
    | MaterialColorAmbient
    | MaterialColorDiffuse
    | MaterialColorSpecular
    | MaterialColorEmission
    | MaterialOpacity
    | MaterialShininess
    | MinimumDrawnAlpha

  /** The lighting content, scene-wide and per light. */
  datatype LightingSemantic =
    | IsUsingLighting
    | SceneLightColorAmbient
    | LightIsEnabled
    | LightPosition
    | LightColorAmbient
    | LightColorDiffuse
    | LightColorSpecular
    | LightAttenuation
    | LightSpotDirection
    | LightSpotExponent
    | LightSpotCutoffAngle
    | LightSpotCutoffAngleCosine

  /** The texture content and texture-unit combiner settings. */
  datatype TextureSemantic =
    | TextureCount
    | TextureSamplers
    | TexUnitMode
    | TexUnitConstantColor
    | TexUnitCombineRGBFunction
    | TexUnitSource0RGB
    | TexUnitSource1RGB
    | TexUnitSource2RGB
    | TexUnitOperand0RGB
    | TexUnitOperand1RGB
    | TexUnitOperand2RGB
    | TexUnitCombineAlphaFunction
    | TexUnitSource0Alpha
    | TexUnitSource1Alpha
    | TexUnitSource2Alpha
    | TexUnitOperand0Alpha
    | TexUnitOperand1Alpha
    | TexUnitOperand2Alpha

  /** The point and particle content. */
  datatype ParticleSemantic =
    | PointSize
    | PointSizeAttenuation
    | PointSizeMinimum
    | PointSizeMaximum
    | PointSizeFadeThreshold
    | PointSpritesIsEnabled

  /**
   The integer value of a core semantic. The enumeration gives no explicit
   values after `kCC3SemanticNone = 0`, so each member is one more than the one
   declared before it.
   */
  function Value(c: CoreSemantic): (v: int)
    ensures SemanticNone < v < AppBase
  {
    match c
    case Vertex(s) => VertexValue(s)
    case Matrix(s) => MatrixValue(s)
    case CameraPosition => 30
    case Material(s) => MaterialValue(s)
    case Lighting(s) => LightingValue(s)
    case Texture(s) => TextureValue(s)
    case Particle(s) => ParticleValue(s)
  }

  /** The values of the vertex content, continuing the count from the section before. */
  function VertexValue(s: VertexSemantic): (v: int)
    ensures 1 <= v <= 14
  {
    match s
    case VertexLocations => 1
    case VertexNormals => 2
    case VertexColors => 3
    case VertexPointSizes => 4
    case VertexWeights => 5
    case VertexMatrices => 6
    case VertexTexture => 7
    case HasVertexNormal => 8
    case ShouldNormalizeVertexNormal => 9
    case ShouldRescaleVertexNormal => 10
    case HasVertexColor => 11
    case HasVertexTextureCoordinate => 12
    case HasVertexPointSize => 13
    case IsDrawingPoints => 14
  }

  /** The values of the environment matrices, continuing the count from the section before. */
  function MatrixValue(s: MatrixSemantic): (v: int)
    ensures 15 <= v <= 29
  {
    match s
    case ModelMatrix => 15
    case ModelMatrixInv => 16
    case ModelMatrixInvTran => 17
    case ViewMatrix => 18
    case ViewMatrixInv => 19
    case ViewMatrixInvTran => 20
    case ModelViewMatrix => 21
    case ModelViewMatrixInv => 22
    case ModelViewMatrixInvTran => 23
    case ProjMatrix => 24
    case ProjMatrixInv => 25
    case ProjMatrixInvTran => 26
    case ModelViewProjMatrix => 27
    case ModelViewProjMatrixInv => 28
    case ModelViewProjMatrixInvTran => 29
  }

  /** The values of the material content, continuing the count from the section before. */
  function MaterialValue(s: MaterialSemantic): (v: int)
    ensures 31 <= v <= 38
  {
    match s
    case Color => 31
    case MaterialColorAmbient => 32
    case MaterialColorDiffuse => 33
    case MaterialColorSpecular => 34
    case MaterialColorEmission => 35
    case MaterialOpacity => 36
    case MaterialShininess => 37
    case MinimumDrawnAlpha => 38
  }

  /** The values of the lighting content, continuing the count from the section before. */
  function LightingValue(s: LightingSemantic): (v: int)
    ensures 39 <= v <= 50
  {
    match s
    case IsUsingLighting => 39
    case SceneLightColorAmbient => 40
    case LightIsEnabled => 41
    case LightPosition => 42
    case LightColorAmbient => 43
    case LightColorDiffuse => 44
    case LightColorSpecular => 45
    case LightAttenuation => 46
    case LightSpotDirection => 47
    case LightSpotExponent => 48
    case LightSpotCutoffAngle => 49
    case LightSpotCutoffAngleCosine => 50
  }

  /** The values of the texture content, continuing the count from the section before. */
  function TextureValue(s: TextureSemantic): (v: int)
    ensures 51 <= v <= 68
  {
    match s
    case TextureCount => 51
    case TextureSamplers => 52
    case TexUnitMode => 53
    case TexUnitConstantColor => 54
    case TexUnitCombineRGBFunction => 55
    case TexUnitSource0RGB => 56
    case TexUnitSource1RGB => 57
    case TexUnitSource2RGB => 58
    case TexUnitOperand0RGB => 59
    case TexUnitOperand1RGB => 60
    case TexUnitOperand2RGB => 61
    case TexUnitCombineAlphaFunction => 62
    case TexUnitSource0Alpha => 63
    case TexUnitSource1Alpha => 64
    case TexUnitSource2Alpha => 65
    case TexUnitOperand0Alpha => 66
    case TexUnitOperand1Alpha => 67
    case TexUnitOperand2Alpha => 68
  }

  /** The values of the point and particle content, continuing the count from the section before. */
  function ParticleValue(s: ParticleSemantic): (v: int)
    ensures 69 <= v <= 74
  {
    match s
    case PointSize => 69
    case PointSizeAttenuation => 70
    case PointSizeMinimum => 71
    case PointSizeMaximum => 72
    case PointSizeFadeThreshold => 73
    case PointSpritesIsEnabled => 74
  }

  /** The member of the vertex content: attributes and their availability flags with value `v`, if there is one. */
  function VertexFromValue(v: int): (r: Option<VertexSemantic>)
    ensures r.Some? <==> 1 <= v <= 14
    ensures r.Some? ==> VertexValue(r.value) == v
  {
    match v
    case 1 => Some(VertexLocations)
    case 2 => Some(VertexNormals)
    case 3 => Some(VertexColors)
    case 4 => Some(VertexPointSizes)
    case 5 => Some(VertexWeights)
    case 6 => Some(VertexMatrices)
    case 7 => Some(VertexTexture)
    case 8 => Some(HasVertexNormal)
    case 9 => Some(ShouldNormalizeVertexNormal)
    case 10 => Some(ShouldRescaleVertexNormal)
    case 11 => Some(HasVertexColor)
    case 12 => Some(HasVertexTextureCoordinate)
    case 13 => Some(HasVertexPointSize)
    case 14 => Some(IsDrawingPoints)
    case _ => None
  }

  /** The member of the environment matrices with value `v`, if there is one. */
  function MatrixFromValue(v: int): (r: Option<MatrixSemantic>)
    ensures r.Some? <==> 15 <= v <= 29
    ensures r.Some? ==> MatrixValue(r.value) == v
  {
    match v
    case 15 => Some(ModelMatrix)
    case 16 => Some(ModelMatrixInv)
    case 17 => Some(ModelMatrixInvTran)
    case 18 => Some(ViewMatrix)
    case 19 => Some(ViewMatrixInv)
    case 20 => Some(ViewMatrixInvTran)
    case 21 => Some(ModelViewMatrix)
    case 22 => Some(ModelViewMatrixInv)
    case 23 => Some(ModelViewMatrixInvTran)
    case 24 => Some(ProjMatrix)
    case 25 => Some(ProjMatrixInv)
    case 26 => Some(ProjMatrixInvTran)
    case 27 => Some(ModelViewProjMatrix)
    case 28 => Some(ModelViewProjMatrixInv)
    case 29 => Some(ModelViewProjMatrixInvTran)
    case _ => None
  }

  /** The member of the material content with value `v`, if there is one. */
  function MaterialFromValue(v: int): (r: Option<MaterialSemantic>)
    ensures r.Some? <==> 31 <= v <= 38
    ensures r.Some? ==> MaterialValue(r.value) == v
  {
    match v
    case 31 => Some(Color)
    case 32 => Some(MaterialColorAmbient)
    case 33 => Some(MaterialColorDiffuse)
    case 34 => Some(MaterialColorSpecular)
    case 35 => Some(MaterialColorEmission)
    case 36 => Some(MaterialOpacity)
    case 37 => Some(MaterialShininess)
    case 38 => Some(MinimumDrawnAlpha)
    case _ => None
  }

  /** The member of the lighting content, scene-wide and per light with value `v`, if there is one. */
  function LightingFromValue(v: int): (r: Option<LightingSemantic>)
    ensures r.Some? <==> 39 <= v <= 50
    ensures r.Some? ==> LightingValue(r.value) == v
  {
    match v
    case 39 => Some(IsUsingLighting)
    case 40 => Some(SceneLightColorAmbient)
    case 41 => Some(LightIsEnabled)
    case 42 => Some(LightPosition)
    case 43 => Some(LightColorAmbient)
    case 44 => Some(LightColorDiffuse)
    case 45 => Some(LightColorSpecular)
    case 46 => Some(LightAttenuation)
    case 47 => Some(LightSpotDirection)
    case 48 => Some(LightSpotExponent)
    case 49 => Some(LightSpotCutoffAngle)
    case 50 => Some(LightSpotCutoffAngleCosine)
    case _ => None
  }

  /** The member of the texture content and texture-unit combiner settings with value `v`, if there is one. */
  function TextureFromValue(v: int): (r: Option<TextureSemantic>)
    ensures r.Some? <==> 51 <= v <= 68
    ensures r.Some? ==> TextureValue(r.value) == v
  {
    match v
    case 51 => Some(TextureCount)
    case 52 => Some(TextureSamplers)
    case 53 => Some(TexUnitMode)
    case 54 => Some(TexUnitConstantColor)
    case 55 => Some(TexUnitCombineRGBFunction)
    case 56 => Some(TexUnitSource0RGB)
    case 57 => Some(TexUnitSource1RGB)
    case 58 => Some(TexUnitSource2RGB)
    case 59 => Some(TexUnitOperand0RGB)
    case 60 => Some(TexUnitOperand1RGB)
    case 61 => Some(TexUnitOperand2RGB)
    case 62 => Some(TexUnitCombineAlphaFunction)
    case 63 => Some(TexUnitSource0Alpha)
    case 64 => Some(TexUnitSource1Alpha)
    case 65 => Some(TexUnitSource2Alpha)
    case 66 => Some(TexUnitOperand0Alpha)
    case 67 => Some(TexUnitOperand1Alpha)
    case 68 => Some(TexUnitOperand2Alpha)
    case _ => None
  }

  /** The member of the point and particle content with value `v`, if there is one. */
  function ParticleFromValue(v: int): (r: Option<ParticleSemantic>)
    ensures r.Some? <==> 69 <= v <= 74
    ensures r.Some? ==> ParticleValue(r.value) == v
  {
    match v
    case 69 => Some(PointSize)
    case 70 => Some(PointSizeAttenuation)
    case 71 => Some(PointSizeMinimum)
    case 72 => Some(PointSizeMaximum)
    case 73 => Some(PointSizeFadeThreshold)
    case 74 => Some(PointSpritesIsEnabled)
    case _ => None
  }

  /** The core semantic with the given value, if there is one. */
  function FromValue(v: int): (r: Option<CoreSemantic>)
    ensures r.Some? <==> IsCore(v)
    ensures r.Some? ==> Value(r.value) == v
  {
    if 1 <= v <= 14 then Some(Vertex(VertexFromValue(v).value))
    else if 15 <= v <= 29 then Some(Matrix(MatrixFromValue(v).value))
    else if v == 30 then Some(CameraPosition)
    else if 31 <= v <= 38 then Some(Material(MaterialFromValue(v).value))
    else if 39 <= v <= 50 then Some(Lighting(LightingFromValue(v).value))
    else if 51 <= v <= 68 then Some(Texture(TextureFromValue(v).value))
    else if 69 <= v <= 74 then Some(Particle(ParticleFromValue(v).value))
    else None
  }

  /** Reading back the value of a core semantic yields that semantic. */
  lemma FromValueOfValue(c: CoreSemantic)
    ensures FromValue(Value(c)) == Some(c)
  {
    match c
    case Vertex(s) =>
      VertexRoundTrip(s);
    case Matrix(s) =>
      MatrixRoundTrip(s);
    case CameraPosition =>
    case Material(s) =>
      MaterialRoundTrip(s);
    case Lighting(s) =>
      LightingRoundTrip(s);
    case Texture(s) =>
      TextureRoundTrip(s);
    case Particle(s) =>
      ParticleRoundTrip(s);
  }

  /** Within the vertex content, reading back a member's value yields that member. */
  lemma VertexRoundTrip(s: VertexSemantic)
    ensures VertexFromValue(VertexValue(s)) == Some(s)
  {
  }

  /** Within the environment matrices, reading back a member's value yields that member. */
  lemma MatrixRoundTrip(s: MatrixSemantic)
    ensures MatrixFromValue(MatrixValue(s)) == Some(s)
  {
  }

  /** Within the material content, reading back a member's value yields that member. */
  lemma MaterialRoundTrip(s: MaterialSemantic)
    ensures MaterialFromValue(MaterialValue(s)) == Some(s)
  {
  }

  /** Within the lighting content, reading back a member's value yields that member. */
  lemma LightingRoundTrip(s: LightingSemantic)
    ensures LightingFromValue(LightingValue(s)) == Some(s)
  {
  }

  /** Within the texture content, reading back a member's value yields that member. */
  lemma TextureRoundTrip(s: TextureSemantic)
    ensures TextureFromValue(TextureValue(s)) == Some(s)
  {
  }

  /** Within the point and particle content, reading back a member's value yields that member. */
  lemma ParticleRoundTrip(s: ParticleSemantic)
    ensures ParticleFromValue(ParticleValue(s)) == Some(s)
  {
  }

  /** A value a core semantic has. */
  predicate IsCore(v: int) {
    SemanticNone < v <= LastCore
  }

  /** A value inside the application range [AppBase, Max]. */
  predicate IsApp(v: int) {
    AppBase <= v <= Max
  }

  /** Semantics that describe one light of several; their semantic index selects the light. */
  predicate IsPerLight(v: int) {
    Value(Lighting(LightIsEnabled)) <= v <= Value(Lighting(LightSpotCutoffAngleCosine))
  }

  /** Semantics that describe one texture unit's combiner; their semantic index selects the unit. */
  predicate IsPerTexUnit(v: int) {
    Value(Texture(TexUnitMode)) <= v <= Value(Texture(TexUnitOperand2Alpha))
  }

  /** Distinct core semantics have distinct values. */
  lemma ValueInjective(a: CoreSemantic, b: CoreSemantic)
    ensures Value(a) == Value(b) <==> a == b
  {
    if Value(a) == Value(b) {
      FromValueOfValue(a);
      FromValueOfValue(b);
    }
  }

  /**
   The core values are contiguous: every value strictly between None and
   AppBase is the value of exactly one core semantic.
   */
  lemma CoreIsContiguous(v: int)
    ensures IsCore(v) <==> exists c :: Value(c) == v
    ensures Value(Vertex(VertexLocations)) == SemanticNone + 1
    ensures Value(Particle(PointSpritesIsEnabled)) == LastCore
  {
    if IsCore(v) {
      var c := FromValue(v).value;
      assert Value(c) == v;
    }
  }

  /** None, the core range and the app range partition the 16-bit values. */
  lemma Partition(v: uint16)
    ensures v == SemanticNone || IsCore(v) || IsApp(v)
    ensures !(v == SemanticNone && IsCore(v))
    ensures !(IsCore(v) && IsApp(v))
    ensures !(v == SemanticNone && IsApp(v))
  {
  }

  /** The per-light and per-texture-unit groups are core semantics and do not overlap. */
  lemma StructuredGroups(v: int)
    ensures IsPerLight(v) ==> IsCore(v)
    ensures IsPerTexUnit(v) ==> IsCore(v)
    ensures !(IsPerLight(v) && IsPerTexUnit(v))
  {
  }

  datatype Option<+T> = None | Some(value: T)
}
