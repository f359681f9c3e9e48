/**
 The `DefaultMappings` extension of `CC3GLProgramSemanticsByVarName`: the
 builder that fills a registry with the engine's standard variable names, the
 two class-side capacity settings it reads, and the lazily built shared
 default delegate.

 The standard names themselves belong to the builder's implementation, which
 is not part of this model; a `NamingConvention` stands for them. The builder
 is modelled by its shape: a fixed leading block, one block per mapped light,
 one block per mapped texture unit, and a fixed trailing block, applied with
 `mapVarName:toSemantic:at:` in that order.
 */
module DefaultMappings {
  import opened Semantics
  import opened Configuration
  import opened ByVarName

  /** One `mapVarName:toSemantic:at:` call. */
  datatype Mapping = Mapping(name: string, semantic: uint32, semanticIndex: uint32)

  function Names(ms: seq<Mapping>): set<string> {
    set m | m in ms :: m.name
  }

  /** The configuration a mapping files under its name. */
  function ConfigurationOf(m: Mapping): VariableConfiguration {
    MakeConfiguration(m.name, m.semantic, m.semanticIndex)
  }

  /** Performs the mapping calls in order. */
  function ApplyMappings(r: Registry, ms: seq<Mapping>): (r': Registry)
    ensures r'.Keys == r.Keys + Names(ms)
    ensures forall n :: n in r && n !in Names(ms) ==> r'[n] == r[n]
    ensures WellKeyed(r) ==> WellKeyed(r')
    decreases |ms|
  {
    if |ms| == 0 then
      r
    else
      assert Names(ms) == {ms[0].name} + Names(ms[1..]) by {
        assert forall m :: m in ms <==> m == ms[0] || m in ms[1..];
      }
      ApplyMappings(MapVarNameAt(r, ms[0].name, ms[0].semantic, ms[0].semanticIndex), ms[1..])
  }

  /** Last write wins: a name ends up with the configuration of the last mapping that names it. */
  lemma {:induction false} LastMappingWins(r: Registry, ms: seq<Mapping>, k: int)
    requires 0 <= k < |ms|
    requires forall j :: k < j < |ms| ==> ms[j].name != ms[k].name
    ensures ApplyMappings(r, ms)[ms[k].name] == ConfigurationOf(ms[k])
    decreases |ms|
  {
    var r1 := MapVarNameAt(r, ms[0].name, ms[0].semantic, ms[0].semanticIndex);
    if k == 0 {
      assert ms[0].name !in Names(ms[1..]) by {
        forall m | m in ms[1..] ensures m.name != ms[0].name {
          var j :| 0 <= j < |ms[1..]| && ms[1..][j] == m;
          assert ms[j + 1] == m;
        }
      }
    } else {
      forall j | k - 1 < j < |ms[1..]| ensures ms[1..][j].name != ms[1..][k - 1].name {
        assert ms[1..][j] == ms[j + 1];
      }
      LastMappingWins(r1, ms[1..], k - 1);
    }
  }

  /** Every entry after the mapping calls was either there before or filed by one of them. */
  lemma {:induction false} EntryProvenance(r: Registry, ms: seq<Mapping>, n: string)
    requires n in ApplyMappings(r, ms)
    ensures || (n in r && ApplyMappings(r, ms)[n] == r[n])
            || (exists m :: m in ms && m.name == n && ApplyMappings(r, ms)[n] == ConfigurationOf(m))
    decreases |ms|
  {
    if |ms| > 0 {
      var r1 := MapVarNameAt(r, ms[0].name, ms[0].semantic, ms[0].semanticIndex);
      EntryProvenance(r1, ms[1..], n);
      if exists m :: m in ms[1..] && m.name == n && ApplyMappings(r1, ms[1..])[n] == ConfigurationOf(m) {
        var m :| m in ms[1..] && m.name == n && ApplyMappings(r1, ms[1..])[n] == ConfigurationOf(m);
        assert m in ms;
      } else if n == ms[0].name {
        assert ms[0] in ms;
      }
    }
  }

  /**
   The standard names, grouped as the builder issues them: vertex content,
   flags, matrices, camera, material and scene lighting first; then the block
   for light `i`, for each mapped light; then the block for texture unit `i`,
   for each mapped texture unit; then the point and particle names.
   */
  datatype NamingConvention = NamingConvention(
    leading: seq<Mapping>,
    lightBlock: nat -> seq<Mapping>,
    texUnitBlock: nat -> seq<Mapping>,
    trailing: seq<Mapping>)

  /** The blocks for instances `0 .. count - 1`, in order. */
  function Blocks(block: nat -> seq<Mapping>, count: nat): seq<Mapping>
    decreases count
  {
    if count == 0 then [] else Blocks(block, count - 1) + block(count - 1)
  }

  lemma {:induction false} InBlocks(block: nat -> seq<Mapping>, count: nat, m: Mapping)
    ensures m in Blocks(block, count) <==> exists i :: 0 <= i < count && m in block(i)
    decreases count
  {
    if count > 0 {
      InBlocks(block, count - 1, m);
      if m in block(count - 1) {
        assert m in Blocks(block, count);
      }
    }
  }

  /** The whole sequence of mapping calls the builder makes for the given capacities. */
  function DefaultPlan(conv: NamingConvention, maxLights: nat, maxTexUnits: nat): seq<Mapping> {
    conv.leading + Blocks(conv.lightBlock, maxLights) + Blocks(conv.texUnitBlock, maxTexUnits) + conv.trailing
  }

  /** `populateWithDefaultVariableNameMappings`, with the capacities it reads passed in. */
  function PopulateWithDefaultVariableNameMappings(
    r: Registry, conv: NamingConvention, maxLights: nat, maxTexUnits: nat): (r': Registry)
    ensures r'.Keys == r.Keys + Names(DefaultPlan(conv, maxLights, maxTexUnits))
    ensures forall n :: n in r && n !in Names(DefaultPlan(conv, maxLights, maxTexUnits)) ==> r'[n] == r[n]
    ensures WellKeyed(r) ==> WellKeyed(r')
  {
    ApplyMappings(r, DefaultPlan(conv, maxLights, maxTexUnits))
  }

  /**
   The convention keeps to the core vocabulary, leaving the application range
   alone: every semantic is a core semantic; only the light blocks use
   per-light semantics and only the texture-unit blocks per-texture-unit ones;
   block `i` binds an index no greater than `i`.
   */
  ghost predicate WellFormed(conv: NamingConvention) {
    && (forall m :: m in conv.leading ==> IsCore(m.semantic) && !IsPerLight(m.semantic) && !IsPerTexUnit(m.semantic))
    && (forall m :: m in conv.trailing ==> IsCore(m.semantic) && !IsPerLight(m.semantic) && !IsPerTexUnit(m.semantic))
    && (forall i: nat, m :: m in conv.lightBlock(i) ==> IsPerLight(m.semantic) && m.semanticIndex <= i)
    && (forall i: nat, m :: m in conv.texUnitBlock(i) ==> IsPerTexUnit(m.semantic) && m.semanticIndex <= i)
  }

  /** The semantic and index a mapping call stores, when they come out of its setters. */
  lemma StoredBounds(m: Mapping)
    ensures ConfigurationOf(m).semanticIndex <= m.semanticIndex
    ensures m.semantic <= Max ==> ConfigurationOf(m).semantic == m.semantic
  {
  }

  /**
   The capacities bound the defaults: in a registry built from scratch, every
   per-light configuration has an index below the light capacity and every
   per-texture-unit configuration one below the texture-unit capacity: no
   per-light or per-unit configuration carries an index at or beyond the
   capacity.
   */
  lemma {:induction false} DefaultsRespectCapacities(conv: NamingConvention, maxLights: nat, maxTexUnits: nat, n: string)
    requires WellFormed(conv)
    requires n in PopulateWithDefaultVariableNameMappings(EmptyRegistry(), conv, maxLights, maxTexUnits)
    ensures var c := PopulateWithDefaultVariableNameMappings(EmptyRegistry(), conv, maxLights, maxTexUnits)[n];
            && (IsPerLight(c.semantic) ==> c.semanticIndex < maxLights)
            && (IsPerTexUnit(c.semantic) ==> c.semanticIndex < maxTexUnits)
  {
    var plan := DefaultPlan(conv, maxLights, maxTexUnits);
    var r := ApplyMappings(EmptyRegistry(), plan);
    EntryProvenance(EmptyRegistry(), plan, n);
    var m :| m in plan && m.name == n && r[n] == ConfigurationOf(m);
    StoredBounds(m);
    InBlocks(conv.lightBlock, maxLights, m);
    InBlocks(conv.texUnitBlock, maxTexUnits, m);
    if m in conv.leading || m in conv.trailing {
      assert !IsPerLight(r[n].semantic) && !IsPerTexUnit(r[n].semantic);
    } else if m in Blocks(conv.lightBlock, maxLights) {
      var i :| 0 <= i < maxLights && m in conv.lightBlock(i);
      StructuredGroups(m.semantic);
    } else {
      assert m in Blocks(conv.texUnitBlock, maxTexUnits);
      var i :| 0 <= i < maxTexUnits && m in conv.texUnitBlock(i);
      StructuredGroups(m.semantic);
    }
  }

  /**
   The builder overlays by last-write-wins: a name in the plan ends up with the
   configuration of the last mapping in the plan that names it.
   */
  lemma DefaultsLastWriteWins(r: Registry, conv: NamingConvention, maxLights: nat, maxTexUnits: nat, k: int)
    requires 0 <= k < |DefaultPlan(conv, maxLights, maxTexUnits)|
    requires forall j :: k < j < |DefaultPlan(conv, maxLights, maxTexUnits)| ==>
               DefaultPlan(conv, maxLights, maxTexUnits)[j].name != DefaultPlan(conv, maxLights, maxTexUnits)[k].name
    ensures var plan := DefaultPlan(conv, maxLights, maxTexUnits);
            PopulateWithDefaultVariableNameMappings(r, conv, maxLights, maxTexUnits)[plan[k].name]
            == ConfigurationOf(plan[k])
  {
    LastMappingWins(r, DefaultPlan(conv, maxLights, maxTexUnits), k);
  }

  /**
   The defaults stay out of the application range: in a registry built from
   scratch every configuration carries a core semantic, never None and never
   a value in [AppBase, Max].
   */
  lemma {:induction false} DefaultsAreCore(conv: NamingConvention, maxLights: nat, maxTexUnits: nat, n: string)
    requires WellFormed(conv)
    requires n in PopulateWithDefaultVariableNameMappings(EmptyRegistry(), conv, maxLights, maxTexUnits)
    ensures var c := PopulateWithDefaultVariableNameMappings(EmptyRegistry(), conv, maxLights, maxTexUnits)[n];
            IsCore(c.semantic) && !IsApp(c.semantic) && c.semantic != SemanticNone
  {
    var plan := DefaultPlan(conv, maxLights, maxTexUnits);
    var r := ApplyMappings(EmptyRegistry(), plan);
    EntryProvenance(EmptyRegistry(), plan, n);
    var m :| m in plan && m.name == n && r[n] == ConfigurationOf(m);
    InBlocks(conv.lightBlock, maxLights, m);
    InBlocks(conv.texUnitBlock, maxTexUnits, m);
    if m in Blocks(conv.lightBlock, maxLights) {
      var i :| 0 <= i < maxLights && m in conv.lightBlock(i);
      StructuredGroups(m.semantic);
    } else if m in Blocks(conv.texUnitBlock, maxTexUnits) {
      var i :| 0 <= i < maxTexUnits && m in conv.texUnitBlock(i);
      StructuredGroups(m.semantic);
    }
    StoredBounds(m);
  }

  /** Raising a capacity only adds names: every name mapped before is still mapped. */
  lemma {:induction false} CapacityMonotone(conv: NamingConvention, l1: nat, l2: nat, t1: nat, t2: nat)
    requires l1 <= l2 && t1 <= t2
    ensures Names(DefaultPlan(conv, l1, t1)) <= Names(DefaultPlan(conv, l2, t2))
  {
    forall n | n in Names(DefaultPlan(conv, l1, t1)) ensures n in Names(DefaultPlan(conv, l2, t2)) {
      var m :| m in DefaultPlan(conv, l1, t1) && m.name == n;
      InBlocks(conv.lightBlock, l1, m);
      InBlocks(conv.lightBlock, l2, m);
      InBlocks(conv.texUnitBlock, t1, m);
      InBlocks(conv.texUnitBlock, t2, m);
      assert m in DefaultPlan(conv, l2, t2);
    }
  }

  /**
   The class-side state: the two capacity settings and the shared default
   delegate, absent until first accessed.
   */
  datatype SharedDefaults = SharedDefaults(maxLights: nat, maxTexUnits: nat, shared: Option<Registry>)

  /** The state at start-up: both capacities 4, no shared delegate yet. */
  function InitialSharedDefaults(): (s: SharedDefaults)
    ensures s.maxLights == 4 && s.maxTexUnits == 4
    ensures s.shared.None?
  {
    SharedDefaults(4, 4, None)
  }

  /** `setMaxDefaultMappingLightVariables:`. */
  function SetMaxDefaultMappingLightVariables(s: SharedDefaults, maxLights: nat): (s': SharedDefaults)
    ensures s'.maxLights == maxLights
    ensures s'.maxTexUnits == s.maxTexUnits && s'.shared == s.shared
  {
    s.(maxLights := maxLights)
  }

  /** `setMaxDefaultMappingTextureUnitVariables:`. */
  function SetMaxDefaultMappingTextureUnitVariables(s: SharedDefaults, maxTexUnits: nat): (s': SharedDefaults)
    ensures s'.maxTexUnits == maxTexUnits
    ensures s'.maxLights == s.maxLights && s'.shared == s.shared
  {
    s.(maxTexUnits := maxTexUnits)
  }

  /** The state after an access to `sharedDefaultDelegate`, and the delegate it returned. */
  datatype SharedAccess = SharedAccess(state: SharedDefaults, delegate: Registry)

  /**
   `sharedDefaultDelegate`: the first access builds a delegate from scratch
   with the capacities current at that moment and keeps it; every later
   access returns the kept delegate.
   */
  function SharedDefaultDelegate(s: SharedDefaults, conv: NamingConvention): (a: SharedAccess)
    ensures s.shared.None? ==>
      a.delegate == PopulateWithDefaultVariableNameMappings(EmptyRegistry(), conv, s.maxLights, s.maxTexUnits)
    ensures s.shared.Some? ==> a.delegate == s.shared.value
    ensures a.state.shared == Some(a.delegate)
    ensures a.state.maxLights == s.maxLights && a.state.maxTexUnits == s.maxTexUnits
  {
    match s.shared
    case Some(d) => SharedAccess(s, d)
    case None =>
      var d := PopulateWithDefaultVariableNameMappings(EmptyRegistry(), conv, s.maxLights, s.maxTexUnits);
      SharedAccess(s.(shared := Some(d)), d)
  }

  /** Later accesses return the same delegate and change nothing. */
  lemma SharedBuiltOnce(s: SharedDefaults, conv: NamingConvention, conv': NamingConvention)
    ensures var a := SharedDefaultDelegate(s, conv);
            SharedDefaultDelegate(a.state, conv') == a
  {
  }

  /** Capacities set after the first access have no effect on the shared delegate. */
  lemma LateCapacityChangeIgnored(s: SharedDefaults, conv: NamingConvention, maxLights: nat, maxTexUnits: nat)
    ensures var a := SharedDefaultDelegate(s, conv);
            var s' := SetMaxDefaultMappingTextureUnitVariables(
                        SetMaxDefaultMappingLightVariables(a.state, maxLights), maxTexUnits);
            SharedDefaultDelegate(s', conv).delegate == a.delegate
  {
  }

  /** Capacities set before the first access are the ones the shared delegate is built with. */
  lemma EarlyCapacityChangeHonoured(conv: NamingConvention, maxLights: nat, maxTexUnits: nat)
    ensures var s := SetMaxDefaultMappingTextureUnitVariables(
                       SetMaxDefaultMappingLightVariables(InitialSharedDefaults(), maxLights), maxTexUnits);
            SharedDefaultDelegate(s, conv).delegate
            == PopulateWithDefaultVariableNameMappings(EmptyRegistry(), conv, maxLights, maxTexUnits)
  {
  }
}
