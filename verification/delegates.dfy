/**
 The `CC3GLProgramSemanticsDelegate` protocol's configure step, for the two
 delegate kinds the model covers, and the chain-of-responsibility discipline
 its YES/NO answer is designed for: try delegates in order and stop at the
 first YES.
 */
module Delegates {
  import opened Semantics
  import opened Configuration
  import opened ByVarName

  /**
   A semantics delegate: the abstract `CC3GLProgramSemanticsBase`, or a
   `CC3GLProgramSemanticsByVarName` with its registry.
   */
  datatype Delegate = Base | ByVarName(registry: Registry)

  /** `configureVariable:` dispatched on the delegate's class. */
  function Configure(d: Delegate, v: Variable): (out: Configured)
    ensures d.Base? ==> !out.success && out.variable == v
    ensures d.ByVarName? ==> (out.success <==> v.name in d.registry)
    ensures d.ByVarName? ==> out == ConfigureVariable(d.registry, v)
  {
    match d
    case Base => Configured(false, v)
    case ByVarName(r) => ConfigureVariable(r, v)
  }

  /** The base delegate configures nothing, whatever the variable. */
  lemma BaseNeverConfigures(v: Variable)
    ensures !Configure(Base, v).success
    ensures Configure(Base, v).variable == v
  {
  }

  /** Delegate `i` of the chain is the first one to answer YES for `v`. */
  ghost predicate FirstToConfigure(ds: seq<Delegate>, v: Variable, i: int) {
    && 0 <= i < |ds|
    && Configure(ds[i], v).success
    && forall j :: 0 <= j < i ==> !Configure(ds[j], v).success
  }

  /**
   Tries each delegate in order and stops at the first one that configures
   the variable; the variable ends up as that delegate left it. When none
   answers YES the variable is untouched.
   */
  function ConfigureChain(ds: seq<Delegate>, v: Variable): (out: Configured)
    ensures out.success <==> exists i :: 0 <= i < |ds| && Configure(ds[i], v).success
    ensures out.success ==> exists i :: FirstToConfigure(ds, v, i) && out == Configure(ds[i], v)
    ensures !out.success ==> out.variable == v
    decreases |ds|
  {
    if |ds| == 0 then
      Configured(false, v)
    else
      var first := Configure(ds[0], v);
      if first.success then
        assert FirstToConfigure(ds, v, 0);
        first
      else
        var rest := ConfigureChain(ds[1..], v);
        ChainShift(ds, v, rest);
        rest
  }

  /** Transfers the answer for the tail of a chain to the whole chain when its head says NO. */
  lemma ChainShift(ds: seq<Delegate>, v: Variable, rest: Configured)
    requires |ds| > 0 && !Configure(ds[0], v).success
    requires rest.success <==> exists i :: 0 <= i < |ds[1..]| && Configure(ds[1..][i], v).success
    requires rest.success ==> exists i :: FirstToConfigure(ds[1..], v, i) && rest == Configure(ds[1..][i], v)
    ensures rest.success <==> exists i :: 0 <= i < |ds| && Configure(ds[i], v).success
    ensures rest.success ==> exists i :: FirstToConfigure(ds, v, i) && rest == Configure(ds[i], v)
  {
    if rest.success {
      var i :| FirstToConfigure(ds[1..], v, i) && rest == Configure(ds[1..][i], v);
      assert FirstToConfigure(ds, v, i + 1);
    } else {
      forall i | 0 <= i < |ds|
        ensures !Configure(ds[i], v).success
      {
        if i > 0 {
          assert ds[i] == ds[1..][i - 1];
        }
      }
    }
  }

  /**
   An application delegate that does not know a name, chained before the
   engine's default delegate that does: the first answers NO, the second YES,
   and the variable gets the default delegate's semantic.
   */
  lemma ChainFallsThroughToDefault(app: Registry, defaults: Registry, v: Variable)
    requires v.name !in app && v.name in defaults
    ensures !Configure(ByVarName(app), v).success
    ensures Configure(ByVarName(defaults), v).success
    ensures ConfigureChain([ByVarName(app), ByVarName(defaults)], v).success
    ensures ConfigureChain([ByVarName(app), ByVarName(defaults)], v).variable.semantic
            == defaults[v.name].semantic
  {
    var ds := [ByVarName(app), ByVarName(defaults)];
    assert Configure(ds[1], v).success;
    var out := ConfigureChain(ds, v);
    var i :| FirstToConfigure(ds, v, i) && out == Configure(ds[i], v);
    assert i == 1;
  }

  /**
   The configure pass run when a program is linked: every declared variable is
   offered to the delegate chain once, in declaration order.
   */
  method ConfigureProgramVariables(ds: seq<Delegate>, vars: seq<Variable>)
    returns (configured: seq<Variable>)
    ensures |configured| == |vars|
    ensures forall k :: 0 <= k < |vars| ==> configured[k] == ConfigureChain(ds, vars[k]).variable
    ensures forall k :: 0 <= k < |vars| ==> configured[k].name == vars[k].name
    ensures forall k :: 0 <= k < |vars| && !ConfigureChain(ds, vars[k]).success ==> configured[k] == vars[k]
  {
    configured := [];
    var i := 0;
    while i < |vars|
      invariant 0 <= i <= |vars|
      invariant |configured| == i
      invariant forall k :: 0 <= k < i ==> configured[k] == ConfigureChain(ds, vars[k]).variable
    {
      var out := ConfigureChain(ds, vars[i]);
      configured := configured + [out.variable];
      i := i + 1;
    }
  }
}
