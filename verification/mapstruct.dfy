/** The MapStruct compatibility rule: when a source set's annotation processors include
    MapStruct's processor but no `lombok-mapstruct-binding`, declare the binding, at a
    fixed version, into that source set's annotation-processor configuration. */
module Mapstruct {
  import opened Wrappers
  import opened Gradle

  const LombokMapstructVersion := "0.2.0"
  const BindingGroup := "org.projectlombok"
  const BindingName := "lombok-mapstruct-binding"

  /** The notation string the plugin declares. */
  const BindingNotation := Notation(BindingGroup, BindingName, LombokMapstructVersion)

  /** The dependency record that notation stands for. */
  const BindingDependency := Dependency(Some(BindingGroup), BindingName, Some(LombokMapstructVersion))

  /** MapStruct's annotation processor: both name and group must match. */
  predicate IsMapstructProcessor(d: Dependency) {
    d.name == "mapstruct-processor" && d.group == Some("org.mapstruct")
  }

  /** A binding is recognised by its name alone, whatever its group. */
  predicate IsBinding(d: Dependency) {
    d.name == BindingName
  }

  predicate HasProcessor(deps: seq<Dependency>) {
    exists i | 0 <= i < |deps| :: IsMapstructProcessor(deps[i])
  }

  predicate HasBinding(deps: seq<Dependency>) {
    exists i | 0 <= i < |deps| :: IsBinding(deps[i])
  }

  /** The rule fires: a processor is declared and no binding is. */
  predicate NeedsBinding(deps: seq<Dependency>) {
    HasProcessor(deps) && !HasBinding(deps)
  }

  /** `deps[i]` is the last MapStruct processor in `deps`. */
  predicate LastProcessorAt(deps: seq<Dependency>, i: int) {
    0 <= i < |deps| && IsMapstructProcessor(deps[i])
    && forall j | i < j < |deps| :: !IsMapstructProcessor(deps[j])
  }

  /** The single pass over the annotation-processor dependencies: remembers the last
      MapStruct processor seen and whether any binding was seen. */
  method ScanDependencies(deps: seq<Dependency>) returns (mapstruct: Option<Dependency>, hasBinding: bool)
    ensures hasBinding <==> HasBinding(deps)
    ensures mapstruct.None? <==> !HasProcessor(deps)
    ensures mapstruct.Some? ==> exists i :: LastProcessorAt(deps, i) && deps[i] == mapstruct.value
  {
    mapstruct := None;
    hasBinding := false;
    var k := 0;
    ghost var last := -1;
    while k < |deps|
      invariant 0 <= k <= |deps|
      invariant hasBinding <==> exists i | 0 <= i < k :: IsBinding(deps[i])
      invariant mapstruct.None? <==> last == -1
      invariant mapstruct.None? ==> forall i | 0 <= i < k :: !IsMapstructProcessor(deps[i])
      invariant mapstruct.Some? ==> LastProcessorAt(deps[..k], last) && deps[last] == mapstruct.value
    {
      if IsMapstructProcessor(deps[k]) {
        mapstruct := Some(deps[k]);
        last := k;
      }
      if IsBinding(deps[k]) {
        hasBinding := true;
      }
      k := k + 1;
    }
    assert deps[..k] == deps;
  }

  /** `handleMapstructSupport`: the declaration the rule makes for `sourceSet`, if any. */
  method HandleMapstructSupport(sourceSet: SourceSet, deps: seq<Dependency>) returns (added: Option<Addition>)
    ensures added.Some? <==> NeedsBinding(deps)
    ensures added.Some? ==> added.value == Addition(sourceSet.annotationProcessorConfiguration, BindingNotation)
    ensures ApplyRule(deps) == deps + (if added.Some? then [BindingDependency] else [])
  {
    var mapstruct, hasBinding := ScanDependencies(deps);
    if mapstruct.Some? && !hasBinding {
      added := Some(Addition(sourceSet.annotationProcessorConfiguration, BindingNotation));
    } else {
      added := None;
    }
  }

  /** The notation the rule declares denotes the binding record. */
  lemma BindingNotationDenotesBinding()
    ensures ParseNotation(BindingNotation) == Some(BindingDependency)
    ensures IsBinding(BindingDependency) && !IsMapstructProcessor(BindingDependency)
  {
    BindingNotationParses();
  }

  /** Reading back the declared notation gives the binding's group, name and version. */
  lemma BindingNotationParses()
    ensures ParseNotation(BindingNotation) == Some(BindingDependency)
  {
    BindingPartsColonFree();
    ParseNotationRoundTrip(BindingGroup, BindingName, LombokMapstructVersion);
  }

  lemma BindingPartsColonFree()
    ensures ':' !in BindingGroup && ':' !in BindingName && ':' !in LombokMapstructVersion
  {
  }

  /** The annotation-processor dependencies as a later scan sees them once the rule has run. */
  function ApplyRule(deps: seq<Dependency>): (r: seq<Dependency>)
    ensures |deps| <= |r| <= |deps| + 1 && r[..|deps|] == deps
  {
    if NeedsBinding(deps) then deps + [BindingDependency] else deps
  }

  /** Number of bindings among `deps`. */
  function CountBindings(deps: seq<Dependency>): nat {
    if |deps| == 0 then 0
    else (if IsBinding(deps[0]) then 1 else 0) + CountBindings(deps[1..])
  }

  lemma {:induction false} CountBindingsAppend(a: seq<Dependency>, b: seq<Dependency>)
    ensures CountBindings(a + b) == CountBindings(a) + CountBindings(b)
  {
    if |a| > 0 {
      assert (a + b)[1..] == a[1..] + b;
      CountBindingsAppend(a[1..], b);
    } else {
      assert a + b == b;
    }
  }

  lemma {:induction false} CountBindingsZero(deps: seq<Dependency>)
    ensures CountBindings(deps) == 0 <==> !HasBinding(deps)
  {
    if |deps| > 0 {
      CountBindingsZero(deps[1..]);
      if HasBinding(deps) && !IsBinding(deps[0]) {
        var i :| 0 <= i < |deps| && IsBinding(deps[i]);
        assert IsBinding(deps[1..][i - 1]);
      }
      if HasBinding(deps[1..]) {
        var i :| 0 <= i < |deps[1..]| && IsBinding(deps[1..][i]);
        assert IsBinding(deps[i + 1]);
      }
    }
  }

  /** When the rule fires the list ends up with exactly one binding; and whether it fires
      or not, every dependency it adds is a binding. */
  lemma {:induction false} RuleAddsExactlyOneBinding(deps: seq<Dependency>)
    ensures NeedsBinding(deps) ==> CountBindings(ApplyRule(deps)) == 1
    ensures CountBindings(ApplyRule(deps)) - CountBindings(deps) == |ApplyRule(deps)| - |deps|
  {
    if NeedsBinding(deps) {
      CountBindingsAppend(deps, [BindingDependency]);
      CountBindingsZero(deps);
      assert [BindingDependency][1..] == [];
    }
  }

  /** A source set without MapStruct's processor gets nothing from the rule. */
  lemma NoProcessorNoAddition(deps: seq<Dependency>)
    requires !HasProcessor(deps)
    ensures ApplyRule(deps) == deps
  {
  }

  /** Running the rule a second time adds nothing. */
  lemma {:induction false} ApplyRuleIdempotent(deps: seq<Dependency>)
    ensures ApplyRule(ApplyRule(deps)) == ApplyRule(deps)
    ensures HasProcessor(deps) ==> HasBinding(ApplyRule(deps))
  {
    var r := ApplyRule(deps);
    if NeedsBinding(deps) {
      assert IsBinding(r[|deps|]);
    }
    if HasProcessor(deps) && !NeedsBinding(deps) {
      assert r == deps;
    }
  }
}
