/**
 * PeergreenContextConfig.addServletContainerInitializer: records a ServletContainerInitializer in
 * the two tables of Tomcat's ContextConfig (initializer to the classes it was given, and each type
 * named by its HandlesTypes annotation to the initializers interested in it), and raises the flags
 * telling whether annotation types or other types are handled.
 */
module ContextConfig {
  import opened Wrappers

  /** A class, and whether it is an annotation type. */
  datatype ClassRef = ClassRef(name: string, isAnnotation: bool)

  /**
   * A ServletContainerInitializer: its identity and the HandlesTypes annotation on its class
   * (None without the annotation, Some(None) when the annotation's value is null).
   */
  datatype Initializer = Initializer(id: nat, handlesTypes: Option<Option<seq<ClassRef>>>)

  /** The types the initializer declares an interest in; none without an annotation or a value. */
  function DeclaredTypes(sci: Initializer): seq<ClassRef> {
    match sci.handlesTypes
    case None => []
    case Some(None) => []
    case Some(Some(types)) => types
  }

  /** Adds `sci` to the initializer set of every type of `types`, creating missing sets. */
  function AddToTypes(m: map<ClassRef, set<Initializer>>, sci: Initializer, types: seq<ClassRef>): (r: map<ClassRef, set<Initializer>>)
    decreases |types|
    ensures r.Keys == m.Keys + (set t | t in types)
    ensures forall t :: t in r && t !in types ==> r[t] == m[t]
    ensures forall t :: t in r && t in types ==> r[t] == (if t in m then m[t] else {}) + {sci}
  {
    if types == [] then m
    else
      var front := types[..|types| - 1];
      var t := types[|types| - 1];
      assert forall u :: u in types <==> u in front || u == t;
      var before := AddToTypes(m, sci, front);
      before[t := (if t in before then before[t] else {}) + {sci}]
  }

  /** Some type of `types` is (`annotation`) or is not (`!annotation`) an annotation type. */
  predicate SomeType(types: seq<ClassRef>, annotation: bool) {
    exists i :: 0 <= i < |types| && types[i].isAnnotation == annotation
  }

  lemma AddToTypesStep(m: map<ClassRef, set<Initializer>>, sci: Initializer, ts: seq<ClassRef>, i: int)
    requires 0 <= i < |ts|
    ensures var before := AddToTypes(m, sci, ts[..i]);
      AddToTypes(m, sci, ts[..i + 1]) == before[ts[i] := (if ts[i] in before then before[ts[i]] else {}) + {sci}]
  {
    assert ts[..i + 1][..i] == ts[..i];
  }

  lemma SomeTypeStep(ts: seq<ClassRef>, i: int, a: bool)
    requires 0 <= i < |ts|
    ensures SomeType(ts[..i + 1], a) <==> SomeType(ts[..i], a) || ts[i].isAnnotation == a
  {
    if SomeType(ts[..i + 1], a) {
      var k :| 0 <= k < i + 1 && ts[..i + 1][k].isAnnotation == a;
      if k < i {
        assert ts[..i][k] == ts[..i + 1][k];
      }
    }
    if ts[i].isAnnotation == a {
      assert ts[..i + 1][i] == ts[i];
    }
    if SomeType(ts[..i], a) {
      var k :| 0 <= k < i && ts[..i][k].isAnnotation == a;
      assert ts[..i + 1][k] == ts[..i][k];
    }
  }

  class PeergreenContextConfig {
    var initializerClassMap: map<Initializer, set<ClassRef>>
    var typeInitializerMap: map<ClassRef, set<Initializer>>
    var handlesTypesAnnotations: bool
    var handlesTypesNonAnnotations: bool

    constructor ()
      ensures initializerClassMap == map[] && typeInitializerMap == map[]
      ensures !handlesTypesAnnotations && !handlesTypesNonAnnotations
    {
      initializerClassMap := map[];
      typeInitializerMap := map[];
      handlesTypesAnnotations := false;
      handlesTypesNonAnnotations := false;
    }

    /** One iteration of the loop over the declared types: raise a flag, add `sci` to the type's set. */
    method RecordType(sci: Initializer, t: ClassRef)
      modifies this
      ensures initializerClassMap == old(initializerClassMap)
      ensures typeInitializerMap ==
        old(typeInitializerMap)[t := (if t in old(typeInitializerMap) then old(typeInitializerMap)[t] else {}) + {sci}]
      ensures handlesTypesAnnotations == (old(handlesTypesAnnotations) || t.isAnnotation)
      ensures handlesTypesNonAnnotations == (old(handlesTypesNonAnnotations) || !t.isAnnotation)
    {
      if t.isAnnotation {
        handlesTypesAnnotations := true;
      } else {
        handlesTypesNonAnnotations := true;
      }
      var scis: set<Initializer>;
      if t in typeInitializerMap {
        scis := typeInitializerMap[t];
      } else {
        scis := {};
        typeInitializerMap := typeInitializerMap[t := scis];
      }
      scis := scis + {sci};
      typeInitializerMap := typeInitializerMap[t := scis];
    }

    /** addServletContainerInitializer. */
    method AddServletContainerInitializer(sci: Initializer)
      modifies this
      ensures initializerClassMap == old(initializerClassMap)[sci := {}]
      ensures typeInitializerMap == AddToTypes(old(typeInitializerMap), sci, DeclaredTypes(sci))
      ensures handlesTypesAnnotations == (old(handlesTypesAnnotations) || SomeType(DeclaredTypes(sci), true))
      ensures handlesTypesNonAnnotations == (old(handlesTypesNonAnnotations) || SomeType(DeclaredTypes(sci), false))
    {
      initializerClassMap := initializerClassMap[sci := {}];
      if sci.handlesTypes.Some? {
        var types := sci.handlesTypes.value;
        if types.Some? {
          var ts := types.value;
          for i := 0 to |ts|
            invariant initializerClassMap == old(initializerClassMap)[sci := {}]
            invariant typeInitializerMap == AddToTypes(old(typeInitializerMap), sci, ts[..i])
            invariant handlesTypesAnnotations == (old(handlesTypesAnnotations) || SomeType(ts[..i], true))
            invariant handlesTypesNonAnnotations == (old(handlesTypesNonAnnotations) || SomeType(ts[..i], false))
          {
            AddToTypesStep(old(typeInitializerMap), sci, ts, i);
            SomeTypeStep(ts, i, true);
            SomeTypeStep(ts, i, false);
            RecordType(sci, ts[i]);
          }
          assert ts[..|ts|] == ts;
        }
      }
    }
  }

  /** Registering the same initializer twice changes the type table no further. */
  lemma AddToTypesIdempotent(m: map<ClassRef, set<Initializer>>, sci: Initializer, types: seq<ClassRef>)
    ensures AddToTypes(AddToTypes(m, sci, types), sci, types) == AddToTypes(m, sci, types)
  {
    var once := AddToTypes(m, sci, types);
    var twice := AddToTypes(once, sci, types);
    assert twice.Keys == once.Keys;
    forall t | t in twice
      ensures twice[t] == once[t]
    {
      if t in types {
        assert twice[t] == once[t] + {sci};
      }
    }
  }

  /** Other initializers already interested in a type stay interested. */
  lemma AddToTypesKeepsMembers(m: map<ClassRef, set<Initializer>>, sci: Initializer, types: seq<ClassRef>, t: ClassRef)
    requires t in m
    ensures t in AddToTypes(m, sci, types) && m[t] <= AddToTypes(m, sci, types)[t]
  {
  }

  /** Without a HandlesTypes annotation, or with a null value, only the initializer table changes. */
  lemma NoDeclaredTypesNoChange(m: map<ClassRef, set<Initializer>>, sci: Initializer)
    requires sci.handlesTypes.None? || sci.handlesTypes.value.None?
    ensures AddToTypes(m, sci, DeclaredTypes(sci)) == m
    ensures !SomeType(DeclaredTypes(sci), true) && !SomeType(DeclaredTypes(sci), false)
  {
  }
}
