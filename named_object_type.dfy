/** The closed set of named-object categories of the ontology browser's
    manager layer: their display labels, their constant names, the entity
    sub-kinds, the mapping between a category and the OWL API class it
    stands for, and the construction of a fresh entity of a category. */
module NamedObjects {
  import opened OwlApi

  /** The eight categories, in declaration order. */
  datatype NamedObjectType =
    | Ontologies
    | Entities
    | Classes
    | ObjectProperties
    | DataProperties
    | AnnotationProperties
    | Individuals
    | Datatypes

  /** The two runtime exceptions, told apart by what they report. */
  datatype Error =
    | UnknownNamedObjectType(category: NamedObjectType)
    | ObjectTypeNotKnown(cls: Kind)

  datatype Result<T> = Ok(value: T) | Err(error: Error)

  /** `values()`: every category, in declaration order. */
  function Values(): (vs: seq<NamedObjectType>)
    ensures |vs| == 8
    ensures forall i, j :: 0 <= i < j < |vs| ==> vs[i] != vs[j]
  {
    [Ontologies, Entities, Classes, ObjectProperties, DataProperties,
     AnnotationProperties, Individuals, Datatypes]
  }

  /** `ordinal()`: the position of a constant in declaration order. */
  function Ordinal(t: NamedObjectType): nat {
    match t
    case Ontologies => 0
    case Entities => 1
    case Classes => 2
    case ObjectProperties => 3
    case DataProperties => 4
    case AnnotationProperties => 5
    case Individuals => 6
    case Datatypes => 7
  }

  /** `values()` lists every constant, each at its ordinal. */
  lemma ValuesAtOrdinal(t: NamedObjectType)
    ensures Ordinal(t) < |Values()| && Values()[Ordinal(t)] == t
  {
    match t
    case _ =>
  }

  /** `toString()` of a constant: its declared name. */
  function Name(t: NamedObjectType): string {
    match t
    case Ontologies => "ontologies"
    case Entities => "entities"
    case Classes => "classes"
    case ObjectProperties => "objectproperties"
    case DataProperties => "dataproperties"
    case AnnotationProperties => "annotationproperties"
    case Individuals => "individuals"
    case Datatypes => "datatypes"
  }

  /** `getPluralRendering()`: the plural display label fixed at declaration. */
  function PluralRendering(t: NamedObjectType): (rendering: string)
    ensures |rendering| > 0
  {
    match t
    case Ontologies => "Ontologies"
    case Entities => "Entities"
    case Classes => "Classes"
    case ObjectProperties => "Object Properties"
    case DataProperties => "Data Properties"
    case AnnotationProperties => "Annotation Properties"
    case Individuals => "Individuals"
    case Datatypes => "Datatypes"
  }

  /** `getSingularRendering()`: the singular display label fixed at declaration. */
  function SingularRendering(t: NamedObjectType): (rendering: string)
    ensures |rendering| > 0
  {
    match t
    case Ontologies => "Ontology"
    case Entities => "Entity"
    case Classes => "Class"
    case ObjectProperties => "Object Property"
    case DataProperties => "Data Property"
    case AnnotationProperties => "Annotation Property"
    case Individuals => "Individual"
    case Datatypes => "Datatype"
  }

  /** Different categories have different names and different labels, and
      a category's plural and singular labels differ. */
  lemma LabelsDistinguishCategories(a: NamedObjectType, b: NamedObjectType)
    ensures Name(a) == Name(b) ==> a == b
    ensures PluralRendering(a) == PluralRendering(b) ==> a == b
    ensures SingularRendering(a) == SingularRendering(b) ==> a == b
    ensures PluralRendering(a) != SingularRendering(a)
  {
  }

  /** A constant name is never a display label: names are lower case, labels
      start with a capital. */
  lemma NamesAreNotLabels(a: NamedObjectType, b: NamedObjectType)
    ensures Name(a) != PluralRendering(b) && Name(a) != SingularRendering(b)
  {
    assert 'a' <= Name(a)[0] <= 'z';
    assert 'A' <= PluralRendering(b)[0] <= 'Z';
    assert 'A' <= SingularRendering(b)[0] <= 'Z';
  }

  /** `getRenderings()`: a fresh set holding the name of every constant. */
  method GetRenderings() returns (renderings: set<string>)
    ensures forall t :: Name(t) in renderings
    ensures forall s :: s in renderings ==> exists t :: Name(t) == s
    ensures |renderings| == |Values()|
  {
    var values := Values();
    renderings := {};
    var i := 0;
    while i < |values|
      invariant 0 <= i <= |values|
      invariant forall j :: 0 <= j < i ==> Name(values[j]) in renderings
      invariant forall s :: s in renderings ==> exists j :: 0 <= j < i && Name(values[j]) == s
      invariant |renderings| == i
    {
      var name := Name(values[i]);
      if name in renderings {
        var j :| 0 <= j < i && Name(values[j]) == name;
        LabelsDistinguishCategories(values[i], values[j]);
        assert false;
      }
      renderings := renderings + {name};
      i := i + 1;
    }
    forall t ensures Name(t) in renderings {
      ValuesAtOrdinal(t);
    }
  }

  /** `entitySubtypes()`: the kinds of named entity, in declaration order. */
  function EntitySubtypes(): (subtypes: seq<NamedObjectType>)
    ensures subtypes == Values()[2..]
  {
    [Classes, ObjectProperties, DataProperties, AnnotationProperties, Individuals, Datatypes]
  }

  /** The entity sub-kinds are every category but `ontologies` and `entities`. */
  lemma EntitySubtypesMembers(t: NamedObjectType)
    ensures t in EntitySubtypes() <==> t != Ontologies && t != Entities
  {
    ValuesAtOrdinal(t);
    if t != Ontologies && t != Entities {
      assert EntitySubtypes()[Ordinal(t) - 2] == t;
    }
  }

  /** The entity sub-kinds are six distinct categories. */
  lemma EntitySubtypesDistinct()
    ensures |EntitySubtypes()| == 6
    ensures forall i, j :: 0 <= i < j < |EntitySubtypes()| ==> EntitySubtypes()[i] != EntitySubtypes()[j]
  {
    var vs := Values();
    forall i, j | 0 <= i < j < |EntitySubtypes()|
      ensures EntitySubtypes()[i] != EntitySubtypes()[j]
    {
      assert EntitySubtypes()[i] == vs[i + 2] && EntitySubtypes()[j] == vs[j + 2];
    }
  }

  /** `getCls()`: the OWL API class a category stands for. The switch covers
      every constant, so the exception after it is never thrown. */
  function GetCls(t: NamedObjectType): (cls: Kind)
    ensures Closed(cls) && IsAssignableFrom(OWLObject, cls)
    ensures IsAssignableFrom(OWLEntity, cls) <==> t != Ontologies
  {
    match t
    case Classes => ClassOf(OWLClass)
    case ObjectProperties => ClassOf(OWLObjectProperty)
    case DataProperties => ClassOf(OWLDataProperty)
    case AnnotationProperties => ClassOf(OWLAnnotationProperty)
    case Individuals => ClassOf(OWLNamedIndividual)
    case Datatypes => ClassOf(OWLDatatype)
    case Entities => ClassOf(OWLEntity)
    case Ontologies => ClassOf(OWLOntology)
  }

  /** `getOWLEntity(iri, df)` as written. The `objectproperties` case has no
      `return`: it asks the factory for an object property, drops it, and
      falls through into the `dataproperties` case. */
  function GetOWLEntity(t: NamedObjectType, iri: IRI): (r: Result<OwlObject>)
    ensures r.Err? <==> t !in EntitySubtypes()
    ensures r.Err? ==> r.error == UnknownNamedObjectType(t)
    ensures r.Ok? ==> r.value.Named? && r.value.iri == iri
  {
    match t
    case Classes => Ok(GetOWLClass(iri))
    case ObjectProperties =>
      var _ := GetOWLObjectProperty(iri);
      Ok(GetOWLDataProperty(iri))
    case DataProperties => Ok(GetOWLDataProperty(iri))
    case AnnotationProperties => Ok(GetOWLAnnotationProperty(iri))
    case Individuals => Ok(GetOWLNamedIndividual(iri))
    case Datatypes => Ok(GetOWLDatatype(iri))
    case _ => Err(UnknownNamedObjectType(t))
  }

  /** `getOWLEntity` with a `return` in the `objectproperties` case, as the
      switch evidently intends. */
  function GetOWLEntityIntended(t: NamedObjectType, iri: IRI): (r: Result<OwlObject>)
    ensures r.Err? <==> t !in EntitySubtypes()
    ensures r.Err? ==> r.error == UnknownNamedObjectType(t)
    ensures r.Ok? ==> r.value.Named? && r.value.iri == iri
  {
    match t
    case Classes => Ok(GetOWLClass(iri))
    case ObjectProperties => Ok(GetOWLObjectProperty(iri))
    case DataProperties => Ok(GetOWLDataProperty(iri))
    case AnnotationProperties => Ok(GetOWLAnnotationProperty(iri))
    case Individuals => Ok(GetOWLNamedIndividual(iri))
    case Datatypes => Ok(GetOWLDatatype(iri))
    case _ => Err(UnknownNamedObjectType(t))
  }

  /** The checks of `getType(Class)`, in the order it makes them: an
      interface to test the class against and the category it yields. */
  function Checks(): (checks: seq<(Iface, NamedObjectType)>)
    ensures |checks| == 7
    ensures forall p :: p in checks ==> p.1 != Entities
  {
    [(OWLClass, Classes),
     (OWLObjectProperty, ObjectProperties),
     (OWLDataProperty, DataProperties),
     (OWLAnnotationProperty, AnnotationProperties),
     (OWLIndividual, Individuals),
     (OWLDatatype, Datatypes),
     (OWLOntology, Ontologies)]
  }

  /** Reference definition of an ordered classifier: the category of the
      first check the class passes. */
  function FirstMatch(checks: seq<(Iface, NamedObjectType)>, cls: Kind): Result<NamedObjectType> {
    if checks == [] then Err(ObjectTypeNotKnown(cls))
    else if IsAssignableFrom(checks[0].0, cls) then Ok(checks[0].1)
    else FirstMatch(checks[1..], cls)
  }

  /** `FirstMatch` yields the category of the earliest check the class
      passes, and fails exactly when it passes none. */
  lemma {:induction false} FirstMatchIsEarliest(checks: seq<(Iface, NamedObjectType)>, cls: Kind)
    ensures FirstMatch(checks, cls).Err? <==> forall i :: 0 <= i < |checks| ==> !IsAssignableFrom(checks[i].0, cls)
    ensures FirstMatch(checks, cls).Err? ==> FirstMatch(checks, cls).error == ObjectTypeNotKnown(cls)
    ensures FirstMatch(checks, cls).Ok? ==>
      exists i :: 0 <= i < |checks| && IsAssignableFrom(checks[i].0, cls) && checks[i].1 == FirstMatch(checks, cls).value &&
        forall j :: 0 <= j < i ==> !IsAssignableFrom(checks[j].0, cls)
  {
    if checks != [] && !IsAssignableFrom(checks[0].0, cls) {
      FirstMatchIsEarliest(checks[1..], cls);
      var r := FirstMatch(checks, cls);
      if r.Ok? {
        var i :| 0 <= i < |checks[1..]| && IsAssignableFrom(checks[1..][i].0, cls) && checks[1..][i].1 == r.value &&
          forall j :: 0 <= j < i ==> !IsAssignableFrom(checks[1..][j].0, cls);
        assert checks[i + 1] == checks[1..][i];
        forall j | 0 <= j < i + 1 ensures !IsAssignableFrom(checks[j].0, cls) {
          if j > 0 { assert checks[j] == checks[1..][j - 1]; }
        }
      } else {
        forall i | 0 <= i < |checks| ensures !IsAssignableFrom(checks[i].0, cls) {
          if i > 0 { assert checks[i] == checks[1..][i - 1]; }
        }
      }
    }
  }

  /** `getType(Class)`: classify a runtime class by the first interface it is
      assignable to, tested in a fixed order. */
  function GetType(cls: Kind): (r: Result<NamedObjectType>)
    ensures r.Ok? ==> r.value != Entities
    ensures r.Err? ==> r.error == ObjectTypeNotKnown(cls)
  {
    if IsAssignableFrom(OWLClass, cls) then Ok(Classes)
    else if IsAssignableFrom(OWLObjectProperty, cls) then Ok(ObjectProperties)
    else if IsAssignableFrom(OWLDataProperty, cls) then Ok(DataProperties)
    else if IsAssignableFrom(OWLAnnotationProperty, cls) then Ok(AnnotationProperties)
    else if IsAssignableFrom(OWLIndividual, cls) then Ok(Individuals)
    else if IsAssignableFrom(OWLDatatype, cls) then Ok(Datatypes)
    else if IsAssignableFrom(OWLOntology, cls) then Ok(Ontologies)
    else Err(ObjectTypeNotKnown(cls))
  }

  /** The if/else chain of `getType` is the ordered classifier over `Checks()`. */
  lemma GetTypeIsFirstMatch(cls: Kind)
    ensures GetType(cls) == FirstMatch(Checks(), cls)
  {
    var c := Checks();
    assert c[7..] == [];
    assert FirstMatch(c[6..], cls) == if IsAssignableFrom(OWLOntology, cls) then Ok(Ontologies) else Err(ObjectTypeNotKnown(cls)) by {
      assert c[6..][1..] == c[7..];
    }
    assert FirstMatch(c[5..], cls) == if IsAssignableFrom(OWLDatatype, cls) then Ok(Datatypes) else FirstMatch(c[6..], cls) by {
      assert c[5..][1..] == c[6..];
    }
    assert FirstMatch(c[4..], cls) == if IsAssignableFrom(OWLIndividual, cls) then Ok(Individuals) else FirstMatch(c[5..], cls) by {
      assert c[4..][1..] == c[5..];
    }
    assert FirstMatch(c[3..], cls) == if IsAssignableFrom(OWLAnnotationProperty, cls) then Ok(AnnotationProperties) else FirstMatch(c[4..], cls) by {
      assert c[3..][1..] == c[4..];
    }
    assert FirstMatch(c[2..], cls) == if IsAssignableFrom(OWLDataProperty, cls) then Ok(DataProperties) else FirstMatch(c[3..], cls) by {
      assert c[2..][1..] == c[3..];
    }
    assert FirstMatch(c[1..], cls) == if IsAssignableFrom(OWLObjectProperty, cls) then Ok(ObjectProperties) else FirstMatch(c[2..], cls) by {
      assert c[1..][1..] == c[2..];
    }
  }

  /** `getType(Class)` yields the category of the earliest check the class
      passes: a class assignable to several of the tested interfaces gets the
      category of the first one. */
  lemma GetTypeFirstMatchWins(cls: Kind, i: nat)
    requires i < |Checks()| && IsAssignableFrom(Checks()[i].0, cls)
    requires forall j :: 0 <= j < i ==> !IsAssignableFrom(Checks()[j].0, cls)
    ensures GetType(cls) == Ok(Checks()[i].1)
  {
    GetTypeIsFirstMatch(cls);
    FirstMatchIsEarliest(Checks(), cls);
    var r := GetType(cls);
    var k :| 0 <= k < |Checks()| && IsAssignableFrom(Checks()[k].0, cls) && Checks()[k].1 == r.value &&
      forall j :: 0 <= j < k ==> !IsAssignableFrom(Checks()[j].0, cls);
    assert k == i;
  }

  /** `getType(Class)` throws exactly when the class passes none of its checks. */
  lemma GetTypeFailsExactly(cls: Kind)
    ensures GetType(cls).Err? <==> forall i :: 0 <= i < |Checks()| ==> !IsAssignableFrom(Checks()[i].0, cls)
  {
    GetTypeIsFirstMatch(cls);
    FirstMatchIsEarliest(Checks(), cls);
  }

  /** `getType(OWLObject)`: classify an object by its runtime class. */
  function GetTypeOf(o: OwlObject): (r: Result<NamedObjectType>)
    ensures o.Named? ==> r.Ok? && r.value in EntitySubtypes()
    ensures o.AnonymousIndividual? ==> r == Ok(Individuals)
    ensures o.Ontology? ==> r == Ok(Ontologies)
  {
    GetType(GetClass(o))
  }

  /** Classifying the class a category stands for gives the category back,
      except for `entities`, whose class `OWLEntity` passes none of the checks. */
  lemma GetClsThenGetType(t: NamedObjectType)
    ensures t != Entities ==> GetType(GetCls(t)) == Ok(t)
    ensures t == Entities ==> GetType(GetCls(t)) == Err(ObjectTypeNotKnown(GetCls(t)))
  {
    match t
    case Individuals =>
      assert IsAssignableFrom(OWLIndividual, GetCls(t));
    case _ =>
  }

  /** Constructing an entity of an entity sub-kind and classifying it gives
      the sub-kind back, for every sub-kind but `objectproperties`. */
  lemma GetOWLEntityThenGetType(t: NamedObjectType, iri: IRI)
    requires t in EntitySubtypes() && t != ObjectProperties
    ensures GetOWLEntity(t, iri).Ok?
    ensures GetTypeOf(GetOWLEntity(t, iri).value) == Ok(t)
    ensures KindAssignableFrom(GetCls(t), GetClass(GetOWLEntity(t, iri).value))
  {
    EntitySubtypesMembers(t);
    var cls := GetClass(GetOWLEntity(t, iri).value);
    match t
    case Classes => assert cls == ClassOf(OWLClass);
    case DataProperties => assert cls == ClassOf(OWLDataProperty);
    case AnnotationProperties => assert cls == ClassOf(OWLAnnotationProperty);
    case Individuals => assert cls == ClassOf(OWLNamedIndividual);
    case Datatypes => assert cls == ClassOf(OWLDatatype);
  }

  /** The fall-through: asked for an object property, `getOWLEntity` returns
      a data property, which is classified as `dataproperties` and is not an
      instance of the class `getCls` gives for `objectproperties`. */
  lemma ObjectPropertyFallsThrough(iri: IRI)
    ensures GetOWLEntity(ObjectProperties, iri) == Ok(GetOWLDataProperty(iri))
    ensures GetTypeOf(GetOWLEntity(ObjectProperties, iri).value) == Ok(DataProperties)
    ensures !KindAssignableFrom(GetCls(ObjectProperties), GetClass(GetOWLEntity(ObjectProperties, iri).value))
  {
    assert OWLObjectProperty !in GetClass(GetOWLDataProperty(iri)).implements;
  }

  /** With the intended `return`, construct-then-classify gives every entity
      sub-kind back, and the entity is an instance of the category's class. */
  lemma GetOWLEntityIntendedThenGetType(t: NamedObjectType, iri: IRI)
    requires t in EntitySubtypes()
    ensures GetOWLEntityIntended(t, iri).Ok?
    ensures GetTypeOf(GetOWLEntityIntended(t, iri).value) == Ok(t)
    ensures KindAssignableFrom(GetCls(t), GetClass(GetOWLEntityIntended(t, iri).value))
  {
    EntitySubtypesMembers(t);
    var cls := GetClass(GetOWLEntityIntended(t, iri).value);
    match t
    case Classes => assert cls == ClassOf(OWLClass);
    case ObjectProperties => assert cls == ClassOf(OWLObjectProperty);
    case DataProperties => assert cls == ClassOf(OWLDataProperty);
    case AnnotationProperties => assert cls == ClassOf(OWLAnnotationProperty);
    case Individuals => assert cls == ClassOf(OWLNamedIndividual);
    case Datatypes => assert cls == ClassOf(OWLDatatype);
  }

  /** The written and the intended construction differ only for
      `objectproperties`. */
  lemma GetOWLEntityDiffersOnlyForObjectProperties(t: NamedObjectType, iri: IRI)
    ensures GetOWLEntity(t, iri) == GetOWLEntityIntended(t, iri) <==> t != ObjectProperties
  {
  }

  /** No object is ever classified as `entities`, and every named entity is
      classified as one of the entity sub-kinds. */
  lemma GetTypeOfNeverEntities(o: OwlObject)
    ensures GetTypeOf(o) != Ok(Entities)
    ensures o.Named? ==> GetTypeOf(o).value in EntitySubtypes()
  {
  }
}
