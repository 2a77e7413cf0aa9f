/** The slice of the OWL API that the named-object categories depend on.

    The host library is not part of this model. What the categories need from
    it is stated here as values:
    - the interfaces the classifier tests against, with the subtype facts
      the classifier relies on (a named individual is an individual, every
      named entity is an entity, everything is an OWL object);
    - runtime class tokens (Java `Class` objects), reduced to the set of
      interfaces each one is assignable to;
    - the objects handed to the classifier and the entities the data factory
      mints from an IRI. */
module OwlApi {

  /** The OWL API interfaces the categories mention. */
  datatype Iface =
    | OWLObject
    | OWLEntity
    | OWLClass
    | OWLObjectProperty
    | OWLDataProperty
    | OWLAnnotationProperty
    | OWLIndividual
    | OWLNamedIndividual
    | OWLAnonymousIndividual
    | OWLDatatype
    | OWLOntology

  /** The interfaces `i` extends, itself included (reflexive and transitive). */
  function Supers(i: Iface): (s: set<Iface>)
    ensures i in s && OWLObject in s
  {
    match i
    case OWLObject => {OWLObject}
    case OWLEntity => {OWLEntity, OWLObject}
    case OWLClass => {OWLClass, OWLEntity, OWLObject}
    case OWLObjectProperty => {OWLObjectProperty, OWLEntity, OWLObject}
    case OWLDataProperty => {OWLDataProperty, OWLEntity, OWLObject}
    case OWLAnnotationProperty => {OWLAnnotationProperty, OWLEntity, OWLObject}
    case OWLIndividual => {OWLIndividual, OWLObject}
    case OWLNamedIndividual => {OWLNamedIndividual, OWLIndividual, OWLEntity, OWLObject}
    case OWLAnonymousIndividual => {OWLAnonymousIndividual, OWLIndividual, OWLObject}
    case OWLDatatype => {OWLDatatype, OWLEntity, OWLObject}
    case OWLOntology => {OWLOntology, OWLObject}
  }

  /** A runtime class token: the interfaces the class is assignable to. */
  datatype Kind = Kind(implements: set<Iface>)

  /** A token is well formed when it is closed under the subtype facts. */
  predicate Closed(k: Kind) {
    forall i :: i in k.implements ==> Supers(i) <= k.implements
  }

  /** `X.class`, the token of interface `X`. */
  function ClassOf(i: Iface): (k: Kind)
    ensures i in k.implements && Closed(k)
    ensures forall j :: j in k.implements <==> j in Supers(i)
  {
    Kind(Supers(i))
  }

  /** `X.class.isAssignableFrom(k)` for an interface `X`. */
  predicate IsAssignableFrom(x: Iface, k: Kind) {
    x in k.implements
  }

  /** `target.isAssignableFrom(k)` for an arbitrary token `target`: `k` is
      assignable to everything `target` is assignable to. */
  predicate KindAssignableFrom(target: Kind, k: Kind) {
    target.implements <= k.implements
  }

  /** The interface `ClassOf(i)` is assignable from exactly the tokens that
      implement `i`, for well-formed tokens. */
  lemma ClassOfAssignable(i: Iface, k: Kind)
    requires Closed(k)
    ensures KindAssignableFrom(ClassOf(i), k) <==> IsAssignableFrom(i, k)
  {
    if IsAssignableFrom(i, k) {
      assert Supers(i) <= k.implements;
    }
  }

  /** An IRI; its internals are not modelled. */
  datatype IRI = IRI(text: string)

  /** The six kinds of named entity the data factory can mint. */
  datatype EntityType =
    | ClassEntity
    | ObjectPropertyEntity
    | DataPropertyEntity
    | AnnotationPropertyEntity
    | NamedIndividualEntity
    | DatatypeEntity

  /** The interface an entity of the given type implements. */
  function EntityInterface(t: EntityType): (i: Iface)
    ensures OWLEntity in Supers(i) && i != OWLEntity
  {
    match t
    case ClassEntity => OWLClass
    case ObjectPropertyEntity => OWLObjectProperty
    case DataPropertyEntity => OWLDataProperty
    case AnnotationPropertyEntity => OWLAnnotationProperty
    case NamedIndividualEntity => OWLNamedIndividual
    case DatatypeEntity => OWLDatatype
  }

  /** The objects the classifier may be given: named entities (as the
      factory returns them), anonymous individuals, ontologies, and any other
      OWL object, which is known only by its runtime class. */
  datatype OwlObject =
    | Named(entityType: EntityType, iri: IRI)
    | AnonymousIndividual(nodeId: string)
    | Ontology(ontologyIri: IRI)
    | Other(cls: Kind)

  /** `object.getClass()`: the runtime class of an object. */
  function GetClass(o: OwlObject): (k: Kind)
    ensures o.Named? ==> IsAssignableFrom(EntityInterface(o.entityType), k) && IsAssignableFrom(OWLEntity, k)
    ensures o.AnonymousIndividual? ==> IsAssignableFrom(OWLIndividual, k) && !IsAssignableFrom(OWLEntity, k)
    ensures o.Ontology? ==> IsAssignableFrom(OWLOntology, k) && !IsAssignableFrom(OWLEntity, k)
  {
    match o
    case Named(t, _) => ClassOf(EntityInterface(t))
    case AnonymousIndividual(_) => ClassOf(OWLAnonymousIndividual)
    case Ontology(_) => ClassOf(OWLOntology)
    case Other(cls) => cls
  }

  // The data factory: one creation operation per entity type.

  function GetOWLClass(iri: IRI): (e: OwlObject)
    ensures e.Named? && e.iri == iri && IsAssignableFrom(OWLClass, GetClass(e))
  {
    Named(ClassEntity, iri)
  }

  function GetOWLObjectProperty(iri: IRI): (e: OwlObject)
    ensures e.Named? && e.iri == iri && IsAssignableFrom(OWLObjectProperty, GetClass(e))
  {
    Named(ObjectPropertyEntity, iri)
  }

  function GetOWLDataProperty(iri: IRI): (e: OwlObject)
    ensures e.Named? && e.iri == iri && IsAssignableFrom(OWLDataProperty, GetClass(e))
  {
    Named(DataPropertyEntity, iri)
  }

  function GetOWLAnnotationProperty(iri: IRI): (e: OwlObject)
    ensures e.Named? && e.iri == iri && IsAssignableFrom(OWLAnnotationProperty, GetClass(e))
  {
    Named(AnnotationPropertyEntity, iri)
  }

  function GetOWLNamedIndividual(iri: IRI): (e: OwlObject)
    ensures e.Named? && e.iri == iri && IsAssignableFrom(OWLNamedIndividual, GetClass(e))
  {
    Named(NamedIndividualEntity, iri)
  }

  function GetOWLDatatype(iri: IRI): (e: OwlObject)
    ensures e.Named? && e.iri == iri && IsAssignableFrom(OWLDatatype, GetClass(e))
  {
    Named(DatatypeEntity, iri)
  }
}
