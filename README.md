# NamedObjectType: the categories of named OWL objects

The ontology browser's manager layer sorts the things it shows into eight
categories: ontologies, entities, classes, object properties, data
properties, annotation properties, individuals and datatypes. The Java enum
`NamedObjectType` gives each category a plural and a singular display label.
It lists the six "entity sub-kinds" and maps each category to the OWL API
interface it stands for (`getCls`). It classifies a runtime class or an
object back into a category (`getType`), and it asks an OWL data factory for
a fresh entity of a category (`getOWLEntity`).

The project has two modules:

- `OwlApi` (owl_api.dfy) stands in for the host OWL API library. It holds the
  interfaces the enum tests against and the subtype facts it relies on. A
  named individual is an individual and an entity, every named entity is an
  entity, and everything is an OWL object. A Java `Class` token becomes a
  `Kind`: the set of interfaces the class is assignable to. So
  `X.class.isAssignableFrom(k)` is `X in k.implements`. It also holds the
  objects the classifier can be given and the data factory's six creation
  operations, written as pure functions from an IRI to a named entity.
- `NamedObjects` (named_object_type.dfy) is the enum. The label getters,
  `entitySubtypes`, `getCls`, `getOWLEntity` and both `getType` overloads are
  functions. `getRenderings` is a method whose loop fills a fresh set, as
  the source's loop fills a `HashSet`.

`getType(Class)` is specified against an independent reference definition.
`FirstMatch` is an ordered classifier over the list of (interface,
category) checks in `Checks()`. The lemmas prove that the `if`/`else if`
chain is that classifier. They also prove that the classifier returns the
category of the earliest check the class passes.

`getOWLEntity` is modelled as written, with the Java `switch` fall-through
in the `objectproperties` case. Asked for an object property, it returns a
data property. The reading that the method returns a fresh entity of the
requested kind for every constructible category holds only with the
missing `return` restored. That version is `GetOWLEntityIntended`, and the
fall-through is recorded under "## Findings".

## Model

| member | source | states |
|---|---|---|
| `NamedObjects.Values` | owlmanager/src/main/java/org/coode/owl/mngr/NamedObjectType.java:34-41 | `values()` has eight constants, pairwise distinct |
| `NamedObjects.ValuesAtOrdinal` | owlmanager/src/main/java/org/coode/owl/mngr/NamedObjectType.java:34-41 | every constant occurs in `values()`, at its declaration position |
| `NamedObjects.PluralRendering` | owlmanager/src/main/java/org/coode/owl/mngr/NamedObjectType.java:54-56 | the plural label fixed at declaration, never empty |
| `NamedObjects.SingularRendering` | owlmanager/src/main/java/org/coode/owl/mngr/NamedObjectType.java:59-61 | the singular label fixed at declaration, never empty |
| `NamedObjects.LabelsDistinguishCategories` | owlmanager/src/main/java/org/coode/owl/mngr/NamedObjectType.java:34-41 | two categories with the same name, the same plural or the same singular label are the same category; a category's plural and singular labels differ |
| `NamedObjects.NamesAreNotLabels` | owlmanager/src/main/java/org/coode/owl/mngr/NamedObjectType.java:64-70 | no constant name equals any plural or singular label, so `getRenderings` returns names and not labels |
| `NamedObjects.GetRenderings` | owlmanager/src/main/java/org/coode/owl/mngr/NamedObjectType.java:64-70 | the set holds the name of every constant and nothing else, and has one element per constant (eight) |
| `NamedObjects.EntitySubtypes` | owlmanager/src/main/java/org/coode/owl/mngr/NamedObjectType.java:73-75 | the sub-kinds are the constants after `ontologies` and `entities`, in declaration order |
| `NamedObjects.EntitySubtypesMembers` | owlmanager/src/main/java/org/coode/owl/mngr/NamedObjectType.java:43 | a category is a sub-kind exactly when it is neither `ontologies` nor `entities` |
| `NamedObjects.EntitySubtypesDistinct` | owlmanager/src/main/java/org/coode/owl/mngr/NamedObjectType.java:43 | there are six sub-kinds, with no duplicates |
| `NamedObjects.GetCls` | owlmanager/src/main/java/org/coode/owl/mngr/NamedObjectType.java:78-90 | total: every category yields a well-formed class of an OWL object, which is an entity class exactly when the category is not `ontologies` |
| `NamedObjects.GetClsThenGetType` | owlmanager/src/main/java/org/coode/owl/mngr/NamedObjectType.java:78-134 | `getType(getCls(c)) == c` for every category but `entities`; for `entities` (`OWLEntity`) it throws "Object type not known"; `individuals` maps to `OWLNamedIndividual` and comes back through the `OWLIndividual` check |
| `NamedObjects.GetOWLEntity` | owlmanager/src/main/java/org/coode/owl/mngr/NamedObjectType.java:93-103 | throws "Unknown named object type" exactly for the categories outside `entitySubtypes()` (`ontologies`, `entities`); otherwise returns a named entity with the given IRI |
| `NamedObjects.GetOWLEntityThenGetType` | owlmanager/src/main/java/org/coode/owl/mngr/NamedObjectType.java:95-100 | for the five sub-kinds other than `objectproperties`, the entity built is classified as the category it was built for and is an instance of `getCls` of that category |
| `NamedObjects.ObjectPropertyFallsThrough` | owlmanager/src/main/java/org/coode/owl/mngr/NamedObjectType.java:96-97 | for `objectproperties` the result is the factory's data property, classified as `dataproperties` and not an instance of `OWLObjectProperty` |
| `NamedObjects.GetOWLEntityIntended` | owlmanager/src/main/java/org/coode/owl/mngr/NamedObjectType.java:93-103 | the construction with the `return` restored: same failures as the written one, a named entity with the given IRI otherwise |
| `NamedObjects.GetOWLEntityIntendedThenGetType` | owlmanager/src/main/java/org/coode/owl/mngr/NamedObjectType.java:93-103 | with the `return` restored, construct-then-classify gives back every one of the six sub-kinds |
| `NamedObjects.GetOWLEntityDiffersOnlyForObjectProperties` | owlmanager/src/main/java/org/coode/owl/mngr/NamedObjectType.java:96-97 | the written and the intended construction agree on every category except `objectproperties` |
| `NamedObjects.Checks` | owlmanager/src/main/java/org/coode/owl/mngr/NamedObjectType.java:112-131 | `getType` makes seven checks, none of which yields `entities` |
| `NamedObjects.FirstMatchIsEarliest` | owlmanager/src/main/java/org/coode/owl/mngr/NamedObjectType.java:111-134 | the ordered classifier yields the category of the earliest check the class passes, and throws "Object type not known" exactly when it passes none |
| `NamedObjects.GetType` | owlmanager/src/main/java/org/coode/owl/mngr/NamedObjectType.java:111-134 | never yields `entities`; a failure reports the class it was given |
| `NamedObjects.GetTypeIsFirstMatch` | owlmanager/src/main/java/org/coode/owl/mngr/NamedObjectType.java:111-134 | the `if`/`else if` chain equals the ordered classifier over class, object property, data property, annotation property, individual, datatype, ontology |
| `NamedObjects.GetTypeFirstMatchWins` | owlmanager/src/main/java/org/coode/owl/mngr/NamedObjectType.java:112-131 | a class that passes check `i` and none before it is classified by check `i`, whatever later checks it also passes |
| `NamedObjects.GetTypeFailsExactly` | owlmanager/src/main/java/org/coode/owl/mngr/NamedObjectType.java:133 | `getType` throws exactly when the class is assignable to none of the seven tested interfaces |
| `NamedObjects.GetTypeOf` | owlmanager/src/main/java/org/coode/owl/mngr/NamedObjectType.java:106-108 | classifies an object by its runtime class: a named entity gets an entity sub-kind, any anonymous individual gets `individuals`, an ontology gets `ontologies` |
| `NamedObjects.GetTypeOfNeverEntities` | owlmanager/src/main/java/org/coode/owl/mngr/NamedObjectType.java:106-134 | no object is ever classified as `entities` |

## Left out

- Java reflection is replaced by `OwlApi.Kind`, the set of interfaces a class is assignable to. Only the subtype facts the enum relies on are encoded. The rest of the OWL API hierarchy (property expressions, logical entities and so on) is not modelled.
- `OWLDataFactory` is a foreign library. Its six creation operations are pure functions of the IRI, so the `df` parameter of `getOWLEntity` disappears. Object identity and caching inside the factory are not modelled.
- `IRI` internals: an IRI is carried as its text and never inspected.
- `getRenderings` returns a `set<string>`. `HashSet` identity and iteration order are not modelled.
- `entitySubtypes()` returns an immutable sequence. Callers cannot mutate the shared static array through it, as Java callers could.
- Exception messages and the string concatenation that builds them are not modelled. Each of the two `RuntimeException`s becomes an `Error` value carrying the category or class it reports.
- `GetCls`: the `throw` after the `switch` (line 89) is not modelled. Dafny's `match` is exhaustive, and every constant returns.
- `GetOWLEntity`: the discarded call to the factory's object-property operation has no effect, because the factory is pure here. Any side effect the real factory has is not modelled.

## Findings

| source | as written | input that shows it | evidently intended | confidence | as-written member | corrected member |
|---|---|---|---|---|---|---|
| owlmanager/src/main/java/org/coode/owl/mngr/NamedObjectType.java:96-97 | the `objectproperties` case calls `df.getOWLObjectProperty(iri)` without `return` and falls through into the `dataproperties` case, returning a data property | `objectproperties.getOWLEntity(iri, df)` for any `iri`: the result is classified by `getType` as `dataproperties` | `case objectproperties: return df.getOWLObjectProperty(iri);`, so construct-then-classify gives back every sub-kind | high (the discarded result has no use); not executed | `NamedObjects.ObjectPropertyFallsThrough` | `NamedObjects.GetOWLEntityIntendedThenGetType` |
