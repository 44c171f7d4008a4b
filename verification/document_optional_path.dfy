/**
  Lenient resolution of the `/{index}/{type}/{id}` part of a document
  request.  Only an explicitly set id is used verbatim; an unset id is
  inferred from the supplied document.  An explicit index or type is a
  marker that the inferrer still turns into a name, and an unset one takes
  the default for the document type.  Nothing is checked for being empty.
  The inference itself belongs to the client's inferrer and is a parameter
  here.
*/
module DocumentOptionalPath {
  import opened Wrappers
  import LongFormat

  /** A CLR type, standing for `typeof(...)` of a document class. */
  datatype ClrType = ClrType(fullName: string)

  /** An index given either by name or by the document type it is inferred from. */
  datatype IndexNameMarker = IndexFromName(name: string) | IndexFromType(clrType: ClrType)

  /** A type name given either literally or by the document type it is inferred from. */
  datatype TypeNameMarker = TypeFromName(name: string) | TypeFromType(clrType: ClrType)

  /**
    The four settable parts of a document path over documents of type `T`;
    `None` is a property that was never set.
  */
  datatype DocumentPath<T> = DocumentPath(
    index: Option<IndexNameMarker>,
    typeName: Option<TypeNameMarker>,
    id: Option<string>,
    idFrom: Option<T>)

  /** A freshly created request or descriptor: nothing set. */
  function Unset<T>(): DocumentPath<T>
  {
    DocumentPath(None, None, None, None)
  }

  /**
    The inferrer built from the connection settings, for document type `T`:
    names for explicit markers, the defaults configured for `T`, and the id
    read from a document (or from no document).  Any of them may come back
    null (`None`): the resolved path then holds a null part.
  */
  datatype Inferrer<-T> = Inferrer(
    indexName: IndexNameMarker -> Option<string>,
    defaultIndexName: Option<string>,
    typeName: TypeNameMarker -> Option<string>,
    defaultTypeName: Option<string>,
    id: Option<T> -> Option<string>)

  /** The route values of a request, plus everything else it carries (`rest`). */
  datatype PathInfo<P> = PathInfo(
    index: Option<string>,
    typeName: Option<string>,
    id: Option<string>,
    rest: P)

  /**
    Fills in index, type and id.  Defined for every path: unset or empty
    parts are never an error here.
  */
  function SetRouteParameters<T, P>(path: DocumentPath<T>, inferrer: Inferrer<T>, info: PathInfo<P>): (r: PathInfo<P>)
    ensures path.index.Some? ==> r.index == inferrer.indexName(path.index.value)
    ensures path.index.None? ==> r.index == inferrer.defaultIndexName
    ensures path.typeName.Some? ==> r.typeName == inferrer.typeName(path.typeName.value)
    ensures path.typeName.None? ==> r.typeName == inferrer.defaultTypeName
    ensures path.id.Some? ==> r.id == path.id
    ensures path.id.None? ==> r.id == inferrer.id(path.idFrom)
    ensures r.rest == info.rest
  {
    var index := if path.index.Some? then inferrer.indexName(path.index.value) else inferrer.defaultIndexName;
    var typeName := if path.typeName.Some? then inferrer.typeName(path.typeName.value) else inferrer.defaultTypeName;
    var id := if path.id.Some? then path.id else inferrer.id(path.idFrom);
    info.(index := index, typeName := typeName, id := id)
  }

  /** An explicit id is used as given: no inferrer is consulted for it. */
  lemma ExplicitIdIgnoresInferrer<T, P>(path: DocumentPath<T>, a: Inferrer<T>, b: Inferrer<T>, info: PathInfo<P>)
    requires path.id.Some?
    ensures SetRouteParameters(path, a, info).id == SetRouteParameters(path, b, info).id == path.id
  {
  }

  /** With both an id and a document set, the document does not matter. */
  lemma ExplicitIdWinsOverObject<T, P>(path: DocumentPath<T>, o: T, inferrer: Inferrer<T>, info: PathInfo<P>)
    requires path.id.Some?
    ensures SetRouteParameters(path.(idFrom := Some(o)), inferrer, info).id == path.id
  {
  }

  /**
    An explicit index or type still goes through the inferrer: two inferrers
    that name it differently resolve it differently.
  */
  lemma ExplicitIndexIsInferred<T, P>(path: DocumentPath<T>, a: Inferrer<T>, b: Inferrer<T>, info: PathInfo<P>)
    requires path.index.Some? && a.indexName(path.index.value) != b.indexName(path.index.value)
    ensures SetRouteParameters(path, a, info).index != SetRouteParameters(path, b, info).index
  {
  }

  // ---------------------------------------------------------------------
  // Fluent setters of the descriptor
  // ---------------------------------------------------------------------

  /** `Index(string)`. */
  function IndexByName<T>(d: DocumentPath<T>, index: string): (r: DocumentPath<T>)
    ensures r.index == Some(IndexFromName(index))
    ensures r.typeName == d.typeName && r.id == d.id && r.idFrom == d.idFrom
  {
    d.(index := Some(IndexFromName(index)))
  }

  /** `Index(Type)`. */
  function IndexByType<T>(d: DocumentPath<T>, index: ClrType): (r: DocumentPath<T>)
    ensures r.index == Some(IndexFromType(index))
    ensures r.typeName == d.typeName && r.id == d.id && r.idFrom == d.idFrom
  {
    d.(index := Some(IndexFromType(index)))
  }

  /** `Index<TAlternative>()`, where `alternative` is `typeof(TAlternative)`. */
  function IndexOf<T>(d: DocumentPath<T>, alternative: ClrType): (r: DocumentPath<T>)
    ensures r == IndexByType(d, alternative)
  {
    d.(index := Some(IndexFromType(alternative)))
  }

  /** `Type(string)`. */
  function TypeByName<T>(d: DocumentPath<T>, typeName: string): (r: DocumentPath<T>)
    ensures r.typeName == Some(TypeFromName(typeName))
    ensures r.index == d.index && r.id == d.id && r.idFrom == d.idFrom
  {
    d.(typeName := Some(TypeFromName(typeName)))
  }

  /** `Type(Type)`. */
  function TypeByType<T>(d: DocumentPath<T>, typeName: ClrType): (r: DocumentPath<T>)
    ensures r.typeName == Some(TypeFromType(typeName))
    ensures r.index == d.index && r.id == d.id && r.idFrom == d.idFrom
  {
    d.(typeName := Some(TypeFromType(typeName)))
  }

  /** `Type<TAlternative>()`, where `alternative` is `typeof(TAlternative)`. */
  function TypeOf<T>(d: DocumentPath<T>, alternative: ClrType): (r: DocumentPath<T>)
    ensures r == TypeByType(d, alternative)
  {
    d.(typeName := Some(TypeFromType(alternative)))
  }

  /** `Id(string)`. */
  function IdByString<T>(d: DocumentPath<T>, id: string): (r: DocumentPath<T>)
    ensures r.id == Some(id)
    ensures r.index == d.index && r.typeName == d.typeName && r.idFrom == d.idFrom
  {
    d.(id := Some(id))
  }

  /** `Id(long)`: the id is the decimal text of the number. */
  function IdByLong<T>(d: DocumentPath<T>, id: LongFormat.Long): (r: DocumentPath<T>)
    ensures r == IdByString(d, LongFormat.Format(id))
    ensures r.id.Some? && LongFormat.Parse(r.id.value) == Some(id as int)
  {
    LongFormat.FormatRoundTrip(id);
    IdByString(d, LongFormat.Format(id))
  }

  /** `Object(T)`: the document the id is inferred from. */
  function Object<T>(d: DocumentPath<T>, document: T): (r: DocumentPath<T>)
    ensures r.idFrom == Some(document)
    ensures r.index == d.index && r.typeName == d.typeName && r.id == d.id
  {
    d.(idFrom := Some(document))
  }

  /** Distinct numeric ids resolve to distinct ids. */
  lemma IdByLongInjective<T, P>(d: DocumentPath<T>, a: LongFormat.Long, b: LongFormat.Long, inferrer: Inferrer<T>, info: PathInfo<P>)
    ensures SetRouteParameters(IdByLong(d, a), inferrer, info).id == SetRouteParameters(IdByLong(d, b), inferrer, info).id
            <==> a == b
  {
    LongFormat.FormatInjective(a, b);
  }

  /** Setting the index moves only the resolved index. */
  lemma IndexSetterIsLocal<T, P>(d: DocumentPath<T>, m: IndexNameMarker, inferrer: Inferrer<T>, info: PathInfo<P>)
    ensures var before, after := SetRouteParameters(d, inferrer, info), SetRouteParameters(d.(index := Some(m)), inferrer, info);
      && after.index == inferrer.indexName(m)
      && after.typeName == before.typeName && after.id == before.id && after.rest == before.rest
  {
  }

  /** Setting the type moves only the resolved type. */
  lemma TypeSetterIsLocal<T, P>(d: DocumentPath<T>, m: TypeNameMarker, inferrer: Inferrer<T>, info: PathInfo<P>)
    ensures var before, after := SetRouteParameters(d, inferrer, info), SetRouteParameters(d.(typeName := Some(m)), inferrer, info);
      && after.typeName == inferrer.typeName(m)
      && after.index == before.index && after.id == before.id && after.rest == before.rest
  {
  }

  /** Setting the id or the document moves only the resolved id. */
  lemma IdSettersAreLocal<T, P>(d: DocumentPath<T>, id: string, o: T, inferrer: Inferrer<T>, info: PathInfo<P>)
    ensures var before, after := SetRouteParameters(d, inferrer, info), SetRouteParameters(IdByString(d, id), inferrer, info);
      && after.id == Some(id)
      && after.index == before.index && after.typeName == before.typeName && after.rest == before.rest
    ensures var before, after := SetRouteParameters(d, inferrer, info), SetRouteParameters(Object(d, o), inferrer, info);
      && (d.id.Some? ==> after.id == before.id)
      && (d.id.None? ==> after.id == inferrer.id(Some(o)))
      && after.index == before.index && after.typeName == before.typeName && after.rest == before.rest
  {
  }

  // ---------------------------------------------------------------------
  // The two entry points
  // ---------------------------------------------------------------------

  /** A descriptor configured with the fluent setters to hold the parts of `path`. */
  function Configure<T>(path: DocumentPath<T>): (d: DocumentPath<T>)
  {
    var d0 := Unset<T>();
    var d1 := match path.index
      case None => d0
      case Some(IndexFromName(n)) => IndexByName(d0, n)
      case Some(IndexFromType(t)) => IndexByType(d0, t);
    var d2 := match path.typeName
      case None => d1
      case Some(TypeFromName(n)) => TypeByName(d1, n)
      case Some(TypeFromType(t)) => TypeByType(d1, t);
    var d3 := if path.id.Some? then IdByString(d2, path.id.value) else d2;
    if path.idFrom.Some? then Object(d3, path.idFrom.value) else d3
  }

  /**
    A request object whose properties are assigned directly, and a descriptor
    configured through its setters to the same parts, resolve identically:
    both delegate to `SetRouteParameters`, and the setters reach every path.
  */
  lemma EntryPointsAgree<T, P>(path: DocumentPath<T>, inferrer: Inferrer<T>, info: PathInfo<P>)
    ensures Configure(path) == path
    ensures SetRouteParameters(Configure(path), inferrer, info) == SetRouteParameters(path, inferrer, info)
  {
  }

  /** Worked cases: everything explicit, an id read from a document, nothing set. */
  lemma ResolutionExamples<T, P>(doc: T, inferrer: Inferrer<T>, info: PathInfo<P>)
    ensures var r := SetRouteParameters(IdByString(TypeByName(IndexByName(Unset<T>(), "i"), "t"), "5"), inferrer, info);
      r.index == inferrer.indexName(IndexFromName("i"))
      && r.typeName == inferrer.typeName(TypeFromName("t"))
      && r.id == Some("5")
    ensures SetRouteParameters(Object(Unset<T>(), doc), inferrer, info).id == inferrer.id(Some(doc))
    ensures var r := SetRouteParameters(Unset<T>(), inferrer, info);
      r.index == inferrer.defaultIndexName
      && r.typeName == inferrer.defaultTypeName
      && r.id == inferrer.id(None)
  {
  }
}
