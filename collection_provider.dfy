/**
 * The Elasticsearch collection provider: it composes a search body from the
 * registered collection extensions, fills in a default query and the pagination
 * keys, chooses the index, sends one search request and turns its outcome into
 * either a Paginator or a uniform API error.
 *
 * The collaborators (the extensions, the pagination resolver, the inflector and
 * the search client) are function values fixed when the provider is built.
 */
module ElasticsearchState {
  import opened Wrappers
  import opened PhpValue

  // ---------------------------------------------------------------------------
  // Operation metadata

  /** The `Options` state options of the Elasticsearch bridge: an optional explicit index. */
  datatype Options = Options(index: Option<string>)

  /** What `Operation::getStateOptions()` returns. */
  datatype StateOptions =
    | NoStateOptions
    | ElasticsearchOptions(options: Options)
    /** State options of some other persistence bridge, identified by its class name. */
    | ForeignOptions(className: string)

  /** The parts of an operation the provider reads. */
  datatype Operation = Operation(resourceClass: Option<string>, shortName: string, stateOptions: StateOptions)

  // ---------------------------------------------------------------------------
  // Collaborators

  /** `applyToCollection($body, $resourceClass, $operation, $context)` of one collection extension. */
  type Extension = (Dict, Option<string>, Operation, Dict) -> Dict

  /** `getLimit($operation, $context)` or `getOffset($operation, $context)`. */
  type Resolver = (Operation, Dict) -> int

  datatype Pagination = Pagination(getLimit: Resolver, getOffset: Resolver)

  /** The denormalizer is never called here; it is only handed to the Paginator. */
  datatype Denormalizer = Denormalizer(name: string)

  /** A stack trace; carried into the error, never inspected. */
  datatype Trace = Trace(frames: seq<string>)

  /** The PSR-7 response wrapped in a `ClientResponseException`. */
  datatype HttpResponse = HttpResponse(statusCode: int, body: string, reasonPhrase: string)

  /** A successful search result of either client generation. */
  datatype SearchResponse =
    /** An `Elastic\Elasticsearch\Response\Elasticsearch` object, with what its `asArray()` returns. */
    | Rich(asArray: Value)
    /** Anything else the client returns (the version 7 client returns a plain array). */
    | Plain(documents: Value)

  /** An exception thrown by `$client->search(...)`. */
  datatype SearchFailure =
    | V7Missing404(code: int, message: string, trace: Trace)
    | ClientResponse(response: HttpResponse, trace: Trace)
    /** Any other exception class, identified by name. */
    | OtherFailure(className: string)

  datatype SearchOutcome = Found(response: SearchResponse) | Failed(failure: SearchFailure)

  /** The provider's constructor arguments. */
  datatype CollectionProvider = CollectionProvider(
    search: Dict -> SearchOutcome,
    denormalizer: Option<Denormalizer>,
    pagination: Option<Pagination>,
    extensions: seq<Extension>,
    tableize: string -> string)

  // ---------------------------------------------------------------------------
  // Results

  /** `ApiPlatform\State\ApiResource\Error` as built by the provider. */
  datatype Error = Error(status: int, title: string, detail: string, originalTrace: Trace)

  /** The arguments of the `Paginator` constructor. */
  datatype Paginator = Paginator(
    denormalizer: Option<Denormalizer>,
    documents: Value,
    resourceClass: Option<string>,
    limit: Value,
    offset: Value,
    context: Dict)

  /** How `provide` ends: a Paginator, a thrown `Error`, or an exception it lets through. */
  datatype ProvideOutcome =
    | Paged(paginator: Paginator)
    | Raised(error: Error)
    | Propagated(failure: SearchFailure)

  // ---------------------------------------------------------------------------
  // Query-body composition

  /**
   * The body after the first |exts| extensions, starting from `body`: each
   * extension receives the previous one's output.
   */
  function ApplyExtensions(exts: seq<Extension>, body: Dict, resourceClass: Option<string>, op: Operation, ctx: Dict): Dict
    decreases |exts|
  {
    if exts == [] then body
    else
      var last := |exts| - 1;
      exts[last](ApplyExtensions(exts[..last], body, resourceClass, op, ctx), resourceClass, op, ctx)
  }

  /** Running two extension chains one after the other is running their concatenation. */
  lemma {:induction false} ApplyExtensionsAppend(xs: seq<Extension>, ys: seq<Extension>, body: Dict, resourceClass: Option<string>, op: Operation, ctx: Dict)
    ensures ApplyExtensions(xs + ys, body, resourceClass, op, ctx)
         == ApplyExtensions(ys, ApplyExtensions(xs, body, resourceClass, op, ctx), resourceClass, op, ctx)
    decreases |ys|
  {
    if ys == [] {
      assert xs + ys == xs;
    } else {
      var last := |ys| - 1;
      assert (xs + ys)[..|xs + ys| - 1] == xs + ys[..last];
      assert (xs + ys)[|xs + ys| - 1] == ys[last];
      ApplyExtensionsAppend(xs, ys[..last], body, resourceClass, op, ctx);
    }
  }

  /** The first extension receives the initial body; the rest receive its output. */
  lemma ApplyExtensionsFirst(e: Extension, rest: seq<Extension>, body: Dict, resourceClass: Option<string>, op: Operation, ctx: Dict)
    ensures ApplyExtensions([e] + rest, body, resourceClass, op, ctx)
         == ApplyExtensions(rest, e(body, resourceClass, op, ctx), resourceClass, op, ctx)
  {
    ApplyExtensionsAppend([e], rest, body, resourceClass, op, ctx);
    assert [e][..0] == [];
  }

  /**
   * Extension `i` receives exactly the output of extensions `0..i-1` (the initial
   * body when i == 0), with the same resource class, operation and context.
   */
  lemma ApplyExtensionsStep(exts: seq<Extension>, i: nat, body: Dict, resourceClass: Option<string>, op: Operation, ctx: Dict)
    requires i < |exts|
    ensures ApplyExtensions(exts[..0], body, resourceClass, op, ctx) == body
    ensures ApplyExtensions(exts[..i + 1], body, resourceClass, op, ctx)
         == exts[i](ApplyExtensions(exts[..i], body, resourceClass, op, ctx), resourceClass, op, ctx)
  {
    assert exts[..i + 1][..i] == exts[..i];
  }

  /** The body with neither `query` nor `aggs` set. */
  predicate LacksQueryAndAggs(body: Dict)
  {
    !IsSet(body, "query") && !IsSet(body, "aggs")
  }

  /** `['match_all' => new \stdClass()]`. */
  const MatchAll: Value := Assoc(map["match_all" := StdObject(map[])])

  /**
   * Injects the match-all query when neither `query` nor `aggs` is set; otherwise
   * leaves the body exactly as the extensions produced it.
   */
  function WithDefaultQuery(body: Dict): (r: Dict)
    ensures IsSet(r, "query") || IsSet(r, "aggs")
    ensures !LacksQueryAndAggs(body) ==> r == body
    ensures LacksQueryAndAggs(body) ==> r.Keys == body.Keys + {"query"} && r["query"] == MatchAll
    ensures forall k :: k in body && k != "query" ==> k in r && r[k] == body[k]
  {
    if LacksQueryAndAggs(body) then body["query" := MatchAll] else body
  }

  /**
   * `$body[$key] ??= $resolver($operation, $context)`: the resolver is consulted
   * only when the key is unset, so it need not exist when the key is set.
   */
  function FillUnset(body: Dict, key: string, resolver: Option<Resolver>, op: Operation, ctx: Dict): (r: Dict)
    requires IsSet(body, key) || resolver.Some?
    ensures IsSet(r, key)
    ensures IsSet(body, key) ==> r == body
    ensures !IsSet(body, key) ==> r[key] == Int(resolver.value(op, ctx))
    ensures r.Keys == body.Keys + {key}
    ensures forall k :: k in body && k != key ==> k in r && r[k] == body[k]
    ensures resolver.Some? ==> r == CoalesceAssign(body, key, Int(resolver.value(op, ctx)))
  {
    if IsSet(body, key) then body else body[key := Int(resolver.value(op, ctx))]
  }

  function LimitResolver(pagination: Option<Pagination>): Option<Resolver>
  {
    if pagination.Some? then Some(pagination.value.getLimit) else None
  }

  function OffsetResolver(pagination: Option<Pagination>): Option<Resolver>
  {
    if pagination.Some? then Some(pagination.value.getOffset) else None
  }

  /** The body the extensions produce, starting from `[]`. */
  function ExtendedBody(p: CollectionProvider, op: Operation, ctx: Dict): Dict
  {
    ApplyExtensions(p.extensions, map[], op.resourceClass, op, ctx)
  }

  /**
   * `provide` dereferences `$this->pagination` only for a `size` or `from` that the
   * extensions left unset; without a pagination object the call on `null` would throw an `Error`.
   */
  predicate PaginationAvailable(p: CollectionProvider, op: Operation, ctx: Dict)
  {
    p.pagination.None? ==> IsSet(ExtendedBody(p, op, ctx), "size") && IsSet(ExtendedBody(p, op, ctx), "from")
  }

  /** The body sent to the search engine. */
  function ComposedBody(p: CollectionProvider, op: Operation, ctx: Dict): Dict
    requires PaginationAvailable(p, op, ctx)
  {
    var extended := ExtendedBody(p, op, ctx);
    var queried := WithDefaultQuery(extended);
    var sized := FillUnset(queried, "size", LimitResolver(p.pagination), op, ctx);
    FillUnset(sized, "from", OffsetResolver(p.pagination), op, ctx)
  }

  /**
   * What composition guarantees: a query or an aggregation is always present,
   * `size` and `from` are always set, and they come from the pagination resolver
   * exactly when the extensions left them unset.
   */
  lemma ComposedBodyShape(p: CollectionProvider, op: Operation, ctx: Dict)
    requires PaginationAvailable(p, op, ctx)
    ensures var body := ComposedBody(p, op, ctx);
      && (IsSet(body, "query") || IsSet(body, "aggs"))
      && IsSet(body, "size") && IsSet(body, "from")
  {
  }

  /** `size` follows first-write-wins; the limit resolver matters only when `size` was unset. */
  lemma ComposedSize(p: CollectionProvider, op: Operation, ctx: Dict)
    requires PaginationAvailable(p, op, ctx)
    ensures var extended := ExtendedBody(p, op, ctx);
      && (IsSet(extended, "size") ==> ComposedBody(p, op, ctx)["size"] == extended["size"])
      && (!IsSet(extended, "size") ==> ComposedBody(p, op, ctx)["size"] == Int(p.pagination.value.getLimit(op, ctx)))
  {
  }

  /** `from` follows first-write-wins; the offset resolver matters only when `from` was unset. */
  lemma ComposedFrom(p: CollectionProvider, op: Operation, ctx: Dict)
    requires PaginationAvailable(p, op, ctx)
    ensures var extended := ExtendedBody(p, op, ctx);
      && (IsSet(extended, "from") ==> ComposedBody(p, op, ctx)["from"] == extended["from"])
      && (!IsSet(extended, "from") ==> ComposedBody(p, op, ctx)["from"] == Int(p.pagination.value.getOffset(op, ctx)))
  {
  }

  /**
   * The `query` and `aggs` keys: the match-all marker when the extensions set
   * neither, otherwise exactly what they produced. Every key other than `query`,
   * `size` and `from` is exactly what the extensions produced.
   */
  lemma ComposedQuery(p: CollectionProvider, op: Operation, ctx: Dict)
    requires PaginationAvailable(p, op, ctx)
    ensures var extended := ExtendedBody(p, op, ctx);
      var body := ComposedBody(p, op, ctx);
      && (LacksQueryAndAggs(extended) ==> body["query"] == MatchAll)
      && (!LacksQueryAndAggs(extended) ==>
            ("query" in body <==> "query" in extended) && ("query" in extended ==> body["query"] == extended["query"]))
      && ("aggs" in body <==> "aggs" in extended)
      && ("aggs" in extended ==> body["aggs"] == extended["aggs"])
      && body.Keys == extended.Keys + {"size", "from"} + (if LacksQueryAndAggs(extended) then {"query"} else {})
      && forall k :: k in extended && k !in {"query", "size", "from"} ==> body[k] == extended[k]
  {
  }

  /**
   * When the extensions set `size` and `from` themselves, the pagination
   * collaborator is never consulted: any other one gives the same body.
   */
  lemma ComposedBodyIgnoresPagination(p: CollectionProvider, q: CollectionProvider, op: Operation, ctx: Dict)
    requires p.extensions == q.extensions
    requires IsSet(ExtendedBody(p, op, ctx), "size") && IsSet(ExtendedBody(p, op, ctx), "from")
    ensures PaginationAvailable(p, op, ctx) && PaginationAvailable(q, op, ctx)
    ensures ComposedBody(p, op, ctx) == ComposedBody(q, op, ctx)
  {
  }

  // ---------------------------------------------------------------------------
  // Index resolution

  /** `getIndex`: the tableized short name of the operation. */
  function GetIndex(p: CollectionProvider, op: Operation): string
  {
    p.tableize(op.shortName)
  }

  /** The state options the provider uses: the operation's own `Options`, or fresh ones with the derived index. */
  function EffectiveOptions(p: CollectionProvider, op: Operation): Options
  {
    if op.stateOptions.ElasticsearchOptions? then op.stateOptions.options else Options(Some(GetIndex(p, op)))
  }

  /** `$options->getIndex() ?? $this->getIndex($operation)`. */
  function ResolveIndex(p: CollectionProvider, op: Operation): string
  {
    EffectiveOptions(p, op).index.GetOr(GetIndex(p, op))
  }

  /** The explicit index wins verbatim; everything else falls back to the tableized short name. */
  lemma ResolveIndexChoice(p: CollectionProvider, op: Operation)
    ensures op.stateOptions.ElasticsearchOptions? && op.stateOptions.options.index.Some?
            ==> ResolveIndex(p, op) == op.stateOptions.options.index.value
    ensures !(op.stateOptions.ElasticsearchOptions? && op.stateOptions.options.index.Some?)
            ==> ResolveIndex(p, op) == p.tableize(op.shortName)
  {
  }

  /** Only `null` falls back: an explicit empty index is sent as it is. */
  lemma EmptyIndexIsKept(p: CollectionProvider, op: Operation)
    requires op.stateOptions == ElasticsearchOptions(Options(Some("")))
    ensures ResolveIndex(p, op) == ""
  {
  }

  /** The index depends only on the short name and the state options. */
  lemma ResolveIndexDeterministic(p: CollectionProvider, op1: Operation, op2: Operation)
    requires op1.shortName == op2.shortName && op1.stateOptions == op2.stateOptions
    ensures ResolveIndex(p, op1) == ResolveIndex(p, op2)
  {
  }

  /** An explicit index does not depend on the short name at all. */
  lemma ExplicitIndexIgnoresShortName(p: CollectionProvider, op1: Operation, op2: Operation, index: string)
    requires op1.stateOptions == op2.stateOptions == ElasticsearchOptions(Options(Some(index)))
    ensures ResolveIndex(p, op1) == ResolveIndex(p, op2) == index
  {
  }

  // ---------------------------------------------------------------------------
  // Search request, error translation, response normalisation

  /** `['index' => $index, 'body' => $body]`. */
  function SearchParams(index: string, body: Dict): (params: Dict)
    ensures params.Keys == {"index", "body"}
    ensures params["index"] == Str(index) && params["body"] == Assoc(body)
  {
    map["index" := Str(index), "body" := Assoc(body)]
  }

  /** The request loses nothing: index and body can be read back from it. */
  lemma SearchParamsInjective(i1: string, b1: Dict, i2: string, b2: Dict)
    requires SearchParams(i1, b1) == SearchParams(i2, b2)
    ensures i1 == i2 && b1 == b2
  {
  }

  /** The two `catch` arms; any other exception is not caught. */
  function TranslateFailure(f: SearchFailure): (r: ProvideOutcome)
    ensures r.Propagated? <==> f.OtherFailure?
    ensures r.Propagated? ==> r.failure == f
    ensures r.Raised? ==> r.error.originalTrace == f.trace
    ensures f.V7Missing404? ==> r.Raised? && r.error.status == f.code
                                 && r.error.title == f.message && r.error.detail == f.message
    ensures f.ClientResponse? ==> r.Raised? && r.error.status == f.response.statusCode
                                   && r.error.detail == f.response.body && r.error.title == f.response.reasonPhrase
  {
    match f
    case V7Missing404(code, message, trace) =>
      Raised(Error(status := code, title := message, detail := message, originalTrace := trace))
    case ClientResponse(response, trace) =>
      Raised(Error(status := response.statusCode, title := response.reasonPhrase, detail := response.body, originalTrace := trace))
    case OtherFailure(_) =>
      Propagated(f)
  }

  /** A version 7 "no such index" 404 becomes a 404 error with that message as title and detail. */
  lemma TranslateMissingIndex(trace: Trace)
    ensures TranslateFailure(V7Missing404(404, "no such index", trace))
         == Raised(Error(status := 404, title := "no such index", detail := "no such index", originalTrace := trace))
  {
  }

  /**
   * A 500 response wrapped in a `ClientResponseException` becomes a 500 error with
   * the reason phrase as title and the body as detail. This follows the catch arm
   * as written; which statuses the client wraps in that class is not modelled.
   */
  lemma TranslateServerError(trace: Trace)
    ensures TranslateFailure(ClientResponse(HttpResponse(500, "cluster unavailable", "Internal Server Error"), trace))
         == Raised(Error(status := 500, title := "Internal Server Error", detail := "cluster unavailable", originalTrace := trace))
  {
  }

  /** `$documents->asArray()` for a rich response; any other result as it is. */
  function Normalise(response: SearchResponse): (documents: Value)
    ensures response.Rich? ==> documents == response.asArray
    ensures response.Plain? ==> documents == response.documents
  {
    match response
    case Rich(a) => a
    case Plain(d) => d
  }

  /** A rich response and a plain result carrying the same data normalise alike. */
  lemma NormaliseAgrees(data: Value)
    ensures Normalise(Rich(data)) == Normalise(Plain(data)) == data
  {
  }

  // ---------------------------------------------------------------------------
  // provide

  /** The whole of `provide`, as one value. */
  function ProvideResult(p: CollectionProvider, op: Operation, ctx: Dict): ProvideOutcome
    requires PaginationAvailable(p, op, ctx)
  {
    var body := ComposedBody(p, op, ctx);
    match p.search(SearchParams(ResolveIndex(p, op), body))
    case Failed(f) => TranslateFailure(f)
    case Found(response) =>
      Paged(Paginator(p.denormalizer, Normalise(response), op.resourceClass, body["size"], body["from"], ctx))
  }

  /**
   * On success the Paginator carries the provider's denormalizer, the normalised
   * documents, the operation's class, the final `size` and `from` of the body
   * sent, and the context unchanged.
   */
  lemma ProvideSuccess(p: CollectionProvider, op: Operation, ctx: Dict, response: SearchResponse)
    requires PaginationAvailable(p, op, ctx)
    requires p.search(SearchParams(ResolveIndex(p, op), ComposedBody(p, op, ctx))) == Found(response)
    ensures var r := ProvideResult(p, op, ctx);
      && r.Paged?
      && r.paginator.denormalizer == p.denormalizer
      && r.paginator.documents == Normalise(response)
      && r.paginator.resourceClass == op.resourceClass
      && r.paginator.limit == ComposedBody(p, op, ctx)["size"] != Null
      && r.paginator.offset == ComposedBody(p, op, ctx)["from"] != Null
      && r.paginator.context == ctx
  {
  }

  /** On failure the outcome is the translation of the exception. */
  lemma ProvideFailure(p: CollectionProvider, op: Operation, ctx: Dict, f: SearchFailure)
    requires PaginationAvailable(p, op, ctx)
    requires p.search(SearchParams(ResolveIndex(p, op), ComposedBody(p, op, ctx))) == Failed(f)
    ensures ProvideResult(p, op, ctx) == TranslateFailure(f)
  {
  }

  /**
   * The composition half of `provide`: folds the extensions over an empty body,
   * adds the default query and fills `size` and `from` with `??=`, returning the
   * body and the values `size` and `from` end up with.
   */
  method ComposeBody(p: CollectionProvider, op: Operation, ctx: Dict) returns (body: Dict, limit: Value, offset: Value)
    requires PaginationAvailable(p, op, ctx)
    ensures body == ComposedBody(p, op, ctx)
    ensures limit == body["size"] && offset == body["from"]
  {
    var resourceClass := op.resourceClass;
    body := map[];
    var i := 0;
    while i < |p.extensions|
      invariant 0 <= i <= |p.extensions|
      invariant body == ApplyExtensions(p.extensions[..i], map[], resourceClass, op, ctx)
    {
      ApplyExtensionsStep(p.extensions, i, map[], resourceClass, op, ctx);
      body := p.extensions[i](body, resourceClass, op, ctx);
      i := i + 1;
    }
    assert p.extensions[..i] == p.extensions;
    ghost var extended := body;

    if !IsSet(body, "query") && !IsSet(body, "aggs") {
      body := body["query" := MatchAll];
    }
    ghost var queried := body;
    assert queried == WithDefaultQuery(extended);

    if !IsSet(body, "size") {
      body := body["size" := Int(p.pagination.value.getLimit(op, ctx))];
    }
    limit := body["size"];
    ghost var sized := body;
    assert sized == FillUnset(queried, "size", LimitResolver(p.pagination), op, ctx);

    if !IsSet(body, "from") {
      body := body["from" := Int(p.pagination.value.getOffset(op, ctx))];
    }
    offset := body["from"];
    assert body == FillUnset(sized, "from", OffsetResolver(p.pagination), op, ctx);
  }

  /**
   * `provide`: composes the body, chooses the index, sends the search request and
   * maps its outcome to a Paginator or an error.
   */
  method Provide(p: CollectionProvider, op: Operation, ctx: Dict) returns (outcome: ProvideOutcome)
    requires PaginationAvailable(p, op, ctx)
    ensures outcome == ProvideResult(p, op, ctx)
  {
    var body, limit, offset := ComposeBody(p, op, ctx);

    var params := SearchParams(ResolveIndex(p, op), body);
    var result := p.search(params);
    match result {
      case Failed(failure) =>
        outcome := TranslateFailure(failure);
      case Found(response) =>
        var documents := Normalise(response);
        outcome := Paged(Paginator(p.denormalizer, documents, op.resourceClass, limit, offset, ctx));
    }
  }
}
