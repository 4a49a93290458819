# Elasticsearch collection provider — a Dafny model

This project models `ApiPlatform\Elasticsearch\State\CollectionProvider`, the
API Platform state provider that answers a "list resources" operation from
Elasticsearch. One call to `provide` does the following:

1. It folds the registered collection extensions over an empty search body.
2. It injects a `match_all` query when no extension set `query` or `aggs`.
3. It fills `size` and `from` from the pagination service with PHP's `??=`.
4. It picks the index: the explicit index in the operation's `Options`, or else the inflector's `tableize` of the short name.
5. It sends one `search` request.
6. It translates the two known client exceptions into an API Platform `Error`.
7. It normalises a rich response with `asArray()`.
8. It returns the constructor arguments of a `Paginator`.

Modules:

- `Wrappers` (`wrappers.dfy`): `Option`, with `GetOr` for PHP's `??`.
- `PhpValue` (`php_value.dfy`): PHP values (`null`, scalars, lists, string-keyed arrays, `stdClass`).
  - `IsSet` is PHP's `isset`: a key holding `null` counts as unset. A key holding `0`, `false`, `""` or `[]` counts as set.
  - `CoalesceAssign` is `??=`.
- `ElasticsearchState` (`collection_provider.dfy`): the provider.
  - The collaborators are function values in the immutable `CollectionProvider` datatype: the extensions' `applyToCollection`, `getLimit`/`getOffset`, `tableize`, and the client's `search`. The provider's own fields are `readonly` in the source, so no class is used.
  - `ComposeBody` (the `foreach` loop and the in-place key writes) and `Provide` are methods. Each is proved equal to a specification function: `ComposedBody` and `ProvideResult`. The lemmas state the properties of those functions.

Some behaviour of the code is easy to misread:

- `??` at :73 falls back only on `null`, so an empty-string index is sent unchanged.
- `isset` at :63 and `??=` at :67-68 treat a key holding `null` as missing.
- Only a rich `Elasticsearch` response is converted. Any other search result is passed through unchanged.

Composing twice from the same inputs gives the same body. This holds by construction, because every collaborator is modelled as a pure function and `ComposedBody` is a function.

## Model

| member | source | states |
|---|---|---|
| PhpValue.CoalesceAssign | src/Elasticsearch/State/CollectionProvider.php:67-68 | `??=` leaves a set key (present and non-null) as it is. It writes the value to an unset key. The key set grows by at most that key, and every other key is unchanged |
| PhpValue.CoalesceAssignSets | src/Elasticsearch/State/CollectionProvider.php:67-68 | after `??=` with a non-null value, the key is set |
| PhpValue.CoalesceAssignIdempotent | src/Elasticsearch/State/CollectionProvider.php:67-68 | after a `??=` with a non-null value, a second `??=` on the same key, with any value, changes nothing |
| PhpValue.ZeroIsSet | src/Elasticsearch/State/CollectionProvider.php:67-68 | a key holding `0` is kept, not overwritten |
| PhpValue.NullIsUnset | src/Elasticsearch/State/CollectionProvider.php:67-68 | a key holding `null` is overwritten |
| ElasticsearchState.ApplyExtensionsAppend | src/Elasticsearch/State/CollectionProvider.php:57-61 | folding two extension chains in sequence is the same as folding their concatenation, so registration order is the order of application |
| ElasticsearchState.ApplyExtensionsFirst | src/Elasticsearch/State/CollectionProvider.php:57-61 | the first extension receives the initial body, and the remaining ones receive its output |
| ElasticsearchState.ApplyExtensionsStep | src/Elasticsearch/State/CollectionProvider.php:59-61 | no extensions leave the body unchanged. Extension i receives exactly the output of extensions 0..i-1, with the same resource class, operation and context |
| ElasticsearchState.WithDefaultQuery | src/Elasticsearch/State/CollectionProvider.php:63-65 | afterwards `query` or `aggs` is set. If neither was set, `query` is the match-all marker and only `query` is added. Otherwise the body is unchanged. Keys other than `query` are never touched |
| ElasticsearchState.FillUnset | src/Elasticsearch/State/CollectionProvider.php:67-68 | `$body[k] ??= resolver(op, ctx)`: the key ends up set. A set key is kept and the resolver is not needed. An unset key gets the resolver's value. No other key changes |
| ElasticsearchState.ComposedBodyShape | src/Elasticsearch/State/CollectionProvider.php:57-68 | the composed body always has `query` or `aggs` set, and always has `size` and `from` set (non-null) |
| ElasticsearchState.ComposedSize | src/Elasticsearch/State/CollectionProvider.php:67 | `size` is what the extensions set, when they set it (including `0`). Otherwise it is `getLimit(operation, context)` |
| ElasticsearchState.ComposedFrom | src/Elasticsearch/State/CollectionProvider.php:68 | `from` is what the extensions set, when they set it. Otherwise it is `getOffset(operation, context)` |
| ElasticsearchState.ComposedQuery | src/Elasticsearch/State/CollectionProvider.php:63-68 | `query` is the match-all marker when the extensions set neither `query` nor `aggs`. Otherwise `query` and `aggs` are exactly what the extensions produced. The keys are the extensions' keys plus `size`, `from`, and `query` only when it was injected. Every other key keeps the extensions' value |
| ElasticsearchState.ComposedBodyIgnoresPagination | src/Elasticsearch/State/CollectionProvider.php:67-68 | when the extensions set both `size` and `from`, the pagination object is not consulted: any pagination object, including none, gives the same body |
| ElasticsearchState.ComposeBody | src/Elasticsearch/State/CollectionProvider.php:56-68 | the loop and the key writes produce exactly `ComposedBody`. The returned limit and offset equal the final `size` and `from` |
| ElasticsearchState.ResolveIndexChoice | src/Elasticsearch/State/CollectionProvider.php:70-73 | an explicit non-null index in `Options` is used verbatim. In every other case the index is `tableize(shortName)` |
| ElasticsearchState.EmptyIndexIsKept | src/Elasticsearch/State/CollectionProvider.php:73 | an explicit empty-string index does not fall back |
| ElasticsearchState.ResolveIndexDeterministic | src/Elasticsearch/State/CollectionProvider.php:100-103 | the index depends only on the operation's short name and state options |
| ElasticsearchState.ExplicitIndexIgnoresShortName | src/Elasticsearch/State/CollectionProvider.php:70-73 | an explicit index does not depend on the short name |
| ElasticsearchState.SearchParams | src/Elasticsearch/State/CollectionProvider.php:72-75 | the request has exactly the keys `index` and `body`, holding the chosen index and the composed body |
| ElasticsearchState.SearchParamsInjective | src/Elasticsearch/State/CollectionProvider.php:72-75 | the request loses nothing: equal requests have equal index and equal body |
| ElasticsearchState.TranslateFailure | src/Elasticsearch/State/CollectionProvider.php:77-84 | a V7 `Missing404Exception` becomes `Error{status: code, title: message, detail: message}`. A `ClientResponseException` becomes `Error{status: statusCode, title: reasonPhrase, detail: body}`. Both keep the original trace. Exactly the other exceptions propagate, unchanged |
| ElasticsearchState.TranslateMissingIndex | src/Elasticsearch/State/CollectionProvider.php:79-80 | a 404 "no such index" becomes a 404 error with that title and detail |
| ElasticsearchState.TranslateServerError | src/Elasticsearch/State/CollectionProvider.php:81-83 | a 500 response becomes a 500 error with title "Internal Server Error" and detail "cluster unavailable" |
| ElasticsearchState.Normalise | src/Elasticsearch/State/CollectionProvider.php:86-88 | a rich `Elasticsearch` response becomes its `asArray()`. Any other result is passed as it is |
| ElasticsearchState.NormaliseAgrees | src/Elasticsearch/State/CollectionProvider.php:86-88 | a rich response and a plain result with the same data normalise to the same documents |
| ElasticsearchState.ProvideSuccess | src/Elasticsearch/State/CollectionProvider.php:86-97 | on success the Paginator gets the provider's denormalizer, the normalised documents, the operation's class, the final non-null `size` and `from` of the body sent, and the input context unchanged |
| ElasticsearchState.ProvideFailure | src/Elasticsearch/State/CollectionProvider.php:77-84 | when the search fails, the outcome is the translation of that exception |
| ElasticsearchState.Provide | src/Elasticsearch/State/CollectionProvider.php:54-98 | the method (composition, index choice, request, exception mapping, Paginator) produces exactly `ProvideResult` for the request built from `ComposedBody` and `ResolveIndex` |

## Left out

- The search transport and the V7 and V8 client classes. The client is the function `search`, and its outcome is a `SearchOutcome` value.
- The `class_exists(Elasticsearch::class)` guard. When the class does not exist, no result can be an instance of it, so the case is included in `Plain`.
- `Paginator` internals and denormalisation. Only the constructor arguments are modelled. The `Paginator` class is not part of this model, and none of its constructor's parameter types are checked. A possibly-null denormalizer (:44), a possibly-null resource class (:56), a documents value of any shape, and a non-integer `size` or `from` set by an extension are all carried as they are.
- The string transform of `tableize`: it is left uninterpreted, as a parameter.
- The body of `asArray()`: it is carried as the value it returns.
- Trace contents: they are carried, never interpreted.
- Constructor defaults and dependency-injection wiring. In particular, a `null` inflector is not modelled: the constructor default provides one.
- A `null` short name is not modelled: `shortName` is a string.
- `$uriVariables`: it is unused by `provide`.
- `Operation` holds only the three fields `provide` reads: the resource class, the short name and the state options. The extensions and `getLimit`/`getOffset` receive this reduced value, so the model does not distinguish operations that differ only in other metadata, such as items per page.
- Exceptions thrown by extensions or by the pagination service. Both are total functions here.
- A missing pagination object when `size` or `from` is unset. The call on `null` at :67 or :68 throws an `Error`; it is modelled as the precondition `PaginationAvailable`.
- The `Options` class is not part of this model beyond its nullable `getIndex()`.
- Floating-point values in bodies and responses: `Value` has no float case.
- PHP's `[]` has two encodings in `Value`: `List([])` and `Assoc(map[])`. Dafny equality on values is therefore finer than PHP's `===` on arrays. `NormaliseAgrees` and `SearchParamsInjective` speak of one representation.
- The client's exception classes are not part of this model. Only the two classes caught at :79 and :81 are translated. Every other class is `OtherFailure` and propagates, whatever status it carries. `TranslateServerError` follows the :81-83 arm as written, for a 500 response wrapped in a `ClientResponseException`.
- The order of keys in PHP arrays: the body is a `map`, and key order is irrelevant to the request.
