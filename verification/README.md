# WPSwift client core in Dafny

A model of the two pieces of the WPSwift WordPress REST client that hold its logic:

- **Request assembly** (`WPClient.init`, module `API`). A client configuration carries
  an endpoint, an HTTP method, headers, an encoding tag and a three-way parameter
  strategy: no parameters, an `object` key/value map, or an encodable `model`. The
  initializer validates the endpoint URL and then builds a request descriptor. The
  descriptor holds the parameter map for `object` and the encoded body for `model`,
  and holds neither for `none`. A URL that fails validation makes construction fail
  with `NetworkError.urlMalformed`. An encoder failure is thrown as the encoder's own
  error, not wrapped. The `NetworkError` cases and their fixed description texts are
  modelled as well.
- **Embedded content** (`EmbeddedContent`, module `Models`). The `_embedded` section
  of a resource holds three arrays: authors, featured media and taxonomy terms. The
  accessors `author` and `featuredMedia` return the first element of their array.
  `tag` and `category` return the first term of the matching taxonomy. The value
  initializer builds arrays of at most one element per kind, with the tag before the
  category.

`Sequences` models the two Swift collection lookups the accessors use, `first` and
`first(where:)`, with `filter` as a reference definition. `Wrappers` holds `Option`
(Swift optionals) and `Result` (the outcome of a throwing call).

The accessors are named `FirstAuthor`, `FirstFeaturedMedia`, `FirstTag` and `FirstCategory`
in the model; they stand for the Swift properties `author`, `featuredMedia`, `tag` and
`category`.

The external collaborators are parameters of `API.Init`:
- `urlFor` stands for `String.initialize(with:)`, which composes the endpoint with the
  global route and namespace and validates the result. It returns nothing when the URL
  is invalid.
- `encode` stands for `JSONEncoder.encode`.

Neither one's implementation is part of this model. The test at
Tests/WPSwiftTests/APITests/APIClientTests.swift:43-53 shows that a failed URL
validation surfaces as `urlMalformed`, so `Init` maps a missing URL to that case.

The record types owned by other files or by the REST library are opaque types:
`Author`, `FeaturedMedia`, the term details, `HttpMethod`, `ParameterEncoding`, the
`Any` values of a parameter map, and the encoder's error.

## Model

| member | source | states |
|---|---|---|
| `API.NetworkError.ErrorDescription` | Sources/WPSwift/API/WPClient.swift:17-26 | the description is total and never empty; it is the fixed text "URL is malformed.", "API returned an unexpected response." or "Unknown error." for the respective case |
| `API.ErrorDescriptionsDistinct` | Sources/WPSwift/API/WPClient.swift:12-26 | two errors have the same description exactly when they are the same case |
| `API.Init` | Sources/WPSwift/API/WPClient.swift:33-59 | construction succeeds exactly when the URL validates and, for a model, the encoder succeeds; a rejected URL gives `urlMalformed` in every branch; the only `NetworkError` it throws is `urlMalformed`, and only for a rejected URL; with a valid URL and a model the encoder cannot encode, it throws exactly the encoder's own error, unwrapped, and an `Encoding` error arises in no other case; on success the URL is the validated one, method, headers and encoding are copied unchanged, a parameter map is present exactly for `object` and equals its dictionary, a body is present exactly for `model` and equals the encoded bytes, and the two are never both present |
| `API.Strategy` | Sources/WPSwift/API/WPClient.swift:36-56 | reads back from a descriptor with at most one of map and body which of the three strategies it holds |
| `API.InitRecordsStrategy` | Sources/WPSwift/API/WPClient.swift:36-58 | the descriptor a successful construction builds records the configuration's strategy, with the model replaced by its encoding |
| `API.UrlCheckedBeforeEncoding` | Sources/WPSwift/API/WPClient.swift:44-50 | once the URL is rejected, every encoder gives the same `urlMalformed` failure, so a failing encoder never masks a bad URL |
| `API.EncoderOnlyForModel` | Sources/WPSwift/API/WPClient.swift:36-57 | for `object` and `none` the result does not depend on the encoder |
| `Models.EmbeddedContent.FirstAuthor` | Sources/WPSwift/Models/EmbeddedContent.swift:11-13 | `author` is the first decoded author; it is absent exactly when the array is empty |
| `Models.EmbeddedContent.FirstFeaturedMedia` | Sources/WPSwift/Models/EmbeddedContent.swift:14-16 | `featuredMedia` is the first decoded entry; it is absent exactly when the array is empty |
| `Models.EmbeddedContent.FirstTag` | Sources/WPSwift/Models/EmbeddedContent.swift:17-19 | `tag` is absent exactly when no term has the tag taxonomy; otherwise it is a term of the array with the tag taxonomy, and no earlier term has that taxonomy |
| `Models.EmbeddedContent.FirstCategory` | Sources/WPSwift/Models/EmbeddedContent.swift:20-22 | `category` is absent exactly when no term has the category taxonomy; otherwise it is the earliest term with that taxonomy |
| `Models.Make` | Sources/WPSwift/Models/EmbeddedContent.swift:27-45 | the value initializer builds arrays of at most one author, one media entry and two terms, with the tag argument first and the category argument last; `author` and `featuredMedia` then return their arguments unchanged; `tag` and `category` return the first argument whose taxonomy matches, in the order tag argument then category argument |
| `Models.MakeRoundTrip` | Sources/WPSwift/Models/EmbeddedContent.swift:11-45 | when the tag argument has the tag taxonomy and the category argument has the category taxonomy, every accessor returns exactly its argument |
| `Models.MisfiledTagNotReturned` | Sources/WPSwift/Models/EmbeddedContent.swift:17-41 | a term passed as `tag:` whose taxonomy is not the tag taxonomy is never returned by `tag` |
| `Models.MakeEmpty` | Sources/WPSwift/Models/EmbeddedContent.swift:27-45 | content built with every argument nil has no author, media, tag or category |
| `Models.CategoryOnlyMatchesDecoded` | Sources/WPSwift/Models/EmbeddedContent.swift:23-52 | content built from a category alone equals content decoded with empty `author` and `wp:featuredmedia` arrays and that one term under `wp:term`; its only present accessor is `category` |
| `Models.SoleTagFound` | Sources/WPSwift/Models/EmbeddedContent.swift:17-19 | the only tag-taxonomy term is returned by `tag` whatever its position |
| `Models.SoleCategoryFound` | Sources/WPSwift/Models/EmbeddedContent.swift:20-22 | the only category-taxonomy term is returned by `category` whatever its position |
| `Models.TermOrderIrrelevant` | Sources/WPSwift/Models/EmbeddedContent.swift:17-22 | with one tag and one category term in either order, `tag` and `category` each return their own term |
| `Sequences.First` | Sources/WPSwift/Models/EmbeddedContent.swift:11-16 | `first` is absent exactly for an empty array and is otherwise the element at index 0 |
| `Sequences.FirstWhere` | Sources/WPSwift/Models/EmbeddedContent.swift:17-22 | `first(where:)` is absent exactly when no element satisfies the predicate; otherwise it is an element that satisfies it, and no earlier element does |
| `Sequences.FirstWhereUnique` | Sources/WPSwift/Models/EmbeddedContent.swift:17-22 | when exactly one element satisfies the predicate, `first(where:)` returns it whatever its index |
| `Sequences.FirstWhereIsFirstOfFilter` | Sources/WPSwift/Models/EmbeddedContent.swift:18 | `first(where: p)` equals the first element of `filter(p)` |
| `Sequences.FirstWhereAppend` | Sources/WPSwift/Models/EmbeddedContent.swift:38-45 | searching `a + b` gives the match in `a` if there is one, and otherwise the match in `b` |
| `Sequences.FromOption` | Sources/WPSwift/Models/EmbeddedContent.swift:28-37 | the `if let x { [x] } else { [] }` array has at most one element, and its `first` is the original optional |

## Left out

- `fetch()` and `fetchPublisher()` (WPClient.swift:61-70) are not modelled. Both hand the stored descriptor to the external `RestClient`. The library issues the call, classifies status codes into `api` or `unknown`, and decodes the response, so the cases `api` and `unknown` are never produced by the code modelled here.
- The `RestClient` and its session and JSON-decoder configuration (WPClient.swift:34-35) are not modelled. They are transport setup with no effect on the descriptor, so `API.Client` holds only the descriptor.
- `String.initialize(with:)` and the global route and namespace it reads are not part of this model; `urlFor` stands in for them. The `baseURL` argument of `WPClientConfiguration` (Sources/WPSwift/Repositories/PostsRepository.swift:37) is not modelled either. `WPClient.init` passes only `endpoint` to the URL check, and how `WPClientConfiguration` builds `endpoint` is not part of this model. So whether `baseURL` affects the URL cannot be seen from the code here.
- `JSONEncoder` is not part of this model; `encode` stands in for it. Its failure on non-finite numbers is only represented as some `Failure`.
- JSON decoding of `EmbeddedContent` is not modelled. Decoded content is the datatype with three sequences, under the keys `author`, `wp:featuredmedia` and `wp:term`. The decoder is synthesized and its arrays are not optional, so the code does not promise that a missing key decodes to an empty array. The model makes no such claim.
- `EmbeddedContent` is not `Encodable`, so there is no encode/decode round trip to state.
- The fields of `Author`, `FeaturedMedia` and `Term` are not part of this model. Of a term, only its taxonomy is modelled.
- `PostsRepository` is not modelled. It wraps `WPClient.init` with endpoint paths and parameter builders that are not part of this model.
