# mauro-sdk in Dafny

A model of the `mauro_sdk` client library: the generic REST wrapper `APItoSDK`,
the movie API registry it is configured with, and the `MovieSDK` façade that
names each call of the movie API.

- `wrappers.dfy` (module `Wrappers`): `Option`, `Result` and `Outcome`.
- `strings.dfy` (module `Strings`): `str.join` and the `{id}` substitution that
  `_build_url` does with `str.format(id=...)`. The substitution is proved to
  replace every placeholder (`FormatIdJoin`), to leave placeholder-free
  templates alone, and to change the length by `|id| - 4` per placeholder: each
  placeholder's four characters are exchanged for the id.
- `core.dfy` (module `Core`): `APItoSDK` as the class `ApiClient`. Its three
  fields are set once at construction and never changed afterwards, so they
  are `const`. `Init` models `__init__`, which can raise. It resolves the key
  step by step: explicit argument, then environment, then configuration. The
  CRUD operations are functions. Each returns either the `Request` that
  `_send_request` would hand to the transport or the exception raised before
  sending: `ValueError(message)` or `KeyError(key)`.
- `resources.dfy` (module `Resources`): `BASE_URL` and the `RESOURCES` table,
  plus the facts about them. These cover the placeholders per path, which
  resources allow POST, which declare required fields, and the single `/`
  separator.
- `movie_sdk.dfy` (module `MovieSdk`): the façade. Each method is a function
  that takes the client it delegates to. On a client built from the movie
  registry, each is proved to succeed and to yield exactly one request: its
  verb, its URL (`/movie/<id>/quote` and so on) and its body.

The code raises only `ValueError`, plus `KeyError` from a dictionary lookup.
The message for a failed `create` lists all required fields of the resource,
not only the missing ones (`Resources.MissingFieldsMessageListsAll`).

## Model

| member | source | states |
|---|---|---|
| Core.Truthy | src/mauro_sdk/core.py:48-50 | Python truthiness of the key: true iff it is neither `None` nor `""`. |
| Core.HasFields | src/mauro_sdk/core.py:115 | True iff every required field is a key of `fields`; an empty requirement always holds. |
| Core.MethodNotAllowed | src/mauro_sdk/core.py:95-96 | A `ValueError` whose message begins with "HTTP method " and the verb, and ends with the resource name. |
| Core.MissingFields | src/mauro_sdk/core.py:116-117 | A `ValueError` whose message begins with "Missing required fields: " and the first required field. With no required fields, the message is exactly "Missing required fields: ". The full message for "movies" is stated by `Resources.MoviesMissingFieldsError`. |
| Core.MissingFieldsThree | src/mauro_sdk/core.py:116-117 | With three required fields, the message is "Missing required fields: " followed by the three of them in order, separated by ", ". |
| Core.ApiClient.Init | src/mauro_sdk/core.py:45-65 | A truthy explicit key is kept. With no key, a truthy environment key is used. An explicit `""`, or no key and no truthy environment key, falls back to the configured key. If that is falsy too, the result is `ValueError("API key not provided")` and no client is built. A built client has a non-empty key and the given base URL and table. |
| Core.ApiClient.constructor | src/mauro_sdk/core.py:53-65 | The fields are the resolved key and the registry's base URL and resources. |
| Core.ApiClient.Prepare | src/mauro_sdk/core.py:68-72 | The request keeps verb, URL and data as body. The headers hold `Authorization: Bearer <key>`. `Content-Type: application/json` is present iff there is a body. No other header is present. |
| Core.ApiClient.SendRequest | src/mauro_sdk/core.py:68-72 | The header dict is built and then extended in place. The resulting request is `Prepare`'s, so it carries the standard headers and the data as body. |
| Core.ApiClient.BuildUrl | src/mauro_sdk/core.py:77-82 | Succeeds iff the resource is registered, otherwise `KeyError(name)`. The URL is base URL plus path, with the id substituted when one is given. Without an id, or for a path without `{id}`, the URL is base URL plus the literal path. |
| Core.ApiClient.RequiredFields | src/mauro_sdk/core.py:85-86 | `KeyError` iff the resource is unregistered. Otherwise the declared list, or `[]` when the descriptor has none. |
| Core.ApiClient.HttpMethods | src/mauro_sdk/core.py:89-90 | `KeyError` iff the resource is unregistered. Otherwise the declared verbs, or `[]` when the descriptor has none. |
| Core.ApiClient.CheckHttpMethod | src/mauro_sdk/core.py:93-96 | Passes iff the resource is registered and lists the verb. An unregistered name gives `KeyError`. A registered one without the verb gives `ValueError("HTTP method <verb> not allowed for <name>")`. |
| Core.ApiClient.GetAll | src/mauro_sdk/core.py:99-102 | Succeeds iff GET is allowed, with the `KeyError` / method errors otherwise. On success it is a bodiless GET of base URL plus the literal path template. |
| Core.ApiClient.GetById | src/mauro_sdk/core.py:105-108 | Succeeds iff GET is allowed. On success it is a bodiless GET of the URL built with the id. |
| Core.ApiClient.Create | src/mauro_sdk/core.py:112-121 | Succeeds iff POST is allowed and every required field is a key of `fields`. The method check comes first, then validation. A failed validation gives `ValueError("Missing required fields: " + all required fields joined by ", ")`. On success it is a POST to the built URL with `fields` unchanged as the body. |
| Core.ApiClient.Update | src/mauro_sdk/core.py:124-128 | Succeeds iff PUT is allowed, with no field check. On success it is a PUT with `fields` verbatim as the body. |
| Core.ApiClient.Delete | src/mauro_sdk/core.py:131-134 | Succeeds iff DELETE is allowed. On success it is a bodiless DELETE of the URL built with the id. |
| Core.NoMethodsAllowNothing | src/mauro_sdk/core.py:89-96 | A registered resource without `http_methods` rejects every verb with the method-not-allowed error. |
| Core.NoRequiredFieldsAcceptsAny | src/mauro_sdk/core.py:113-120 | A POST-able resource without `required_fields` accepts any fields. |
| Strings.Join | src/mauro_sdk/core.py:117 | `sep.join(items)`: a non-empty join starts with the first item and ends with the last. |
| Strings.JoinSnoc | src/mauro_sdk/core.py:117 | Appending an item to a non-empty list appends the separator and the item to the join. |
| Strings.JoinThree | src/mauro_sdk/core.py:117 | Three items join to the first, separator, second, separator, third. |
| Strings.FormatId | src/mauro_sdk/core.py:80-81 | A template without `{id}` is returned unchanged, whatever the id. |
| Strings.FormatIdLength | src/mauro_sdk/core.py:80-81 | Each `{id}` is exchanged for the id: the length changes by the number of placeholders times (length of id − 4). |
| Strings.NoBraceNoPlaceholder | src/mauro_sdk/core.py:80-81 | Text without `{` holds no placeholder. |
| Strings.OccurrencesSplice | src/mauro_sdk/core.py:80-81 | Splicing `{id}` after placeholder-free text adds exactly one placeholder. |
| Strings.FormatIdSplice | src/mauro_sdk/core.py:80-81 | Formatting a placeholder-free prefix, then `{id}`, then a rest gives the prefix, the id and the formatted rest. |
| Strings.FormatIdJoin | src/mauro_sdk/core.py:80-81 | Every placeholder is replaced: parts joined by `{id}` contain one placeholder fewer than there are parts, and format to the same parts joined by the id. |
| Resources.RegistryContents | src/mauro_sdk/resources.py:1-20 | The movie registry holds `BASE_URL` and exactly the five resources "movies", "movie", "movie_quotes", "quotes" and "quote", each of which allows GET. |
| Resources.Paths | src/mauro_sdk/resources.py:3-19 | The five path templates, written with the placeholder. |
| Resources.PathPlaceholders | src/mauro_sdk/resources.py:4-18 | "movies" and "quotes" paths have no `{id}`. "movie", "movie_quotes" and "quote" have exactly one. |
| Resources.PostAndRequiredFields | src/mauro_sdk/resources.py:2-20 | Exactly "movies" and "movie_quotes" allow POST, and exactly these two declare required fields. |
| Resources.ItemAndQuoteMethods | src/mauro_sdk/resources.py:14-19 | "quotes" allows only GET. "movie" and "quote" allow exactly GET, PUT and DELETE, so not POST. |
| Resources.SingleSeparator | src/mauro_sdk/resources.py:1-19 | `BASE_URL` has no trailing slash and every path starts with `/`. |
| Resources.QuotesReadOnly | src/mauro_sdk/resources.py:14-16 | On the movie registry, "quotes" can be listed. Create, update and delete on it fail with the method-not-allowed error. |
| Resources.ItemsNotCreatable | src/mauro_sdk/resources.py:7-19 | On the movie registry, "movie" and "quote" cannot be created (POST is rejected), but get by id, update and delete succeed. |
| Resources.GetAllKeepsPlaceholder | src/mauro_sdk/core.py:99-102 | Listing "movie_quotes" succeeds, and its URL still contains the literal `{id}`. |
| Resources.FormatMoviePath | src/mauro_sdk/resources.py:8 | `/movie/{id}` formats to `/movie/<id>`. |
| Resources.FormatMovieQuotesPath | src/mauro_sdk/resources.py:11 | `/movie/{id}/quote` formats to `/movie/<id>/quote`. |
| Resources.FormatQuotePath | src/mauro_sdk/resources.py:18 | `/quote/{id}` formats to `/quote/<id>`. |
| Resources.MovieUrl | src/mauro_sdk/resources.py:7-8 | On the movie registry, the "movie" URL for an id is the base URL, `/movie/` and the id. |
| Resources.MovieQuotesUrl | src/mauro_sdk/resources.py:10-11 | On the movie registry, the "movie_quotes" URL for an id is the base URL, `/movie/`, the id and `/quote`. |
| Resources.QuoteUrl | src/mauro_sdk/resources.py:17-18 | On the movie registry, the "quote" URL for an id is the base URL, `/quote/` and the id. |
| Resources.MoviesMissingFieldsError | src/mauro_sdk/resources.py:6 | The validation error for "movies" reads "Missing required fields: title, description, genre". |
| Resources.MissingFieldsMessageListsAll | src/mauro_sdk/core.py:114-117 | Creating a movie with only title and description fails with a message that names all three required fields, including the two that were given. |
| MovieSdk.MovieFields | src/mauro_sdk/movie_sdk.py:70-72 | The movie body has exactly the keys title, description and genre, with the given values. |
| MovieSdk.QuoteFields | src/mauro_sdk/movie_sdk.py:91-92 | The quote body has exactly the keys author and quote, with the given values. |
| MovieSdk.CreateMovie | src/mauro_sdk/movie_sdk.py:58-61 | On the movie registry, validation never fails: the result is a POST to `/movie` with the three fields as the body. |
| MovieSdk.GetAllMovies | src/mauro_sdk/movie_sdk.py:63-64 | On the movie registry, a bodiless GET of `/movie`. |
| MovieSdk.GetMovieById | src/mauro_sdk/movie_sdk.py:66-67 | On the movie registry, a bodiless GET of `/movie/<id>`. |
| MovieSdk.UpdateMovie | src/mauro_sdk/movie_sdk.py:69-72 | Any successful result carries all three keys with the given values (`Null` for an omitted argument). On the movie registry it succeeds, as a PUT to `/movie/<id>`. |
| MovieSdk.DeleteMovie | src/mauro_sdk/movie_sdk.py:74-75 | On the movie registry, a bodiless DELETE of `/movie/<id>`. |
| MovieSdk.GetQuotesByMovieId | src/mauro_sdk/movie_sdk.py:77-78 | On the movie registry, a bodiless GET of `/movie/<id>/quote`. |
| MovieSdk.CreateQuote | src/mauro_sdk/movie_sdk.py:80-82 | On the movie registry, validation never fails: the result is a POST to `/movie/<id>/quote` with author and quote as the body. |
| MovieSdk.GetAllQuotes | src/mauro_sdk/movie_sdk.py:97-98 | On the movie registry, a bodiless GET of `/quote`. |
| MovieSdk.GetQuoteById | src/mauro_sdk/movie_sdk.py:87-88 | On the movie registry, a bodiless GET of `/quote/<id>`. |
| MovieSdk.UpdateQuote | src/mauro_sdk/movie_sdk.py:90-92 | Any successful result carries both keys with the given values (`Null` for an omitted argument). On the movie registry it succeeds, as a PUT to `/quote/<id>`. |
| MovieSdk.DeleteQuote | src/mauro_sdk/movie_sdk.py:94-95 | On the movie registry, a bodiless DELETE of `/quote/<id>`. |

The URL stated for each façade call is relative to `c.baseUrl`. On the movie
registry that is `Resources.BaseUrl`.

## Left out

- The HTTP transport (`requests.request`, `raise_for_status`, `response.json()`) and the errors it raises. An operation ends with the `Request` it would send, and responses are not modelled.
- The process environment and the `config` module: `os.environ.get("API_KEY")` and `config.API_KEY` are parameters of `Init`.
- General `str.format`: only the `{id}` placeholder is modelled. Other replacement fields, doubled or stray braces and format specs are not. None occur in the resource table.
- Ids are modelled by their string form, as the formatting would render them. A `None` id to `get_by_id`, `update` or `delete` is modelled as `Option.None` (the literal template is used). The façade takes ids as strings.
- `Init`: the `resources=None` default makes `__init__` fail with an `AttributeError` at core.py:59, so `MovieSDK(api_key)` as written cannot construct a client. The model always takes a registry, and that failure is not modelled.
- A descriptor without a `path` key is not modelled: every `Descriptor` has a path, and such a descriptor would raise `KeyError` in `_build_url`.
- `fields=None` for `create` and `update` is not modelled: `Fields` is always a dictionary.
- JSON values are limited to `null` and strings. No other value kinds are modelled, since the client passes bodies through untouched.
- The order of keys in header and body dictionaries is not modelled: they are Dafny maps.
- `get_all_quotes` is defined twice in movie_sdk.py with the same body. It is modelled once.
- `MovieSDK`'s default arguments (`title=None` and so on) are passed explicitly, as `Null`.
- `MovieSDK` subclasses `APItoSDK`. The model uses composition instead: each façade function takes the client it delegates to.
