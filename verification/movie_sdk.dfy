/**
 * `MovieSDK`: domain-named calls into the generic client with a fixed resource
 * name and a fixed field dictionary. The subclass is modelled by composition:
 * each call takes the client it delegates to. On a client built from the movie
 * registry (so that `c.baseUrl` is `BaseUrl`) every call passes the method
 * check and, for creation, validation, and yields exactly the request
 * `_send_request` would send.
 */
module MovieSdk {
  import opened Wrappers
  import opened Core
  import opened Resources

  /** The body of a movie: all three keys, whatever their values (`Null` for an omitted argument). */
  function MovieFields(title: Value, description: Value, genre: Value): (f: Fields)
    ensures f.Keys == {"title", "description", "genre"}
    ensures f["title"] == title && f["description"] == description && f["genre"] == genre
  {
    map["title" := title, "description" := description, "genre" := genre]
  }

  /** The body of a quote: both keys, whatever their values (`Null` for an omitted argument). */
  function QuoteFields(author: Value, quote: Value): (f: Fields)
    ensures f.Keys == {"author", "quote"}
    ensures f["author"] == author && f["quote"] == quote
  {
    map["author" := author, "quote" := quote]
  }

  /** `create_movie`: a POST of the three movie fields to /movie, which always passes validation. */
  function CreateMovie(c: ApiClient, title: Value, description: Value, genre: Value): (r: Result<Request, Error>)
    ensures c.Uses(MovieRegistry) ==>
              r == Success(c.Prepare("POST", c.baseUrl + "/movie", Some(MovieFields(title, description, genre))))
  {
    c.Create("movies", MovieFields(title, description, genre), None)
  }

  /** `get_all_movies`: a GET of /movie. */
  function GetAllMovies(c: ApiClient): (r: Result<Request, Error>)
    ensures c.Uses(MovieRegistry) ==> r == Success(c.Prepare("GET", c.baseUrl + "/movie", None))
  {
    c.GetAll("movies")
  }

  /** `get_movie_by_id`: a GET of /movie/<id>. */
  function GetMovieById(c: ApiClient, id: string): (r: Result<Request, Error>)
    ensures c.Uses(MovieRegistry) ==> r == Success(c.Prepare("GET", c.baseUrl + "/movie/" + id, None))
  {
    MovieUrl(c, id);
    c.GetById("movie", Some(id))
  }

  /** `update_movie`: a PUT to /movie/<id> that always carries all three keys. */
  function UpdateMovie(c: ApiClient, id: string, title: Value, description: Value, genre: Value)
    : (r: Result<Request, Error>)
    ensures c.Uses(MovieRegistry) ==> r.Success?
    ensures r.Success? ==> && r.value.body.Some?
                           && r.value.body.value.Keys == {"title", "description", "genre"}
                           && r.value.body.value["title"] == title
                           && r.value.body.value["description"] == description
                           && r.value.body.value["genre"] == genre
    ensures c.Uses(MovieRegistry) ==>
              r == Success(c.Prepare("PUT", c.baseUrl + "/movie/" + id, Some(MovieFields(title, description, genre))))
  {
    MovieUrl(c, id);
    c.Update("movie", Some(id), MovieFields(title, description, genre))
  }

  /** `delete_movie`: a DELETE of /movie/<id>. */
  function DeleteMovie(c: ApiClient, id: string): (r: Result<Request, Error>)
    ensures c.Uses(MovieRegistry) ==> r == Success(c.Prepare("DELETE", c.baseUrl + "/movie/" + id, None))
  {
    MovieUrl(c, id);
    c.Delete("movie", Some(id))
  }

  /** `get_quotes_by_movie_id`: a GET of /movie/<id>/quote. */
  function GetQuotesByMovieId(c: ApiClient, id: string): (r: Result<Request, Error>)
    ensures c.Uses(MovieRegistry) ==> r == Success(c.Prepare("GET", c.baseUrl + "/movie/" + id + "/quote", None))
  {
    MovieQuotesUrl(c, id);
    c.GetById("movie_quotes", Some(id))
  }

  /** `create_quote`: a POST of author and quote to /movie/<id>/quote, which always passes validation. */
  function CreateQuote(c: ApiClient, id: string, author: Value, quote: Value): (r: Result<Request, Error>)
    ensures c.Uses(MovieRegistry) ==>
              r == Success(c.Prepare("POST", c.baseUrl + "/movie/" + id + "/quote", Some(QuoteFields(author, quote))))
  {
    MovieQuotesUrl(c, id);
    c.Create("movie_quotes", QuoteFields(author, quote), Some(id))
  }

  /** `get_all_quotes`: a GET of /quote. */
  function GetAllQuotes(c: ApiClient): (r: Result<Request, Error>)
    ensures c.Uses(MovieRegistry) ==> r == Success(c.Prepare("GET", c.baseUrl + "/quote", None))
  {
    c.GetAll("quotes")
  }

  /** `get_quote_by_id`: a GET of /quote/<id>. */
  function GetQuoteById(c: ApiClient, id: string): (r: Result<Request, Error>)
    ensures c.Uses(MovieRegistry) ==> r == Success(c.Prepare("GET", c.baseUrl + "/quote/" + id, None))
  {
    QuoteUrl(c, id);
    c.GetById("quote", Some(id))
  }

  /** `update_quote`: a PUT to /quote/<id> that always carries both keys. */
  function UpdateQuote(c: ApiClient, id: string, author: Value, quote: Value): (r: Result<Request, Error>)
    ensures c.Uses(MovieRegistry) ==> r.Success?
    ensures r.Success? ==> && r.value.body.Some?
                           && r.value.body.value.Keys == {"author", "quote"}
                           && r.value.body.value["author"] == author
                           && r.value.body.value["quote"] == quote
    ensures c.Uses(MovieRegistry) ==>
              r == Success(c.Prepare("PUT", c.baseUrl + "/quote/" + id, Some(QuoteFields(author, quote))))
  {
    QuoteUrl(c, id);
    c.Update("quote", Some(id), QuoteFields(author, quote))
  }

  /** `delete_quote`: a DELETE of /quote/<id>. */
  function DeleteQuote(c: ApiClient, id: string): (r: Result<Request, Error>)
    ensures c.Uses(MovieRegistry) ==> r == Success(c.Prepare("DELETE", c.baseUrl + "/quote/" + id, None))
  {
    QuoteUrl(c, id);
    c.Delete("quote", Some(id))
  }
}
