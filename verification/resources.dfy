/** The concrete registry of the movie API: its base URL and resource table. */
module Resources {
  import opened Wrappers
  import opened Strings
  import opened Core

  const BaseUrl: string := "https://64496f86e7eb3378ca499f9e.mockapi.io"

  const Table: map<string, Descriptor> := map[
    "movies" := Descriptor("/movie", Some(["GET", "POST"]), Some(["title", "description", "genre"])),
    "movie" := Descriptor("/movie/{id}", Some(["GET", "PUT", "DELETE"]), None),
    "movie_quotes" := Descriptor("/movie/{id}/quote", Some(["GET", "POST"]), Some(["author", "quote"])),
    "quotes" := Descriptor("/quote", Some(["GET"]), None),
    "quote" := Descriptor("/quote/{id}", Some(["GET", "PUT", "DELETE"]), None)
  ]

  const MovieRegistry: Registry := Registry(BaseUrl, Table)

  /** The registry holds `BASE_URL` and exactly the five resources of the movie API. */
  lemma RegistryContents()
    ensures MovieRegistry.baseUrl == BaseUrl
    ensures MovieRegistry.resources.Keys == {"movies", "movie", "movie_quotes", "quotes", "quote"}
    ensures forall name :: name in Table ==> Table[name].httpMethods.Some? && "GET" in Table[name].httpMethods.value
  {
  }

  /** The path templates of the table, read off the literal. */
  lemma Paths()
    ensures Table["movies"].path == "/movie" && Table["quotes"].path == "/quote"
    ensures Table["movie"].path == "/movie/" + Placeholder
    ensures Table["movie_quotes"].path == "/movie/" + Placeholder + "/quote"
    ensures Table["quote"].path == "/quote/" + Placeholder
  {
  }

  /** The collection paths have no placeholder; the item and nested paths have exactly one. */
  lemma PathPlaceholders()
    ensures Occurrences(Table["movies"].path) == 0
    ensures Occurrences(Table["quotes"].path) == 0
    ensures Occurrences(Table["movie"].path) == 1
    ensures Occurrences(Table["movie_quotes"].path) == 1
    ensures Occurrences(Table["quote"].path) == 1
  {
    Paths();
    NoBraceNoPlaceholder("/movie");
    NoBraceNoPlaceholder("/quote");
    NoBraceNoPlaceholder("/movie/");
    NoBraceNoPlaceholder("/quote/");
    NoBraceNoPlaceholder("");
    OccurrencesSplice("/movie/", "");
    OccurrencesSplice("/movie/", "/quote");
    OccurrencesSplice("/quote/", "");
    assert "/movie/" + Placeholder + "" == "/movie/" + Placeholder;
    assert "/quote/" + Placeholder + "" == "/quote/" + Placeholder;
  }

  /** Exactly "movies" and "movie_quotes" allow POST, and exactly these two declare required fields. */
  lemma PostAndRequiredFields()
    ensures forall name :: name in Table ==>
              ("POST" in Table[name].httpMethods.GetOr([]) <==> name == "movies" || name == "movie_quotes")
    ensures forall name :: name in Table ==>
              (Table[name].requiredFields.Some? <==> name == "movies" || name == "movie_quotes")
  {
  }

  /** "quotes" allows GET only; "movie" and "quote" allow GET, PUT and DELETE but not POST. */
  lemma ItemAndQuoteMethods()
    ensures Table["quotes"].httpMethods == Some(["GET"])
    ensures forall verb :: verb in Table["movie"].httpMethods.GetOr([]) <==> verb in {"GET", "PUT", "DELETE"}
    ensures forall verb :: verb in Table["quote"].httpMethods.GetOr([]) <==> verb in {"GET", "PUT", "DELETE"}
  {
  }

  /** The base URL has no trailing slash and every path starts with one, so joining them yields one separator. */
  lemma SingleSeparator()
    ensures |BaseUrl| > 0 && BaseUrl[|BaseUrl| - 1] != '/'
    ensures forall name :: name in Table ==> |Table[name].path| > 0 && Table[name].path[0] == '/'
  {
  }

  /** On a client of this registry, "quotes" can be listed, but create, update and delete fail the method check. */
  lemma QuotesReadOnly(c: ApiClient, fields: Fields, id: Option<string>)
    requires c.Uses(MovieRegistry)
    ensures c.GetAll("quotes").Success?
    ensures c.Create("quotes", fields, id) == Failure(MethodNotAllowed("POST", "quotes"))
    ensures c.Update("quotes", id, fields) == Failure(MethodNotAllowed("PUT", "quotes"))
    ensures c.Delete("quotes", id) == Failure(MethodNotAllowed("DELETE", "quotes"))
  {
  }

  /** On a client of this registry, "movie" and "quote" can be read, updated and deleted but not created. */
  lemma ItemsNotCreatable(c: ApiClient, name: string, fields: Fields, id: Option<string>)
    requires c.Uses(MovieRegistry) && (name == "movie" || name == "quote")
    ensures c.Create(name, fields, id) == Failure(MethodNotAllowed("POST", name))
    ensures c.GetById(name, id).Success? && c.Update(name, id, fields).Success? && c.Delete(name, id).Success?
  {
  }

  /** Listing a templated resource sends the template literally: the URL still holds `{id}`. */
  lemma GetAllKeepsPlaceholder(c: ApiClient)
    requires c.Uses(MovieRegistry)
    ensures c.GetAll("movie_quotes").Success?
    ensures c.GetAll("movie_quotes").value.url == BaseUrl + "/movie/{id}/quote"
  {
  }

  /** `/movie/{id}` with an id substituted. */
  lemma FormatMoviePath(id: string)
    ensures FormatId(Table["movie"].path, id) == "/movie/" + id
  {
    Paths();
    NoBraceNoPlaceholder("/movie/");
    FormatIdSplice("/movie/", "", id);
    assert "/movie/" + Placeholder + "" == "/movie/" + Placeholder;
  }

  /** `/movie/{id}/quote` with an id substituted. */
  lemma FormatMovieQuotesPath(id: string)
    ensures FormatId(Table["movie_quotes"].path, id) == "/movie/" + id + "/quote"
  {
    Paths();
    NoBraceNoPlaceholder("/movie/");
    NoBraceNoPlaceholder("/quote");
    FormatIdSplice("/movie/", "/quote", id);
  }

  /** `/quote/{id}` with an id substituted. */
  lemma FormatQuotePath(id: string)
    ensures FormatId(Table["quote"].path, id) == "/quote/" + id
  {
    Paths();
    NoBraceNoPlaceholder("/quote/");
    FormatIdSplice("/quote/", "", id);
    assert "/quote/" + Placeholder + "" == "/quote/" + Placeholder;
  }

  /** On a client of this registry, the URL of one movie. */
  lemma MovieUrl(c: ApiClient, id: string)
    ensures c.Uses(MovieRegistry) ==> c.BuildUrl("movie", Some(id)) == Success(c.baseUrl + "/movie/" + id)
  {
    if c.Uses(MovieRegistry) {
      FormatMoviePath(id);
      assert c.resources["movie"] == Table["movie"];
      assert c.baseUrl + "/movie/" + id == c.baseUrl + ("/movie/" + id);
    }
  }

  /** On a client of this registry, the URL of the quotes of one movie. */
  lemma MovieQuotesUrl(c: ApiClient, id: string)
    ensures c.Uses(MovieRegistry) ==> c.BuildUrl("movie_quotes", Some(id)) == Success(c.baseUrl + "/movie/" + id + "/quote")
  {
    if c.Uses(MovieRegistry) {
      FormatMovieQuotesPath(id);
      assert c.resources["movie_quotes"] == Table["movie_quotes"];
      assert c.baseUrl + "/movie/" + id + "/quote" == c.baseUrl + ("/movie/" + id + "/quote");
    }
  }

  /** On a client of this registry, the URL of one quote. */
  lemma QuoteUrl(c: ApiClient, id: string)
    ensures c.Uses(MovieRegistry) ==> c.BuildUrl("quote", Some(id)) == Success(c.baseUrl + "/quote/" + id)
  {
    if c.Uses(MovieRegistry) {
      FormatQuotePath(id);
      assert c.resources["quote"] == Table["quote"];
      assert c.baseUrl + "/quote/" + id == c.baseUrl + ("/quote/" + id);
    }
  }

  /** The validation error for "movies": its three required fields joined by ", ". */
  lemma MoviesMissingFieldsError()
    ensures MissingFields(Table["movies"].requiredFields.value)
              == ValueError("Missing required fields: " + "title" + ", " + "description" + ", " + "genre")
  {
    assert Table["movies"].requiredFields.value == ["title", "description", "genre"];
    MissingFieldsThree("title", "description", "genre");
  }

  /**
   * The validation message names every required field, not only the missing
   * ones: a movie without a genre is reported as missing all three.
   */
  lemma MissingFieldsMessageListsAll(c: ApiClient, title: Value, description: Value)
    requires c.Uses(MovieRegistry)
    ensures c.Create("movies", map["title" := title, "description" := description], None)
              == Failure(ValueError("Missing required fields: " + "title" + ", " + "description" + ", " + "genre"))
  {
    var fields := map["title" := title, "description" := description];
    MoviesMissingFieldsError();
    assert c.resources["movies"] == Table["movies"];
    assert !HasFields(Table["movies"].requiredFields.value, fields) by {
      assert Table["movies"].requiredFields.value[2] == "genre";
    }
  }
}
