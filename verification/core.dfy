/**
 * The generic REST client `APItoSDK`: credential resolution, registry lookup,
 * method authorisation, required-field validation, URL construction and the
 * request that is handed to the transport. Sending is left abstract: every
 * CRUD operation yields the `Request` it would send, or the error it would
 * raise before sending anything.
 */
module Core {
  import opened Wrappers
  import opened Strings

  /** A JSON value supplied by a caller; the client passes it through untouched. */
  datatype Value = Null | Str(text: string)

  /** A request payload: field name to value. */
  type Fields = map<string, Value>

  /**
   * One entry of the resource table. `http_methods` and `required_fields` are
   * optional keys of the source's descriptor dictionaries.
   */
  datatype Descriptor = Descriptor(
    path: string,
    httpMethods: Option<seq<string>>,
    requiredFields: Option<seq<string>>)

  /** The base URL and the resource table the client is configured with. */
  datatype Registry = Registry(baseUrl: string, resources: map<string, Descriptor>)

  /** What is handed to the transport: verb, URL, headers and optional JSON body. */
  datatype Request = Request(
    verb: string,
    url: string,
    headers: map<string, string>,
    body: Option<Fields>)

  /** The two exceptions the client raises. */
  datatype Error = ValueError(message: string) | KeyError(key: string)

  const ApiKeyMissing: Error := ValueError("API key not provided")

  /** The error `_check_http_method` raises: it names the verb first and the resource last. */
  function MethodNotAllowed(verb: string, name: string): (r: Error)
    ensures r.ValueError?
    ensures "HTTP method " + verb <= r.message
    ensures |name| <= |r.message| && r.message[|r.message| - |name|..] == name
  {
    ValueError("HTTP method " + verb + " not allowed for " + name)
  }

  /** The error `create` raises: it lists the required fields, first one first. */
  function MissingFields(required: seq<string>): (r: Error)
    ensures r.ValueError?
    ensures |required| == 0 ==> r.message == "Missing required fields: "
    ensures |required| > 0 ==> "Missing required fields: " + required[0] <= r.message
  {
    ValueError("Missing required fields: " + Join(required, ", "))
  }

  /** The message for three required fields lists them in order, separated by ", ". */
  lemma MissingFieldsThree(a: string, b: string, c: string)
    ensures MissingFields([a, b, c]) == ValueError("Missing required fields: " + a + ", " + b + ", " + c)
  {
    JoinThree(a, b, c, ", ");
  }

  /** Python truthiness of an optional string: neither `None` nor `""`. */
  function Truthy(v: Option<string>): (b: bool)
    ensures b <==> v != None && v != Some("")
  {
    v.Some? && v.value != ""
  }

  /** Every required field is a key of `fields`. */
  function HasFields(required: seq<string>, fields: Fields): (b: bool)
    ensures b <==> forall f :: f in required ==> f in fields
    ensures |required| == 0 ==> b
  {
    forall i :: 0 <= i < |required| ==> required[i] in fields
  }

  class ApiClient {
    const apiKey: string
    const baseUrl: string
    const resources: map<string, Descriptor>

    constructor (apiKey: string, registry: Registry)
      ensures this.apiKey == apiKey && Uses(registry)
    {
      this.apiKey := apiKey;
      baseUrl := registry.baseUrl;
      resources := registry.resources;
    }

    /** The client was built from `registry`. */
    predicate Uses(registry: Registry)
    {
      baseUrl == registry.baseUrl && resources == registry.resources
    }

    /**
     * `APItoSDK(api_key, resources)`, with the environment variable `API_KEY`
     * and the configured `config.API_KEY` passed in as values. The key is
     * resolved explicit argument first, then environment, then configuration.
     */
    static method Init(apiKey: Option<string>, envApiKey: Option<string>, configApiKey: Option<string>,
                       registry: Registry)
      returns (r: Result<ApiClient, Error>)
      ensures Truthy(apiKey) ==> r.Success? && r.value.apiKey == apiKey.value
      ensures apiKey.None? && Truthy(envApiKey) ==> r.Success? && r.value.apiKey == envApiKey.value
      ensures apiKey == Some("") || (apiKey.None? && !Truthy(envApiKey)) ==>
                if Truthy(configApiKey) then r.Success? && r.value.apiKey == configApiKey.value
                else r == Failure(ApiKeyMissing)
      ensures r.Success? ==> r.value.apiKey != "" && r.value.Uses(registry)
    {
      var key := apiKey;
      if key.None? {
        key := envApiKey;
      }
      if !Truthy(key) {
        key := configApiKey;
      }
      if !Truthy(key) {
        return Failure(ApiKeyMissing);
      }
      var client := new ApiClient(key.value, registry);
      r := Success(client);
    }

    /** The verb is allowed for a registered resource. */
    predicate Allows(name: string, verb: string)
    {
      name in resources && verb in resources[name].httpMethods.GetOr([])
    }

    /** Headers `_send_request` attaches: the bearer token, and a JSON content type iff there is a body. */
    predicate HasStandardHeaders(req: Request)
    {
      && req.headers.Keys <= {"Authorization", "Content-Type"}
      && "Authorization" in req.headers
      && req.headers["Authorization"] == "Bearer " + apiKey
      && ("Content-Type" in req.headers <==> req.body.Some?)
      && ("Content-Type" in req.headers ==> req.headers["Content-Type"] == "application/json")
    }

    /** `_send_request` up to the transport: the request it hands over. */
    function Prepare(verb: string, url: string, data: Option<Fields>): (r: Request)
      ensures r.verb == verb && r.url == url && r.body == data
      ensures HasStandardHeaders(r)
    {
      var headers := map["Authorization" := "Bearer " + apiKey];
      var headers := if data.Some? then headers["Content-Type" := "application/json"] else headers;
      Request(verb, url, headers, data)
    }

    /** `_send_request` as written: the header dict is built, then extended in place when there is a body. */
    method SendRequest(verb: string, url: string, data: Option<Fields>) returns (r: Request)
      ensures r == Prepare(verb, url, data)
      ensures r.body == data && HasStandardHeaders(r)
    {
      var headers := map["Authorization" := "Bearer " + apiKey];
      if data.Some? {
        headers := headers["Content-Type" := "application/json"];
      }
      r := Request(verb, url, headers, data);
    }

    /** `_build_url`: the base URL followed by the path, with the id substituted when one is given. */
    function BuildUrl(name: string, id: Option<string>): (r: Result<string, Error>)
      ensures r.Success? <==> name in resources
      ensures r.Failure? ==> r.error == KeyError(name)
      ensures r.Success? && id.None? ==> r.value == baseUrl + resources[name].path
      ensures r.Success? && Occurrences(resources[name].path) == 0 ==> r.value == baseUrl + resources[name].path
      ensures r.Success? && id.Some? ==> r.value == baseUrl + FormatId(resources[name].path, id.value)
    {
      if name !in resources then Failure(KeyError(name))
      else
        var path := resources[name].path;
        var path := if id.Some? then FormatId(path, id.value) else path;
        Success(baseUrl + path)
    }

    /** `_get_required_fields`: a registered resource's required fields, none when the key is absent. */
    function RequiredFields(name: string): (r: Result<seq<string>, Error>)
      ensures r.Success? <==> name in resources
      ensures r.Failure? ==> r.error == KeyError(name)
      ensures r.Success? && resources[name].requiredFields.None? ==> r.value == []
      ensures r.Success? && resources[name].requiredFields.Some? ==> r.value == resources[name].requiredFields.value
    {
      if name !in resources then Failure(KeyError(name))
      else Success(resources[name].requiredFields.GetOr([]))
    }

    /** `_get_http_methods`: a registered resource's allowed verbs, none when the key is absent. */
    function HttpMethods(name: string): (r: Result<seq<string>, Error>)
      ensures r.Success? <==> name in resources
      ensures r.Failure? ==> r.error == KeyError(name)
      ensures r.Success? && resources[name].httpMethods.None? ==> r.value == []
      ensures r.Success? && resources[name].httpMethods.Some? ==> r.value == resources[name].httpMethods.value
    {
      if name !in resources then Failure(KeyError(name))
      else Success(resources[name].httpMethods.GetOr([]))
    }

    /** `_check_http_method`: passes iff the resource is registered and allows the verb. */
    function CheckHttpMethod(name: string, verb: string): (r: Outcome<Error>)
      ensures r.Pass? <==> Allows(name, verb)
      ensures name !in resources ==> r == Fail(KeyError(name))
      ensures name in resources && !Allows(name, verb) ==> r == Fail(MethodNotAllowed(verb, name))
    {
      match HttpMethods(name)
      case Failure(e) => Fail(e)
      case Success(methods) => if verb in methods then Pass else Fail(MethodNotAllowed(verb, name))
    }

    /** `get_all`: a GET to the literal path template, without a body. */
    function GetAll(name: string): (r: Result<Request, Error>)
      ensures r.Success? <==> Allows(name, "GET")
      ensures name !in resources ==> r == Failure(KeyError(name))
      ensures name in resources && !Allows(name, "GET") ==> r == Failure(MethodNotAllowed("GET", name))
      ensures r.Success? ==> r == Success(Prepare("GET", baseUrl + resources[name].path, None))
    {
      match CheckHttpMethod(name, "GET")
      case Fail(e) => Failure(e)
      case Pass =>
        match BuildUrl(name, None)
        case Failure(e) => Failure(e)
        case Success(url) => Success(Prepare("GET", url, None))
    }

    /** `get_by_id`: a GET to the URL built with the id, without a body. */
    function GetById(name: string, id: Option<string>): (r: Result<Request, Error>)
      ensures r.Success? <==> Allows(name, "GET")
      ensures name !in resources ==> r == Failure(KeyError(name))
      ensures name in resources && !Allows(name, "GET") ==> r == Failure(MethodNotAllowed("GET", name))
      ensures r.Success? ==> r == Success(Prepare("GET", BuildUrl(name, id).value, None))
    {
      match CheckHttpMethod(name, "GET")
      case Fail(e) => Failure(e)
      case Pass =>
        match BuildUrl(name, id)
        case Failure(e) => Failure(e)
        case Success(url) => Success(Prepare("GET", url, None))
    }

    /**
     * `create`: after the method check, every required field must be a key of
     * `fields`; the message then names all required fields. On success the
     * fields are the body, unchanged, extra keys included.
     */
    function Create(name: string, fields: Fields, id: Option<string>): (r: Result<Request, Error>)
      ensures r.Success? <==> Allows(name, "POST") && HasFields(resources[name].requiredFields.GetOr([]), fields)
      ensures name !in resources ==> r == Failure(KeyError(name))
      ensures name in resources && !Allows(name, "POST") ==> r == Failure(MethodNotAllowed("POST", name))
      ensures Allows(name, "POST") && !HasFields(resources[name].requiredFields.GetOr([]), fields) ==>
                r == Failure(MissingFields(resources[name].requiredFields.value))
      ensures r.Success? ==> r == Success(Prepare("POST", BuildUrl(name, id).value, Some(fields)))
    {
      match CheckHttpMethod(name, "POST")
      case Fail(e) => Failure(e)
      case Pass =>
        match RequiredFields(name)
        case Failure(e) => Failure(e)
        case Success(required) =>
          if !HasFields(required, fields) then Failure(MissingFields(required))
          else
            match BuildUrl(name, id)
            case Failure(e) => Failure(e)
            case Success(url) => Success(Prepare("POST", url, Some(fields)))
    }

    /** `update`: a PUT with the fields verbatim as body; no required-field check. */
    function Update(name: string, id: Option<string>, fields: Fields): (r: Result<Request, Error>)
      ensures r.Success? <==> Allows(name, "PUT")
      ensures name !in resources ==> r == Failure(KeyError(name))
      ensures name in resources && !Allows(name, "PUT") ==> r == Failure(MethodNotAllowed("PUT", name))
      ensures r.Success? ==> r == Success(Prepare("PUT", BuildUrl(name, id).value, Some(fields)))
    {
      match CheckHttpMethod(name, "PUT")
      case Fail(e) => Failure(e)
      case Pass =>
        match BuildUrl(name, id)
        case Failure(e) => Failure(e)
        case Success(url) => Success(Prepare("PUT", url, Some(fields)))
    }

    /** `delete`: a DELETE to the URL built with the id, without a body. */
    function Delete(name: string, id: Option<string>): (r: Result<Request, Error>)
      ensures r.Success? <==> Allows(name, "DELETE")
      ensures name !in resources ==> r == Failure(KeyError(name))
      ensures name in resources && !Allows(name, "DELETE") ==> r == Failure(MethodNotAllowed("DELETE", name))
      ensures r.Success? ==> r == Success(Prepare("DELETE", BuildUrl(name, id).value, None))
    {
      match CheckHttpMethod(name, "DELETE")
      case Fail(e) => Failure(e)
      case Pass =>
        match BuildUrl(name, id)
        case Failure(e) => Failure(e)
        case Success(url) => Success(Prepare("DELETE", url, None))
    }
  }

  /** A registered resource without `http_methods` rejects every verb. */
  lemma NoMethodsAllowNothing(c: ApiClient, name: string, verb: string)
    requires name in c.resources && c.resources[name].httpMethods.None?
    ensures c.CheckHttpMethod(name, verb) == Fail(MethodNotAllowed(verb, name))
  {
  }

  /** A registered resource without `required_fields` passes validation with any fields. */
  lemma NoRequiredFieldsAcceptsAny(c: ApiClient, name: string, fields: Fields, id: Option<string>)
    requires c.Allows(name, "POST") && c.resources[name].requiredFields.None?
    ensures c.Create(name, fields, id).Success?
  {
  }
}
