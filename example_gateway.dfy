/**
 * `SomeExampleGateway`: the entity gateway for `SomeExample` at "/someexample",
 * its lazily created shared instance, its own endpoint setter, and the
 * operations that filter by an optional time window.
 */
module ExampleGateway {
  import opened Wrappers
  import opened JavaText
  import opened Gateway
  import opened SpecificGateway

  /** The entity the gateway serves; its fields belong to the entity package and are never inspected here. */
  type SomeExample(==)

  const DefaultEndpoint: EntityPath := "/someexample"

  /** The protected constructor: an entity gateway at "/someexample". */
  method NewExampleGateway(host: HostConfig, codec: Codec<SomeExample>) returns (g: EntityGateway<SomeExample>)
    ensures fresh(g) && g.host == host && g.codec == codec
    ensures g.entityEndpoint == DefaultEndpoint
  {
    assert Trim(DefaultEndpoint) == DefaultEndpoint;
    g := new EntityGateway(host, codec, DefaultEndpoint);
  }

  /** The static `instance` field and `getInstance`. */
  class ExampleGatewayInstance {
    var instance: EntityGateway?<SomeExample>
    const host: HostConfig
    const codec: Codec<SomeExample>

    constructor (host: HostConfig, codec: Codec<SomeExample>)
      ensures instance == null && this.host == host && this.codec == codec
    {
      instance := null;
      this.host := host;
      this.codec := codec;
    }

    /** The first call creates the gateway; every later call returns that same object. */
    method GetInstance() returns (g: EntityGateway<SomeExample>)
      modifies this
      ensures instance == g
      ensures old(instance) != null ==> g == old(instance)
      ensures old(instance) == null ==> fresh(g) && g.host == host && g.codec == codec && g.entityEndpoint == DefaultEndpoint
    {
      if instance == null {
        instance := NewExampleGateway(host, codec);
      }
      g := instance;
    }
  }

  /** `setEndpoint`: normalises once itself, then `setEntityEndpoint` normalises again. */
  method SetEndpoint(g: EntityGateway<SomeExample>, endpoint: string)
    modifies g
    ensures g.entityEndpoint == NormalizeEndpoint(NormalizeEndpoint(endpoint))
  {
    var e := Trim(endpoint);
    if EndsWith(e, "/") {
      e := Chop(e);
    }
    if !StartsWith(e, "/") {
      e := "/" + e;
    }
    g.SetEntityEndpoint(e);
  }

  /** The double normalisation chops a second slash that a single `setEntityEndpoint` keeps. */
  lemma SetEndpointChopsTwice()
    ensures NormalizeEndpoint(NormalizeEndpoint("a//")) == "/a"
    ensures NormalizeEndpoint("a//") == "/a/"
  {
    NormalizeEndpointChopsOneSlash();
    NormalizeEndpointChopsTrailingSlash();
  }

  /**
   * The query of the time-window operations: "startInstant" and "endInstant"
   * are present exactly when the instant is, each as decimal epoch milliseconds.
   */
  function InstantParameters(startInstant: Option<Long>, endInstant: Option<Long>): (m: map<string, string>)
    ensures "startInstant" in m <==> startInstant.Some?
    ensures "endInstant" in m <==> endInstant.Some?
    ensures startInstant.Some? ==> m["startInstant"] == LongToString(startInstant.value)
    ensures endInstant.Some? ==> m["endInstant"] == LongToString(endInstant.value)
    ensures m.Keys <= {"startInstant", "endInstant"}
  {
    var withStart := if startInstant.Some? then map["startInstant" := LongToString(startInstant.value)] else map[];
    if endInstant.Some? then withStart["endInstant" := LongToString(endInstant.value)] else withStart
  }

  /** Neither instant: no parameters at all. */
  lemma NoInstantsNoParameters()
    ensures InstantParameters(None, None) == map[]
  {
  }

  /** The `HashMap` filled by conditional `put`s, as each of the three operations does. */
  method InstantQuery(startInstant: Option<Long>, endInstant: Option<Long>) returns (query: map<string, string>)
    ensures query == InstantParameters(startInstant, endInstant)
  {
    query := map[];
    if startInstant.Some? {
      query := query["startInstant" := LongToString(startInstant.value)];
    }
    if endInstant.Some? {
      query := query["endInstant" := LongToString(endInstant.value)];
    }
  }

  /** `getAll(Instant, Instant)`: `getAll` with the time-window query. */
  method GetAllBetween(g: EntityGateway<SomeExample>, startInstant: Option<Long>, endInstant: Option<Long>, lib: HttpLibrary)
    returns (request: Result<Request>, r: Result<seq<SomeExample>>)
    ensures Built(request, GET, WithHost(g.host.address, ProcessEndpoint(g.entityEndpoint, g.entityEndpoint)),
                  InstantParameters(startInstant, endInstant), NoPayload, lib)
    ensures request.Err? ==> r == Err(request.error)
    ensures request.Ok? ==> r == ExecuteWithListResponse(lib.execute(request.value), g.codec.deserializeList)
  {
    var query := InstantQuery(startInstant, endInstant);
    request, r := g.GetAll(query, lib);
  }

  /** With the default endpoint the special paths are "/someexample/special" and "/someexample/specialpost". */
  lemma DefaultSpecialPaths()
    ensures ProcessEndpoint(DefaultEndpoint, "/special") == "/someexample/special"
    ensures ProcessEndpoint(DefaultEndpoint, "/specialpost") == "/someexample/specialpost"
  {
    DefaultSpecialPath();
    DefaultSpecialPostPath();
  }

  lemma DefaultSpecialPath()
    ensures ProcessEndpoint(DefaultEndpoint, "/special") == "/someexample/special"
  {
    assert Trim("/special") == "/special";
    assert !StartsWith("/special", DefaultEndpoint);
  }

  lemma DefaultSpecialPostPath()
    ensures ProcessEndpoint(DefaultEndpoint, "/specialpost") == "/someexample/specialpost"
  {
    var p := "/specialpost";
    assert Trim(p) == p;
    assert p[..|DefaultEndpoint|][2] != DefaultEndpoint[2];
    assert !StartsWith(p, DefaultEndpoint);
  }

  /** `getSpecial`: a GET at "/special" under the entity endpoint with the time-window query, decoded as a list. */
  method GetSpecial(g: EntityGateway<SomeExample>, startInstant: Option<Long>, endInstant: Option<Long>, lib: HttpLibrary)
    returns (request: Result<Request>, r: Result<seq<SomeExample>>)
    ensures Built(request, GET, WithHost(g.host.address, ProcessEndpoint(g.entityEndpoint, "/special")),
                  InstantParameters(startInstant, endInstant), NoPayload, lib)
    ensures g.entityEndpoint == DefaultEndpoint ==>
              Built(request, GET, WithHost(g.host.address, "/someexample/special"), InstantParameters(startInstant, endInstant), NoPayload, lib)
    ensures request.Err? ==> r == Err(request.error)
    ensures request.Ok? ==> r == ExecuteWithListResponse(lib.execute(request.value), g.codec.deserializeList)
  {
    DefaultSpecialPaths();
    var query := InstantQuery(startInstant, endInstant);
    request := g.CreateGetRequest("/special", query, lib);
    if request.Err? {
      return request, Err(request.error);
    }
    r := ExecuteWithListResponse(lib.execute(request.value), g.codec.deserializeList);
  }

  /** `postSpecial`: a POST at "/specialpost" under the entity endpoint with `example` as the body, decoded as one object. */
  method PostSpecial(g: EntityGateway<SomeExample>, example: SomeExample, startInstant: Option<Long>, endInstant: Option<Long>, lib: HttpLibrary)
    returns (request: Result<Request>, r: Result<Option<SomeExample>>)
    ensures Built(request, POST, WithHost(g.host.address, ProcessEndpoint(g.entityEndpoint, "/specialpost")),
                  InstantParameters(startInstant, endInstant), PayloadOf(POST, Some(example), g.codec.serialize), lib)
    ensures g.entityEndpoint == DefaultEndpoint ==>
              Built(request, POST, WithHost(g.host.address, "/someexample/specialpost"),
                    InstantParameters(startInstant, endInstant), PayloadOf(POST, Some(example), g.codec.serialize), lib)
    ensures request.Err? ==> r == Err(request.error)
    ensures request.Ok? ==> r == ExecuteWithObjectResponse(lib.execute(request.value), g.codec.deserialize)
  {
    DefaultSpecialPaths();
    var query := InstantQuery(startInstant, endInstant);
    request := g.CreatePostRequest("/specialpost", query, example, g.codec.serialize, lib);
    if request.Err? {
      return request, Err(request.error);
    }
    r := ExecuteWithObjectResponse(lib.execute(request.value), g.codec.deserialize);
  }
}
