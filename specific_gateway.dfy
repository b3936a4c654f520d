/**
 * The generic entity gateway (`ASpecificGateway<E>`): a normalised entity
 * endpoint, the rule that prefixes every operation path with it, and the six
 * CRUD operations built on the base gateway.
 */
module SpecificGateway {
  import opened Wrappers
  import opened JavaText
  import opened Gateway

  /** An entity endpoint as stored: it always starts with "/". */
  type EntityPath = s: string | StartsWith(s, "/") witness "/"

  /** The JSON codec (`Serialization`) specialised to the gateway's entity class; each direction may fail. */
  datatype Codec<!E> = Codec(
    serialize: E -> Option<string>,
    serializeIds: seq<Long> -> Option<string>,
    deserialize: string -> Option<E>,
    deserializeList: string -> Option<seq<E>>)

  /** The endpoint `setEntityEndpoint` stores: trimmed, at most one trailing "/" chopped, "/" prepended when missing. */
  function NormalizeEndpoint(entityEndpoint: string): (r: EntityPath)
    ensures StartsWith(r, "/")
    ensures |r| <= |entityEndpoint| + 1
  {
    var trimmed := Trim(entityEndpoint);
    var chopped := if EndsWith(trimmed, "/") then Chop(trimmed) else trimmed;
    if StartsWith(chopped, "/") then chopped else "/" + chopped
  }

  /** An endpoint is stored unchanged exactly when it starts with "/", has no surrounding blanks, and is "/" or does not end with "/". */
  lemma NormalizeEndpointFixedPoint(x: string)
    ensures NormalizeEndpoint(x) == x <==> StartsWith(x, "/") && Trim(x) == x && (x == "/" || !EndsWith(x, "/"))
  {
    if NormalizeEndpoint(x) == x {
      StableEndpointIsNormal(x);
    } else if x == "/" {
      SlashEndpointStable();
    } else if StartsWith(x, "/") && Trim(x) == x && !EndsWith(x, "/") {
      NormalEndpointIsStable(x);
    }
  }

  lemma NormalEndpointIsStable(x: string)
    requires StartsWith(x, "/") && Trim(x) == x && !EndsWith(x, "/")
    ensures NormalizeEndpoint(x) == x
  {
  }

  lemma SlashEndpointStable()
    ensures NormalizeEndpoint("/") == "/"
  {
  }

  lemma StableEndpointIsNormal(x: string)
    requires NormalizeEndpoint(x) == x
    ensures StartsWith(x, "/") && Trim(x) == x && (x == "/" || !EndsWith(x, "/"))
  {
    assert StartsWith(x, "/");
    TrimKeepsPrefix(x, "/");
    var t := Trim(x);
    if EndsWith(t, "/") {
      var c := Chop(t);
      assert |c| == |t| - 1 && c == t[..|c|];
      if |t| > 1 {
        PrefixSurvivesCut(t, "/", |c|);
      } else {
        assert NormalizeEndpoint(x) == "/";
      }
    } else {
      assert NormalizeEndpoint(x) == t;
    }
  }

  /** A stored endpoint survives another normalisation exactly when it is "/" or ends with neither "/" nor a blank. */
  lemma StoredEndpointStability(y: EntityPath)
    ensures NormalizeEndpoint(y) == y <==> y == "/" || (!EndsWith(y, "/") && !Trimmable(y[|y| - 1]))
  {
    NormalizeEndpointFixedPoint(y);
    TrimKeepsPrefix(y, "/");
  }

  /** A bare name gains a leading "/" and loses only one of its trailing slashes. */
  lemma NormalizeEndpointChopsOneSlash()
    ensures NormalizeEndpoint("a//") == "/a/"
  {
    assert TrimStart("a//") == "a//";
    assert Trim("a//") == "a//";
    assert Chop("a//") == "a/";
  }

  /** A trailing slash after a path is chopped. */
  lemma NormalizeEndpointChopsTrailingSlash()
    ensures NormalizeEndpoint("/a/") == "/a"
  {
    assert TrimStart("/a/") == "/a/";
    assert Trim("/a/") == "/a/";
    assert Chop("/a/") == "/a";
  }

  /** A leading "//" is kept as it is. */
  lemma NormalizeEndpointKeepsDoubleSlash()
    ensures NormalizeEndpoint("//a") == "//a"
  {
    assert TrimStart("//a") == "//a";
    assert Trim("//a") == "//a";
  }

  /** `processEndpoint`: the trimmed path, prefixed with the entity endpoint unless it already starts with it. */
  function ProcessEndpoint(entityEndpoint: string, endpoint: string): (r: string)
    ensures StartsWith(r, entityEndpoint)
    ensures r == Trim(endpoint) <==> StartsWith(Trim(endpoint), entityEndpoint)
    ensures r != Trim(endpoint) ==> r == entityEndpoint + Trim(endpoint)
  {
    var trimmed := Trim(endpoint);
    if StartsWith(trimmed, entityEndpoint) then trimmed else entityEndpoint + trimmed
  }

  /** A sub-path appended to the entity endpoint is passed through unchanged: no double prefix. */
  lemma ProcessEndpointKeepsSubpath(entityEndpoint: EntityPath, sub: string)
    requires sub != [] && !Trimmable(sub[|sub| - 1])
    ensures ProcessEndpoint(entityEndpoint, entityEndpoint + sub) == entityEndpoint + sub
  {
    var path := entityEndpoint + sub;
    assert entityEndpoint[..1] == "/";
    assert path[0] == entityEndpoint[0] == '/';
    assert path[|path| - 1] == sub[|sub| - 1];
    assert Trim(path) == path;
    StartsWithConcat(entityEndpoint, sub);
  }

  /**
   * The path `getAll` uses: the entity endpoint itself, unless it ends with a
   * blank, in which case trimming loses the prefix and it is prepended again.
   */
  lemma ProcessEntityEndpoint(entityEndpoint: EntityPath)
    ensures ProcessEndpoint(entityEndpoint, entityEndpoint)
            == if Trimmable(entityEndpoint[|entityEndpoint| - 1]) then entityEndpoint + Trim(entityEndpoint) else entityEndpoint
  {
    TrimKeepsPrefix(entityEndpoint, "/");
  }

  /** The endpoint "a /" is stored as "/a ", and `getAll` then requests "/a /a". */
  lemma BlankEndpointDoublesGetAllPath()
    ensures NormalizeEndpoint("a /") == "/a "
    ensures ProcessEndpoint("/a ", "/a ") == "/a /a"
  {
    assert Trim("a /") == "a /";
    assert Chop("a /") == "a ";
    assert TrimStart("/a ") == "/a ";
    assert TrimEnd("/a ") == "/a";
  }

  class EntityGateway<E> {
    /** The process-wide host every gateway reads. */
    const host: HostConfig
    /** Stands for the entity class handed to `Serialization`. */
    const codec: Codec<E>
    var entityEndpoint: EntityPath

    constructor (host: HostConfig, codec: Codec<E>, entityEndpoint: string)
      ensures this.host == host && this.codec == codec
      ensures this.entityEndpoint == NormalizeEndpoint(entityEndpoint)
    {
      this.host := host;
      this.codec := codec;
      this.entityEndpoint := "/";
      new;
      SetEntityEndpoint(entityEndpoint);
    }

    /** `setEntityEndpoint`: stores the normalised endpoint. */
    method SetEntityEndpoint(entityEndpoint: string)
      modifies this
      ensures this.entityEndpoint == NormalizeEndpoint(entityEndpoint)
    {
      var e := Trim(entityEndpoint);
      if EndsWith(e, "/") {
        e := Chop(e);
      }
      if !StartsWith(e, "/") {
        e := "/" + e;
      }
      this.entityEndpoint := e;
    }

    /** The overriding `createGetRequest`: the path goes through `processEndpoint` first. */
    method CreateGetRequest(endpoint: string, params: map<string, string>, lib: HttpLibrary)
      returns (r: Result<Request>)
      ensures Built(r, GET, WithHost(host.address, ProcessEndpoint(entityEndpoint, endpoint)), params, NoPayload, lib)
      ensures r.Ok? ==> r.value.body.None?
    {
      r := Gateway.CreateGetRequest(host, ProcessEndpoint(entityEndpoint, endpoint), params, lib);
    }

    /** The overriding `createPostRequest`: the path goes through `processEndpoint` first; parameters and object are passed on. */
    method CreatePostRequest<T>(endpoint: string, params: map<string, string>, obj: T, serialize: T -> Option<string>, lib: HttpLibrary)
      returns (r: Result<Request>)
      ensures Built(r, POST, WithHost(host.address, ProcessEndpoint(entityEndpoint, endpoint)), params,
                    PayloadOf(POST, Some(obj), serialize), lib)
      ensures r.Ok? ==> r.value.body == serialize(obj)
    {
      r := Gateway.CreatePostRequest(host, ProcessEndpoint(entityEndpoint, endpoint), params, obj, serialize, lib);
    }

    /** The overriding `createDeleteRequest`: the path goes through `processEndpoint` first. */
    method CreateDeleteRequest(endpoint: string, params: map<string, string>, lib: HttpLibrary)
      returns (r: Result<Request>)
      ensures Built(r, DELETE, WithHost(host.address, ProcessEndpoint(entityEndpoint, endpoint)), params, NoPayload, lib)
      ensures r.Ok? ==> r.value.body.None?
    {
      r := Gateway.CreateDeleteRequest(host, ProcessEndpoint(entityEndpoint, endpoint), params, lib);
    }

    /**
     * `getAll`: a GET at the entity endpoint (as `processEndpoint` sees it, see
     * `ProcessEntityEndpoint`) with the caller's parameters, decoded as a list. Beside the result, `request` is what was handed to the transport
     * (or the error that stopped it being built).
     */
    method GetAll(params: map<string, string>, lib: HttpLibrary)
      returns (request: Result<Request>, r: Result<seq<E>>)
      ensures Built(request, GET, WithHost(host.address, ProcessEndpoint(entityEndpoint, entityEndpoint)), params, NoPayload, lib)
      ensures request.Err? ==> r == Err(request.error)
      ensures request.Ok? ==> r == ExecuteWithListResponse(lib.execute(request.value), codec.deserializeList)
    {
      request := CreateGetRequest(entityEndpoint, params, lib);
      if request.Err? {
        return request, Err(request.error);
      }
      r := ExecuteWithListResponse(lib.execute(request.value), codec.deserializeList);
    }

    /** `getById`: a GET at the entity endpoint followed by "/" and the id, decoded as one optional object. */
    method GetById(id: Long, params: map<string, string>, lib: HttpLibrary)
      returns (request: Result<Request>, r: Result<Option<E>>)
      ensures Built(request, GET, WithHost(host.address, entityEndpoint + "/" + LongToString(id)), params, NoPayload, lib)
      ensures request.Err? ==> r == Err(request.error)
      ensures request.Ok? ==> r == ExecuteWithObjectResponse(lib.execute(request.value), codec.deserialize)
    {
      var path := entityEndpoint + "/" + LongToString(id);
      assert path == entityEndpoint + ("/" + LongToString(id));
      ProcessEndpointKeepsSubpath(entityEndpoint, "/" + LongToString(id));
      request := CreateGetRequest(path, params, lib);
      if request.Err? {
        return request, Err(request.error);
      }
      r := ExecuteWithObjectResponse(lib.execute(request.value), codec.deserialize);
    }

    /** `getByIds`: a POST at the entity endpoint followed by "/ids", with the id list as the body, decoded as a list. */
    method GetByIds(ids: seq<Long>, params: map<string, string>, lib: HttpLibrary)
      returns (request: Result<Request>, r: Result<seq<E>>)
      ensures Built(request, POST, WithHost(host.address, entityEndpoint + "/ids"), params,
                    PayloadOf(POST, Some(ids), codec.serializeIds), lib)
      ensures request.Err? ==> r == Err(request.error)
      ensures request.Ok? ==> r == ExecuteWithListResponse(lib.execute(request.value), codec.deserializeList)
    {
      ProcessEndpointKeepsSubpath(entityEndpoint, "/ids");
      request := CreatePostRequest(entityEndpoint + "/ids", params, ids, codec.serializeIds, lib);
      if request.Err? {
        return request, Err(request.error);
      }
      r := ExecuteWithListResponse(lib.execute(request.value), codec.deserializeList);
    }

    /** `create`: a POST at the entity endpoint followed by "/create", with the entity as the body and no parameters. */
    method Create(entity: E, lib: HttpLibrary)
      returns (request: Result<Request>, r: Result<Option<E>>)
      ensures Built(request, POST, WithHost(host.address, entityEndpoint + "/create"), map[],
                    PayloadOf(POST, Some(entity), codec.serialize), lib)
      ensures request.Err? ==> r == Err(request.error)
      ensures request.Ok? ==> r == ExecuteWithObjectResponse(lib.execute(request.value), codec.deserialize)
    {
      ProcessEndpointKeepsSubpath(entityEndpoint, "/create");
      request := CreatePostRequest(entityEndpoint + "/create", map[], entity, codec.serialize, lib);
      if request.Err? {
        return request, Err(request.error);
      }
      r := ExecuteWithObjectResponse(lib.execute(request.value), codec.deserialize);
    }

    /** `update`: a POST at the entity endpoint followed by "/update", with the entity as the body and no parameters. */
    method Update(entity: E, lib: HttpLibrary)
      returns (request: Result<Request>, r: Result<Option<E>>)
      ensures Built(request, POST, WithHost(host.address, entityEndpoint + "/update"), map[],
                    PayloadOf(POST, Some(entity), codec.serialize), lib)
      ensures request.Err? ==> r == Err(request.error)
      ensures request.Ok? ==> r == ExecuteWithObjectResponse(lib.execute(request.value), codec.deserialize)
    {
      ProcessEndpointKeepsSubpath(entityEndpoint, "/update");
      request := CreatePostRequest(entityEndpoint + "/update", map[], entity, codec.serialize, lib);
      if request.Err? {
        return request, Err(request.error);
      }
      r := ExecuteWithObjectResponse(lib.execute(request.value), codec.deserialize);
    }

    /**
     * `delete`: a DELETE at the entity endpoint followed by "/delete/" and the id;
     * true exactly when the response decodes to an object, so a 204 gives false.
     */
    method Delete(id: Long, lib: HttpLibrary)
      returns (request: Result<Request>, r: Result<bool>)
      ensures Built(request, DELETE, WithHost(host.address, entityEndpoint + "/delete/" + LongToString(id)), map[], NoPayload, lib)
      ensures request.Err? ==> r == Err(request.error)
      ensures request.Ok? ==>
                var decoded := ExecuteWithObjectResponse(lib.execute(request.value), codec.deserialize);
                r == if decoded.Ok? then Ok(decoded.value.Some?) else Err(decoded.error)
      ensures (request.Ok? && lib.execute(request.value).Responded?
               && lib.execute(request.value).response.status == StatusNoContent) ==> r == Ok(false)
    {
      var path := entityEndpoint + "/delete/" + LongToString(id);
      assert path == entityEndpoint + ("/delete/" + LongToString(id));
      ProcessEndpointKeepsSubpath(entityEndpoint, "/delete/" + LongToString(id));
      request := CreateDeleteRequest(path, map[], lib);
      if request.Err? {
        return request, Err(request.error);
      }
      var decoded := ExecuteWithObjectResponse(lib.execute(request.value), codec.deserialize);
      if decoded.Err? {
        return request, Err(decoded.error);
      }
      r := Ok(decoded.value.Some?);
    }
  }
}
