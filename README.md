# HTTP client template: gateway core in Dafny

This project models the gateway layer of a small Java HTTP client template. The gateway layer has three parts:

- **`AGateway`** holds the process-wide host address. It builds GET, POST and DELETE requests: it prefixes the host, adds the query parameters, and attaches the JSON body. It also classifies and decodes the server's responses.
- **`ASpecificGateway<E>`** is a gateway for one entity type. It stores a normalised entity endpoint and prefixes every operation path with it. It offers six CRUD operations: `getAll`, `getById`, `getByIds`, `create`, `update` and `delete`.
- **`SomeExampleGateway`** is the concrete gateway for `SomeExample` at `/someexample`. It adds:
  - a lazily created shared instance;
  - its own endpoint setter;
  - three operations filtered by an optional time window.

Files:

- `wrappers.dfy` holds `Option`.
- `java_text.dfy` holds the Java and commons-lang string operations the gateways rely on. These are given exact semantics:
  - `String.trim` strips every character `<= ' '`;
  - `String.isBlank` uses `Character.isWhitespace`, which is a different set;
  - `StringUtils.chop` removes a final `"\r\n"` as one unit;
  - `startsWith` and `endsWith` behave as in Java;
  - `String.valueOf(long)` is decimal text. It is proved to parse back to the same number.
- `gateway.dfy` models `AGateway`:
  - The static host is the class `HostConfig`.
  - `createURI`'s `forEach` over the parameter map is a loop that takes the keys in an unspecified order. It is proved to add every entry exactly once.
  - The request builder's outcome is stated exactly by the predicate `Built`. The errors come in the source's order: builder initialisation, then URI build, then serialisation. On success the request has an exact shape.
  - The response decoders are functions whose contracts spell out the decision table.
- `specific_gateway.dfy` models `ASpecificGateway` as the class `EntityGateway<E>`. The class holds the shared host, the entity codec and the mutable `entityEndpoint`.
  - Each CRUD method returns two things: the request it handed to the transport, or the error that stopped the request being built; and the decoded result. This lets its contract name the exact method, path, parameters and body.
- `example_gateway.dfy` models `SomeExampleGateway`:
  - the singleton holder;
  - `setEndpoint`;
  - the time-window query map;
  - `getAll(Instant, Instant)`, `getSpecial` and `postSpecial`.

External behaviour enters only as parameters:

- `HttpLibrary` says three things. Does `new URIBuilder(address)` accept the address? Does `build()` succeed once the parameters are added? What does executing a request yield: no response, an I/O fault, or a status with an optional entity text?
- `Codec<E>` gives the four JSON conversions. Each of them may fail.

The messages of `RestException` are the source's exact strings.

### Where the code differs from the design intent

One would expect host and endpoint normalisation to be idempotent and to leave no trailing slash. The code gives neither, and the model follows the code:

- **Only one trailing slash is chopped.** `setHost("a//")` stores `http://a/`, and normalising that again gives `http://a` (`NormalizeHostChopsOneSlash`).
  - `NormalizeHostIdempotence` states exactly when a stored host is stable: when it ends with neither `/` nor a blank.
  - The endpoint lemmas state the same for endpoints, with `"/"` added as a stable value.
- **Chopping happens after trimming.** A blank before the final slash survives: `"a /"` is stored as `http://a ` (`NormalizeHostExposesBlank`).
- **`getAll` can request a doubled path.** For an entity endpoint such as `"/a "`, which `setEntityEndpoint("a /")` produces, `getAll` trims the path to `/a`. That no longer starts with the entity endpoint, so the request goes to `/a /a` (`BlankEndpointDoublesGetAllPath`). `ProcessEntityEndpoint` states the general rule: the path is exactly the entity endpoint unless the endpoint ends with a blank.

## Model

| member | source | states |
|---|---|---|
| Gateway.HostConfig.constructor | src/main/java/dev/wjteo/gateway/AGateway.java:37 | the host address starts out empty |
| Gateway.HostConfig.SetHost | src/main/java/dev/wjteo/gateway/AGateway.java:44-54 | the stored host becomes the normalised input; the stored host is always empty or starts with `http://` |
| Gateway.NormalizeHost | src/main/java/dev/wjteo/gateway/AGateway.java:45-51 | the normalised host always starts with `http://` and is at most the scheme's length longer than the input |
| Gateway.NormalizeHostFixedPoint | src/main/java/dev/wjteo/gateway/AGateway.java:44-53 | an address is stored unchanged if and only if it has the scheme, no surrounding blanks and no trailing `/` |
| Gateway.StableHostIsNormal | src/main/java/dev/wjteo/gateway/AGateway.java:44-53 | an address that normalisation leaves unchanged has the scheme, no surrounding blanks and no trailing `/` |
| Gateway.ChoppedHostShrinks | src/main/java/dev/wjteo/gateway/AGateway.java:47-51 | an address with the scheme whose trimmed text ends with `/` is always changed by normalisation |
| Gateway.SchemeOnlyHostMoves | src/main/java/dev/wjteo/gateway/AGateway.java:45-51 | every address that trims to the bare scheme, leading blanks included, is changed by normalisation, because chopping breaks the scheme and it is prepended again |
| Gateway.NormalizeHostIdempotence | src/main/java/dev/wjteo/gateway/AGateway.java:45-51 | normalising a stored host again changes it exactly when it ends with `/` or with a blank |
| Gateway.StoredHostStability | src/main/java/dev/wjteo/gateway/AGateway.java:45-51 | a host that already has the scheme is left alone exactly when it ends with neither `/` nor a blank |
| Gateway.NormalizeHostChopsOneSlash | src/main/java/dev/wjteo/gateway/AGateway.java:45-48 | `"a//"` is stored as `http://a/`, and storing that again gives `http://a` |
| Gateway.NormalizeHostSlashOnly | src/main/java/dev/wjteo/gateway/AGateway.java:47-51 | `"/"` is stored as the bare `http://` |
| Gateway.NormalizeHostExposesBlank | src/main/java/dev/wjteo/gateway/AGateway.java:45-48 | `"a /"` is stored as `http://a `, keeping the blank before the chopped slash |
| Gateway.WithHost | src/main/java/dev/wjteo/gateway/AGateway.java:94-95 | the address always starts with the host; it equals the endpoint if and only if the endpoint already starts with the host, and otherwise it is host plus endpoint |
| Gateway.WithHostOnce | src/main/java/dev/wjteo/gateway/AGateway.java:94-95 | prefixing twice is the same as prefixing once, and the initial empty host (line 37) changes no endpoint |
| Gateway.CreateURI | src/main/java/dev/wjteo/gateway/AGateway.java:93-117 | an unparsable address gives the initialisation error, and a failed build gives the build error; otherwise the URI has the prefixed address and a query that adds each map entry exactly once and nothing else |
| Gateway.PayloadOf | src/main/java/dev/wjteo/gateway/AGateway.java:71-75 | there is a payload exactly for a POST with an object; it is the serialiser's text, or "unserialisable" when the serialiser returns nothing |
| Gateway.BuiltRequestShape | src/main/java/dev/wjteo/gateway/AGateway.java:62-89 | every built request has the requested method; a body is present exactly with `Content-Type: application/json` as the only header; GET and DELETE never carry a body |
| Gateway.CreateRequest | src/main/java/dev/wjteo/gateway/AGateway.java:57-90 | the errors come in order (initialisation, build, serialisation); otherwise the request has the method, the prefixed URI and the JSON body exactly when it is a POST with an object |
| Gateway.CreateGetRequest | src/main/java/dev/wjteo/gateway/AGateway.java:183-185 | a GET built at the prefixed endpoint, never with a body |
| Gateway.CreatePostRequest | src/main/java/dev/wjteo/gateway/AGateway.java:188-190 | a POST whose body, when built, is always the object's JSON; serialisation failure is an error |
| Gateway.CreateDeleteRequest | src/main/java/dev/wjteo/gateway/AGateway.java:193-195 | a DELETE built at the prefixed endpoint, never with a body |
| Gateway.ExecuteWithResponse | src/main/java/dev/wjteo/gateway/AGateway.java:120-150 | the full decision table: no response and an I/O fault each give their error; 204 gives `""` even without an entity; a missing entity otherwise fails; 200, 201 and 202 give the body verbatim; any other status fails with the body text as the message |
| Gateway.ExecuteWithObjectResponse | src/main/java/dev/wjteo/gateway/AGateway.java:153-165 | errors pass through; a blank body is "no object" without consulting the decoder; otherwise the decoded object, or the deserialisation error |
| Gateway.ExecuteWithListResponse | src/main/java/dev/wjteo/gateway/AGateway.java:168-180 | errors pass through; a blank body is the empty list; otherwise the decoded list, or the deserialisation error |
| Gateway.EmptyResponsesDecodeToNothing | src/main/java/dev/wjteo/gateway/AGateway.java:127-172 | a 204, or a 200 with a blank body, decodes to no object and to the empty list whatever the decoders do |
| Gateway.ErrorStatusCarriesBody | src/main/java/dev/wjteo/gateway/AGateway.java:140-146 | a non-success status with an entity fails both decoders with exactly the server's text |
| SpecificGateway.NormalizeEndpoint | src/main/java/dev/wjteo/gateway/ASpecificGateway.java:24-30 | a stored endpoint always starts with `/` and is at most one character longer than the input |
| SpecificGateway.NormalizeEndpointFixedPoint | src/main/java/dev/wjteo/gateway/ASpecificGateway.java:23-33 | an endpoint is stored unchanged if and only if it starts with `/`, has no surrounding blanks, and is `/` or does not end with `/` |
| SpecificGateway.StableEndpointIsNormal | src/main/java/dev/wjteo/gateway/ASpecificGateway.java:23-33 | an endpoint normalisation leaves unchanged starts with `/`, has no surrounding blanks, and is `/` or has no trailing `/` |
| SpecificGateway.NormalEndpointIsStable | src/main/java/dev/wjteo/gateway/ASpecificGateway.java:23-33 | an endpoint with a leading `/`, no surrounding blanks and no trailing `/` is stored unchanged |
| SpecificGateway.SlashEndpointStable | src/main/java/dev/wjteo/gateway/ASpecificGateway.java:26-30 | `"/"` is stored as `/`: it is chopped to empty and the slash is prepended again |
| SpecificGateway.StoredEndpointStability | src/main/java/dev/wjteo/gateway/ASpecificGateway.java:23-33 | a stored endpoint survives another normalisation exactly when it is `/` or ends with neither `/` nor a blank |
| SpecificGateway.NormalizeEndpointChopsOneSlash | src/main/java/dev/wjteo/gateway/ASpecificGateway.java:24-30 | `"a//"` is stored as `/a/`: only one slash is chopped |
| SpecificGateway.NormalizeEndpointChopsTrailingSlash | src/main/java/dev/wjteo/gateway/ASpecificGateway.java:24-30 | `"/a/"` is stored as `/a` |
| SpecificGateway.NormalizeEndpointKeepsDoubleSlash | src/main/java/dev/wjteo/gateway/ASpecificGateway.java:24-30 | `"//a"` is stored as `//a`: a leading double slash is kept |
| SpecificGateway.ProcessEndpoint | src/main/java/dev/wjteo/gateway/ASpecificGateway.java:105-112 | the path always starts with the entity endpoint; it is the trimmed input if and only if that already starts with the entity endpoint, and otherwise it is the entity endpoint plus the trimmed input |
| SpecificGateway.ProcessEndpointKeepsSubpath | src/main/java/dev/wjteo/gateway/ASpecificGateway.java:105-112 | entity endpoint plus a sub-path that does not end in a blank passes through unchanged: no double prefix |
| SpecificGateway.ProcessEntityEndpoint | src/main/java/dev/wjteo/gateway/ASpecificGateway.java:36-39 | the `getAll` path is the entity endpoint itself, unless the endpoint ends with a blank, when the trimmed endpoint is appended to it |
| SpecificGateway.BlankEndpointDoublesGetAllPath | src/main/java/dev/wjteo/gateway/ASpecificGateway.java:36-39 | `"a /"` is stored as `/a `, and `getAll` then requests `/a /a` |
| SpecificGateway.EntityGateway.constructor | src/main/java/dev/wjteo/gateway/ASpecificGateway.java:17-21 | the gateway shares the given host and codec, and stores the normalised endpoint |
| SpecificGateway.EntityGateway.SetEntityEndpoint | src/main/java/dev/wjteo/gateway/ASpecificGateway.java:23-33 | the field becomes the normalised endpoint |
| SpecificGateway.EntityGateway.CreateGetRequest | src/main/java/dev/wjteo/gateway/ASpecificGateway.java:86-90 | the base GET builder applied to the processed endpoint, with the parameters unchanged |
| SpecificGateway.EntityGateway.CreatePostRequest | src/main/java/dev/wjteo/gateway/ASpecificGateway.java:92-96 | the base POST builder applied to the processed endpoint, with the parameters and object unchanged |
| SpecificGateway.EntityGateway.CreateDeleteRequest | src/main/java/dev/wjteo/gateway/ASpecificGateway.java:98-102 | the base DELETE builder applied to the processed endpoint, with the parameters unchanged |
| SpecificGateway.EntityGateway.GetAll | src/main/java/dev/wjteo/gateway/ASpecificGateway.java:36-39 | a GET at the processed entity endpoint with the caller's parameters; a build error is returned, otherwise the response is decoded as a list |
| SpecificGateway.EntityGateway.GetById | src/main/java/dev/wjteo/gateway/ASpecificGateway.java:42-45 | a GET at exactly entity endpoint + `/` + decimal id with the caller's parameters, decoded as one optional object |
| SpecificGateway.EntityGateway.GetByIds | src/main/java/dev/wjteo/gateway/ASpecificGateway.java:48-51 | a POST at exactly entity endpoint + `/ids` with the serialised id list as body and the caller's parameters, decoded as a list |
| SpecificGateway.EntityGateway.Create | src/main/java/dev/wjteo/gateway/ASpecificGateway.java:60-63 | a POST at exactly entity endpoint + `/create` with the entity's JSON and no parameters, decoded as one optional object |
| SpecificGateway.EntityGateway.Update | src/main/java/dev/wjteo/gateway/ASpecificGateway.java:66-69 | a POST at exactly entity endpoint + `/update` with the entity's JSON and no parameters, decoded as one optional object |
| SpecificGateway.EntityGateway.Delete | src/main/java/dev/wjteo/gateway/ASpecificGateway.java:71-74 | a bodiless DELETE at exactly entity endpoint + `/delete/` + decimal id with no parameters; the result is true exactly when an object is decoded, so a 204 gives false |
| ExampleGateway.NewExampleGateway | src/main/java/dev/wjteo/gateway/SomeExampleGateway.java:17-19 | a new gateway whose entity endpoint is `/someexample` |
| ExampleGateway.ExampleGatewayInstance.constructor | src/main/java/dev/wjteo/gateway/SomeExampleGateway.java:15 | no instance exists yet |
| ExampleGateway.ExampleGatewayInstance.GetInstance | src/main/java/dev/wjteo/gateway/SomeExampleGateway.java:21-25 | the first call creates a gateway at `/someexample`; every later call returns that same object |
| ExampleGateway.SetEndpoint | src/main/java/dev/wjteo/gateway/SomeExampleGateway.java:27-37 | the stored endpoint is the endpoint normalisation applied twice |
| ExampleGateway.SetEndpointChopsTwice | src/main/java/dev/wjteo/gateway/SomeExampleGateway.java:27-37 | `setEndpoint("a//")` ends at `/a`, where a single normalisation gives `/a/` |
| ExampleGateway.InstantParameters | src/main/java/dev/wjteo/gateway/SomeExampleGateway.java:40-42 | `startInstant` and `endInstant` are keys exactly when the instant is given, each valued with the decimal epoch milliseconds, and there are no other keys |
| ExampleGateway.NoInstantsNoParameters | src/main/java/dev/wjteo/gateway/SomeExampleGateway.java:40-42 | with neither instant the query map is empty |
| ExampleGateway.InstantQuery | src/main/java/dev/wjteo/gateway/SomeExampleGateway.java:47-49 | the conditional puts build exactly the time-window query |
| ExampleGateway.GetAllBetween | src/main/java/dev/wjteo/gateway/SomeExampleGateway.java:39-44 | `getAll` with the time-window query: a GET at the processed entity endpoint, decoded as a list |
| ExampleGateway.DefaultSpecialPaths | src/main/java/dev/wjteo/gateway/SomeExampleGateway.java:51-60 | under `/someexample` the special paths become `/someexample/special` and `/someexample/specialpost` |
| ExampleGateway.DefaultSpecialPath | src/main/java/dev/wjteo/gateway/SomeExampleGateway.java:51 | `/special` under `/someexample` becomes `/someexample/special` |
| ExampleGateway.DefaultSpecialPostPath | src/main/java/dev/wjteo/gateway/SomeExampleGateway.java:60 | `/specialpost` under `/someexample` becomes `/someexample/specialpost` |
| ExampleGateway.GetSpecial | src/main/java/dev/wjteo/gateway/SomeExampleGateway.java:46-53 | a GET at the processed `/special` with the time-window query, decoded as a list; with the default endpoint the path is `/someexample/special` |
| ExampleGateway.PostSpecial | src/main/java/dev/wjteo/gateway/SomeExampleGateway.java:55-62 | a POST at the processed `/specialpost` with the example's JSON and the time-window query, decoded as one object; with the default endpoint the path is `/someexample/specialpost` |
| JavaText.Trim | src/main/java/dev/wjteo/gateway/AGateway.java:45 | `trim()` as the host, entity-endpoint (ASpecificGateway.java:24, 106) and setter paths use it: never longer than the input, neither end of the result is a character up to U+0020, and an input without such ends is returned unchanged |
| JavaText.TrimRemovesOnlyBlanks | src/main/java/dev/wjteo/gateway/AGateway.java:45 | `trim()` returns exactly the infix of the input that starts after its leading characters up to U+0020, and every character it cuts from either end is such a character (also ASpecificGateway.java:24, 106) |
| JavaText.TrimKeepsPrefix | src/main/java/dev/wjteo/gateway/ASpecificGateway.java:106-108 | a prefix with non-blank ends survives `trim()`, which then only cuts the tail, and changes the string exactly when it ends with a blank |
| JavaText.Chop | src/main/java/dev/wjteo/gateway/AGateway.java:48 | `StringUtils.chop` returns a proper prefix of a non-empty input, and a string ending with `/` is exactly the result plus that `/` |
| JavaText.BlankDiffersFromTrimmedEmpty | src/main/java/dev/wjteo/gateway/AGateway.java:156 | the `isBlank()` the decoders use (also line 171) is not `trim().isEmpty()`: U+2000 is blank but not trimmed, NUL is trimmed but not blank |
| JavaText.LongToString | src/main/java/dev/wjteo/gateway/ASpecificGateway.java:43 | the decimal text of an id or of epoch milliseconds (SomeExampleGateway.java:41) is non-empty, starts with `-` or a digit, ends with a digit, and holds no `/` and no blank, so it never disturbs path processing |
| JavaText.LongToStringRoundTrip | src/main/java/dev/wjteo/gateway/SomeExampleGateway.java:41 | the decimal text of a `long` (epoch milliseconds, ids) parses back to the same number |
| JavaText.DigitsRoundTrip | src/main/java/dev/wjteo/gateway/ASpecificGateway.java:43 | the digits of a natural number parse back to that number |

## Left out

- I/O is not modelled:
  - `HttpClients.createDefault`;
  - `client.execute`;
  - the try-with-resources closing;
  - `IOUtils.toString`.
  The transport is a function of the request inside `HttpLibrary`, returning no response, an I/O fault, or a response. The entity text is given as already decoded.
- Gateway.ExecuteWithResponse: the `null` check on the text read from the entity (AGateway.java:137-138) is not modelled, because `IOUtils.toString` never returns `null`.
- Gateway.CreateURI: URI syntax is not modelled. `URIBuilder` parsing and building are the abstract predicates `parses` and `builds`. Whether `build()` succeeds is taken as a function of the address and the parameter map, so it does not depend on the order in which parameters were added. Percent-encoding of the query (RFC 3986) is not modelled, and the URI is the address plus the added pairs.
- Gateway.CreateRequest: two error paths of the source are not modelled:
  - the unreachable `default` branch of the request-type switch (AGateway.java:66);
  - the `UnsupportedEncodingException` path of `StringEntity` (AGateway.java:79-83), because the default ISO-8859-1 charset is always supported.
  The encoding of the body to bytes is also not modelled; the body is the JSON text.
- Logging (AGateway.java:100, 103, 114, 143) has no effect on behaviour.
- `@NonNull` arguments are never null in the model. The `NullPointerException` that Lombok raises for a null argument is not modelled; this includes a null `example` in `postSpecial`.
- Thread safety of the static host and of the lazy singleton is not modelled. Each is one shared object, used by one caller at a time.
- `Serialization` is not modelled. The Jackson-backed serialise and deserialise calls are the function fields of `Codec<E>`. Each may fail, and no round-trip law is assumed between them.
- InstantParameters: an `Instant` is given as its epoch milliseconds (`Option<Long>`, `None` for `null`). The `ArithmeticException` that `toEpochMilli` throws for instants outside the `long` range is not modelled.
- The one-argument `executeWithObjectResponse` and `executeWithListResponse` of `ASpecificGateway` (ASpecificGateway.java:76-84) are folded into their callers. They only pass the entity class, which here is the gateway's codec.
- The class hierarchy is flattened. `SomeExampleGateway` is an `EntityGateway<SomeExample>` together with module-level operations that take the gateway. The `gatewayClass` field is used only for logging, so it is dropped.
- `Main.java` is not part of this model. It is an entry point that only calls the gateway.
- Every CRUD and time-window operation returns one output the source does not have: the request it built, or the build error. This output exists only so the contract can name the method, path, parameters and body that were sent.
