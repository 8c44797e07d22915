/** The documentation registry and the registration half of an endpoint
    declaration (src/index.ts:10-53, 104-141): the process-wide path and
    definition dictionaries, the checks that reject a second declaration, and
    the generated OpenAPI 2.0 (Swagger) document. */
module Registry {
  import opened Wrappers
  import opened Js
  import opened Types
  import opened Utils
  import opened PathTemplate

  /** The response documented for status 200 when a success schema is given. */
  datatype ResponseDoc = ResponseDoc(description: string, schemaRef: string)

  /** The documentation of one method on one path. */
  datatype Operation = Operation(
    description: Option<string>,
    tags: Option<seq<string>>,
    parameters: seq<Parameter>,
    responses: Option<map<int, ResponseDoc>>)

  /** A model definition: the shape is a JSON object the registry never reads. */
  type Schema = map<string, JsValue>

  /** path -> lower-cased method -> operation */
  type PathMap = map<string, map<string, Operation>>

  /** The Info Object of the generated document. */
  datatype Info = Info(version: string, title: string, description: string)

  /** The Swagger Object of OpenAPI 2.0 as the registrar emits it. */
  datatype Document = Document(
    swagger: string,
    info: Info,
    host: string,
    basePath: string,
    schemes: seq<string>,
    consumes: seq<string>,
    produces: seq<string>,
    paths: PathMap,
    definitions: map<string, Schema>)

  /** A route handed to the router: lower-cased method and router path. */
  datatype Binding = Binding(verb: string, path: string)

  const OkStatus: int := 200

  /** The `responses` of a declaration: absent unless a non-empty success
      schema is named, and then exactly one entry, for 200, described "OK"
      and referring to that schema. */
  function Responses(success: Option<string>): (r: Option<map<int, ResponseDoc>>)
    ensures r.Some? <==> TruthyString(success)
    ensures r.Some? ==> r.value.Keys == {OkStatus} && r.value[OkStatus] == ResponseDoc("OK", success.value)
  {
    if TruthyString(success) then Some(map[OkStatus := ResponseDoc("OK", success.value)]) else None
  }

  /** The header parameter built for an endpoint that declares `auth`. */
  function AuthHeaderParameter(auth: string): Parameter {
    Parameter(auth, InHeader, "User JWT token", Some("string"), Some(true), None, None,
              Some("user_id;organization_id;READER,WRITER"))
  }

  /** The documented parameters: the path parameters, then the body, then the
      query fields, each block in declaration order. */
  function DocumentedParameters(config: Endpoint): seq<Parameter> {
    TransformUrlParameters(config.parameters) + TransformBody(config.body) + TransformQuery(config.query)
  }

  /** What a declaration stores in the registry. */
  function DocumentedOperation(config: Endpoint): Operation {
    Operation(config.description, config.tags, DocumentedParameters(config), Responses(config.success))
  }

  /** Position of a location in the documented parameter list. */
  function LocationRank(l: Location): nat {
    match l
    case InPath => 0
    case InBody => 1
    case InQuery => 2
    case InHeader => 3
  }

  /** Number of declared path parameters. */
  function PathParameterCount(config: Endpoint): nat {
    if config.parameters.Some? then |config.parameters.value| else 0
  }

  /** One for a declared body, none otherwise. */
  function BodyCount(config: Endpoint): nat {
    if config.body.Some? then 1 else 0
  }

  /** Number of query fields of the declared query group. */
  function QueryFieldCount(config: Endpoint): nat {
    if config.query.Some? then |config.query.value.items| else 0
  }

  /** The documented parameter list holds one parameter per path parameter,
      one for the body if declared and one per query field; they come grouped
      path, body, query; and the auth header parameter is never among them,
      whether or not `auth` is declared. */
  lemma DocumentedParametersShape(config: Endpoint)
    ensures var ps := DocumentedParameters(config);
      && |ps| == PathParameterCount(config) + BodyCount(config) + QueryFieldCount(config)
      && (forall i :: 0 <= i < |ps| ==> ps[i].location != InHeader)
      && (forall i, j :: 0 <= i < j < |ps| ==> LocationRank(ps[i].location) <= LocationRank(ps[j].location))
  {
    var u, b, q := TransformUrlParameters(config.parameters), TransformBody(config.body), TransformQuery(config.query);
    var ps := u + b + q;
    assert forall i :: 0 <= i < |ps| ==>
      LocationRank(ps[i].location) == (if i < |u| then 0 else if i < |u| + |b| then 1 else 2)
    by {
      forall i | 0 <= i < |ps|
        ensures LocationRank(ps[i].location) == (if i < |u| then 0 else if i < |u| + |b| then 1 else 2)
      {
        if i < |u| {
          assert ps[i] == u[i];
        } else if i < |u| + |b| {
          assert ps[i] == b[i - |u|];
        } else {
          assert ps[i] == q[i - |u| - |b|];
        }
      }
    }
  }

  /** The path parameters lead the list, in declaration order, and the query
      fields close it, in declaration order, after the body. */
  lemma DocumentedParametersNames(config: Endpoint)
    ensures var ps := DocumentedParameters(config);
      && PathParameterCount(config) + BodyCount(config) + QueryFieldCount(config) == |ps|
      && (forall i :: 0 <= i < PathParameterCount(config) ==>
            ps[i].location == InPath && ps[i].name == config.parameters.value[i].name)
      && (forall i :: PathParameterCount(config) + BodyCount(config) <= i < |ps| ==>
            ps[i].location == InQuery
            && ps[i].name == config.query.value.items[i - PathParameterCount(config) - BodyCount(config)].name)
  {
    var u, b, q := TransformUrlParameters(config.parameters), TransformBody(config.body), TransformQuery(config.query);
    var ps := u + b + q;
    forall i | 0 <= i < |u|
      ensures ps[i].location == InPath && ps[i].name == config.parameters.value[i].name
    {
      assert ps[i] == u[i];
    }
    forall i | |u| + |b| <= i < |ps|
      ensures ps[i].location == InQuery && ps[i].name == config.query.value.items[i - |u| - |b|].name
    {
      assert ps[i] == q[i - |u| - |b|];
    }
  }

  /** `paths` with `op` stored under `path` and `key`, the bucket of `path`
      created when missing: that entry is `op`, and every other entry is
      the one `paths` had. */
  function WithEntry(paths: PathMap, path: string, key: string, op: Operation): (r: PathMap)
    ensures path in r && key in r[path] && r[path][key] == op
    ensures r.Keys == paths.Keys + {path}
    ensures r[path].Keys == (if path in paths then paths[path].Keys else {}) + {key}
    ensures forall p :: p in r && p != path ==> r[p] == paths[p]
    ensures forall m :: m in r[path] && m != key ==> path in paths && m in paths[path] && r[path][m] == paths[path][m]
  {
    var bucket := if path in paths then paths[path] else map[];
    paths[path := bucket[key := op]]
  }

  /** The four shortcut methods are keyed under their lower-case names. */
  lemma {:induction false} ShortcutKeys()
    ensures ToLower("GET") == "get" && ToLower("POST") == "post"
    ensures ToLower("PUT") == "put" && ToLower("DELETE") == "delete"
  {
    assert ToLower("GET") == "get" by { LowerWord("GET", "get"); }
    assert ToLower("POST") == "post" by { LowerWord("POST", "post"); }
    assert ToLower("PUT") == "put" by { LowerWord("PUT", "put"); }
    assert ToLower("DELETE") == "delete" by { LowerWord("DELETE", "delete"); }
  }

  lemma LowerWord(upper: string, lower: string)
    requires |upper| == |lower|
    requires forall i :: 0 <= i < |upper| ==> IsUpper(upper[i]) && lower[i] as int == upper[i] as int + 32
    ensures ToLower(upper) == lower
  {
  }

  /** The message of a repeated endpoint declaration. */
  function EndpointConflict(verb: string, path: string): Error {
    DeclarationConflict(ToUpper(verb) + " " + path + " has been already declared")
  }

  /** The message of a repeated model definition. */
  function DefinitionConflict(name: string): Error {
    DeclarationConflict(name + " model has been already defined")
  }

  /** Every path bucket holds at least one method, and methods are keyed in
      lower case. */
  ghost predicate LowerKeyed(paths: PathMap) {
    && (forall p :: p in paths ==> paths[p] != map[])
    && (forall p, m :: p in paths && m in paths[p] ==> NoUpper(m))
  }

  /** Routed methods are in lower case. */
  ghost predicate LowerRoutes(bindings: seq<Binding>) {
    forall i :: 0 <= i < |bindings| ==> NoUpper(bindings[i].verb)
  }

  /** Storing an entry under a lower-case key keeps buckets non-empty and
      lower-case keyed. */
  lemma WithEntryKeepsLowerKeyed(paths: PathMap, path: string, key: string, op: Operation)
    requires LowerKeyed(paths) && NoUpper(key)
    ensures LowerKeyed(WithEntry(paths, path, key, op))
  {
  }

  /** The registry: the path and definition dictionaries that declarations
      fill, and the routes handed to the router. */
  class Registry {
    var paths: PathMap
    var definitions: map<string, Schema>
    var bindings: seq<Binding>

    /** Every path bucket holds at least one method, and methods are keyed in
        lower case, in the registry and in the router. */
    ghost predicate Valid()
      reads this
    {
      LowerKeyed(paths) && LowerRoutes(bindings)
    }

    /** Both dictionaries start empty and nothing is routed. */
    constructor ()
      ensures Valid()
      ensures paths == map[] && definitions == map[] && bindings == []
    {
      paths := map[];
      definitions := map[];
      bindings := [];
    }

    /** The registration half of `addSwaggerEndpoint`: a second declaration
        of the same path and lower-cased method throws and changes nothing;
        otherwise exactly that entry is stored, under the untranslated path. */
    method AddSwaggerEndpoint(config: Endpoint, verb: string) returns (outcome: Outcome<Error>)
      requires Valid()
      modifies this
      ensures Valid()
      ensures definitions == old(definitions) && bindings == old(bindings)
      ensures outcome.Fail? <==> config.path in old(paths) && ToLower(verb) in old(paths)[config.path]
      ensures outcome.Fail? ==> outcome.error == EndpointConflict(verb, config.path) && paths == old(paths)
      ensures outcome.Pass? ==>
        paths == WithEntry(old(paths), config.path, ToLower(verb), DocumentedOperation(config))
    {
      var key := ToLower(verb);
      var bucket := if config.path in paths then paths[config.path] else map[];
      if key in bucket {
        return Fail(EndpointConflict(verb, config.path));
      }
      var responses := Responses(config.success);
      var parameters: seq<Parameter> := [];
      if TruthyString(config.auth) {
        parameters := parameters + [AuthHeaderParameter(config.auth.value)];
      }
      parameters := TransformUrlParameters(config.parameters) + TransformBody(config.body) + TransformQuery(config.query);
      WithEntryKeepsLowerKeyed(paths, config.path, key, DocumentedOperation(config));
      paths := paths[config.path := bucket[key := Operation(config.description, config.tags, parameters, responses)]];
      outcome := Pass;
    }

    /** Applying the decorator: the handler is routed under the lower-cased
        method and the path with `{name}` rewritten to `:name`. */
    method Bind(config: Endpoint, verb: string)
      requires Valid()
      modifies this
      ensures Valid()
      ensures paths == old(paths) && definitions == old(definitions)
      ensures bindings == old(bindings) + [Binding(ToLower(verb), Translate(config.path))]
    {
      bindings := bindings + [Binding(ToLower(verb), Translate(config.path))];
    }

    /** `@GET(config)` on a handler: declare, then route. */
    method Get(config: Endpoint) returns (outcome: Outcome<Error>)
      requires Valid()
      modifies this
      ensures Valid() && definitions == old(definitions)
      ensures outcome.Fail? <==> config.path in old(paths) && "get" in old(paths)[config.path]
      ensures outcome.Fail? ==> outcome.error == EndpointConflict("GET", config.path)
                                && paths == old(paths) && bindings == old(bindings)
      ensures outcome.Pass? ==> paths == WithEntry(old(paths), config.path, "get", DocumentedOperation(config))
                                && bindings == old(bindings) + [Binding("get", Translate(config.path))]
    {
      ShortcutKeys();
      outcome := Declare(config, "GET");
    }

    /** `@POST(config)` on a handler. */
    method Post(config: Endpoint) returns (outcome: Outcome<Error>)
      requires Valid()
      modifies this
      ensures Valid() && definitions == old(definitions)
      ensures outcome.Fail? <==> config.path in old(paths) && "post" in old(paths)[config.path]
      ensures outcome.Fail? ==> outcome.error == EndpointConflict("POST", config.path)
                                && paths == old(paths) && bindings == old(bindings)
      ensures outcome.Pass? ==> paths == WithEntry(old(paths), config.path, "post", DocumentedOperation(config))
                                && bindings == old(bindings) + [Binding("post", Translate(config.path))]
    {
      ShortcutKeys();
      outcome := Declare(config, "POST");
    }

    /** `@PUT(config)` on a handler. */
    method Put(config: Endpoint) returns (outcome: Outcome<Error>)
      requires Valid()
      modifies this
      ensures Valid() && definitions == old(definitions)
      ensures outcome.Fail? <==> config.path in old(paths) && "put" in old(paths)[config.path]
      ensures outcome.Fail? ==> outcome.error == EndpointConflict("PUT", config.path)
                                && paths == old(paths) && bindings == old(bindings)
      ensures outcome.Pass? ==> paths == WithEntry(old(paths), config.path, "put", DocumentedOperation(config))
                                && bindings == old(bindings) + [Binding("put", Translate(config.path))]
    {
      ShortcutKeys();
      outcome := Declare(config, "PUT");
    }

    /** `@DELETE(config)` on a handler. */
    method Delete(config: Endpoint) returns (outcome: Outcome<Error>)
      requires Valid()
      modifies this
      ensures Valid() && definitions == old(definitions)
      ensures outcome.Fail? <==> config.path in old(paths) && "delete" in old(paths)[config.path]
      ensures outcome.Fail? ==> outcome.error == EndpointConflict("DELETE", config.path)
                                && paths == old(paths) && bindings == old(bindings)
      ensures outcome.Pass? ==> paths == WithEntry(old(paths), config.path, "delete", DocumentedOperation(config))
                                && bindings == old(bindings) + [Binding("delete", Translate(config.path))]
    {
      ShortcutKeys();
      outcome := Declare(config, "DELETE");
    }

    /** A decorated handler: the declaration, and the routing when the
        declaration did not throw. */
    method Declare(config: Endpoint, verb: string) returns (outcome: Outcome<Error>)
      requires Valid()
      modifies this
      ensures Valid() && definitions == old(definitions)
      ensures outcome.Fail? <==> config.path in old(paths) && ToLower(verb) in old(paths)[config.path]
      ensures outcome.Fail? ==> outcome.error == EndpointConflict(verb, config.path)
                                && paths == old(paths) && bindings == old(bindings)
      ensures outcome.Pass? ==>
        && paths == WithEntry(old(paths), config.path, ToLower(verb), DocumentedOperation(config))
        && bindings == old(bindings) + [Binding(ToLower(verb), Translate(config.path))]
    {
      outcome := AddSwaggerEndpoint(config, verb);
      if outcome.Pass? {
        Bind(config, verb);
      }
    }

    /** `addSwaggerDefinition`: a second definition of a name throws and keeps
        the first shape; otherwise the shape is stored under the name and no
        other name changes. */
    method AddSwaggerDefinition(name: string, definition: Schema) returns (outcome: Outcome<Error>)
      requires Valid()
      modifies this
      ensures Valid()
      ensures paths == old(paths) && bindings == old(bindings)
      ensures outcome.Fail? <==> name in old(definitions)
      ensures outcome.Fail? ==> outcome.error == DefinitionConflict(name) && definitions == old(definitions)
      ensures outcome.Pass? ==> definitions == old(definitions)[name := definition]
    {
      if name in definitions {
        return Fail(DefinitionConflict(name));
      }
      definitions := definitions[name := definition];
      outcome := Pass;
    }

    /** `generateSwagger`: the fixed Swagger 2.0 metadata, the configured
        info, host and base path, and the current registry contents. In a
        valid registry every documented path has at least one operation, and
        every operation is keyed by a lower-case method. */
    function GenerateSwagger(config: SwaggerConfig): (doc: Document)
      reads this
      ensures doc.swagger == "2.0" && doc.schemes == ["http"]
      ensures doc.consumes == ["application/json"] && doc.produces == ["application/json"]
      ensures doc.info == Info(config.version, config.name, config.description)
      ensures doc.host == config.host && doc.basePath == config.basePath
      ensures doc.paths == paths && doc.definitions == definitions
      ensures Valid() ==> forall p :: p in doc.paths ==> doc.paths[p] != map[]
      ensures Valid() ==> forall p, m :: p in doc.paths && m in doc.paths[p] ==> NoUpper(m)
    {
      Document("2.0", Info(config.version, config.name, config.description), config.host, config.basePath,
               ["http"], ["application/json"], ["application/json"], paths, definitions)
    }
  }
}
