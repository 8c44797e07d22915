/** Whole declarations against a fresh registry: what a service that declares
    its routes and models sees in the generated document and in the router. */
module Scenarios {
  import opened Wrappers
  import opened Js
  import opened Types
  import opened PathTemplate
  import opened Registry

  /** A document generated before any declaration has empty paths and
      definitions. */
  method EmptyDocument(config: SwaggerConfig) returns (doc: Document)
    ensures doc.paths == map[] && doc.definitions == map[]
    ensures doc.swagger == "2.0" && doc.info.title == config.name
  {
    var registry := new Registry();
    doc := registry.GenerateSwagger(config);
  }

  /** A GET declaration with a success schema is documented under its path
      and "get" with the single 200 response referring to that schema, and is
      routed with its placeholders in router form. */
  method DocumentedGet(config: SwaggerConfig, endpoint: Endpoint) returns (outcome: Outcome<Error>, doc: Document, route: Binding)
    requires TruthyString(endpoint.success)
    ensures outcome == Pass
    ensures endpoint.path in doc.paths && doc.paths[endpoint.path].Keys == {"get"}
    ensures doc.paths[endpoint.path]["get"].responses == Some(map[200 := ResponseDoc("OK", endpoint.success.value)])
    ensures doc.paths[endpoint.path]["get"].description == endpoint.description
    ensures route == Binding("get", Translate(endpoint.path))
  {
    var registry := new Registry();
    outcome := registry.Get(endpoint);
    doc := registry.GenerateSwagger(config);
    route := registry.bindings[0];
  }

  /** Declaring a path and method a second time, in whatever case, throws the
      conflict message and keeps the first declaration's documentation. */
  method DuplicateEndpoint(first: Endpoint, second: Endpoint, verb1: string, verb2: string)
    returns (outcome1: Outcome<Error>, outcome2: Outcome<Error>, kept: Operation, routes: nat)
    requires first.path == second.path && ToLower(verb1) == ToLower(verb2)
    ensures outcome1 == Pass
    ensures outcome2 == Fail(DeclarationConflict(ToUpper(verb2) + " " + second.path + " has been already declared"))
    ensures kept == DocumentedOperation(first)
    ensures routes == 1
  {
    var registry := new Registry();
    outcome1 := registry.Declare(first, verb1);
    outcome2 := registry.Declare(second, verb2);
    kept := registry.paths[first.path][ToLower(verb1)];
    routes := |registry.bindings|;
  }

  /** Two different methods on one path share the path's entry. */
  method MethodsSharePath(first: Endpoint, second: Endpoint, verb1: string, verb2: string)
    returns (outcome1: Outcome<Error>, outcome2: Outcome<Error>, methods: set<string>)
    requires first.path == second.path && ToLower(verb1) != ToLower(verb2)
    ensures outcome1 == Pass && outcome2 == Pass
    ensures methods == {ToLower(verb1), ToLower(verb2)}
  {
    var registry := new Registry();
    outcome1 := registry.Declare(first, verb1);
    outcome2 := registry.Declare(second, verb2);
    methods := registry.paths[first.path].Keys;
  }

  /** Defining a model name twice (constructing a service twice) throws the
      conflict message and keeps the first shape. */
  method DefinitionTwice(name: string, shape1: Schema, shape2: Schema)
    returns (outcome1: Outcome<Error>, outcome2: Outcome<Error>, kept: Schema)
    ensures outcome1 == Pass
    ensures outcome2 == Fail(DeclarationConflict(name + " model has been already defined"))
    ensures kept == shape1
  {
    var registry := new Registry();
    outcome1 := registry.AddSwaggerDefinition(name, shape1);
    outcome2 := registry.AddSwaggerDefinition(name, shape2);
    kept := registry.definitions[name];
  }

  /** The example book service: list and create on the collection path,
      read, update and delete on the item path, and one model definition.
      The document then holds exactly the two paths with those methods and
      the one model, and five routes are bound. */
  method BookService(config: SwaggerConfig, list: Endpoint, create: Endpoint, read: Endpoint,
                     update: Endpoint, remove: Endpoint, book: Schema)
    returns (ok: bool, doc: Document, routes: seq<Binding>)
    requires list.path == create.path
    requires read.path == update.path == remove.path
    requires list.path != read.path
    ensures ok
    ensures doc.paths.Keys == {list.path, read.path}
    ensures doc.paths[list.path].Keys == {"get", "post"}
    ensures doc.paths[read.path].Keys == {"get", "put", "delete"}
    ensures doc.definitions == map["Book" := book]
    ensures |routes| == 5 && routes[2] == Binding("get", Translate(read.path))
  {
    var registry := new Registry();
    var collection := DeclareCollection(registry, list, create);
    var item := DeclareItem(registry, list.path, read, update, remove);
    var defined := registry.AddSwaggerDefinition("Book", book);
    ok := collection && item && defined.Pass?;
    doc := registry.GenerateSwagger(config);
    routes := registry.bindings;
  }

  /** The collection routes of the book service, on a registry with nothing
      declared yet. */
  method DeclareCollection(registry: Registry, list: Endpoint, create: Endpoint) returns (ok: bool)
    requires registry.Valid() && registry.paths == map[] && registry.bindings == [] && registry.definitions == map[]
    requires list.path == create.path
    modifies registry
    ensures registry.Valid() && ok && registry.definitions == map[]
    ensures registry.paths.Keys == {list.path} && registry.paths[list.path].Keys == {"get", "post"}
    ensures |registry.bindings| == 2
  {
    var c := list.path;
    assert "get" != "post";
    var o1 := registry.Get(list);
    assert registry.paths.Keys == {c} && registry.paths[c].Keys == {"get"};
    var o2 := registry.Post(create);
    ok := o1.Pass? && o2.Pass?;
  }

  /** The item routes of the book service, on a registry holding only the
      collection path. */
  method DeclareItem(registry: Registry, collection: string, read: Endpoint, update: Endpoint, remove: Endpoint)
    returns (ok: bool)
    requires registry.Valid() && registry.paths.Keys == {collection} && |registry.bindings| == 2
    requires read.path == update.path == remove.path && read.path != collection
    modifies registry
    ensures registry.Valid() && ok && registry.definitions == old(registry.definitions)
    ensures registry.paths.Keys == {collection, read.path}
    ensures registry.paths[collection] == old(registry.paths)[collection]
    ensures registry.paths[read.path].Keys == {"get", "put", "delete"}
    ensures |registry.bindings| == 5 && registry.bindings[2] == Binding("get", Translate(read.path))
  {
    var o := registry.Get(read);
    var changes := DeclareItemChanges(registry, collection, update, remove);
    ok := o.Pass? && changes;
  }

  /** The update and delete routes of the book service, once the item path
      is documented for "get" only. */
  method DeclareItemChanges(registry: Registry, collection: string, update: Endpoint, remove: Endpoint)
    returns (ok: bool)
    requires registry.Valid() && registry.paths.Keys == {collection, update.path} && |registry.bindings| == 3
    requires update.path == remove.path && update.path != collection
    requires registry.paths[update.path].Keys == {"get"}
    modifies registry
    ensures registry.Valid() && ok && registry.definitions == old(registry.definitions)
    ensures registry.paths.Keys == {collection, update.path}
    ensures registry.paths[collection] == old(registry.paths)[collection]
    ensures registry.paths[update.path].Keys == {"get", "put", "delete"}
    ensures |registry.bindings| == 5 && registry.bindings[2] == old(registry.bindings)[2]
  {
    assert "get" != "put" && "get" != "delete" && "put" != "delete";
    ghost var route := registry.bindings[2];
    var o1 := registry.Put(update);
    assert registry.bindings[2] == route;
    var o2 := registry.Delete(remove);
    assert registry.bindings[2] == route;
    ok := o1.Pass? && o2.Pass?;
  }
}
