# mgr-swagger-express, modelled in Dafny

mgr-swagger-express is a small registrar for Express services. A handler is
declared with a decorator (`GET`, `POST`, `PUT`, `DELETE`) that carries its
documentation. The declaration does three things:

- it records an OpenAPI 2.0 (Swagger) operation in a process-wide `paths`
  dictionary, and rejects a second declaration of the same path and method;
- it binds the handler on the Express app, under the path rewritten from
  `{name}` to `:name`;
- it wraps the handler in an adapter that collects the route parameters, the
  query and the body into one argument bag, and reads the caller's context
  from the `x-auth` header. The adapter turns the handler's result or thrown
  value into a response: 404 for an empty GET, the thrown status or 500 with
  `{error: message}` on failure.

Model definitions go into a `definitions` dictionary, which also rejects
duplicates. `generateSwagger` wraps both dictionaries into a Swagger 2.0
document.

The model has these modules:

- `Wrappers` (`wrappers.dfy`): `Option`, `Result` and `Outcome`.
- `Js` (`js.dfy`): the JavaScript semantics the code relies on.
  - JSON-like values.
  - Truthiness of optional strings and numbers.
  - ASCII `toLowerCase`/`toUpperCase`.
  - `String.prototype.split` with a one-character separator, with `join` as
    its inverse.
- `Types` (`types.dfy`): the declaration records of `src/types.ts` and
  `src/index.ts`, and the error a declaration or the token parser raises.
- `Utils` (`utils.dfy`): `src/utils.ts`. This is the token parser and the
  three transforms into Swagger parameters.
- `PathTemplate` (`path_template.dfy`): the rewrite of `/{([a-zA-Z]+)}/g` into
  `:$1`. It is written as a left-to-right scanner with the same
  leftmost-first, non-overlapping matching as the regular expression.
- `Transport` (`transport.dfy`): the request adapter.
  - Building the argument bag.
  - Reading the context.
  - Choosing the response.
  - One request end to end, with the handler passed in as a function.
- `Registry` (`registry.dfy`): the `paths`/`definitions` state as a class
  `Registry`.
  - `addSwaggerEndpoint` split into its registration half and its routing
    half (`Bind`).
  - The `GET`/`POST`/`PUT`/`DELETE` shortcuts.
  - `addSwaggerDefinition` and `generateSwagger`.
- `Scenarios` (`scenarios.dfy`): whole declaration sequences on a fresh
  registry, including the example book service (`example/BookService.ts`).

Three behaviours of the code are easy to miss:

- A token with fewer than two `;` makes the parser throw a `TypeError`
  (`splitted[2]` is `undefined`). The model returns that error. It does not
  treat the token's shape as a precondition.
- A placeholder is translated only when its name is all ASCII letters. So
  `/books/{book_id}` is bound literally, and is not bound as
  `/books/:book_id` (`PathTemplate.SamplePathWithUnderscore`).
- The header parameter built for an `auth` endpoint is dropped: the
  parameter list is reassigned right after it is pushed. So the documented
  parameters never contain it (`Registry.DocumentedParametersShape`).

## Model

| member | source | states |
|---|---|---|
| Js.ToLower | src/index.ts:18 | same length; each ASCII upper-case letter is mapped to its lower-case letter, every other character is kept |
| Js.ToUpper | src/index.ts:19 | same length; each ASCII lower-case letter is mapped to its upper-case letter, every other character is kept |
| Js.ToLowerIgnoresCase | src/index.ts:48 | a method in any case maps to one lower-case key: lower-casing the upper-cased method gives the lower-cased method, and lower-casing is idempotent |
| Js.Split | src/utils.ts:10 | splitting yields one piece more than the separator count, no piece holds the separator, and joining the pieces gives the input back |
| Js.SplitJoin | src/utils.ts:15 | splitting a join of separator-free pieces gives back exactly those pieces |
| Js.SplitPiece | src/utils.ts:15 | a string without the separator splits into itself alone |
| Utils.ExtractContextFromToken | src/utils.ts:9-17 | succeeds exactly when the token has at least two `;`, and otherwise fails with a `TypeError`; on success, author and organization hold no `;`, there is at least one role, no role holds `,` or `;`, and re-joining the three fields gives the token's first three `;`-fields |
| Utils.ContextRoundTrip | src/utils.ts:9-17 | any author, organization and non-empty role list without separators, encoded as a token with any trailing fields, parse back to the same context |
| Utils.SampleToken | src/index.ts:39 | a token of the same form as the auth header's example value, `u1;o1;READER,WRITER`, parses to author `u1`, organization `o1` and roles `READER`, `WRITER` |
| Utils.EmptyRoles | src/utils.ts:15 | an empty role field parses to the single empty role, as `"".split(',')` does |
| Utils.PathParameterType | src/utils.ts:23 | a path parameter's documented type is never empty: a missing or empty type becomes `string` |
| Utils.TransformUrlParameters | src/utils.ts:19-25 | no declared parameters give no output; otherwise one path parameter per declared one, in order, with its name and description, and its declared type when that is non-empty, else `string` |
| Utils.TransformBody | src/utils.ts:27-32 | no body gives no output; otherwise exactly one body parameter carrying the body's name, description, required flag, schema, type and items |
| Utils.TransformQuery | src/utils.ts:34-41 | no query gives no output; otherwise one query parameter per field, in order, with the field's name and required flag and the group's description, and nothing else |
| PathTemplate.LetterRun | src/index.ts:58 | the run is a prefix of letters that cannot be extended: the character after it, if any, is not a letter |
| PathTemplate.PlaceholderCharacterization | src/index.ts:58 | the scanner matches at a position exactly when the regular expression's `{`, one or more letters, `}` occurs there, with the name being the whole letter run |
| PathTemplate.Translate | src/index.ts:58 | the router path is never longer than the template |
| PathTemplate.TranslateFixedPoints | src/index.ts:58 | a template is left unchanged if and only if no placeholder occurs anywhere in it |
| PathTemplate.NoBraceIsPlaceholderFree | src/index.ts:58 | a template without `{` contains no placeholder, so it is bound as declared |
| PathTemplate.TranslateLeavesNoPlaceholder | src/index.ts:58 | the router path contains no placeholder any more |
| PathTemplate.TranslateIdempotent | src/index.ts:58 | translating a router path again changes nothing |
| PathTemplate.TranslatedLettersThenBrace | src/index.ts:58 | letters followed by `}` at the front of the output were copied from the front of the input, so the rewrite never creates them |
| PathTemplate.TranslateConcat | src/index.ts:58 | a template can be cut before any character that is neither a letter nor `}`, and the two sides translate independently |
| PathTemplate.TranslateReplacesPlaceholder | src/index.ts:58 | each `{name}` with a non-empty all-letter name becomes `:name`, and the text on each side translates on its own |
| PathTemplate.TranslateKeepsNonPlaceholder | src/index.ts:58 | a brace pair around an empty name, or a name with a non-letter, is copied unchanged and the text on each side translates on its own |
| PathTemplate.TranslateCopiesBraceFree | src/index.ts:58 | text without `{` is copied unchanged, whatever follows it |
| PathTemplate.SamplePathWithPlaceholder | src/index.ts:58 | `{id}` after a brace-free prefix becomes `:id` |
| PathTemplate.SamplePathWithUnderscore | src/index.ts:58 | `{book_id}` after a brace-free prefix is left as it is, because `_` is not a letter |
| PathTemplate.SamplePathInRouterForm | example/BookService.ts:69 | the example's `/books/:book_id` is bound unchanged |
| Transport.ArgumentBag | src/index.ts:61-81 | a key is present exactly when it is a route parameter (with parameters declared), the query's name or the body's name; the body wins over the query, the query over route parameters, and other keys hold the route parameter's string |
| Transport.RouteParams | src/index.ts:65 | the route parameters keep their keys and carry their values as strings |
| Transport.BuildArgs | src/index.ts:61-81 | the successive spreads build exactly the argument bag |
| Transport.RequestContext | src/index.ts:83 | without a truthy `auth` the context is null; with one, a missing header or a token with fewer than two `;` fails with a `TypeError`, and any other header yields exactly its parsed context |
| Transport.SelectResponse | src/index.ts:87-97 | 404 with no body exactly for a null or undefined result of a GET; any other result is sent with 200; a thrown object gets its truthy status or else 500, and `{error: message}`; the status is never 0; a thrown `null` or `undefined` yields no response but a `TypeError`, as reading its `status` throws inside the `catch` |
| Transport.HandleRequest | src/index.ts:60-98 | a request whose context cannot be read fails with that error before the handler runs; otherwise the result is the one chosen for the handler's outcome on the argument bag and the context; every failure is a `TypeError` |
| Registry.Responses | src/index.ts:22-29 | responses are present exactly when the success schema is truthy, and then hold only status 200, described `OK` and referring to that schema |
| Registry.DocumentedParametersShape | src/index.ts:31-46 | the documented parameters are one per path parameter, one for a body and one per query field, grouped path, body, query; the auth header parameter is never among them |
| Registry.DocumentedParametersNames | src/index.ts:42-46 | the path parameters lead the list in declaration order, and the query fields close it in declaration order |
| Registry.WithEntry | src/index.ts:48-53 | storing an operation makes it the entry for that path and method, creates the path's bucket when missing, and leaves every other entry as it was |
| Registry.ShortcutKeys | src/index.ts:132-135 | the four shortcuts are keyed `get`, `post`, `put`, `delete` |
| Registry.WithEntryKeepsLowerKeyed | src/index.ts:14-18 | storing under a lower-case key keeps every bucket non-empty and every method key lower-case |
| Registry.Registry.constructor | src/index.ts:10-11 | both dictionaries start empty and nothing is bound |
| Registry.Registry.AddSwaggerEndpoint | src/index.ts:13-53 | a repeated path and lower-cased method fails with `<METHOD> <path> has been already declared` and changes nothing; otherwise exactly that entry is stored with the documented operation and the definitions are untouched |
| Registry.Registry.Bind | src/index.ts:55-60 | the handler is bound under the lower-cased method and the translated path, and the documentation is untouched |
| Registry.Registry.Declare | src/index.ts:13-101 | a decorated handler: the registration's outcome, and a binding exactly when it succeeds |
| Registry.Registry.Get | src/index.ts:132 | a declaration under `get`, failing when `get` is already declared on the path |
| Registry.Registry.Post | src/index.ts:133 | a declaration under `post`, failing when `post` is already declared on the path |
| Registry.Registry.Put | src/index.ts:134 | a declaration under `put`, failing when `put` is already declared on the path |
| Registry.Registry.Delete | src/index.ts:135 | a declaration under `delete`, failing when `delete` is already declared on the path |
| Registry.Registry.AddSwaggerDefinition | src/index.ts:136-141 | a repeated name fails with `<name> model has been already defined` and keeps the first shape; otherwise the shape is stored and nothing else changes |
| Registry.Registry.GenerateSwagger | src/index.ts:104-126 | Swagger `2.0`, scheme `http`, JSON in and out, the configured version, title, description, host and base path, and the current paths and definitions; in a valid registry every documented path has at least one operation and every method key is lower case |
| Scenarios.EmptyDocument | src/index.ts:104-126 | a document generated before any declaration has no paths and no definitions |
| Scenarios.DocumentedGet | src/index.ts:22-58 | a GET with a success schema is documented under `get` with exactly the 200 response referring to it, and is bound under the translated path |
| Scenarios.DuplicateEndpoint | src/index.ts:18-20 | declaring a path and method twice, in any letter case, fails with the conflict message, keeps the first documentation and binds only once |
| Scenarios.MethodsSharePath | src/index.ts:14-18 | two different methods on one path are both accepted and share the path's entry |
| Scenarios.DefinitionTwice | example/BookService.ts:28 | constructing the book service twice fails on the second `Book` definition and keeps the first shape |
| Scenarios.BookService | example/BookService.ts:26-131 | the example service's five routes and one model all register; the document has exactly its two paths with `get`/`post` and `get`/`put`/`delete`, and one model; five routes are bound |
| Scenarios.DeclareCollection | example/BookService.ts:31-42 | the collection path ends up with `get` and `post` |
| Scenarios.DeclareItem | example/BookService.ts:68-119 | the item path ends up with `get`, `put` and `delete`, and the collection path is untouched |
| Scenarios.DeclareItemChanges | example/BookService.ts:90-119 | after `get`, the item path gains `put` and `delete` |

## Left out

- Express itself is not part of this model. That covers the app setter `SET_EXPRESS_APP`, actual routing and HTTP I/O. A binding is recorded as the pair (lower-cased method, router path) that would be passed to the app. An unset app is not modelled.
- The handler is a pure function of the argument bag and the context, and its promise is already settled: `await` and `Promise.resolve` are not modelled.
- What happens to a rejection that escapes the adapter depends on the Express version. An unparseable token (before the `try`) and a thrown `null` or `undefined` (inside the `catch`) are such rejections. `Transport.HandleRequest` returns the error instead of a response.
- Transport.SelectResponse: a thrown object's `status` is modelled as an optional integer and its `message` as an optional string. A non-numeric status and a non-string message are not modelled. The 200 of a sent result is only `res.send`'s default. Express's own handling of the sent value is not modelled, for example Express 4 treating a lone number as the status.
- The `console.log` trace of each request is left out.
- The decorator's descriptor plumbing is left out, including `target`, `propertyKey` and the returned `target`. Besides looking up the handler, the name appears only in the log line.
- Numbers are integers. A thrown status is an optional integer, and a non-numeric status is not modelled.
- Case mapping covers ASCII letters only; JavaScript's full Unicode case mapping is not modelled.
- Keys are plain strings. JavaScript object prototype keys (`__proto__`, `constructor`, …) are not modelled. In the source these can make a never-declared path or name look declared.
- Registry.Registry.GenerateSwagger: returns a snapshot of `paths`. The source returns the live `paths` object, so later declarations show up in a document generated earlier. That aliasing is not modelled. The `definitions` copy is the same in both.
- Registry.Registry.AddSwaggerEndpoint: the source creates an empty bucket for a new path before its duplicate check. The model creates the bucket together with the entry. Both end in the same state, because that check cannot fail on a fresh bucket.
- Schemas and JSON payloads are opaque values. Their contents are never inspected by the code.
