/** The declaration shapes of the registrar (src/types.ts, repeated at the
    end of src/index.ts). Optional properties are `Option`s. */
module Types {
  import opened Wrappers
  import opened Js

  /** What the registrar throws: a declaration conflict with its message,
      or the TypeError of reading a property of `undefined`. */
  datatype Error = DeclarationConflict(message: string) | TypeError

  /** The identity handed to a handler that requires authorization. */
  datatype Context = Context(author: string, organization: string, roles: seq<string>)

  /** A path parameter as declared (`SwaggerURLParameter`). */
  datatype UrlParameter = UrlParameter(name: string, description: string, typ: Option<string>)

  /** The request body as declared (`SwaggerBodyParameter`). */
  datatype BodyParameter = BodyParameter(
    name: string,
    description: string,
    required: bool,
    schema: Option<JsValue>,
    typ: string,
    items: Option<JsValue>)

  /** One field of a query group (`SwaggerQueryField`). */
  datatype QueryField = QueryField(name: string, typ: string, required: Option<bool>, items: Option<JsValue>)

  /** A query group (`SwaggerQueryParameter`): one name for the whole query
      string and a shared description for its fields. */
  datatype QueryParameter = QueryParameter(name: string, description: string, items: seq<QueryField>)

  /** The `in` field of a Parameter Object of OpenAPI 2.0. */
  datatype Location = InPath | InBody | InQuery | InHeader

  /** A documented parameter (`SwaggerParameter`): the fields the transforms
      copy or set; a field absent from the emitted object is `None`. */
  datatype Parameter = Parameter(
    name: string,
    location: Location,
    description: string,
    typ: Option<string>,
    required: Option<bool>,
    schema: Option<JsValue>,
    items: Option<JsValue>,
    example: Option<string>)

  /** One endpoint declaration (`SwaggerEndpoint`). */
  datatype Endpoint = Endpoint(
    path: string,
    auth: Option<string>,
    description: Option<string>,
    tags: Option<seq<string>>,
    parameters: Option<seq<UrlParameter>>,
    query: Option<QueryParameter>,
    body: Option<BodyParameter>,
    success: Option<string>)

  /** The fixed metadata of the generated document (`SwaggerConfig`). */
  datatype SwaggerConfig = SwaggerConfig(
    version: string,
    name: string,
    description: string,
    host: string,
    basePath: string)
}
