/** The pure helpers of the registrar (src/utils.ts): the identity-token
    parser and the three transforms from declared parameters to OpenAPI 2.0
    Parameter Objects. */
module Utils {
  import opened Wrappers
  import opened Js
  import opened Types

  // ---------------------------------------------------------------------
  // extractContextFromToken
  // ---------------------------------------------------------------------

  /** Parses `author;organization;role1,role2,...`. Fields after the third are
      ignored; a token with fewer than three fields throws a TypeError, since
      the third field is `undefined` and has no `split`. */
  function ExtractContextFromToken(token: string): (r: Result<Context, Error>)
    ensures r.Success? <==> Count(token, ';') >= 2
    ensures r.Failure? ==> r.error == TypeError
    ensures r.Success? ==>
      && ';' !in r.value.author && ';' !in r.value.organization
      && |r.value.roles| >= 1
      && (forall i :: 0 <= i < |r.value.roles| ==> ',' !in r.value.roles[i] && ';' !in r.value.roles[i])
      && Join([r.value.author, r.value.organization, Join(r.value.roles, ',')], ';')
         == Join(Split(token, ';')[..3], ';')
  {
    var fields := Split(token, ';');
    if |fields| < 3 then Failure(TypeError)
    else
      var roles := Split(fields[2], ',');
      assert forall i :: 0 <= i < |roles| ==> ';' !in roles[i] by {
        forall i | 0 <= i < |roles| ensures ';' !in roles[i] {
          JoinedPieceAvoids(roles, ',', ';', i);
        }
      }
      assert fields[..3] == [fields[0], fields[1], fields[2]];
      Success(Context(fields[0], fields[1], roles))
  }

  /** A character absent from a joined string is absent from each piece. */
  lemma {:induction false} JoinedPieceAvoids(pieces: seq<string>, sep: char, c: char, i: nat)
    requires i < |pieces|
    requires c !in Join(pieces, sep)
    ensures c !in pieces[i]
  {
    if |pieces| > 1 {
      assert Join(pieces, sep) == pieces[0] + [sep] + Join(pieces[1..], sep);
      if i > 0 {
        JoinedPieceAvoids(pieces[1..], sep, c, i - 1);
      }
    }
  }

  /** Joining pieces that avoid `c` with a separator other than `c` avoids `c`. */
  lemma {:induction false} JoinAvoids(pieces: seq<string>, sep: char, c: char)
    requires c != sep
    requires forall i :: 0 <= i < |pieces| ==> c !in pieces[i]
    ensures c !in Join(pieces, sep)
  {
    if |pieces| > 1 {
      JoinAvoids(pieces[1..], sep, c);
    }
  }

  /** The wire format round-trips: a token built from an author, an
      organization, a non-empty role list and any further fields parses back
      into exactly that author, organization and role list. */
  lemma ContextRoundTrip(author: string, organization: string, roles: seq<string>, extra: seq<string>)
    requires ';' !in author && ';' !in organization
    requires |roles| >= 1
    requires forall i :: 0 <= i < |roles| ==> ',' !in roles[i] && ';' !in roles[i]
    requires forall i :: 0 <= i < |extra| ==> ';' !in extra[i]
    ensures ExtractContextFromToken(Join([author, organization, Join(roles, ',')] + extra, ';'))
            == Success(Context(author, organization, roles))
  {
    var fields := [author, organization, Join(roles, ',')] + extra;
    JoinAvoids(roles, ',', ';');
    SplitJoin(fields, ';');
    SplitJoin(roles, ',');
  }

  /** Joining three fields with the separator. */
  lemma JoinThree(a: string, b: string, c: string, sep: char)
    ensures Join([a, b, c], sep) == a + [sep] + b + [sep] + c
  {
    assert [a, b, c][1..] == [b, c];
    assert [b, c][1..] == [c];
    assert Join([c], sep) == c;
    assert Join([b, c], sep) == b + [sep] + c;
    assert Join([a, b, c], sep) == a + [sep] + (b + [sep] + c);
  }

  /** A token of the form of the auth header's example value
      (`user_id;organization_id;READER,WRITER`). */
  lemma SampleToken(token: string)
    requires token == "u1;o1;READER,WRITER"
    ensures ExtractContextFromToken(token) == Success(Context("u1", "o1", ["READER", "WRITER"]))
  {
    var roles := ["READER", "WRITER"];
    assert roles[1..] == ["WRITER"];
    assert Join(roles, ',') == "READER" + [','] + "WRITER";
    JoinThree("u1", "o1", Join(roles, ','), ';');
    assert "u1" + [';'] + "o1" + [';'] + ("READER" + [','] + "WRITER") == token;
    var fields := ["u1", "o1", Join(roles, ',')];
    assert fields + [] == fields;
    assert Join(fields, ';') == token;
    ContextRoundTrip("u1", "o1", roles, []);
  }

  /** An empty third field gives one empty role, not an empty list. */
  lemma EmptyRoles(author: string, organization: string)
    requires ';' !in author && ';' !in organization
    ensures ExtractContextFromToken(author + ";" + organization + ";")
            == Success(Context(author, organization, [""]))
  {
    var roles: seq<string> := [""];
    assert Join(roles, ',') == "";
    JoinThree(author, organization, "", ';');
    assert author + [';'] + organization + [';'] + "" == author + ";" + organization + ";";
    assert [author, organization, Join(roles, ',')] + [] == [author, organization, ""];
    ContextRoundTrip(author, organization, roles, []);
  }

  // ---------------------------------------------------------------------
  // Parameter transforms
  // ---------------------------------------------------------------------

  /** `param.type || 'string'` */
  function PathParameterType(param: UrlParameter): (t: string)
    ensures t != ""
    ensures TruthyString(param.typ) ==> t == param.typ.value
    ensures !TruthyString(param.typ) ==> t == "string"
  {
    if TruthyString(param.typ) then param.typ.value else "string"
  }

  /** transformURLParameters2Swagger: each declared path parameter, in order,
      keeps its name and description, is located in the path and gets a
      non-empty type (`"string"` when the declared one is missing or empty). */
  function TransformUrlParameters(parameters: Option<seq<UrlParameter>>): (r: seq<Parameter>)
    ensures parameters.None? ==> r == []
    ensures parameters.Some? ==> |r| == |parameters.value|
    ensures parameters.Some? ==> forall i :: 0 <= i < |r| ==>
      && r[i].name == parameters.value[i].name
      && r[i].description == parameters.value[i].description
      && r[i].location == InPath
      && r[i].typ == Some(PathParameterType(parameters.value[i]))
      && r[i].required.None? && r[i].schema.None? && r[i].items.None? && r[i].example.None?
  {
    match parameters
    case None => []
    case Some(ps) =>
      seq(|ps|, i requires 0 <= i < |ps| =>
        Parameter(ps[i].name, InPath, ps[i].description, Some(PathParameterType(ps[i])),
                  None, None, None, None))
  }

  /** transformBody2Swagger: the declared body, when there is one, becomes
      exactly one parameter located in the body that keeps all its fields. */
  function TransformBody(body: Option<BodyParameter>): (r: seq<Parameter>)
    ensures body.None? ==> r == []
    ensures body.Some? ==> |r| == 1 && r[0].location == InBody
    ensures body.Some? ==> var b := body.value;
      && r[0].name == b.name && r[0].description == b.description
      && r[0].required == Some(b.required) && r[0].schema == b.schema
      && r[0].typ == Some(b.typ) && r[0].items == b.items && r[0].example.None?
  {
    match body
    case None => []
    case Some(b) => [Parameter(b.name, InBody, b.description, Some(b.typ), Some(b.required), b.schema, b.items, None)]
  }

  /** transformQuery2Swagger: one parameter per field of the query group, in
      field order, located in the query, named after the field, described by
      the group and carrying the field's `required` flag; the field's type and
      items are not carried over. */
  function TransformQuery(query: Option<QueryParameter>): (r: seq<Parameter>)
    ensures query.None? ==> r == []
    ensures query.Some? ==> |r| == |query.value.items|
    ensures query.Some? ==> forall i :: 0 <= i < |r| ==>
      && r[i].location == InQuery
      && r[i].name == query.value.items[i].name
      && r[i].description == query.value.description
      && r[i].required == query.value.items[i].required
      && r[i].typ.None? && r[i].items.None? && r[i].schema.None? && r[i].example.None?
  {
    match query
    case None => []
    case Some(q) =>
      seq(|q.items|, i requires 0 <= i < |q.items| =>
        Parameter(q.items[i].name, InQuery, q.description, None, q.items[i].required, None, None, None))
  }
}
