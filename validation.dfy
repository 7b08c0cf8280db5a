/** The request validators: express-validator rule chains for creating and updating a
    post, for an id in the path and for the search query. Every rule of a chain is checked
    and each failing rule contributes one error; `optional()` skips a chain when the field
    is absent, and a required field that is absent is checked as the empty string. The
    `trim()` at the end of a chain rewrites the field after its rules have run. */
module Validation {
  import opened Text
  import opened Http

  /** The value of `tags` in a request body: a JSON array of strings, or a string. */
  datatype TagsValue = TagList(items: seq<string>) | TagText(text: string)

  /** A request body; None is a field the client did not send. */
  datatype PostBody = PostBody(
    titulo: Option<string>,
    conteudo: Option<string>,
    autor: Option<string>,
    resumo: Option<string>,
    tags: Option<TagsValue>)

  /** The query string of a listing or search. */
  datatype SearchQuery = SearchQuery(q: Option<string>, page: Option<string>, limit: Option<string>)

  const TituloRequired: string := "O título é obrigatório"
  const TituloLength: string := "O título deve ter entre 3 e 200 caracteres"
  const ConteudoRequired: string := "O conteúdo é obrigatório"
  const ConteudoLength: string := "O conteúdo deve ter pelo menos 10 caracteres"
  const AutorRequired: string := "O autor é obrigatório"
  const AutorLength: string := "O nome do autor deve ter entre 2 e 100 caracteres"
  const ResumoLength: string := "O resumo não pode exceder 300 caracteres"
  const TagsNotArray: string := "As tags devem ser um array"
  const TooManyTags: string := "Máximo de 10 tags permitidas"
  const InvalidId: string := "ID inválido"
  const TermLength: string := "Termo de busca deve ter entre 1 e 100 caracteres"
  const PageInvalid: string := "Página deve ser um número inteiro maior que 0"
  const LimitInvalid: string := "Limite deve ser um número entre 1 e 50"
  const InvalidData: string := "Dados inválidos"

  /** One error when the rule fails, none when it holds. */
  function Check(ok: bool, location: string, path: string, msg: string): (errs: seq<FieldError>)
    ensures errs == [] <==> ok
  {
    if ok then [] else [FieldError(location, path, msg)]
  }

  // ---------------------------------------------------------------- the rules

  /** `isMongoId()`: 24 hexadecimal digits. */
  predicate IsMongoId(id: string)
  {
    |id| == 24 && AllDigits(id, true)
  }

  /** `isInt({ min, max })`: the integer pattern, then the bounds on its value. */
  predicate IsIntWithin(s: string, min: int, max: Option<int>)
  {
    IsIntString(s) && min <= IntStringValue(s) && (max.Some? ==> IntStringValue(s) <= max.value)
  }

  /** `value.length > 10` of the custom rule: the number of entries of an array, the
      number of characters of a string. */
  function TagsLength(v: TagsValue): nat
  {
    match v
    case TagList(items) => |items|
    case TagText(text) => |text|
  }

  /** `body('tags').optional().isArray().custom(...)`, the same in both post chains. */
  function TagsErrors(tags: Option<TagsValue>): (errs: seq<FieldError>)
    ensures errs == [] <==> tags.None? || (tags.value.TagList? && |tags.value.items| <= 10)
    ensures tags.Some? && tags.value.TagList? && |tags.value.items| > 10 ==>
              errs == [FieldError("body", "tags", TooManyTags)]
    ensures tags.Some? && tags.value.TagText? ==>
              && FieldError("body", "tags", TagsNotArray) in errs
              && (FieldError("body", "tags", TooManyTags) in errs <==> |tags.value.text| > 10)
  {
    if tags.None? then []
    else Check(tags.value.TagList?, "body", "tags", TagsNotArray)
           + Check(TagsLength(tags.value) <= 10, "body", "tags", TooManyTags)
  }

  /** A chain `body(path).optional().isLength(...)`: the length rule on a present value. */
  function OptionalLength(v: Option<string>, path: string, min: nat, max: Option<nat>, msg: string)
    : (errs: seq<FieldError>)
    ensures errs == [] <==> v.None? || (min <= |v.value| && (max.Some? ==> |v.value| <= max.value))
  {
    if v.None? then []
    else Check(min <= |v.value| && (max.Some? ==> |v.value| <= max.value), "body", path, msg)
  }

  /** A chain `body(path).notEmpty().isLength(...)`: both rules on the value, an absent
      value counting as the empty string. */
  function RequiredLength(v: Option<string>, path: string, min: nat, max: Option<nat>,
                          required: string, msg: string): (errs: seq<FieldError>)
    requires min >= 1
    ensures errs == [] <==> v.Some? && min <= |v.value| && (max.Some? ==> |v.value| <= max.value)
    ensures v.None? ==> errs == [FieldError("body", path, required), FieldError("body", path, msg)]
  {
    var s := GetOr(v, "");
    Check(s != "", "body", path, required)
      + Check(min <= |s| && (max.Some? ==> |s| <= max.value), "body", path, msg)
  }

  // ---------------------------------------------------------------- the chains

  /** The bounds on a present body field, shared by both post chains. */
  predicate TituloOk(v: Option<string>)   { v.None? || 3 <= |v.value| <= 200 }
  predicate ConteudoOk(v: Option<string>) { v.None? || 10 <= |v.value| }
  predicate AutorOk(v: Option<string>)    { v.None? || 2 <= |v.value| <= 100 }
  predicate ResumoOk(v: Option<string>)   { v.None? || |v.value| <= 300 }
  predicate TagsOk(v: Option<TagsValue>)  { v.None? || (v.value.TagList? && |v.value.items| <= 10) }

  predicate BodyFieldsOk(b: PostBody)
  {
    TituloOk(b.titulo) && ConteudoOk(b.conteudo) && AutorOk(b.autor) && ResumoOk(b.resumo) && TagsOk(b.tags)
  }

  /** `validateCreatePost`: a create request passes exactly when title, content and
      author are sent and every field sent is within its bounds. */
  function CreateErrors(b: PostBody): (errs: seq<FieldError>)
    ensures errs == [] <==> b.titulo.Some? && b.conteudo.Some? && b.autor.Some? && BodyFieldsOk(b)
  {
    RequiredLength(b.titulo, "titulo", 3, Some(200), TituloRequired, TituloLength)
      + RequiredLength(b.conteudo, "conteudo", 10, None, ConteudoRequired, ConteudoLength)
      + RequiredLength(b.autor, "autor", 2, Some(100), AutorRequired, AutorLength)
      + OptionalLength(b.resumo, "resumo", 0, Some(300), ResumoLength)
      + TagsErrors(b.tags)
  }

  /** `validateUpdatePost`: the id, then every body field as optional. An update passes
      exactly when the id is well formed and every field sent obeys the bounds of a
      create; any field may be left out. */
  function UpdateErrors(id: string, b: PostBody): (errs: seq<FieldError>)
    ensures errs == [] <==> IsMongoId(id) && BodyFieldsOk(b)
  {
    Check(IsMongoId(id), "params", "id", InvalidId)
      + OptionalLength(b.titulo, "titulo", 3, Some(200), TituloLength)
      + OptionalLength(b.conteudo, "conteudo", 10, None, ConteudoLength)
      + OptionalLength(b.autor, "autor", 2, Some(100), AutorLength)
      + OptionalLength(b.resumo, "resumo", 0, Some(300), ResumoLength)
      + TagsErrors(b.tags)
  }

  /** `validateId` */
  function IdErrors(id: string): (errs: seq<FieldError>)
    ensures errs == [] <==> IsMongoId(id)
  {
    Check(IsMongoId(id), "params", "id", InvalidId)
  }

  /** The paging parameters a search request may carry. */
  predicate PagingOk(query: SearchQuery)
  {
    && (query.page.None? || IsIntWithin(query.page.value, 1, None))
    && (query.limit.None? || IsIntWithin(query.limit.value, 1, Some(50)))
  }

  /** `validateSearch`: a search passes exactly when a term sent has 1 to 100
      characters, a page sent is an integer of at least 1 and a limit sent is an integer
      from 1 to 50. */
  function SearchErrors(query: SearchQuery): (errs: seq<FieldError>)
    ensures errs == [] <==> (query.q.None? || 1 <= |query.q.value| <= 100) && PagingOk(query)
  {
    (if query.q.None? then [] else Check(1 <= |query.q.value| <= 100, "query", "q", TermLength))
      + (if query.page.None? then [] else Check(IsIntWithin(query.page.value, 1, None), "query", "page", PageInvalid))
      + (if query.limit.None? then [] else Check(IsIntWithin(query.limit.value, 1, Some(50)), "query", "limit", LimitInvalid))
  }

  // ---------------------------------------------------------------- sanitizers

  function TrimPresent(v: Option<string>): (r: Option<string>)
    ensures r.None? <==> v.None?
    ensures r.Some? ==> r.value == Trim(v.value) && IsTrimmed(r.value) && |r.value| <= |v.value|
  {
    if v.None? then None else Some(Trim(v.value))
  }

  /** The body as the post chains leave it: the text fields sent are trimmed. */
  function SanitizeBody(b: PostBody): (r: PostBody)
    ensures r.tags == b.tags
    ensures r.titulo == TrimPresent(b.titulo) && r.conteudo == TrimPresent(b.conteudo)
    ensures r.autor == TrimPresent(b.autor) && r.resumo == TrimPresent(b.resumo)
  {
    b.(titulo := TrimPresent(b.titulo), conteudo := TrimPresent(b.conteudo),
       autor := TrimPresent(b.autor), resumo := TrimPresent(b.resumo))
  }

  /** The query as `validateSearch` leaves it: a term sent is trimmed. */
  function SanitizeSearch(query: SearchQuery): (r: SearchQuery)
    ensures r.page == query.page && r.limit == query.limit && r.q.None? == query.q.None?
    ensures r.q == TrimPresent(query.q)
  {
    query.(q := TrimPresent(query.q))
  }

  /** A term of whitespace passes the length rule and reaches the handler empty. */
  lemma BlankTermPassesAsEmpty()
    ensures SearchErrors(SearchQuery(Some(" "), None, None)) == []
    ensures SanitizeSearch(SearchQuery(Some(" "), None, None)).q == Some("")
  {
    assert AllSpace(" ");
  }

  // ---------------------------------------------------------------- the outcome

  /** `handleValidationErrors`: a 400 reply listing the errors, or None to go on to the
      route's handler. */
  function HandleValidationErrors(errors: seq<FieldError>): (r: Option<Reply>)
    ensures r.None? <==> errors == []
    ensures r.Some? ==> r.value == Reply(400, false, InvalidData, FieldErrors(errors))
  {
    if errors == [] then None else Some(Reply(400, false, InvalidData, FieldErrors(errors)))
  }

  /** A create request without a title, content or author is answered 400 with
      `success: false` and "Dados inválidos", and the missing field is reported as required. */
  lemma MissingFieldRejected(b: PostBody)
    requires b.titulo.None? || b.conteudo.None? || b.autor.None?
    ensures HandleValidationErrors(CreateErrors(b)) ==
              Some(Reply(400, false, InvalidData, FieldErrors(CreateErrors(b))))
    ensures b.titulo.None? ==> FieldError("body", "titulo", TituloRequired) in CreateErrors(b)
    ensures b.conteudo.None? ==> FieldError("body", "conteudo", ConteudoRequired) in CreateErrors(b)
    ensures b.autor.None? ==> FieldError("body", "autor", AutorRequired) in CreateErrors(b)
  {
    var t := RequiredLength(b.titulo, "titulo", 3, Some(200), TituloRequired, TituloLength);
    var c := RequiredLength(b.conteudo, "conteudo", 10, None, ConteudoRequired, ConteudoLength);
    var a := RequiredLength(b.autor, "autor", 2, Some(100), AutorRequired, AutorLength);
    var rest := OptionalLength(b.resumo, "resumo", 0, Some(300), ResumoLength) + TagsErrors(b.tags);
    assert CreateErrors(b) == t + c + a + rest;
    if b.titulo.None? { assert t[0] == (t + c + a + rest)[0]; }
    if b.conteudo.None? { assert c[0] == (t + c + a + rest)[|t|]; }
    if b.autor.None? { assert a[0] == (t + c + a + rest)[|t| + |c|]; }
  }
}
