/** The post controller: the handlers behind `/api/posts`. Each reads its request, calls
    the collection and answers with a JSON reply; an error from the collection is passed on
    to the error middleware (`next(error)`), which answers for it. */
module PostController {
  import opened Text
  import opened PostModel
  import opened Http
  import opened ErrorHandler
  import opened Validation

  const PostNotFound: string := "Post não encontrado"
  const PostFound: string := "Post encontrado com sucesso"
  const PostCreated: string := "Post criado com sucesso"
  const PostUpdated: string := "Post atualizado com sucesso"
  const PostDeleted: string := "Post excluído com sucesso"
  const PostDeletedForever: string := "Post excluído permanentemente"
  const PostRestored: string := "Post restaurado com sucesso"
  const TermRequired: string := "Parâmetro de busca \"q\" é obrigatório"

  const DefaultPage: int := 1
  const DefaultLimit: int := 10

  // ---------------------------------------------------------------- paging

  /** `parseInt(raw) || fallback`: a missing value, one that does not parse (NaN) and
      zero are all falsy and give the fallback. */
  function NumberParam(raw: Option<string>, fallback: int): (n: int)
    ensures raw.None? ==> n == fallback
    ensures n == fallback || (raw.Some? && ParseInt(raw.value) == Some(n) && n != 0)
    ensures raw.Some? && ParseInt(raw.value).Some? && ParseInt(raw.value).value != 0 ==>
              n == ParseInt(raw.value).value
  {
    if raw.None? then fallback
    else
      var v := ParseInt(raw.value);
      if v.None? || v.value == 0 then fallback else v.value
  }

  /** A query that passed `validateSearch` is read by `parseInt` as the validator read it:
      a page of at least 1 and a limit from 1 to 50, the defaults when not sent. */
  lemma ValidatedPaging(query: SearchQuery)
    requires PagingOk(query)
    ensures NumberParam(query.page, DefaultPage) >= 1
    ensures 1 <= NumberParam(query.limit, DefaultLimit) <= 50
    ensures query.page.Some? ==> NumberParam(query.page, DefaultPage) == IntStringValue(query.page.value)
    ensures query.limit.Some? ==> NumberParam(query.limit, DefaultLimit) == IntStringValue(query.limit.value)
  {
    if query.page.Some? {
      ParseIntOfIntString(query.page.value);
    }
    if query.limit.Some? {
      ParseIntOfIntString(query.limit.value);
    }
  }

  /** `Math.ceil(total / limit)`: the fewest pages of `limit` posts that hold `total`. */
  function TotalPages(total: nat, limit: nat): (n: nat)
    requires limit >= 1
    ensures total <= n * limit
    ensures n == 0 || (n - 1) * limit < total
  {
    if total == 0 then 0 else 1 + TotalPages(total - Min(limit, total), limit)
  }

  /** The `pagination` object of a listing. */
  function Paginate(page: int, limit: nat, total: nat): (p: Pagination)
    requires limit >= 1
    ensures p.totalPages == TotalPages(total, limit) && p.totalPosts == total
    ensures p.currentPage == page && p.limit == limit
    ensures p.hasNextPage <==> page < p.totalPages
    ensures p.hasNextPage <==> page * limit < total
    ensures p.hasPrevPage <==> page > 1
  {
    var n := TotalPages(total, limit);
    PageBeforeLast(page, limit, total, n);
    Pagination(page, n, total, page < n, page > 1, limit)
  }

  /** Page `page` comes before the last page exactly when the posts go on past it. */
  lemma PageBeforeLast(page: int, limit: nat, total: nat, n: nat)
    requires limit >= 1 && total <= n * limit && (n == 0 || (n - 1) * limit < total)
    ensures page < n <==> page * limit < total
  {
    if page < n {
      MulMonotonic(page, n - 1, limit);
      assert (n - 1) * limit < total by {
        if n == 0 {
          assert (n - 1) * limit < 0;
        }
      }
    } else {
      MulMonotonic(n, page, limit);
    }
  }

  lemma {:induction false} MulMonotonic(a: int, b: int, c: nat)
    requires a <= b
    ensures a * c <= b * c
  {
    if c > 0 {
      MulMonotonic(a, b, c - 1);
      assert a * c == a * (c - 1) + a && b * c == b * (c - 1) + b;
    }
  }

  /** `Encontrados ${total} posts para "${term}"` */
  function FoundMessage(total: nat, term: string): string
  {
    "Encontrados " + DecimalString(total) + " posts para \"" + term + "\""
  }

  /** `Total de ${total} posts` */
  function TotalMessage(total: nat): string
  {
    "Total de " + DecimalString(total) + " posts"
  }

  // ---------------------------------------------------------------- listing and search

  /** `listPosts`: the requested page of the active posts (of those matching a truthy
      term), newest first, with the pagination over all of them. */
  function ListPosts(store: PostCollection, query: SearchQuery): (reply: Reply)
    reads store
    requires store.Valid() && PagingOk(query)
    ensures reply.status == 200 && reply.success
    ensures reply.payload.Listing? && reply.payload.searchTerm.None?
    ensures var page, limit := NumberParam(query.page, DefaultPage), NumberParam(query.limit, DefaultLimit);
      && page >= 1 && 1 <= limit <= 50
      && reply.payload.posts == store.SearchPosts(query.q, limit, page)
      && reply.payload.pagination == Paginate(page, limit, |store.Ranked(query.q)|)
    ensures reply.message ==
              if HasTerm(query.q) then FoundMessage(|store.Ranked(query.q)|, query.q.value)
              else TotalMessage(|store.Ranked(query.q)|)
  {
    ValidatedPaging(query);
    var page: nat := NumberParam(query.page, DefaultPage);
    var limit: nat := NumberParam(query.limit, DefaultLimit);
    var posts := store.SearchPosts(query.q, limit, page);
    var total := store.CountPosts(query.q);
    Reply(200, true, if HasTerm(query.q) then FoundMessage(total, query.q.value) else TotalMessage(total),
          Listing(posts, Paginate(page, limit, total), None))
  }

  /** `searchPosts`: a falsy term is refused with 400 before the collection is asked;
      otherwise the listing, with the term echoed back. */
  function SearchPosts(store: PostCollection, query: SearchQuery): (reply: Reply)
    reads store
    requires store.Valid() && PagingOk(query)
    ensures !HasTerm(query.q) ==> reply == Reply(400, false, TermRequired, NoData)
    ensures HasTerm(query.q) ==>
              && reply.status == 200 && reply.success
              && reply.message == ListPosts(store, query).message
              && reply.payload == ListPosts(store, query).payload.(searchTerm := query.q)
  {
    ValidatedPaging(query);
    var page: nat := NumberParam(query.page, DefaultPage);
    var limit: nat := NumberParam(query.limit, DefaultLimit);
    if !HasTerm(query.q) then Reply(400, false, TermRequired, NoData)
    else
      var term := query.q.value;
      var posts := store.SearchPosts(query.q, limit, page);
      var total := store.CountPosts(query.q);
      Reply(200, true, FoundMessage(total, term), Listing(posts, Paginate(page, limit, total), Some(term)))
  }

  /** `GET /api/posts`: `validateSearch`, then `listPosts` on the sanitized query. */
  function ListRoute(store: PostCollection, query: SearchQuery): (reply: Reply)
    reads store
    requires store.Valid()
    ensures SearchErrors(query) != [] ==> reply == Reply(400, false, InvalidData, FieldErrors(SearchErrors(query)))
    ensures SearchErrors(query) == [] ==> reply == ListPosts(store, SanitizeSearch(query))
  {
    match HandleValidationErrors(SearchErrors(query))
    case Some(rejected) => rejected
    case None => ListPosts(store, SanitizeSearch(query))
  }

  /** `GET /api/posts/search`: `validateSearch`, then `searchPosts` on the sanitized query. */
  function SearchRoute(store: PostCollection, query: SearchQuery): (reply: Reply)
    reads store
    requires store.Valid()
    ensures SearchErrors(query) != [] ==> reply == Reply(400, false, InvalidData, FieldErrors(SearchErrors(query)))
    ensures SearchErrors(query) == [] ==> reply == SearchPosts(store, SanitizeSearch(query))
  {
    match HandleValidationErrors(SearchErrors(query))
    case Some(rejected) => rejected
    case None => SearchPosts(store, SanitizeSearch(query))
  }

  /** A term of blanks gets past the validator (it has a character) but is trimmed to the
      empty string, so the search answers that the term is required. */
  lemma BlankSearchRefused(store: PostCollection)
    requires store.Valid()
    ensures SearchRoute(store, SearchQuery(Some(" "), None, None)) == Reply(400, false, TermRequired, NoData)
  {
    BlankTermPassesAsEmpty();
  }

  /** The pages 1 to TotalPages, one after the other, are exactly the ranked result: no
      post is skipped and none is listed twice. */
  lemma {:induction false} PagesCoverResult(store: PostCollection, term: Option<string>, limit: nat)
    requires store.Valid() && limit >= 1
    ensures FirstPages(store.Ranked(term), limit, TotalPages(|store.Ranked(term)|, limit)) == store.Ranked(term)
  {
    var s := store.Ranked(term);
    var n := TotalPages(|s|, limit);
    FirstPagesArePrefix(s, limit, n);
    assert Min(n * limit, |s|) == |s|;
  }

  /** Page `page + 1` has posts exactly when the pagination of page `page` says there is a
      next page. */
  lemma NextPageHasPosts(store: PostCollection, term: Option<string>, limit: nat, page: nat)
    requires store.Valid() && limit >= 1 && page >= 1
    ensures Paginate(page, limit, |store.Ranked(term)|).hasNextPage <==> store.SearchPosts(term, limit, page + 1) != []
  {
    assert Offset(page + 1, limit) == page * limit;
  }

  /** With a limit at least the number of matches, page 1 holds all of them. */
  lemma FirstPageHoldsAll(store: PostCollection, term: Option<string>, limit: nat)
    requires store.Valid() && limit >= 1 && |store.Ranked(term)| <= limit
    ensures store.SearchPosts(term, limit, 1) == store.Ranked(term)
    ensures TotalPages(|store.Ranked(term)|, limit) <= 1
  {
    var s := store.Ranked(term);
    assert Offset(1, limit) == 0;
    assert store.SearchPosts(term, limit, 1) == Window(s, 0, limit);
    assert Window(s, 0, limit) == s;
  }

  /** An empty collection lists nothing, on zero pages, with no next page. */
  lemma EmptyListing(store: PostCollection, query: SearchQuery)
    requires store.Valid() && store.docs == map[] && PagingOk(query)
    ensures ListPosts(store, query).payload.posts == []
    ensures ListPosts(store, query).payload.pagination.totalPosts == 0
    ensures ListPosts(store, query).payload.pagination.totalPages == 0
    ensures !ListPosts(store, query).payload.pagination.hasNextPage
  {
    assert forall p :: p !in store.Ranked(query.q);
  }

  // ---------------------------------------------------------------- errors

  /** The error a failed write hands to `next`. */
  function AsError(e: StoreError): (err: Error)
    ensures e.ValidationFailed? ==> Classify(err) == Outcome(400, MessageOrDefault(Join(e.messages, ", ")))
    ensures e.DuplicateKey? ==> Classify(err) == Outcome(400, DuplicateResource)
    ensures e.DocumentMissing? ==> Classify(err).status == 500
  {
    match e
    case ValidationFailed(messages) => Error("ValidationError", None, None, "Post validation failed", messages)
    case DuplicateKey => Error("MongoServerError", Some(DuplicateKeyCode), None, "E11000 duplicate key error", [])
    case DocumentMissing => Error("DocumentNotFoundError", None, None, "No document found", [])
  }

  /** The reply for a document that fails the schema. */
  function Rejected(doc: Post): Reply
  {
    Reply(400, false, MessageOrDefault(Join(SchemaErrors(doc), ", ")), NoData)
  }

  // ---------------------------------------------------------------- single posts

  /** `getPost`: a missing or soft-deleted post is not found; otherwise its view count goes
      up by one and the updated post is returned. The route has checked the id. */
  method GetPost(store: PostCollection, id: Id) returns (reply: Reply)
    requires store.Valid() && IsMongoId(id)
    modifies store
    ensures store.Valid() && store.order == old(store.order)
    ensures id !in old(store.docs) || !old(store.docs)[id].ativo ==>
              reply == Reply(404, false, PostNotFound, NoData) && store.docs == old(store.docs)
    ensures id in old(store.docs) && old(store.docs)[id].ativo ==>
              var viewed := old(store.docs)[id].(visualizacoes := old(store.docs)[id].visualizacoes + 1);
              && reply == Reply(200, true, PostFound, PostData(viewed))
              && store.docs == old(store.docs)[id := viewed]
  {
    var found := store.FindById(id);
    if found.None? || !found.value.ativo {
      return Reply(404, false, PostNotFound, NoData);
    }
    var post := found.value;
    var r := store.IncrementViews(post);
    if r.Failure? {
      assert false;     // a stored document always passes validation again
    }
    reply := Reply(200, true, PostFound, PostData(r.value));
  }

  /** The fields `createPost` hands to `Post.create`: `tags || []`. */
  function CreateFields(body: PostBody): (f: PostFields)
    requires body.tags.None? || body.tags.value.TagList?
    ensures f.titulo == body.titulo && f.conteudo == body.conteudo
    ensures f.autor == body.autor && f.resumo == body.resumo
    ensures body.tags.Some? ==> f.tags == Some(body.tags.value.items)
    ensures body.tags.None? ==> f.tags == Some([])
  {
    PostFields(body.titulo, body.conteudo, body.autor, body.resumo,
               Some(if body.tags.Some? then body.tags.value.items else []))
  }

  /** `createPost`: 201 with the stored post, or the error middleware's answer to a schema
      violation or a duplicate id. The route has checked that `tags`, when sent, is an array. */
  method CreatePost(store: PostCollection, id: Id, createdAt: nat, body: PostBody) returns (reply: Reply)
    requires store.Valid() && (body.tags.None? || body.tags.value.TagList?)
    modifies store
    ensures store.Valid()
    ensures var doc := NewDocument(id, createdAt, CreateFields(body));
      && (!SchemaValid(doc) ==> reply == Rejected(doc) && unchanged(store))
      && (SchemaValid(doc) && id in old(store.docs) ==>
            reply == Reply(400, false, DuplicateResource, NoData) && unchanged(store))
      && (SchemaValid(doc) && id !in old(store.docs) ==>
            && reply == Reply(201, true, PostCreated, PostData(PreSave(doc)))
            && store.docs == old(store.docs)[id := PreSave(doc)]
            && store.order == old(store.order) + [id])
  {
    var r := store.Create(id, createdAt, CreateFields(body));
    match r
    case Success(post) =>
      reply := Reply(201, true, PostCreated, PostData(post));
    case Failure(e) =>
      reply := HandleError(AsError(e), 200);
  }

  /** The assignments of `updatePost`: each field sent replaces the stored one, through the
      schema's setters; fields not sent are kept. */
  function ApplyUpdate(p: Post, body: PostBody): (q: Post)
    requires body.tags.None? || body.tags.value.TagList?
    ensures q.id == p.id && q.visualizacoes == p.visualizacoes && q.ativo == p.ativo && q.createdAt == p.createdAt
    ensures body.titulo.None? ==> q.titulo == p.titulo
    ensures body.conteudo.None? ==> q.conteudo == p.conteudo
    ensures body.autor.None? ==> q.autor == p.autor
    ensures body.resumo.None? ==> q.resumo == p.resumo
    ensures body.tags.None? ==> q.tags == p.tags
    ensures body.titulo.Some? ==> q.titulo == Trim(body.titulo.value)
    ensures body.conteudo.Some? ==> q.conteudo == Trim(body.conteudo.value)
    ensures body.autor.Some? ==> q.autor == Trim(body.autor.value)
    ensures body.resumo.Some? ==> q.resumo == Trim(body.resumo.value)
    ensures body.tags.Some? ==> q.tags == NormalizeTags(body.tags.value.items)
    ensures SetterNormal(p) ==> SetterNormal(q)
  {
    NormalizedTagsAreNormal(if body.tags.Some? then body.tags.value.items else []);
    p.(titulo := if body.titulo.Some? then Trim(body.titulo.value) else p.titulo,
       conteudo := if body.conteudo.Some? then Trim(body.conteudo.value) else p.conteudo,
       autor := if body.autor.Some? then Trim(body.autor.value) else p.autor,
       resumo := if body.resumo.Some? then Trim(body.resumo.value) else p.resumo,
       tags := if body.tags.Some? then NormalizeTags(body.tags.value.items) else p.tags)
  }

  /** An update that leaves the summary out keeps the stored summary, even when the content
      changes: the hook only fills in an empty summary. */
  lemma UpdateKeepsSummary(p: Post, body: PostBody)
    requires WellFormed(p) && body.resumo.None? && (body.tags.None? || body.tags.value.TagList?)
    ensures PreSave(ApplyUpdate(p, body)).resumo == p.resumo
  {
  }

  /** An update that sends an empty summary gets one derived from the content again. */
  lemma UpdateClearingSummary(p: Post, body: PostBody)
    requires WellFormed(p) && body.resumo == Some("") && (body.tags.None? || body.tags.value.TagList?)
    requires SchemaValid(ApplyUpdate(p, body))
    ensures var q := ApplyUpdate(p, body);
      PreSave(q).resumo == DeriveSummary(q.conteudo) && PreSave(q).resumo != ""
  {
    var q := ApplyUpdate(p, body);
    assert AllSpace("");
    PreSaveDerivesSummary(q);
  }

  /** `updatePost`: 404 when the post does not exist (a soft-deleted one is updated);
      otherwise the fields sent are assigned and the post saved, answering with the saved
      post or the error middleware's answer to a schema violation. */
  method UpdatePost(store: PostCollection, id: Id, body: PostBody) returns (reply: Reply)
    requires store.Valid() && IsMongoId(id) && (body.tags.None? || body.tags.value.TagList?)
    modifies store
    ensures store.Valid() && store.order == old(store.order)
    ensures id !in old(store.docs) ==> reply == Reply(404, false, PostNotFound, NoData) && unchanged(store)
    ensures id in old(store.docs) ==>
              var updated := ApplyUpdate(old(store.docs)[id], body);
              && (!SchemaValid(updated) ==> reply == Rejected(updated) && store.docs == old(store.docs))
              && (SchemaValid(updated) ==>
                    && reply == Reply(200, true, PostUpdated, PostData(PreSave(updated)))
                    && store.docs == old(store.docs)[id := PreSave(updated)])
  {
    var found := store.FindById(id);
    if found.None? {
      return Reply(404, false, PostNotFound, NoData);
    }
    var post := ApplyUpdate(found.value, body);
    var r := store.Save(post);
    match r
    case Success(saved) =>
      reply := Reply(200, true, PostUpdated, PostData(saved));
    case Failure(e) =>
      reply := HandleError(AsError(e), 200);
  }

  // ---------------------------------------------------------------- validated writes

  /** `POST /api/posts`: `validateCreatePost`, then `createPost` on the trimmed body. */
  method CreateRoute(store: PostCollection, id: Id, createdAt: nat, body: PostBody) returns (reply: Reply)
    requires store.Valid()
    modifies store
    ensures store.Valid()
    ensures CreateErrors(body) != [] ==>
              reply == Reply(400, false, InvalidData, FieldErrors(CreateErrors(body))) && unchanged(store)
    ensures CreateErrors(body) == [] ==>
      var doc := NewDocument(id, createdAt, CreateFields(SanitizeBody(body)));
      && (!SchemaValid(doc) ==> reply == Rejected(doc) && unchanged(store))
      && (SchemaValid(doc) && id in old(store.docs) ==>
            reply == Reply(400, false, DuplicateResource, NoData) && unchanged(store))
      && (SchemaValid(doc) && id !in old(store.docs) ==>
            && reply == Reply(201, true, PostCreated, PostData(PreSave(doc)))
            && store.docs == old(store.docs)[id := PreSave(doc)]
            && store.order == old(store.order) + [id])
  {
    var errors := CreateErrors(body);
    if errors != [] {
      return Reply(400, false, InvalidData, FieldErrors(errors));
    }
    reply := CreatePost(store, id, createdAt, SanitizeBody(body));
  }

  /** `PUT /api/posts/:id`: `validateUpdatePost`, then `updatePost` on the trimmed body. */
  method UpdateRoute(store: PostCollection, id: Id, body: PostBody) returns (reply: Reply)
    requires store.Valid()
    modifies store
    ensures store.Valid() && store.order == old(store.order)
    ensures UpdateErrors(id, body) != [] ==>
              reply == Reply(400, false, InvalidData, FieldErrors(UpdateErrors(id, body))) && unchanged(store)
    ensures UpdateErrors(id, body) == [] && id !in old(store.docs) ==>
              reply == Reply(404, false, PostNotFound, NoData) && unchanged(store)
    ensures UpdateErrors(id, body) == [] && id in old(store.docs) ==>
              var updated := ApplyUpdate(old(store.docs)[id], SanitizeBody(body));
              && (!SchemaValid(updated) ==> reply == Rejected(updated) && store.docs == old(store.docs))
              && (SchemaValid(updated) ==>
                    && reply == Reply(200, true, PostUpdated, PostData(PreSave(updated)))
                    && store.docs == old(store.docs)[id := PreSave(updated)])
  {
    var errors := UpdateErrors(id, body);
    if errors != [] {
      return Reply(400, false, InvalidData, FieldErrors(errors));
    }
    reply := UpdatePost(store, id, SanitizeBody(body));
  }

  /** The length rules run before `trim`: a title of one or two characters padded with a
      blank on each side passes the validator, is trimmed, and is then refused by the
      schema's minimum of 3, whatever valid content and author come with it. */
  lemma PaddedTitleRejected(id: Id, createdAt: nat, t: string, c: string, a: string)
    requires IsTrimmed(t) && 1 <= |t| <= 2
    requires IsTrimmed(c) && 10 <= |c| && IsTrimmed(a) && 2 <= |a| <= 100
    ensures CreateErrors(PaddedTitleBody(t, c, a)) == []
    ensures NewDocument(id, createdAt, CreateFields(SanitizeBody(PaddedTitleBody(t, c, a)))).titulo == t
    ensures Rejected(NewDocument(id, createdAt, CreateFields(SanitizeBody(PaddedTitleBody(t, c, a)))))
              == Reply(400, false, TituloTooShort, NoData)
  {
    var body := PaddedTitleBody(t, c, a);
    assert BodyFieldsOk(body);
    assert AllSpace(" ");
    TrimDropsPadding(" ", t, " ");
    TrimmedIsFixed(t);
    TrimmedIsFixed(c);
    TrimmedIsFixed(a);
    TrimmedIsFixed("");
    var doc := NewDocument(id, createdAt, CreateFields(SanitizeBody(body)));
    assert doc.titulo == t && doc.conteudo == c && doc.autor == a && doc.resumo == "";
    ShortTitleMessage(doc);
  }

  /** A create request whose text fields are already trimmed and whose tags are already
      trimmed and lower-case is stored, and answered, with exactly the fields and tags sent. */
  lemma CreatedAsSent(id: Id, createdAt: nat, body: PostBody)
    requires body.tags.None? || body.tags.value.TagList?
    ensures var saved := PreSave(NewDocument(id, createdAt, CreateFields(SanitizeBody(body))));
      && (body.titulo.Some? && IsTrimmed(body.titulo.value) ==> saved.titulo == body.titulo.value)
      && (body.conteudo.Some? && IsTrimmed(body.conteudo.value) ==> saved.conteudo == body.conteudo.value)
      && (body.autor.Some? && IsTrimmed(body.autor.value) ==> saved.autor == body.autor.value)
      && (body.tags.Some? && (forall t :: t in body.tags.value.items ==> IsNormalTag(t)) ==> saved.tags == body.tags.value.items)
  {
    var f := CreateFields(SanitizeBody(body));
    SentTrimmedIsKept(body.titulo);
    SentTrimmedIsKept(body.conteudo);
    SentTrimmedIsKept(body.autor);
    NewDocumentKeepsSentFields(id, createdAt, f);
  }

  /** A create request whose title is `t` with a blank on each side. */
  function PaddedTitleBody(t: string, c: string, a: string): PostBody
  {
    PostBody(Some(" " + t + " "), Some(c), Some(a), None, None)
  }

  lemma ShortTitleMessage(doc: Post)
    requires 1 <= |doc.titulo| <= 2 && |doc.conteudo| >= 10 && 2 <= |doc.autor| <= 100 && doc.resumo == ""
    ensures Rejected(doc) == Reply(400, false, TituloTooShort, NoData)
  {
    assert SchemaErrors(doc) == [TituloTooShort];
    assert Join([TituloTooShort], ", ") == TituloTooShort;
  }

  /** `deletePost`: a soft delete; the post stays stored, marked inactive. */
  method DeletePost(store: PostCollection, id: Id) returns (reply: Reply)
    requires store.Valid() && IsMongoId(id)
    modifies store
    ensures store.Valid() && store.order == old(store.order)
    ensures id !in old(store.docs) ==> reply == Reply(404, false, PostNotFound, NoData) && unchanged(store)
    ensures id in old(store.docs) ==>
              && reply == Reply(200, true, PostDeleted, NoData)
              && store.docs == old(store.docs)[id := old(store.docs)[id].(ativo := false)]
  {
    var found := store.FindById(id);
    if found.None? {
      return Reply(404, false, PostNotFound, NoData);
    }
    var r := store.Save(found.value.(ativo := false));
    if r.Failure? {
      assert false;     // a stored document always passes validation again
    }
    reply := Reply(200, true, PostDeleted, NoData);
  }

  /** `restorePost`: the post is marked active again and returned. */
  method RestorePost(store: PostCollection, id: Id) returns (reply: Reply)
    requires store.Valid() && IsMongoId(id)
    modifies store
    ensures store.Valid() && store.order == old(store.order)
    ensures id !in old(store.docs) ==> reply == Reply(404, false, PostNotFound, NoData) && unchanged(store)
    ensures id in old(store.docs) ==>
              var restored := old(store.docs)[id].(ativo := true);
              && reply == Reply(200, true, PostRestored, PostData(restored))
              && store.docs == old(store.docs)[id := restored]
  {
    var found := store.FindById(id);
    if found.None? {
      return Reply(404, false, PostNotFound, NoData);
    }
    var r := store.Save(found.value.(ativo := true));
    if r.Failure? {
      assert false;     // a stored document always passes validation again
    }
    reply := Reply(200, true, PostRestored, PostData(r.value));
  }

  /** `forceDeletePost`: the post is removed from the collection for good. */
  method ForceDeletePost(store: PostCollection, id: Id) returns (reply: Reply)
    requires store.Valid() && IsMongoId(id)
    modifies store
    ensures store.Valid() && id !in store.docs
    ensures store.docs == old(store.docs) - {id} && store.order == Without(old(store.order), id)
    ensures reply == if id in old(store.docs) then Reply(200, true, PostDeletedForever, NoData)
                     else Reply(404, false, PostNotFound, NoData)
  {
    var removed := store.FindByIdAndDelete(id);
    if removed.None? {
      return Reply(404, false, PostNotFound, NoData);
    }
    reply := Reply(200, true, PostDeletedForever, NoData);
  }

  /** Soft-deleting twice leaves the collection as one soft delete does, and restoring
      after a soft delete brings back the document as it was. */
  lemma SoftDeleteRoundTrip(docs: map<Id, Post>, id: Id)
    requires id in docs && docs[id].ativo
    ensures var deleted := docs[id := docs[id].(ativo := false)];
      && deleted[id := deleted[id].(ativo := false)] == deleted
      && deleted[id := deleted[id].(ativo := true)] == docs
  {
    var deleted := docs[id := docs[id].(ativo := false)];
    assert deleted[id].(ativo := true) == docs[id];
  }
}
