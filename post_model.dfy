/** The post document and its collection: the schema's bounds, setters and defaults,
    the pre-save summary hook, view counting, and the `searchPosts` / `countPosts`
    queries (filter on `ativo` and the text index, newest first, skip, limit). */
module PostModel {
  import opened Text

  type Id = string

  datatype Post = Post(
    id: Id,
    titulo: string,
    conteudo: string,
    autor: string,
    resumo: string,          // "" when absent
    tags: seq<string>,
    visualizacoes: nat,
    ativo: bool,
    createdAt: nat)

  /** The body fields a controller hands to the model; None is `undefined`. */
  datatype PostFields = PostFields(
    titulo: Option<string>,
    conteudo: Option<string>,
    autor: Option<string>,
    resumo: Option<string>,
    tags: Option<seq<string>>)

  /** What a save can fail with. */
  datatype StoreError =
    | ValidationFailed(messages: seq<string>)  // a ValidationError, one message per failing path
    | DuplicateKey                             // the server's duplicate key error, code 11000
    | DocumentMissing                          // saving a document that is no longer stored

  datatype Result<T> = Success(value: T) | Failure(error: StoreError)

  function Min(a: int, b: int): int
  {
    if a <= b then a else b
  }

  // ---------------------------------------------------------------- setters and defaults

  /** The `trim` and `lowercase` setters of one tag. */
  function NormalizeTag(t: string): string
  {
    Lower(Trim(t))
  }

  function NormalizeTags(ts: seq<string>): (r: seq<string>)
    ensures |r| == |ts|
  {
    seq(|ts|, k requires 0 <= k < |ts| => NormalizeTag(ts[k]))
  }

  predicate IsNormalTag(t: string)
  {
    IsTrimmed(t) && Lower(t) == t
  }

  /** Every stored tag is trimmed and lower case. */
  lemma NormalizedTagIsNormal(t: string)
    ensures IsNormalTag(NormalizeTag(t))
  {
    LowerKeepsTrimmed(Trim(t));
  }

  lemma NormalizedTagsAreNormal(ts: seq<string>)
    ensures forall k :: 0 <= k < |NormalizeTags(ts)| ==> IsNormalTag(NormalizeTags(ts)[k])
  {
    forall k | 0 <= k < |ts|
      ensures IsNormalTag(NormalizeTags(ts)[k])
    {
      NormalizedTagIsNormal(ts[k]);
    }
  }

  /** What any document can hold, since every assignment runs the schema's setters. */
  predicate SetterNormal(p: Post)
  {
    && IsTrimmed(p.titulo) && IsTrimmed(p.conteudo) && IsTrimmed(p.autor) && IsTrimmed(p.resumo)
    && forall k :: 0 <= k < |p.tags| ==> IsNormalTag(p.tags[k])
  }

  /** `new Post({...})`: setters applied and defaults filled in. */
  function NewDocument(id: Id, createdAt: nat, f: PostFields): (p: Post)
    ensures SetterNormal(p)
    ensures p.id == id && p.createdAt == createdAt
    ensures p.visualizacoes == 0 && p.ativo
    ensures p.titulo == Trim(GetOr(f.titulo, "")) && p.conteudo == Trim(GetOr(f.conteudo, ""))
    ensures p.autor == Trim(GetOr(f.autor, "")) && p.resumo == Trim(GetOr(f.resumo, ""))
    ensures p.tags == NormalizeTags(GetOr(f.tags, []))
    ensures f.tags.None? ==> p.tags == []
  {
    NormalizedTagsAreNormal(GetOr(f.tags, []));
    Post(id, Trim(GetOr(f.titulo, "")), Trim(GetOr(f.conteudo, "")), Trim(GetOr(f.autor, "")),
         Trim(GetOr(f.resumo, "")), NormalizeTags(GetOr(f.tags, [])), 0, true, createdAt)
  }

  /** A tag that is already trimmed and lower case is stored as it is. */
  lemma NormalTagsAreFixed(ts: seq<string>)
    requires forall k :: 0 <= k < |ts| ==> IsNormalTag(ts[k])
    ensures NormalizeTags(ts) == ts
  {
    forall k | 0 <= k < |ts|
      ensures NormalizeTag(ts[k]) == ts[k]
    {
      TrimmedIsFixed(ts[k]);
    }
  }

  /** A new document holds what the client sent: every text field that is already trimmed
      and every tag list that is already trimmed and lower case is stored unchanged. */
  lemma NewDocumentKeepsSentFields(id: Id, createdAt: nat, f: PostFields)
    ensures var p := NewDocument(id, createdAt, f);
      && (f.titulo.Some? && IsTrimmed(f.titulo.value) ==> p.titulo == f.titulo.value)
      && (f.conteudo.Some? && IsTrimmed(f.conteudo.value) ==> p.conteudo == f.conteudo.value)
      && (f.autor.Some? && IsTrimmed(f.autor.value) ==> p.autor == f.autor.value)
      && (f.resumo.Some? && IsTrimmed(f.resumo.value) ==> p.resumo == f.resumo.value)
      && (f.tags.Some? && (forall k :: 0 <= k < |f.tags.value| ==> IsNormalTag(f.tags.value[k])) ==> p.tags == f.tags.value)
  {
    SentTrimmedIsKept(f.titulo);
    SentTrimmedIsKept(f.conteudo);
    SentTrimmedIsKept(f.autor);
    SentTrimmedIsKept(f.resumo);
    if f.tags.Some? && (forall k :: 0 <= k < |f.tags.value| ==> IsNormalTag(f.tags.value[k])) {
      NormalTagsAreFixed(f.tags.value);
    }
  }

  lemma SentTrimmedIsKept(v: Option<string>)
    ensures v.Some? && IsTrimmed(v.value) ==> Trim(GetOr(v, "")) == v.value
  {
    if v.Some? && IsTrimmed(v.value) {
      TrimmedIsFixed(v.value);
    }
  }

  // ---------------------------------------------------------------- schema validation

  /** The bounds the schema puts on a document. */
  predicate SchemaValid(p: Post)
  {
    && 3 <= |p.titulo| <= 200
    && 10 <= |p.conteudo|
    && 2 <= |p.autor| <= 100
    && |p.resumo| <= 300
  }

  // The schema's validation messages.
  const TituloRequired: string := "O título é obrigatório"
  const TituloTooShort: string := "O título deve ter pelo menos 3 caracteres"
  const TituloTooLong: string := "O título não pode exceder 200 caracteres"
  const ConteudoRequired: string := "O conteúdo é obrigatório"
  const ConteudoTooShort: string := "O conteúdo deve ter pelo menos 10 caracteres"
  const AutorRequired: string := "O autor é obrigatório"
  const AutorTooShort: string := "O nome do autor deve ter pelo menos 2 caracteres"
  const AutorTooLong: string := "O nome do autor não pode exceder 100 caracteres"
  const ResumoTooLong: string := "O resumo não pode exceder 300 caracteres"

  function TituloError(v: string): (e: Option<string>)
    ensures e.None? <==> 3 <= |v| <= 200
  {
    if v == "" then Some(TituloRequired)
    else if |v| < 3 then Some(TituloTooShort)
    else if |v| > 200 then Some(TituloTooLong)
    else None
  }

  function ConteudoError(v: string): (e: Option<string>)
    ensures e.None? <==> 10 <= |v|
  {
    if v == "" then Some(ConteudoRequired)
    else if |v| < 10 then Some(ConteudoTooShort)
    else None
  }

  function AutorError(v: string): (e: Option<string>)
    ensures e.None? <==> 2 <= |v| <= 100
  {
    if v == "" then Some(AutorRequired)
    else if |v| < 2 then Some(AutorTooShort)
    else if |v| > 100 then Some(AutorTooLong)
    else None
  }

  function ResumoError(v: string): (e: Option<string>)
    ensures e.None? <==> |v| <= 300
  {
    if |v| > 300 then Some(ResumoTooLong) else None
  }

  function Listed(e: Option<string>): seq<string>
  {
    if e.Some? then [e.value] else []
  }

  /** The messages of a ValidationError: the first failing rule of each path, in schema
      order; there are none exactly when the document satisfies the schema. */
  function SchemaErrors(p: Post): (msgs: seq<string>)
    ensures msgs == [] <==> SchemaValid(p)
    ensures |msgs| <= 4
  {
    Listed(TituloError(p.titulo)) + Listed(ConteudoError(p.conteudo))
      + Listed(AutorError(p.autor)) + Listed(ResumoError(p.resumo))
  }

  // ---------------------------------------------------------------- pre-save hook

  /** `substring(0, 200)` of the content, with "..." appended when it was cut. */
  function DeriveSummary(conteudo: string): (r: string)
    ensures |r| <= 203
    ensures |conteudo| <= 200 ==> r == conteudo
    ensures |conteudo| > 200 ==> |r| == 203 && r[..200] == conteudo[..200] && r[200..] == "..."
  {
    conteudo[..Min(|conteudo|, 200)] + (if |conteudo| > 200 then "..." else "")
  }

  /** The `pre('save')` hook: an empty `resumo` of a post with content is derived from
      the content; the assignment goes through the `trim` setter. Nothing else changes. */
  function PreSave(p: Post): (q: Post)
    ensures p.resumo != "" ==> q == p
    ensures q == p.(resumo := q.resumo)
  {
    if p.resumo == "" && p.conteudo != "" then p.(resumo := Trim(DeriveSummary(p.conteudo))) else p
  }

  /** For a trimmed content (as the setter stores it) the derived summary is exactly the
      first 200 characters, plus "..." when the content is longer, so at most 203 long. */
  lemma PreSaveDerivesSummary(p: Post)
    requires IsTrimmed(p.conteudo) && p.resumo == "" && p.conteudo != ""
    ensures PreSave(p) == p.(resumo := DeriveSummary(p.conteudo))
    ensures IsTrimmed(DeriveSummary(p.conteudo)) && 0 < |DeriveSummary(p.conteudo)| <= 203
  {
    var d := DeriveSummary(p.conteudo);
    if |p.conteudo| > 200 {
      assert d[0] == p.conteudo[0];
      assert d[|d| - 1] == '.';
    } else {
      assert d == p.conteudo;
    }
    assert IsTrimmed(d);
    TrimmedIsFixed(d);
  }

  /** What every stored document satisfies. */
  predicate WellFormed(p: Post)
  {
    SetterNormal(p) && SchemaValid(p) && p.resumo != ""
  }

  /** A document that passes validation is well formed once the hook has run. */
  lemma SavedIsWellFormed(p: Post)
    requires SetterNormal(p) && SchemaValid(p)
    ensures WellFormed(PreSave(p))
  {
    if p.resumo == "" {
      DerivedSummaryIsWellFormed(p);
    }
  }

  lemma DerivedSummaryIsWellFormed(p: Post)
    requires SetterNormal(p) && SchemaValid(p) && p.resumo == ""
    ensures WellFormed(PreSave(p))
  {
    var d := DeriveSummary(p.conteudo);
    PreSaveDerivesSummary(p);
    assert PreSave(p) == p.(resumo := d);
    SummaryKeepsSetterNormal(p, d);
    assert SetterNormal(PreSave(p));
    assert SchemaValid(PreSave(p));
  }

  lemma SummaryKeepsSetterNormal(p: Post, x: string)
    requires SetterNormal(p) && IsTrimmed(x)
    ensures SetterNormal(p.(resumo := x))
  {
    var q := p.(resumo := x);
    assert q.titulo == p.titulo && q.conteudo == p.conteudo && q.autor == p.autor && q.tags == p.tags;
  }

  // ---------------------------------------------------------------- queries

  /** A search term is used only when it is truthy. */
  predicate HasTerm(term: Option<string>)
  {
    term.Some? && term.value != ""
  }

  /** The query of `searchPosts` and `countPosts`. */
  predicate Selected(p: Post, term: Option<string>, textMatch: (string, Post) -> bool)
  {
    p.ativo && (HasTerm(term) ==> textMatch(term.value, p))
  }

  function Filter(s: seq<Post>, term: Option<string>, textMatch: (string, Post) -> bool): (r: seq<Post>)
    ensures |r| <= |s|
    ensures forall p :: p in r <==> p in s && Selected(p, term, textMatch)
  {
    if s == [] then []
    else (if Selected(s[0], term, textMatch) then [s[0]] else []) + Filter(s[1..], term, textMatch)
  }

  /** The filter neither repeats nor loses a selected post: each keeps its number of
      occurrences, and every other post has none. */
  lemma {:induction false} FilterKeepsCounts(s: seq<Post>, term: Option<string>, textMatch: (string, Post) -> bool)
    ensures forall p :: multiset(Filter(s, term, textMatch))[p] == if Selected(p, term, textMatch) then multiset(s)[p] else 0
  {
    if s != [] {
      var head := if Selected(s[0], term, textMatch) then [s[0]] else [];
      var rest := Filter(s[1..], term, textMatch);
      FilterKeepsCounts(s[1..], term, textMatch);
      assert s == [s[0]] + s[1..];
      assert multiset(s) == multiset{s[0]} + multiset(s[1..]);
      assert Filter(s, term, textMatch) == head + rest;
      assert multiset(head + rest) == multiset(head) + multiset(rest);
    }
  }

  /** `.sort({ createdAt: -1 })` */
  predicate NewestFirst(s: seq<Post>)
  {
    forall i, j :: 0 <= i < j < |s| ==> s[i].createdAt >= s[j].createdAt
  }

  /** A post no older than the head of a sorted sequence can go in front of it. */
  lemma ConsNewestFirst(x: Post, t: seq<Post>)
    requires NewestFirst(t) && (t != [] ==> x.createdAt >= t[0].createdAt)
    ensures NewestFirst([x] + t)
  {
    var s := [x] + t;
    forall i, j | 0 <= i < j < |s| ensures s[i].createdAt >= s[j].createdAt {
      if i == 0 {
        assert s[j] == t[j - 1] && t[0].createdAt >= t[j - 1].createdAt;
      } else {
        assert s[i] == t[i - 1] && s[j] == t[j - 1];
      }
    }
  }

  /** Puts `p` in front of the first post that is not newer than it. */
  function InsertNewest(p: Post, s: seq<Post>): (r: seq<Post>)
    ensures |r| == |s| + 1 && (r[0] == p || (s != [] && r[0] == s[0]))
  {
    if s == [] || p.createdAt >= s[0].createdAt then [p] + s
    else [s[0]] + InsertNewest(p, s[1..])
  }

  lemma {:induction false} InsertNewestKeepsOrder(p: Post, s: seq<Post>)
    requires NewestFirst(s)
    ensures NewestFirst(InsertNewest(p, s))
  {
    if s == [] || p.createdAt >= s[0].createdAt {
      ConsNewestFirst(p, s);
    } else {
      var tail := s[1..];
      assert NewestFirst(tail) by {
        forall i, j | 0 <= i < j < |tail| ensures tail[i].createdAt >= tail[j].createdAt {
          assert tail[i] == s[i + 1] && tail[j] == s[j + 1];
        }
      }
      InsertNewestKeepsOrder(p, tail);
      assert tail != [] ==> s[0].createdAt >= tail[0].createdAt by {
        if tail != [] { assert tail[0] == s[1]; }
      }
      ConsNewestFirst(s[0], InsertNewest(p, tail));
    }
  }

  lemma {:induction false} InsertNewestAddsOne(p: Post, s: seq<Post>)
    ensures multiset(InsertNewest(p, s)) == multiset(s) + multiset{p}
  {
    if s != [] && p.createdAt < s[0].createdAt {
      InsertNewestAddsOne(p, s[1..]);
      assert s == [s[0]] + s[1..];
    }
  }

  /** Stable insertion sort, newest first: posts created at the same time keep the
      collection's natural order. */
  function SortNewestFirst(s: seq<Post>): (r: seq<Post>)
    ensures |r| == |s|
  {
    if s == [] then [] else InsertNewest(s[0], SortNewestFirst(s[1..]))
  }

  /** The sort orders newest first and only rearranges its input. */
  lemma {:induction false} SortNewestFirstIsSortedPermutation(s: seq<Post>)
    ensures NewestFirst(SortNewestFirst(s))
    ensures multiset(SortNewestFirst(s)) == multiset(s)
  {
    if s != [] {
      SortNewestFirstIsSortedPermutation(s[1..]);
      InsertNewestKeepsOrder(s[0], SortNewestFirst(s[1..]));
      InsertNewestAddsOne(s[0], SortNewestFirst(s[1..]));
      assert s == [s[0]] + s[1..];
    }
  }

  /** `.skip(skip).limit(limit)` */
  function Window(s: seq<Post>, skip: nat, limit: nat): (r: seq<Post>)
    ensures |r| == if skip >= |s| then 0 else Min(limit, |s| - skip)
    ensures forall k :: 0 <= k < |r| ==> r[k] == s[skip + k]
  {
    if skip >= |s| then [] else s[skip..Min(skip + limit, |s|)]
  }

  /** Where page `page` of size `limit` starts. */
  function Offset(page: nat, limit: nat): nat
    requires page >= 1
  {
    (page - 1) * limit
  }

  lemma WindowKeepsOrder(s: seq<Post>, skip: nat, limit: nat)
    requires NewestFirst(s)
    ensures NewestFirst(Window(s, skip, limit))
  {
    var r := Window(s, skip, limit);
    forall i, j | 0 <= i < j < |r| ensures r[i].createdAt >= r[j].createdAt {
      assert r[i] == s[skip + i] && r[j] == s[skip + j];
    }
  }

  /** The first `n` pages of size `limit`, one after the other. */
  function FirstPages(s: seq<Post>, limit: nat, n: nat): seq<Post>
  {
    if n == 0 then [] else FirstPages(s, limit, n - 1) + Window(s, Offset(n, limit), limit)
  }

  lemma NextOffset(n: nat, limit: nat)
    requires n >= 1
    ensures Offset(n, limit) + limit == n * limit
  {
  }

  /** Consecutive pages neither skip nor repeat an element: the first `n` pages are
      exactly the first `n * limit` elements. */
  lemma {:induction false} FirstPagesArePrefix(s: seq<Post>, limit: nat, n: nat)
    ensures FirstPages(s, limit, n) == s[..Min(n * limit, |s|)]
  {
    if n > 0 {
      FirstPagesArePrefix(s, limit, n - 1);
      var a, b := Offset(n, limit), n * limit;
      NextOffset(n, limit);
      if n > 1 {
        NextOffset(n - 1, limit);
      }
      assert (n - 1) * limit == a;
      PrefixThenWindow(s, a, limit);
    }
  }

  lemma PrefixThenWindow(s: seq<Post>, a: nat, limit: nat)
    ensures s[..Min(a, |s|)] + Window(s, a, limit) == s[..Min(a + limit, |s|)]
  {
    if a < |s| {
      assert s[..Min(a + limit, |s|)] == s[..a] + s[a..Min(a + limit, |s|)];
    }
  }

  /** Removes one id from the natural order. */
  predicate Distinct(ids: seq<Id>)
  {
    forall i, j :: 0 <= i < j < |ids| ==> ids[i] != ids[j]
  }

  function Without(ids: seq<Id>, x: Id): (r: seq<Id>)
    ensures forall y :: y in r <==> y in ids && y != x
    ensures Distinct(ids) ==> Distinct(r)
  {
    if ids == [] then []
    else if ids[0] == x then Without(ids[1..], x)
    else
      var rest := Without(ids[1..], x);
      assert Distinct(ids) ==> ids[0] !in rest && Distinct(ids[1..]) by {
        if Distinct(ids) {
          assert forall k :: 0 <= k < |ids| - 1 ==> ids[1..][k] == ids[k + 1];
        }
      }
      [ids[0]] + rest
  }

  /** The collection's invariant, on its two fields: the natural order lists every
      stored id exactly once, and every stored document is well formed under its own id. */
  ghost predicate Consistent(docs: map<Id, Post>, order: seq<Id>)
  {
    && Distinct(order)
    && (forall id :: id in docs <==> id in order)
    && (forall id :: id in docs ==> docs[id].id == id && WellFormed(docs[id]))
  }

  lemma InsertKeepsConsistent(docs: map<Id, Post>, order: seq<Id>, doc: Post)
    requires Consistent(docs, order) && doc.id !in docs && WellFormed(doc)
    ensures Consistent(docs[doc.id := doc], order + [doc.id])
  {
    assert doc.id !in order;
  }

  lemma ReplaceKeepsConsistent(docs: map<Id, Post>, order: seq<Id>, doc: Post)
    requires Consistent(docs, order) && doc.id in docs && WellFormed(doc)
    ensures Consistent(docs[doc.id := doc], order)
  {
  }

  lemma RemoveKeepsConsistent(docs: map<Id, Post>, order: seq<Id>, id: Id)
    requires Consistent(docs, order)
    ensures Consistent(docs - {id}, Without(order, id))
  {
  }

  /** In a sequence without repetitions every element occurs exactly once. */
  lemma {:induction false} OccursOnce(s: seq<Post>)
    requires forall i, j :: 0 <= i < j < |s| ==> s[i] != s[j]
    ensures forall p :: p in s ==> multiset(s)[p] == 1
  {
    if s != [] {
      var t := s[1..];
      assert s == [s[0]] + t;
      assert forall i, j :: 0 <= i < j < |t| ==> t[i] != t[j] by {
        forall i, j | 0 <= i < j < |t| ensures t[i] != t[j] {
          assert t[i] == s[i + 1] && t[j] == s[j + 1];
        }
      }
      OccursOnce(t);
      assert s[0] !in t by {
        forall k | 0 <= k < |t| ensures t[k] != s[0] {
          assert t[k] == s[k + 1];
        }
      }
    }
  }

  // ---------------------------------------------------------------- the collection

  class PostCollection {
    var docs: map<Id, Post>
    var order: seq<Id>                         // natural order of the collection
    const textMatch: (string, Post) -> bool    // the text index's `$text: { $search }`

    ghost predicate Valid()
      reads this
    {
      Consistent(docs, order)
    }

    constructor (textMatch: (string, Post) -> bool)
      ensures Valid() && docs == map[] && order == [] && this.textMatch == textMatch
    {
      docs := map[];
      order := [];
      this.textMatch := textMatch;
    }

    /** `Post.findById` */
    function FindById(id: Id): (r: Option<Post>)
      reads this
      ensures r.Some? <==> id in docs
      ensures r.Some? ==> r.value == docs[id]
    {
      if id in docs then Some(docs[id]) else None
    }

    /** The stored documents in natural order. */
    function Documents(): (s: seq<Post>)
      reads this
      requires Valid()
      ensures |s| == |order|
      ensures forall k :: 0 <= k < |s| ==> s[k] == docs[order[k]]
      ensures forall i, j :: 0 <= i < j < |s| ==> s[i] != s[j]
    {
      seq(|order|, k requires 0 <= k < |order| && Valid() reads this => docs[order[k]])
    }

    lemma DocumentsAreStored()
      requires Valid()
      ensures forall p :: p in Documents() <==> p.id in docs && docs[p.id] == p
    {
      forall p: Post | p.id in docs && docs[p.id] == p
        ensures p in Documents()
      {
        var k :| 0 <= k < |order| && order[k] == p.id;
        assert Documents()[k] == p;
      }
    }

    /** Every result of the query, newest first: what the pages are cut from. */
    function Ranked(term: Option<string>): (r: seq<Post>)
      reads this
      requires Valid()
      ensures NewestFirst(r)
      ensures forall p :: p in r <==> p.id in docs && docs[p.id] == p && Selected(p, term, textMatch)
      ensures forall p :: p in r ==> multiset(r)[p] == 1
    {
      DocumentsAreStored();
      var m := Filter(Documents(), term, textMatch);
      var r := SortNewestFirst(m);
      SortNewestFirstIsSortedPermutation(m);
      OccursOnce(Documents());
      FilterKeepsCounts(Documents(), term, textMatch);
      assert forall p :: p in r <==> p in m by {
        forall p ensures p in r <==> p in m {
          assert p in r <==> p in multiset(r);
        }
      }
      r
    }

    /** `Post.searchPosts(term, limit, page)`: page `page` of the ranked result. */
    function SearchPosts(term: Option<string>, limit: nat, page: nat): (r: seq<Post>)
      reads this
      requires Valid() && limit >= 1 && page >= 1
      ensures r == Window(Ranked(term), Offset(page, limit), limit)
      ensures |r| <= limit && NewestFirst(r)
      ensures forall k :: 0 <= k < |r| ==>
                r[k].id in docs && docs[r[k].id] == r[k] && Selected(r[k], term, textMatch)
    {
      var all := Ranked(term);
      var r := Window(all, Offset(page, limit), limit);
      WindowKeepsOrder(all, Offset(page, limit), limit);
      forall k | 0 <= k < |r|
        ensures r[k].id in docs && docs[r[k].id] == r[k] && Selected(r[k], term, textMatch)
      {
        assert r[k] in all;
      }
      r
    }

    /** `Post.countPosts(term)`: the same query without paging. */
    function CountPosts(term: Option<string>): (n: nat)
      reads this
      requires Valid()
      ensures n == |Ranked(term)|
    {
      var m := Filter(Documents(), term, textMatch);
      |m|
    }

    /** `Post.create(fields)`: build the document, validate it, run the pre-save hook and
        insert it; a taken id is a duplicate key. */
    method Create(id: Id, createdAt: nat, f: PostFields) returns (r: Result<Post>)
      requires Valid()
      modifies this
      ensures Valid()
      ensures var doc := NewDocument(id, createdAt, f);
        && (!SchemaValid(doc) ==>
              r == Failure(ValidationFailed(SchemaErrors(doc))) && unchanged(this))
        && (SchemaValid(doc) && id in old(docs) ==>
              r == Failure(DuplicateKey) && unchanged(this))
        && (SchemaValid(doc) && id !in old(docs) ==>
              && r == Success(PreSave(doc))
              && docs == old(docs)[id := PreSave(doc)]
              && order == old(order) + [id])
      ensures r.Success? ==> r.value.visualizacoes == 0 && r.value.ativo && r.value.resumo != ""
    {
      var doc := NewDocument(id, createdAt, f);
      var errors := SchemaErrors(doc);
      if errors != [] {
        return Failure(ValidationFailed(errors));
      }
      SavedIsWellFormed(doc);
      doc := PreSave(doc);
      if id in docs {
        return Failure(DuplicateKey);
      }
      Insert(doc);
      r := Success(doc);
    }

    /** The collection's `insertOne` of a validated document under a new id. */
    method Insert(doc: Post)
      requires Valid() && doc.id !in docs && WellFormed(doc)
      modifies this
      ensures Valid()
      ensures docs == old(docs)[doc.id := doc] && order == old(order) + [doc.id]
    {
      InsertKeepsConsistent(docs, order, doc);
      docs := docs[doc.id := doc];
      order := order + [doc.id];
    }

    /** The collection's `replaceOne` of a validated document under its own, stored id. */
    method Replace(doc: Post)
      requires Valid() && doc.id in docs && WellFormed(doc)
      modifies this
      ensures Valid()
      ensures docs == old(docs)[doc.id := doc] && order == old(order)
    {
      ReplaceKeepsConsistent(docs, order, doc);
      docs := docs[doc.id := doc];
    }

    /** `doc.save()` of a document loaded from the collection: validate, run the
        pre-save hook and write it back under its id. */
    method Save(doc: Post) returns (r: Result<Post>)
      requires Valid() && SetterNormal(doc)
      modifies this
      ensures Valid() && order == old(order)
      ensures doc.id !in old(docs) ==> r == Failure(DocumentMissing) && unchanged(this)
      ensures doc.id in old(docs) && !SchemaValid(doc) ==>
                r == Failure(ValidationFailed(SchemaErrors(doc))) && unchanged(this)
      ensures doc.id in old(docs) && SchemaValid(doc) ==>
                r == Success(PreSave(doc)) && docs == old(docs)[doc.id := PreSave(doc)]
    {
      if doc.id !in docs {
        return Failure(DocumentMissing);
      }
      var errors := SchemaErrors(doc);
      if errors != [] {
        return Failure(ValidationFailed(errors));
      }
      SavedIsWellFormed(doc);
      var saved := PreSave(doc);
      Replace(saved);
      r := Success(saved);
    }

    /** `doc.incrementViews()`: one more view, then save. On a document as it is stored
        the count goes up by exactly one and nothing else changes. */
    method IncrementViews(doc: Post) returns (r: Result<Post>)
      requires Valid() && SetterNormal(doc)
      modifies this
      ensures Valid() && order == old(order)
      ensures doc.id in old(docs) && old(docs)[doc.id] == doc ==>
                && r == Success(doc.(visualizacoes := doc.visualizacoes + 1))
                && docs == old(docs)[doc.id := doc.(visualizacoes := doc.visualizacoes + 1)]
    {
      r := Save(doc.(visualizacoes := doc.visualizacoes + 1));
    }

    /** `Post.findByIdAndDelete(id)`: removes the document and hands back what was stored. */
    method FindByIdAndDelete(id: Id) returns (r: Option<Post>)
      requires Valid()
      modifies this
      ensures Valid()
      ensures r == old(FindById(id))
      ensures docs == old(docs) - {id} && id !in docs
      ensures order == Without(old(order), id)
    {
      r := FindById(id);
      RemoveKeepsConsistent(docs, order, id);
      docs := docs - {id};
      order := Without(order, id);
    }
  }
}
