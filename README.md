# Tech Challenge blog — a verified model of the post API

This project is a Dafny model of the blog's post API and the two small client pieces
around it. It covers the following, one module per source file:

- **PostModel** models the Mongoose post model (`src/models/Post.js`). It covers:
  - the schema's bounds, setters and defaults;
  - the `pre('save')` hook that derives a summary;
  - `incrementViews`;
  - the `searchPosts` and `countPosts` queries.

  The collection is a class, `PostCollection`. Its fields are:
  - a map from id to document;
  - the collection's natural order;
  - the text-index match, supplied as a function.
- **PostController** models the eight handlers of `src/controllers/postController.js`.
  - Listing and search are functions over the collection.
  - Get, create, update, soft delete, restore and hard delete are methods that change the collection.
  - The two listing routes are composed with their validator.
- **Validation** models the express-validator chains and `handleValidationErrors`
  (`src/middleware/validation.js`). Each chain is a function returning the list of field
  errors. Each chain's contract states exactly when a request passes.
- **ErrorHandler** models `errorHandler` and `notFound` (`src/middleware/errorHandler.js`).
  - `Classify` states the classification by precedence.
  - `HandleError` is the handler's if-chain.
- **TagField** models the tags field of the post editor (`client/src/pages/EditPost.jsx`):
  - the `join(', ')` that fills the form;
  - the split, trim and filter that reads the field back.
- **AuthContext** models the client session (`client/src/contexts/AuthContext.jsx`). It is a
  class holding the provider's state and `localStorage` as a map. It has `login`, `logout`
  and the restore effect.
- **Text** holds the JavaScript string operations the modules share: `trim`, `toLowerCase`,
  `split`, `join`, `parseInt`, and the `isInt` pattern of the validator.
- **Http** holds the JSON reply types.

## Model

| member | source | states |
|---|---|---|
| Text.Trim | src/models/Post.js:7 | `trim`: the result is a slice of the input with only whitespace before and after it; it has no whitespace at either end, is no longer than the input, and is empty exactly when the input is all whitespace |
| Text.TrimmedIsFixed | src/models/Post.js:7 | trimming an already trimmed string changes nothing, so the setters may run again on a saved document |
| Text.TrimDropsPadding | src/middleware/validation.js:23 | whitespace around a trimmed, non-empty string is exactly what `trim` removes |
| Text.LowerKeepsTrimmed | src/models/Post.js:29-33 | lower-casing a trimmed tag keeps it trimmed, and lower-casing twice is lower-casing once |
| Text.Split | client/src/pages/EditPost.jsx:183 | `split(',')` yields one more piece than there are commas |
| Text.SplitPiecesHaveNoSeparator | client/src/pages/EditPost.jsx:183 | no piece contains the separator |
| Text.JoinSplit | client/src/pages/EditPost.jsx:183 | joining the pieces with the separator gives the string back |
| Text.SplitConcat | client/src/pages/EditPost.jsx:183 | splitting `a + sep + b` gives the pieces of `a` followed by the pieces of `b` |
| Text.SplitFirstPiece | client/src/contexts/AuthContext.jsx:38 | `split('@')[0]` is the prefix before the first `@`, or the whole string when there is none |
| Text.ParseIntOfIntString | src/controllers/postController.js:8-9 | `parseInt` reads a string the `isInt` rule accepts as the same integer the rule checked |
| Text.DecimalStringRoundTrip | src/controllers/postController.js:33 | the total written into the listing message reads back as that total |
| PostModel.NormalizedTagsAreNormal | src/models/Post.js:29-33 | every tag that goes through the setters is trimmed and lower case |
| PostModel.NewDocument | src/models/Post.js:3-41 | `new Post(fields)`: each text field is the trimmed value sent (empty when not sent), the tags are the sent tags trimmed and lower-cased (`[]` when not sent), `visualizacoes` is 0, `ativo` is true, and the id and creation time are the given ones; the result satisfies every setter |
| PostModel.NewDocumentKeepsSentFields | src/models/Post.js:3-41 | a new document holds what the client sent: a text field that is already trimmed, and a tag list already trimmed and lower case, are stored unchanged |
| PostModel.TituloError | src/models/Post.js:4-10 | a title fails the schema exactly when its length is outside 3..200 |
| PostModel.ConteudoError | src/models/Post.js:11-16 | the content fails exactly when it is shorter than 10 |
| PostModel.AutorError | src/models/Post.js:17-23 | the author fails exactly when its length is outside 2..100 |
| PostModel.ResumoError | src/models/Post.js:24-28 | the summary fails exactly when it is longer than 300 |
| PostModel.SchemaErrors | src/models/Post.js:3-28 | the validation messages are empty exactly when all four bounds hold, and there are at most four of them, one per failing path |
| PostModel.DeriveSummary | src/models/Post.js:57 | the derived summary is the content when it has at most 200 characters, otherwise its first 200 characters followed by `...`, so it never exceeds 203 |
| PostModel.PreSave | src/models/Post.js:55-60 | the hook never changes a non-empty summary, and it changes nothing except the summary |
| PostModel.PreSaveDerivesSummary | src/models/Post.js:55-60 | with an empty summary and non-empty trimmed content, the hook stores the derived summary, which is trimmed and has 1 to 203 characters |
| PostModel.SavedIsWellFormed | src/models/Post.js:4-60 | a document that passes validation is well formed after the hook, with a non-empty summary within the 300 bound |
| PostModel.Filter | src/models/Post.js:72-74 | the filter keeps exactly the active posts, and of those only the ones that match a truthy term |
| PostModel.FilterKeepsCounts | src/models/Post.js:72-74 | the filter neither repeats nor drops a selected post: each keeps its number of occurrences, and any other post has none |
| PostModel.SortNewestFirstIsSortedPermutation | src/models/Post.js:77 | `sort({ createdAt: -1 })`: the result is newest first and is a permutation of its input |
| PostModel.Window | src/models/Post.js:78-79 | `skip(k).limit(n)`: at most `n` posts, taken in order from position `k` |
| PostModel.WindowKeepsOrder | src/models/Post.js:77-79 | a page cut from a newest-first list is newest first |
| PostModel.FirstPagesArePrefix | src/models/Post.js:70 | pages 1 to n, one after another, are exactly the first `n * limit` results |
| PostModel.PostCollection.Ranked | src/models/Post.js:72-77 | the full result, newest first, holds exactly the stored documents that are active and match a truthy term, each exactly once, so its size is the number `countDocuments` counts |
| PostModel.PostCollection.SearchPosts | src/models/Post.js:69-81 | page `page` of the ranked result after skipping `(page-1)*limit`, at most `limit` posts, newest first, each one stored, active and matching |
| PostModel.PostCollection.CountPosts | src/models/Post.js:84-90 | the count uses the same filter as the search: it is the size of the ranked result |
| PostModel.PostCollection.Create | src/models/Post.js:3-60 | `Post.create` fails with the schema's messages or on a taken id and then changes nothing; otherwise the new document, after the hook, is stored and appended to the natural order |
| PostModel.PostCollection.Save | src/models/Post.js:55-60 | `save` validates, runs the hook and replaces the stored document; it fails without change on a schema violation or an id that is no longer stored |
| PostModel.PostCollection.IncrementViews | src/models/Post.js:63-66 | on a stored document, `visualizacoes` goes up by exactly 1 and nothing else in the collection changes |
| PostModel.PostCollection.FindByIdAndDelete | src/controllers/postController.js:210 | returns what was stored under the id and removes it; no other document changes |
| ErrorHandler.MessageOrDefault | src/middleware/errorHandler.js:28 | the message is never empty: the error's own message, or `Erro interno do servidor` when that is empty |
| ErrorHandler.Classify | src/middleware/errorHandler.js:8-28 | code 11000 gives 400 `Recurso duplicado` whatever else holds. Otherwise a ValidationError gives 400 with its field messages joined by `, `, and a CastError gives 404 `Recurso não encontrado`. Any other error keeps its own non-zero `statusCode` (500 without one) and its own message (`Erro interno do servidor` without one). The status is 404 exactly for a CastError or an error carrying 404. The message is never empty |
| ErrorHandler.ClassifyAt | src/middleware/errorHandler.js:26 | the corrected classification: with the default 200 on the response it is `Classify`; an error with no status of its own keeps the status already set |
| ErrorHandler.HandleError | src/middleware/errorHandler.js:1-31 | the handler's if-chain answers `ClassifyAt`, always with `success: false`, no data and a non-empty message |
| ErrorHandler.UnmatchedRouteAnswers500 | src/middleware/errorHandler.js:26 | as written, the error `notFound` builds (no status of its own, the route message) is answered with 500 |
| ErrorHandler.UnmatchedRouteAnswers404 | src/middleware/errorHandler.js:36 | when the status set on the response is consulted, an unmatched route is answered with 404 and the route message |
| ErrorHandler.UnmatchedRoute | src/middleware/errorHandler.js:34-38 | the corrected route answers 404 with `success: false` and the route message |
| Validation.TagsErrors | src/middleware/validation.js:45-54 | `tags`, when sent, passes exactly when it is an array of at most 10 entries. A longer array gets only the count error. A string always gets the array error, and gets the count error too exactly when it has more than 10 characters |
| Validation.OptionalLength | src/middleware/validation.js:39-43 | an optional field passes exactly when it is absent or its length is within the bounds |
| Validation.RequiredLength | src/middleware/validation.js:18-23 | a required field passes exactly when it is present and within bounds; an absent one gets both the required error and the length error |
| Validation.CreateErrors | src/middleware/validation.js:17-57 | a create passes exactly when `titulo`, `conteudo` and `autor` are sent, and every field sent obeys its bounds: title 3..200, content at least 10, author 2..100, summary at most 300, tags an array of at most 10 |
| Validation.UpdateErrors | src/middleware/validation.js:60-101 | an update passes exactly when the id is a Mongo id and every field sent obeys the create bounds; any field may be left out |
| Validation.IdErrors | src/middleware/validation.js:104-110 | passes exactly when the id is a Mongo id |
| Validation.SearchErrors | src/middleware/validation.js:113-131 | a search passes exactly when a `q` sent has 1 to 100 characters, a `page` sent is an integer of at least 1, and a `limit` sent is an integer from 1 to 50 |
| Validation.TrimPresent | src/middleware/validation.js:23 | the sanitizer replaces a field that was sent by its trim, and leaves an absent one absent |
| Validation.SanitizeBody | src/middleware/validation.js:17-57 | the chains replace every text field sent by its trim and leave `tags` as sent; `PaddedTitleRejected` shows what this means for a short title |
| Validation.SanitizeSearch | src/middleware/validation.js:114-118 | a term sent is replaced by its trim; `page` and `limit` pass through as sent |
| Validation.BlankTermPassesAsEmpty | src/middleware/validation.js:114-118 | a term of one blank passes the length rule, which runs before `trim`, and reaches the handler as the empty string |
| Validation.MissingFieldRejected | src/middleware/validation.js:4-37 | a create without a title, content or author is answered by `handleValidationErrors` with 400, `success: false`, `Dados inválidos` and the error list, and the missing field is reported with its required message |
| PostController.NumberParam | src/controllers/postController.js:8-9 | `parseInt(x) \|\| d` is the parsed value whenever that parses to a non-zero integer, and the default for a missing, unparseable or zero value |
| PostController.ValidatedPaging | src/controllers/postController.js:8-9 | after `validateSearch`, the page is the validated integer (at least 1, default 1) and the limit is the validated integer (1..50, default 10) |
| PostController.TotalPages | src/controllers/postController.js:16 | `Math.ceil(total / limit)`: the fewest pages of `limit` that hold `total` posts |
| PostController.Paginate | src/controllers/postController.js:16-31 | `hasNextPage` holds exactly when `page < totalPages`, which is exactly when `page * limit < total`; `hasPrevPage` holds exactly when `page > 1` |
| PostController.ListPosts | src/controllers/postController.js:6-38 | the reply is 200 with the requested page of the ranked result, the pagination over its full size, and the total in the message (with the term when it is truthy) |
| PostController.SearchPosts | src/controllers/postController.js:43-82 | a missing or empty term is refused with 400, and the reply then depends on no stored post; otherwise the reply is the listing's reply with the term echoed back |
| PostController.ListRoute | src/routes/postRoutes.js:22 | a query the validator refuses gets `handleValidationErrors`' 400 error list; otherwise `listPosts` runs on the sanitized query |
| PostController.SearchRoute | src/routes/postRoutes.js:23 | the same composition for `searchPosts` |
| PostController.BlankSearchRefused | src/controllers/postController.js:49-54 | a term of blanks passes the validator but is refused by the handler with 400 and the term-required message |
| PostController.PagesCoverResult | src/controllers/postController.js:13-16 | pages 1 to `totalPages`, one after another, are exactly the ranked result: no post is missed or repeated |
| PostController.NextPageHasPosts | src/controllers/postController.js:17 | `hasNextPage` holds exactly when the next page has posts |
| PostController.FirstPageHoldsAll | src/controllers/postController.js:13-16 | with a limit at least the count, page 1 returns the whole result and there is at most one page |
| PostController.EmptyListing | src/controllers/postController.js:13-18 | an empty collection lists no posts, with `totalPosts` 0, `totalPages` 0 and no next page |
| PostController.AsError | src/controllers/postController.js:35-37 | a schema failure reaches the handler as 400 with the joined messages; a duplicate id as 400 `Recurso duplicado` |
| PostController.GetPost | src/controllers/postController.js:87-116 | an absent or inactive post (`findById`) is 404 and nothing changes; otherwise the reply carries the post with one more view, and only that count changes in the collection |
| PostController.CreateFields | src/controllers/postController.js:123-131 | the sent text fields and the sent tags are handed to `Post.create` unchanged; tags left out are created as `[]` |
| PostController.CreatedAsSent | src/controllers/postController.js:123-131 | a created post holds, and is answered with, exactly the title, content, author and tags sent, when these are already trimmed (and the tags lower-case) |
| PostController.CreatePost | src/controllers/postController.js:121-141 | 201 with the new document after the hook, stored under the id; a schema failure or a taken id is answered by the error handler and changes nothing |
| PostController.CreateRoute | src/routes/postRoutes.js:25 | a body `validateCreatePost` refuses gets the 400 error list and nothing changes; otherwise `createPost` runs on the trimmed body, with the same three outcomes, and a created post is appended to the natural order |
| PostController.PaddedTitleRejected | src/middleware/validation.js:18-23 | the title's length rule runs before `trim`: a title of one or two characters with a blank on each side passes the validator, is stored trimmed, and is refused by the schema with 400 `O título deve ter pelo menos 3 caracteres` |
| PostController.ApplyUpdate | src/controllers/postController.js:159-164 | each field sent takes its trimmed value (tags trimmed and lower-cased), each field not sent is kept; id, views, `ativo` and creation time never change, and the setters' normal form is preserved |
| PostController.UpdateKeepsSummary | src/models/Post.js:56 | an update that does not send `resumo` keeps the stored summary even when the content changes |
| PostController.UpdateClearingSummary | src/models/Post.js:55-58 | an update that sends an empty `resumo` gets a summary derived from the (new) content |
| PostController.UpdatePost | src/controllers/postController.js:146-176 | 404 only when the id is not stored, so an inactive post can be updated; otherwise the updated document is saved after the hook, or the schema failure is answered and nothing changes |
| PostController.UpdateRoute | src/routes/postRoutes.js:26 | a request `validateUpdatePost` refuses (a bad id or a field out of bounds) gets the 400 error list and nothing changes; otherwise `updatePost` runs on the trimmed body; the natural order is kept in every case |
| PostController.DeletePost | src/controllers/postController.js:181-203 | 404 when absent; otherwise the post stays stored with `ativo` false and nothing else changes |
| PostController.RestorePost | src/controllers/postController.js:231-253 | 404 when absent; otherwise the post is stored with `ativo` true and returned |
| PostController.ForceDeletePost | src/controllers/postController.js:208-226 | the id is no longer stored afterwards, so a later lookup is not found, and it is filtered out of the natural order (`Without`); 404 exactly when it was already absent |
| PostController.SoftDeleteRoundTrip | src/controllers/postController.js:193-194 | a second soft delete changes nothing, and a restore after a soft delete gives back the collection as it was |
| TagField.DropEmpty | client/src/pages/EditPost.jsx:185 | the filter keeps exactly the non-empty pieces |
| TagField.ParseTags | client/src/pages/EditPost.jsx:182-185 | every parsed tag (split, each piece trimmed, empty pieces dropped) is trimmed and non-empty, and there are at most one more tags than commas |
| TagField.ParseTagsConcat | client/src/pages/EditPost.jsx:182-185 | the tags keep their input order: the tags before a comma come before the tags after it |
| TagField.BlankParsesEmpty | client/src/pages/EditPost.jsx:182-185 | an empty field, or one of only whitespace and commas, parses to no tags |
| TagField.JoinTags | client/src/pages/EditPost.jsx:152 | a post without tags, or with an empty tag list, fills the field with the empty string |
| TagField.JoinThenParse | client/src/pages/EditPost.jsx:152 | parsing the joined field gives back any list of trimmed, non-empty tags without commas |
| AuthContext.FindCredential | client/src/contexts/AuthContext.jsx:31-33 | `find` returns an entry exactly when that email and password pair is listed |
| AuthContext.Accepts | client/src/contexts/AuthContext.jsx:26-35 | the login test passes exactly when the password is non-empty; the credential list never decides |
| AuthContext.NameFor | client/src/contexts/AuthContext.jsx:38 | the name is never empty. When the email starts with a character other than `@`, it is the text before the first `@` (the whole email when there is none); otherwise it is `Professor` |
| AuthContext.LoginThenRestore | client/src/contexts/AuthContext.jsx:12-15 | after a successful login the storage holds a session that a restore (flag exactly `"true"` and a stored user) reads back with the same user |
| AuthContext.LogoutThenRestore | client/src/contexts/AuthContext.jsx:55-56 | after a logout a restore finds no session |
| AuthContext.Session.Restore | client/src/contexts/AuthContext.jsx:11-20 | loading ends in every case. The session is authenticated with the stored user only when a stored session exists; otherwise nothing else changes |
| AuthContext.Session.Login | client/src/contexts/AuthContext.jsx:22-50 | succeeds exactly when the password is non-empty. On success the session is authenticated with the profile (the email, or `professor@escola.com` when empty; the name; the role `professor`) and both storage keys are written. On failure it returns `Credenciais inválidas` and changes nothing |
| AuthContext.Session.Logout | client/src/contexts/AuthContext.jsx:52-57 | clears the flag and the user, and removes exactly the two storage keys |

## Left out

- **Text search.** MongoDB's `$text` matching (tokenising and stemming over `titulo`, `conteudo` and `resumo`) is not modelled. A collection takes the match as a function supplied when it is built.
- **Ties in sort order.** Posts with equal `createdAt` keep the collection's natural order. MongoDB leaves the order of such ties unspecified.
- **Persistence and time.** Persistence, `timestamps` and `toJSON` are left out. `createdAt` is a number given at creation; the new id is a parameter too.
- **Concurrency.** Handlers run one at a time, so the read-then-write race of view counting is not modelled.
- **Client plumbing.** Server, routing and HTTP wiring are out of scope, except the listing, search, create and update routes composed with their validators. So are the health and root routes, the logging, the auth backend, the React pages, and the axios client.
- **JSON in `localStorage`.** The stored user is a record value, not a JSON string. A plain text value under the `user` key is treated as no stored user; `JSON.parse` of arbitrary text is not modelled.
- **Request bodies.** Only strings and, for `tags`, a string array or a string are modelled. Numbers, objects and `null` in a request body are not.
- **Lengths and case.** Strings are sequences of code points, and every length is a count of code points. validator's `isLength` counts a surrogate pair once, as the model does, but it also leaves every U+FE0E/U+FE0F variation selector out of the length, which the model counts; so a title, summary, term or tag holding variation selectors can pass the validator's bounds while the model refuses it, or the reverse. Mongoose's `minlength`/`maxlength` and the `substring(0, 200)` of the summary hook count UTF-16 code units. So for text outside the Basic Multilingual Plane the model's schema bounds and derived summary differ from the code's. `toLowerCase` is modelled for Basic Latin and Latin-1 letters only.
- **Numbers.** Integers are unbounded. JavaScript numbers are doubles, and `isInt({ min: 1 })` has no maximum, so a page such as `100000000000000000000` passes the validator. `parseInt` and `(page - 1) * limit` then lose precision, which the model does not capture.
- **Message order.** A ValidationError's messages are joined in schema path order. Mongoose keys them by path in the order validation reported them.
- **Development mode.** The `stack` field that `errorHandler` adds in development mode is not modelled.
- **Error values.** The `value` field of each express-validator error is not modelled.
- PostController.GetPost: requires a valid Mongo id, because `validateId` always runs first on the route. The same holds for UpdatePost, DeletePost, RestorePost and ForceDeletePost; UpdateRoute composes the update with its validator and has no such requirement.
- Validation.IsMongoId: taken as exactly 24 hexadecimal digits. validator's `isMongoId` is `isHexadecimal` plus a length of 24, and `isHexadecimal` also accepts a `0x` or `0h` prefix. So an id such as `0x` followed by 22 hexadecimal digits passes `validateId`, Mongoose cannot cast it, and the error handler answers 404 `Recurso não encontrado` through its CastError branch. That path through the handlers is not modelled; `Classify` states the CastError answer itself.
- PostController.CreatePost: requires `tags`, when sent, to be an array. The validator refuses anything else before the handler runs (CreateRoute and UpdateRoute state that composition without the requirement), and Mongoose's casting of a string to an array is not modelled. The same holds for UpdatePost and ApplyUpdate.
- PostController.ListPosts: requires the paging that `validateSearch` lets through. SearchPosts has the same requirement. The arithmetic of `parseInt` on a negative page is therefore not modelled.
- PostController.GetPost: the error path (`next(error)`) after `incrementViews` is unreachable in the model. A stored document always passes validation again. The same holds for the saves in DeletePost and RestorePost.
- PostModel.PostCollection.Save: validates the whole document, where Mongoose validates modified and required paths. The result is the same, because every stored document is well formed.
- **Email as an optional value.** `login` takes the email as a string, so the `email?.` case of an undefined email is not modelled. An empty email behaves the same way: the default email, and the name `Professor`.

## Findings

| source | as written | input that shows it | evidently intended | confidence | as-written member | corrected member |
|---|---|---|---|---|---|---|
| src/middleware/errorHandler.js:26 | the status is `error.statusCode \|\| 500`; the 404 that `notFound` set on the response (line 36) is overwritten | any unmatched URL, e.g. `GET /api/nothing`: the error has no `statusCode`, so the answer is 500 `Rota não encontrada - /api/nothing` | an unmatched route is answered with 404 | not executed | ErrorHandler.UnmatchedRouteAnswers500 | ErrorHandler.UnmatchedRouteAnswers404 |

`ErrorHandler.HandleError` is written with the correction:
- it falls back to the status already set on the response when that is not the default 200;
- the post handlers pass 200, so for them it answers exactly as the code does (`ClassifyAt` equals `Classify` there);
- `ErrorHandler.UnmatchedRoute` passes 404.
