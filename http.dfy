/** The JSON replies the API sends: an HTTP status, the `success` flag, a message and
    the `data` (or `errors`) part of the body. */
module Http {
  import opened Text
  import opened PostModel

  /** One entry of express-validator's `errors.array()`: where the field was read from,
      its name, and the message of the rule it broke. */
  datatype FieldError = FieldError(location: string, path: string, msg: string)

  /** `data.pagination` of a listing. */
  datatype Pagination = Pagination(
    currentPage: int,
    totalPages: nat,
    totalPosts: nat,
    hasNextPage: bool,
    hasPrevPage: bool,
    limit: int)

  datatype Payload =
    | NoData                                        // no `data` field
    | PostData(post: Post)                          // `data: post`
    | Listing(posts: seq<Post>, pagination: Pagination, searchTerm: Option<string>)
    | FieldErrors(errors: seq<FieldError>)          // `errors: [...]` of a rejected request

  datatype Reply = Reply(status: nat, success: bool, message: string, payload: Payload)
}
