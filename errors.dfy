/**
 * What can go wrong in a request, as the web endpoint reports it.
 *
 * `HttpError` is what the client sees: a 400 raised deliberately with a
 * detail text, or the 500 the web framework answers when a Python exception
 * escapes the handler.  `Crash` names the exceptions that can escape from
 * the page extractor and the aggregator on odd model output; every one of
 * them surfaces as `InternalServerError`.
 */
module Errors {

  datatype HttpError = BadRequest(detail: string) | InternalServerError

  datatype Crash =
    | ParsedNotAnObject     // json.loads gave a list, string, number, bool or null
    | UnhashablePageType    // page_type is a list or object: `in` on a set raises TypeError
    | ItemsNotIterable      // `for item in items` over a number, bool or None
    | ItemNotAnObject       // an element of items has no .get
    | NameNotAString        // a truthy non-string name has no .strip
}
