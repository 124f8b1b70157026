# Bill extraction: a verified model of the page pipeline

The service turns a medical bill, given as a document URL, into line items.
It splits the downloaded document into page images, asks a vision model for
a small JSON record per page, repairs and normalises each record, then
sanitises the line items and builds the response with token usage and an
item count. This project models the deterministic part of that pipeline in
Dafny and proves what it does:

- `py_text.dfy` (module `PyText`): the Python `str` operations the code relies
  on, over `seq<char>`. These are `strip()` with Python's whitespace set, `in`,
  `split`/`join`, ASCII `lower()` and `str()` of an integer.
- `json_value.dfy` (module `JsonValues`): the values `json.loads` yields,
  Python truthiness on them, and `dict.get`.
- `wrappers.dfy`, `errors.dfy`: `Option`/`Result`, and the errors a request can
  end in. A 400 carries its detail text. Every Python exception that escapes
  the handler becomes the framework's 500.
- `use_model.dfy` (module `UseModel`): `_clean_json_text`, `_extract_usage`
  and the part of `extract_page` after the model call.
- `document_utils.dfy` (module `DocumentUtils`): `split_into_pages`.
- `bill_extraction.dfy` (module `BillExtraction`): `extract_bill_data` from
  the split onwards.

Each imperative piece of the source is a `method` with the source's loops and
in-place updates. Most of them are proved equal to specification functions
(`ExtractPage` to `PageRecord`, `BuildBillItems` to `SanitizeItems`,
`ExtractPages` to `Collect`, `BuildPageLines` to `PageLines`), and lemmas
state what those functions mean. Three methods have no such function, and
their ensures state the result directly: `SplitIntoPages` and `RenderPages`
in `document_utils.dfy`, and `ExtractBillData` in `bill_extraction.dfy`.

Things outside the program are inputs:

- the model's answer for a page, as a function of the page;
- the JSON parser, as `string -> Option<JsonValue>`, where `None` is a decode error;
- `float()` applied to a string, as `string -> Option<real>`;
- `str()` applied to a JSON value that is not a string;
- the PDF rasteriser, as `Bytes -> Rasterisation`.

Three behaviours of the code that a reader might not expect, all captured
by the model:

- One odd answer or item fails the whole request with a 500, although the
  code tries to be defensive. This happens when the model's JSON is not an
  object, or its page_type is a list or an object (`UseModel.Normalised`).
  It also happens when an item is not an object, or an item's name is truthy
  but not a string (`BillExtraction.SanitizeItem`). The loop over `items` in
  `extract_bill_data` would also raise on a number, a bool, null, or a
  non-empty string or object (`BillExtraction.IterItems`). Normalisation
  never passes such a value on, because it replaces every `items` that is not
  a list with an empty list, so such an answer gives a page with no bill
  items rather than a 500.
- On the fallback path of `split_into_pages`, a document that fails part-way
  gives pages numbered 1..k followed by the raw bytes as page 1 again. Pages
  are not numbered contiguously there.
- The splitter can return an empty page list. This happens for a content
  type that is not PDF, not empty and not an image type, with a document
  that opens and has no pages. `extract_bill_data` then answers with its own
  400.

## Model

| member | source | states |
|---|---|---|
| PyText.Strip | usemodel.py:89 | the result has no leading or trailing whitespace (Python's `isspace` set), and already-trimmed text is returned unchanged |
| PyText.SplitJoin | usemodel.py:92 | splitting on the fence loses nothing: joining the pieces with the fence gives the text back |
| PyText.NatToStringRoundTrip | usemodel.py:159 | the decimal text of a page number reads back as that number |
| UseModel.FirstWithBraces | usemodel.py:93-95 | the chosen segment holds both braces, no earlier segment does, and there is none exactly when no segment holds both braces |
| UseModel.FirstWithBracesUnique | usemodel.py:93-95 | `candidates[0]` is well defined: only one segment is the first to hold both braces |
| UseModel.FromCandidatesCases | usemodel.py:93-96 | the fenced branch keeps the whole text when no segment holds both braces, and otherwise takes the first such segment, stripped, with one leading "json" dropped, stripped again |
| UseModel.JsonTagAnyCase | usemodel.py:96 | `^json` under IGNORECASE: the first four characters go exactly when they lower-case to "json", or to "j", U+017F (the long s, which IGNORECASE matches to s), "on"; otherwise the text is unchanged |
| UseModel.CleanJsonText | usemodel.py:84-98 | the cleaned text never has surrounding whitespace |
| UseModel.CleanJsonTextCases | usemodel.py:89-98 | no fence gives the stripped text; fences with no brace-holding segment give the stripped text; otherwise the result is the first such segment, stripped, with one leading case-insensitive "json" dropped, stripped again |
| UseModel.SplitBetweenFences | usemodel.py:92 | backtick-free text between two fences splits into an empty piece, that text and an empty piece |
| UseModel.StripTaggedBody | usemodel.py:95-96 | stripping "json\n" + body + "\n" and dropping the tag gives back a trimmed body |
| UseModel.CleanFencedJson | usemodel.py:89-96 | a trimmed, backtick-free object text wrapped in a json-tagged fence is cleaned to exactly that text |
| UseModel.FirstTruthy | usemodel.py:118-133 | a counter is 0 exactly when none of its aliases is present with a non-zero value |
| UseModel.FirstTruthyPicksFirstSet | usemodel.py:118-133 | aliases are tried in order: the counter is the value of the first alias set to something other than 0, so a 0 falls through |
| UseModel.SelectUsageMeta | usemodel.py:111-116 | `usage_metadata or usage`: a truthy usage_metadata is used; otherwise usage is used, whatever it is; there is none (so all counters stay 0) exactly when usage is absent and usage_metadata is absent or falsy |
| UseModel.UsageOf | usemodel.py:105-135 | with no truthy `usage_metadata` and no `usage` all counters are 0, and each non-zero counter (total, input, output) comes from one of that counter's aliases |
| UseModel.ExtractUsage | usemodel.py:100-135 | the dict built and then overwritten field by field is the usage record `UsageOf` describes |
| UseModel.Normalised | usemodel.py:164-178 | normalisation raises exactly when the parsed value is not an object or its page_type is a list or object (unhashable); otherwise the record has a truthy page_no, a list of items and a valid page_type |
| UseModel.NormalisedFields | usemodel.py:164-178 | page_no is kept when present and truthy and becomes str(page_no) otherwise; items is kept when a list and becomes [] otherwise; page_type is kept when one of the three names and becomes "Bill Detail" otherwise; every other key is untouched and no key is lost |
| UseModel.PageRecord | usemodel.py:151-183 | a record that comes out is normalised and carries the answer's usage |
| UseModel.ParseFailureGivesFallback | usemodel.py:154-162 | text that does not parse gives exactly {page_no: str(page_no), page_type: "Bill Detail", items: []} and the usage, with no error |
| UseModel.ExtractPage | usemodel.py:151-183 | the in-place updates of the parsed dict produce exactly `PageRecord` |
| DocumentUtils.RenderPages | src/document_utils.py:54-57 | one page per rendered image, in order, numbered from 1, all "image/png" |
| DocumentUtils.SplitIntoPages | src/document_utils.py:30-77 | "pdf" or empty content type: an unopenable document or one with no pages is a 400, a failing page a 500, otherwise pages 1..N as PNG; otherwise png/jpeg/jpg: the bytes untouched as the one page; otherwise the rendered pages with the raw bytes appended as page 1 when opening or rendering raises; the result is empty exactly on the fallback path with a document that opens and has no pages |
| BillExtraction.CoerceNumber | main.py:112-125 | a missing or falsy value gives 0.0, a number itself, True 1.0, a string what `float` reads from it or 0.0, a list or object 0.0 |
| BillExtraction.IsSummaryRow | main.py:104-108 | a name is a summary row exactly when its lower-cased form contains one of "total", "subtotal", "sub total", "grand total", "net amount" |
| BillExtraction.ContainsAny | main.py:105-108 | `any(kw in text for kw in keywords)` holds exactly when some keyword occurs in the text |
| BillExtraction.SummaryRowIgnoresCase | main.py:104-108 | the test ignores letter case: a name and its lower-cased form are summary rows alike |
| BillExtraction.SanitizeItem | main.py:99-134 | sanitising one item raises exactly when it is not an object or its name is a truthy non-string |
| BillExtraction.SanitizeItemOutcome | main.py:101-134 | an item that raises nothing is skipped exactly when its stripped, lowercased name holds a summary keyword, and is otherwise kept as a clean item with the stripped name (or "") and the three coerced numbers |
| BillExtraction.SanitizeItems | main.py:99-134 | the kept items are all clean and there are never more of them than raw items |
| BillExtraction.SanitizeItemsFailsIff | main.py:99-134 | a page's items raise exactly when one of them cannot be sanitised |
| BillExtraction.SanitizeItemsAppend | main.py:99-134 | kept items keep their relative order: sanitising a concatenation is sanitising each part and concatenating |
| BillExtraction.SanitizeCleanItem | main.py:101-134 | a clean item, fed back as model output, is kept unchanged |
| BillExtraction.SanitizeIdempotent | main.py:99-134 | clean items, re-encoded as raw model items under the keys `name`, `rate`, `quantity` and `amount`, sanitise back to themselves: nothing is removed and nothing changes (the response's own `item_*` keys are not read back) |
| BillExtraction.SanitizeTwice | main.py:99-134 | sanitising the output of a successful sanitisation gives that output back |
| BillExtraction.SanitizeOne | main.py:100-134 | the loop body over one item computes `SanitizeItem` |
| BillExtraction.IterItems | main.py:95-99 | `for item in items` runs over the elements of a list, over nothing for an empty string or object, and raises for a number, bool, null or a non-empty string or object (whose characters or keys have no `.get`) |
| BillExtraction.BuildBillItems | main.py:97-134 | the append-and-continue loop computes `SanitizeItems` |
| BillExtraction.PageLine | main.py:92-144 | the entry's page number is the record's page_no when it is a string, its `str()` otherwise and "1" when absent; for a normalised record the entry exists exactly when its items sanitise, its page_type is the record's, one of the three names, and its bill items are the sanitised items |
| BillExtraction.BuildPageLine | main.py:93-144 | the loop body over one page record computes `PageLine` |
| BillExtraction.UnparsablePageEntry | usemodel.py:154-162 | an answer that does not parse still gets an entry with its own page number as text, page type "Bill Detail" and no bill items |
| BillExtraction.PageLinesFailsIff | main.py:92-144 | building the entries raises exactly when some record's conversion raises |
| BillExtraction.PageLinesAt | main.py:92-144 | entry k of the built entries is the conversion of record k |
| BillExtraction.BuildPageLines | main.py:89-144 | the page loop builds `PageLines` and its running count equals the summed lengths of the bill-item lists |
| BillExtraction.TotalItemCountStep | main.py:136 | counting one more page adds its number of bill items |
| BillExtraction.Collect | main.py:73-86 | a successful run yields one page record per page |
| BillExtraction.CollectMeaning | main.py:73-86 | the page loop succeeds exactly when every page record does; the collected results are the records' data in order and the counters are the per-page sums |
| BillExtraction.ExtractPages | main.py:73-86 | the loop that calls the extractor, adds the counters and appends the results computes `Collect` of the per-page records |
| BillExtraction.LinesOfRecords | main.py:89-144 | over collected results, the entries are built exactly when every page converts, and entry k is page k's conversion |
| BillExtraction.ExtractBillData | main.py:62-162 | a failed split is passed on; no pages is a 400 before any model call; otherwise the result is a 500 exactly when some page raises, and a response is marked successful, has one entry per page in page order, counts the items over all pages and sums the token counters over all pages |

## Left out

- `download_document`: HTTP I/O. The split takes the content type and bytes as inputs, and `extract_bill_data` takes the split's result as input.
- The model call in `extract_page` and the prompt text: the answer (text, `usage_metadata`, `usage`) is an input per page.
- ExtractBillData: an exception from the model call is not modelled. In the code, an exception from `generate_content` (usemodel.py:143-149), or from creating the client (`UseApiModel()`, main.py:70), is a 500. The model's answer function cannot fail, so "a 500 exactly when a page raises" covers only model calls that return.
- PyMuPDF (`fitz.open`, `get_pixmap`, `tobytes`): replaced by a rasteriser that either fails to open or yields the images it rendered, possibly failing after them.
- `json.loads`: an oracle from text to a JSON value or a decode error; JSON parsing itself is not modelled.
- `float()` on strings and `str()` on non-string values: oracles. Float precision, NaN, infinities and `OverflowError` are not modelled.
- JSON values: Python's int/float distinction and dict key order are not modelled. Numbers are `real` and objects are maps.
- PyText.AsciiLower: `lower()` is modelled on ASCII letters only. This is exact for the summary test: the keywords are ASCII, and no character outside ASCII lower-cases to one of their letters (U+212A becomes "k" and U+0130 becomes "i" with a combining dot, and neither letter is in a keyword).
- Usage metadata: an attribute set to `None` is modelled as absent. Counters are integers.
- ExtractBillData: the `.get(key, 0)` defaults when adding usage are not modelled. The usage dict always has the three keys, so they never apply.
- ExtractBillData: `is_success` is the constant true, as in the code.
- BillExtraction.TotalUsage: it adds up only the records that succeeded. It is used only where every record succeeded.
- Exception types are kept only as far as the client sees them: every escaping exception is the same 500.
