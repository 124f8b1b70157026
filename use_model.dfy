/**
 * The page extractor (usemodel.py): what happens to one model answer after
 * the call returns.  The answer's text is cleaned of markdown fences,
 * handed to a JSON parser, and the parsed object is normalised into a page
 * record; the token counters are read from whichever usage fields the
 * answer carries.
 *
 * The model call, the JSON parser and the answer object are inputs: the
 * parser is a function `string -> Option<JsonValue>` (None is a
 * JSONDecodeError) and the answer is a `ModelResponse` value.
 */
module UseModel {
  import opened Wrappers
  import opened Errors
  import opened PyText
  import opened JsonValues

  // ---------------------------------------------------------------------
  // Cleaning the answer text (_clean_json_text)
  // ---------------------------------------------------------------------

  const Fence: string := "```"

  /** The candidate test of the cleaner: the segment holds both braces. */
  predicate HasBraces(p: string) {
    '{' in p && '}' in p
  }

  /** Index of the first segment that holds both braces, if any. */
  function FirstWithBraces(parts: seq<string>): (r: Option<nat>)
    ensures r.Some? ==> r.value < |parts| && HasBraces(parts[r.value])
    ensures r.Some? ==> forall j :: 0 <= j < r.value ==> !HasBraces(parts[j])
    ensures r.None? <==> forall j :: 0 <= j < |parts| ==> !HasBraces(parts[j])
  {
    if parts == [] then None
    else if HasBraces(parts[0]) then Some(0)
    else match FirstWithBraces(parts[1..])
      case None => None
      case Some(k) => Some(k + 1)
  }

  /** Only one segment can be the first to hold both braces. */
  lemma FirstWithBracesUnique(parts: seq<string>)
    requires FirstWithBraces(parts).Some?
    ensures forall k :: 0 <= k < |parts| && HasBraces(parts[k]) && (forall j :: 0 <= j < k ==> !HasBraces(parts[j])) ==>
      k == FirstWithBraces(parts).value
  {
  }

  /**
   * The text starts with "json" in any letter case, as the pattern `^json`
   * with re.IGNORECASE sees it (which lets 's' also match U+017F, the long s).
   */
  predicate StartsWithJsonTag(s: string) {
    && |s| >= 4
    && (s[0] == 'j' || s[0] == 'J')
    && (s[1] == 's' || s[1] == 'S' || s[1] == '\U{17F}')
    && (s[2] == 'o' || s[2] == 'O')
    && (s[3] == 'n' || s[3] == 'N')
  }

  /** `re.sub(r"^json", "", s, flags=re.IGNORECASE)`: at most one leading tag goes. */
  function DropJsonTag(s: string): string {
    if StartsWithJsonTag(s) then s[4..] else s
  }

  /**
   * The tag is matched without regard to case: exactly when the first four
   * characters lower-case to "json" (or to "j\U{17F}on", the long s that
   * IGNORECASE also takes for an s) are they removed; otherwise the text is
   * left as it is.
   */
  lemma JsonTagAnyCase(s: string)
    ensures |s| >= 4 && (AsciiLower(s[..4]) == "json" || AsciiLower(s[..4]) == "j\U{17F}on") ==> DropJsonTag(s) == s[4..]
    ensures !(|s| >= 4 && (AsciiLower(s[..4]) == "json" || AsciiLower(s[..4]) == "j\U{17F}on")) ==> DropJsonTag(s) == s
  {
    if |s| >= 4 {
      var low := AsciiLower(s[..4]);
      assert low == [AsciiLowerChar(s[0]), AsciiLowerChar(s[1]), AsciiLowerChar(s[2]), AsciiLowerChar(s[3])];
    }
  }

  /**
   * The fenced branch of the cleaner: the first segment holding both
   * braces, stripped, with one leading "json" tag dropped and stripped
   * again; `whole` when no segment holds both braces.
   */
  function FromCandidates(parts: seq<string>, whole: string): (r: string)
    ensures IsTrimmed(whole) ==> IsTrimmed(r)
  {
    match FirstWithBraces(parts)
    case None => whole
    case Some(k) => Strip(DropJsonTag(Strip(parts[k])))
  }

  /** No segment holds both braces. */
  predicate NoCandidate(parts: seq<string>) {
    forall j :: 0 <= j < |parts| ==> !HasBraces(parts[j])
  }

  /** Segment `k` is the first that holds both braces. */
  predicate FirstCandidateAt(parts: seq<string>, k: int) {
    0 <= k < |parts| && HasBraces(parts[k]) && forall j :: 0 <= j < k ==> !HasBraces(parts[j])
  }

  /** The fenced branch picks the first brace-holding segment, or keeps `whole` when there is none. */
  lemma FromCandidatesCases(parts: seq<string>, whole: string)
    ensures NoCandidate(parts) ==> FromCandidates(parts, whole) == whole
    ensures forall k :: FirstCandidateAt(parts, k) ==> FromCandidates(parts, whole) == Strip(DropJsonTag(Strip(parts[k])))
  {
    if FirstWithBraces(parts).Some? {
      FirstWithBracesUnique(parts);
    }
  }

  /** The cleaned text handed to the JSON parser; it never has surrounding whitespace. */
  function CleanJsonText(text: string): (r: string)
    ensures IsTrimmed(r)
  {
    var stripped := Strip(text);
    if Contains(stripped, Fence) then FromCandidates(Split(stripped, Fence), stripped) else stripped
  }

  /**
   * What the cleaner picks.  Without a fence the stripped text is used as it
   * is; with fences, the first fence-delimited segment holding both braces
   * is used, stripped, with one leading "json" tag removed and stripped
   * again; with fences but no such segment, the stripped text is used as it
   * is.
   */
  lemma CleanJsonTextCases(text: string)
    ensures !Contains(Strip(text), Fence) ==> CleanJsonText(text) == Strip(text)
    ensures Contains(Strip(text), Fence) && NoCandidate(Split(Strip(text), Fence)) ==> CleanJsonText(text) == Strip(text)
    ensures forall k :: Contains(Strip(text), Fence) && FirstCandidateAt(Split(Strip(text), Fence), k) ==>
      CleanJsonText(text) == Strip(DropJsonTag(Strip(Split(Strip(text), Fence)[k])))
  {
    hide Strip, Split, FromCandidates;
    var stripped := Strip(text);
    if Contains(stripped, Fence) {
      var parts := Split(stripped, Fence);
      assert CleanJsonText(text) == FromCandidates(parts, stripped);
      FromCandidatesCases(parts, stripped);
    } else {
      assert CleanJsonText(text) == stripped;
    }
  }

  /** A fence is found right after a stretch of text that holds no backtick. */
  lemma {:induction false} FenceAfterPlainText(x: string)
    requires '`' !in x
    ensures IndexOf(x + Fence, Fence) == Some(|x|)
    decreases |x|
  {
    if x != [] {
      assert (x + Fence)[0] != Fence[0];
      assert (x + Fence)[1..] == x[1..] + Fence;
      FenceAfterPlainText(x[1..]);
    } else {
      assert x + Fence == Fence;
    }
  }

  /** Text without backticks between two fences splits into an empty piece, that text, and an empty piece. */
  lemma SplitBetweenFences(mid: string)
    requires '`' !in mid
    ensures Split(Fence + mid + Fence, Fence) == [[], mid, []]
  {
    var text := Fence + mid + Fence;
    assert Fence <= text;
    assert IndexOf(text, Fence) == Some(0);
    var rest := text[3..];
    assert rest == mid + Fence;
    FenceAfterPlainText(mid);
    assert rest[..|mid|] == mid;
    assert rest[|mid| + 3..] == [];
    assert IndexOf([], Fence) == None;
    assert Split(rest, Fence) == [mid, []];
    assert text[..0] == [];
  }

  /** Stripping the fenced segment and then dropping its tag leaves the body alone. */
  lemma StripTaggedBody(body: string)
    requires body != [] && IsTrimmed(body)
    ensures Strip(DropJsonTag(Strip("json\n" + body + "\n"))) == body
  {
    assert IsSpace('\n') && !IsSpace('j');
    hide IsSpace;
    var mid := "json\n" + body + "\n";
    var tagged := "json\n" + body;
    assert mid[..|mid| - 1] == tagged;
    assert TrimStart(mid) == mid;
    assert TrimEnd(tagged) == tagged;
    assert Strip(mid) == tagged;
    assert StartsWithJsonTag(tagged);
    assert DropJsonTag(tagged) == "\n" + body;
    assert ("\n" + body)[1..] == body;
    assert TrimStart("\n" + body) == body;
  }

  /**
   * A JSON object wrapped in a ```json fence, the usual shape of a model
   * that ignores the instruction not to fence its answer, is cleaned to
   * exactly the object's text.
   */
  lemma CleanFencedJson(body: string)
    requires HasBraces(body) && IsTrimmed(body) && '`' !in body
    ensures CleanJsonText(Fence + "json\n" + body + "\n" + Fence) == body
  {
    assert !IsSpace('`');
    hide IsSpace, Contains;
    var mid := "json\n" + body + "\n";
    var text := Fence + mid + Fence;
    assert Fence + "json\n" + body + "\n" + Fence == text;
    assert IsTrimmed(text);
    assert Fence <= text;
    assert '`' !in mid;
    SplitBetweenFences(mid);
    var parts := Split(text, Fence);
    assert !HasBraces(parts[0]) && HasBraces(parts[1]);
    assert FirstWithBraces(parts) == Some(1);
    StripTaggedBody(body);
  }

  // ---------------------------------------------------------------------
  // Token usage (_extract_usage)
  // ---------------------------------------------------------------------

  datatype Usage = Usage(totalTokens: int, inputTokens: int, outputTokens: int)

  /**
   * A usage-metadata object as the answer carries it: whether Python finds
   * the object itself truthy, and the token-count attributes it has with a
   * value other than None.
   */
  datatype UsageMeta = UsageMeta(truthy: bool, counters: map<string, int>)

  /** The parts of a model answer the extractor reads. */
  datatype ModelResponse = ModelResponse(
    text: Option<string>,
    usageMetadata: Option<UsageMeta>,
    usage: Option<UsageMeta>)

  const TotalTokenAliases: seq<string> := ["total_token_count", "total_tokens"]
  const InputTokenAliases: seq<string> := ["prompt_token_count", "input_tokens", "input_token_count"]
  const OutputTokenAliases: seq<string> := ["candidates_token_count", "output_tokens"]

  /** The attribute is present and truthy, i.e. neither None nor 0. */
  predicate CounterSet(meta: UsageMeta, name: string) {
    name in meta.counters && meta.counters[name] != 0
  }

  /**
   * `getattr(m, a1, None) or getattr(m, a2, None) or ... or 0`: the value of
   * the first alias that is set, and 0 exactly when none of them is.
   */
  function FirstTruthy(meta: UsageMeta, aliases: seq<string>): (r: int)
    ensures r == 0 <==> forall k :: 0 <= k < |aliases| ==> !CounterSet(meta, aliases[k])
  {
    if aliases == [] then 0
    else if CounterSet(meta, aliases[0]) then meta.counters[aliases[0]]
    else FirstTruthy(meta, aliases[1..])
  }

  /** Aliases are tried in order: a missing or zero alias falls through to the next. */
  lemma {:induction false} FirstTruthyPicksFirstSet(meta: UsageMeta, aliases: seq<string>, k: nat)
    requires k < |aliases| && CounterSet(meta, aliases[k])
    requires forall j :: 0 <= j < k ==> !CounterSet(meta, aliases[j])
    ensures FirstTruthy(meta, aliases) == meta.counters[aliases[k]]
    decreases k
  {
    if k > 0 {
      assert !CounterSet(meta, aliases[0]);
      forall j | 0 <= j < k - 1 ensures !CounterSet(meta, aliases[1..][j]) {
        assert aliases[1..][j] == aliases[j + 1];
      }
      FirstTruthyPicksFirstSet(meta, aliases[1..], k - 1);
    }
  }

  /** `getattr(r, "usage_metadata", None) or getattr(r, "usage", None)`. */
  function SelectUsageMeta(response: ModelResponse): (r: Option<UsageMeta>)
    ensures r.None? <==> response.usage.None? && !(response.usageMetadata.Some? && response.usageMetadata.value.truthy)
    ensures r.Some? ==> r == response.usageMetadata || r == response.usage
    ensures response.usageMetadata.Some? && response.usageMetadata.value.truthy ==> r == response.usageMetadata
  {
    if response.usageMetadata.Some? && response.usageMetadata.value.truthy then response.usageMetadata
    else response.usage
  }

  /** The usage record of one answer, with every counter defaulting to 0. */
  function UsageOf(response: ModelResponse): (u: Usage)
    ensures SelectUsageMeta(response).None? ==> u == Usage(0, 0, 0)
    ensures (response.usageMetadata.None? || !response.usageMetadata.value.truthy) && response.usage.None? ==>
      u == Usage(0, 0, 0)
    ensures u.totalTokens != 0 ==> exists k :: 0 <= k < |TotalTokenAliases| && CounterSet(SelectUsageMeta(response).value, TotalTokenAliases[k])
    ensures u.inputTokens != 0 ==> exists k :: 0 <= k < |InputTokenAliases| && CounterSet(SelectUsageMeta(response).value, InputTokenAliases[k])
    ensures u.outputTokens != 0 ==> exists k :: 0 <= k < |OutputTokenAliases| && CounterSet(SelectUsageMeta(response).value, OutputTokenAliases[k])
  {
    match SelectUsageMeta(response)
    case None => Usage(0, 0, 0)
    case Some(meta) =>
      Usage(FirstTruthy(meta, TotalTokenAliases),
            FirstTruthy(meta, InputTokenAliases),
            FirstTruthy(meta, OutputTokenAliases))
  }

  /** Builds the all-zero record and overwrites each counter once a usage object is found. */
  method ExtractUsage(response: ModelResponse) returns (usage: Usage)
    ensures usage == UsageOf(response)
  {
    usage := Usage(0, 0, 0);
    var meta := SelectUsageMeta(response);
    if meta.None? {
      return;
    }
    usage := usage.(totalTokens := FirstTruthy(meta.value, TotalTokenAliases));
    usage := usage.(inputTokens := FirstTruthy(meta.value, InputTokenAliases));
    usage := usage.(outputTokens := FirstTruthy(meta.value, OutputTokenAliases));
  }

  // ---------------------------------------------------------------------
  // Normalising the parsed page (tail of extract_page)
  // ---------------------------------------------------------------------

  const ValidPageTypes: set<string> := {"Bill Detail", "Final Bill", "Pharmacy"}
  const DefaultPageType: string := "Bill Detail"

  /** The shape every page record has once normalised. */
  predicate IsNormalisedPage(page: map<string, JsonValue>) {
    && "page_no" in page && Truthy(page["page_no"])
    && "items" in page && page["items"].Arr?
    && "page_type" in page && page["page_type"].Str? && page["page_type"].s in ValidPageTypes
  }

  /** The record used when the cleaned text is not valid JSON. */
  function FallbackRecord(pageNo: int): map<string, JsonValue> {
    map["page_no" := Str(IntToString(pageNo)), "page_type" := Str(DefaultPageType), "items" := Arr([])]
  }

  /**
   * The parsed value after normalisation.  A value that is not an object,
   * or an object whose page_type is a list or an object, makes the
   * in-place updates raise; anything else comes out normalised.
   */
  function Normalised(pageNo: int, data: JsonValue): (r: Result<map<string, JsonValue>, Crash>)
    ensures r.Failure? <==>
      !data.Obj? || ("page_type" in data.fields && (data.fields["page_type"].Arr? || data.fields["page_type"].Obj?))
    ensures r.Success? ==> IsNormalisedPage(r.value)
  {
    if !data.Obj? then Failure(ParsedNotAnObject)
    else
      var fields := data.fields;
      var withPageNo :=
        if "page_no" !in fields || !Truthy(fields["page_no"]) then fields["page_no" := Str(IntToString(pageNo))]
        else fields;
      var items := GetOr(withPageNo, "items", Arr([]));
      var withItems := withPageNo["items" := if items.Arr? then items else Arr([])];
      var pageType := GetOr(withItems, "page_type", Str([]));
      if pageType.Arr? || pageType.Obj? then Failure(UnhashablePageType)
      else if pageType.Str? && pageType.s in ValidPageTypes then Success(withItems)
      else Success(withItems["page_type" := Str(DefaultPageType)])
  }

  /**
   * What normalisation keeps and what it replaces: page_no is kept when
   * present and truthy and set to str(pageNo) otherwise; items is kept when
   * it is a list and set to [] otherwise; page_type is kept when it is one
   * of the three valid names and set to "Bill Detail" otherwise; the keys
   * are the old ones plus those three, and every other key is left as it
   * was.
   */
  lemma NormalisedFields(pageNo: int, data: JsonValue)
    requires Normalised(pageNo, data).Success?
    ensures var page := Normalised(pageNo, data).value;
      && page.Keys == data.fields.Keys + {"page_no", "items", "page_type"}
      && (forall k :: k in data.fields && k != "page_no" && k != "items" && k != "page_type" ==>
            page[k] == data.fields[k])
      && page["page_no"] ==
           (if "page_no" in data.fields && Truthy(data.fields["page_no"]) then data.fields["page_no"]
            else Str(IntToString(pageNo)))
      && page["items"] ==
           (if "items" in data.fields && data.fields["items"].Arr? then data.fields["items"] else Arr([]))
      && page["page_type"] ==
           (if "page_type" in data.fields && data.fields["page_type"].Str? && data.fields["page_type"].s in ValidPageTypes
            then data.fields["page_type"] else Str(DefaultPageType))
  {
  }

  /** `response.text or ""`. */
  function RawText(response: ModelResponse): string {
    match response.text
    case Some(t) => t
    case None => []
  }

  /** What extract_page returns for one answer: the normalised record and its usage. */
  function PageRecord(pageNo: int, response: ModelResponse, parse: string -> Option<JsonValue>)
    : (r: Result<(map<string, JsonValue>, Usage), Crash>)
    ensures r.Success? ==> IsNormalisedPage(r.value.0) && r.value.1 == UsageOf(response)
  {
    var parsed := parse(CleanJsonText(RawText(response)));
    var data := if parsed.Some? then parsed.value else Obj(FallbackRecord(pageNo));
    match Normalised(pageNo, data)
    case Failure(e) => Failure(e)
    case Success(page) => Success((page, UsageOf(response)))
  }

  /** An answer that does not parse degrades to the fallback record; nothing is raised. */
  lemma ParseFailureGivesFallback(pageNo: int, response: ModelResponse, parse: string -> Option<JsonValue>)
    requires parse(CleanJsonText(RawText(response))).None?
    ensures PageRecord(pageNo, response, parse) == Success((FallbackRecord(pageNo), UsageOf(response)))
  {
    var fallback := FallbackRecord(pageNo);
    var r := Normalised(pageNo, Obj(fallback));
    assert r.Success?;
    NormalisedFields(pageNo, Obj(fallback));
    assert r.value.Keys == fallback.Keys;
    assert r.value == fallback;
  }

  /**
   * extract_page after the model call: cleans and parses the answer text,
   * then updates the parsed object's fields in place and reads the usage.
   */
  method ExtractPage(pageNo: int, response: ModelResponse, parse: string -> Option<JsonValue>)
    returns (r: Result<(map<string, JsonValue>, Usage), Crash>)
    ensures r == PageRecord(pageNo, response, parse)
  {
    hide CleanJsonText, UsageOf, IsNormalisedPage, FallbackRecord, IntToString, Truthy;
    var rawText := RawText(response);
    var jsonText := CleanJsonText(rawText);
    var data: JsonValue;
    match parse(jsonText) {
      case Some(v) => data := v;
      case None => data := Obj(FallbackRecord(pageNo));
    }
    if !data.Obj? {
      return Failure(ParsedNotAnObject);
    }
    var fields := data.fields;
    if "page_no" !in fields || !Truthy(fields["page_no"]) {
      fields := fields["page_no" := Str(IntToString(pageNo))];
    }
    var items := GetOr(fields, "items", Arr([]));
    if !items.Arr? {
      items := Arr([]);
    }
    fields := fields["items" := items];
    var pageType := GetOr(fields, "page_type", Str([]));
    if pageType.Arr? || pageType.Obj? {
      return Failure(UnhashablePageType);
    }
    if !(pageType.Str? && pageType.s in ValidPageTypes) {
      fields := fields["page_type" := Str(DefaultPageType)];
    }
    var usage := ExtractUsage(response);
    return Success((fields, usage));
  }
}
