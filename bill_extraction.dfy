/**
 * The response aggregator (main.py, extract_bill_data): runs the page
 * extractor over every page, adds up the token counters, sanitises each
 * page's items (dropping summary rows, coercing the numbers) and builds the
 * response with its running item count.
 *
 * The model, the JSON parser, Python's `float()` on strings and `str()` on
 * non-string JSON values are inputs given as functions.
 */
module BillExtraction {
  import opened Wrappers
  import opened Errors
  import opened PyText
  import opened JsonValues
  import opened UseModel
  import opened DocumentUtils

  datatype BillItem = BillItem(itemName: string, itemAmount: real, itemRate: real, itemQuantity: real)

  datatype PageLineItems = PageLineItems(pageNo: string, pageType: JsonValue, billItems: seq<BillItem>)

  datatype ResponseData = ResponseData(pagewiseLineItems: seq<PageLineItems>, totalItemCount: int)

  datatype ExtractionResponse = ExtractionResponse(isSuccess: bool, tokenUsage: Usage, data: ResponseData)


  const SummaryKeywords: seq<string> := ["total", "subtotal", "sub total", "grand total", "net amount"]

  const NoPagesDetail: string := "No pages could be extracted from the provided document."

  // ---------------------------------------------------------------------
  // Sanitising one item
  // ---------------------------------------------------------------------

  /**
   * The lower-cased name contains one of the summary keywords.  `lower()`
   * is taken on ASCII letters only: the keywords are ASCII and no other
   * character lower-cases to one of their letters.
   */
  predicate IsSummaryRow(name: string)
    ensures IsSummaryRow(name) <==>
      exists k :: 0 <= k < |SummaryKeywords| && Contains(AsciiLower(name), SummaryKeywords[k])
  {
    ContainsAny(AsciiLower(name), SummaryKeywords)
  }

  /** The summary test ignores letter case: a name and its lower-cased form are summary rows alike. */
  lemma SummaryRowIgnoresCase(name: string)
    ensures IsSummaryRow(AsciiLower(name)) == IsSummaryRow(name)
  {
    assert AsciiLower(AsciiLower(name)) == AsciiLower(name);
  }

  /** `any(kw in text for kw in keywords)`. */
  predicate ContainsAny(text: string, keywords: seq<string>)
    ensures ContainsAny(text, keywords) <==> exists k :: 0 <= k < |keywords| && Contains(text, keywords[k])
  {
    if keywords == [] then false
    else if Contains(text, keywords[0]) then true
    else
      assert forall k :: 1 <= k < |keywords| ==> keywords[1..][k - 1] == keywords[k];
      ContainsAny(text, keywords[1..])
  }

  /** What every kept item satisfies: a stripped name that is not a summary row. */
  predicate IsCleanItem(item: BillItem) {
    IsTrimmed(item.itemName) && !IsSummaryRow(item.itemName)
  }

  /**
   * `float(item.get(key, 0.0) or 0.0)` with ValueError and TypeError turned
   * into 0.0: absent or falsy values give 0.0, numbers give themselves,
   * True gives 1.0, a string gives what `float` reads from it or 0.0 if it
   * reads nothing, a list or object gives 0.0.
   */
  function CoerceNumber(v: Option<JsonValue>, toFloat: string -> Option<real>): (r: real)
    ensures v.None? || !Truthy(v.value) ==> r == 0.0
    ensures v.Some? && v.value.Num? ==> r == v.value.n
    ensures v == Some(Bool(true)) ==> r == 1.0
    ensures v.Some? && v.value.Str? && v.value.s != [] ==>
      r == (if toFloat(v.value.s).Some? then toFloat(v.value.s).value else 0.0)
    ensures v.Some? && (v.value.Arr? || v.value.Obj?) ==> r == 0.0
  {
    match v
    case None => 0.0
    case Some(x) =>
      if !Truthy(x) then 0.0
      else match x
        case Num(n) => n
        case Bool(_) => 1.0
        case Str(s) => (match toFloat(s) case Some(f) => f case None => 0.0)
        case _ => 0.0
  }

  /** `item.get("name") or ""`: the raw name value, falsy ones replaced by the empty string. */
  function NameValue(fields: map<string, JsonValue>): JsonValue {
    var v := GetOr(fields, "name", Null);
    if Truthy(v) then v else Str([])
  }

  /** The item is an object whose name, after `or ""`, is a string: sanitising it raises nothing. */
  predicate Sanitisable(item: JsonValue) {
    item.Obj? && NameValue(item.fields).Str?
  }

  /**
   * The loop body over one item: Success(None) when the item is a summary
   * row and is skipped, Success(Some(b)) when it is kept as `b`, Failure when
   * the item is not an object or its name is a truthy non-string (the
   * `.get` or `.strip()` raises).
   */
  function SanitizeItem(item: JsonValue, toFloat: string -> Option<real>): (r: Result<Option<BillItem>, Crash>)
    ensures r.Failure? <==> !Sanitisable(item)
  {
    if !item.Obj? then Failure(ItemNotAnObject)
    else
      var nameValue := NameValue(item.fields);
      if !nameValue.Str? then Failure(NameNotAString)
      else
        var name := Strip(nameValue.s);
        if IsSummaryRow(name) then Success(None)
        else Success(Some(BillItem(
          name,
          CoerceNumber(Get(item.fields, "amount"), toFloat),
          CoerceNumber(Get(item.fields, "rate"), toFloat),
          CoerceNumber(Get(item.fields, "quantity"), toFloat))))
  }

  /**
   * What happens to an item that raises nothing: it is skipped exactly when
   * its stripped name is a summary row, and otherwise kept as a clean item
   * carrying the stripped name and the three coerced numbers.
   */
  lemma SanitizeItemOutcome(item: JsonValue, toFloat: string -> Option<real>)
    requires Sanitisable(item)
    ensures var r := SanitizeItem(item, toFloat);
      && r.Success?
      && (r.value.None? <==> IsSummaryRow(Strip(NameValue(item.fields).s)))
      && (r.value.Some? ==>
        && IsCleanItem(r.value.value)
        && r.value.value.itemName == Strip(NameValue(item.fields).s)
        && r.value.value.itemRate == CoerceNumber(Get(item.fields, "rate"), toFloat)
        && r.value.value.itemQuantity == CoerceNumber(Get(item.fields, "quantity"), toFloat)
        && r.value.value.itemAmount == CoerceNumber(Get(item.fields, "amount"), toFloat))
  {
    StripIdempotent(NameValue(item.fields).s);
  }

  // ---------------------------------------------------------------------
  // Sanitising a page's items
  // ---------------------------------------------------------------------

  /** Every item of `bs` is clean. */
  predicate AllClean(bs: seq<BillItem>) {
    forall k :: 0 <= k < |bs| ==> IsCleanItem(bs[k])
  }

  lemma AllCleanSnoc(bs: seq<BillItem>, b: BillItem)
    requires AllClean(bs) && IsCleanItem(b)
    ensures AllClean(bs + [b])
  {
  }

  /** A non-empty sequence is its front followed by its last element. */
  lemma LastSplit<T>(s: seq<T>)
    requires s != []
    ensures s[..|s| - 1] + [s[|s| - 1]] == s
  {
  }

  lemma AllCleanPrefix(bs: seq<BillItem>)
    requires bs != [] && AllClean(bs)
    ensures AllClean(bs[..|bs| - 1]) && IsCleanItem(bs[|bs| - 1])
  {
  }

  /**
   * The bill items of one page: the kept items in input order, or the first
   * failure.  Every kept item is clean, and there are never more than
   * there were raw items.
   */
  function SanitizeItems(items: seq<JsonValue>, toFloat: string -> Option<real>): (r: Result<seq<BillItem>, Crash>)
    ensures r.Success? ==> |r.value| <= |items|
    ensures r.Success? ==> AllClean(r.value)
    decreases |items|
  {
    if items == [] then Success([])
    else
      var init := items[..|items| - 1];
      match SanitizeItems(init, toFloat)
      case Failure(e) => Failure(e)
      case Success(kept) =>
        var last := items[|items| - 1];
        match SanitizeItem(last, toFloat)
        case Failure(e) => Failure(e)
        case Success(None) => Success(kept)
        case Success(Some(b)) =>
          SanitizeItemOutcome(last, toFloat);
          AllCleanSnoc(kept, b);
          Success(kept + [b])
  }

  /** Every item of `items` can be sanitised without raising. */
  predicate AllSanitisable(items: seq<JsonValue>) {
    forall k :: 0 <= k < |items| ==> Sanitisable(items[k])
  }

  /** Every item is sanitisable exactly when those before the last are and the last is. */
  lemma AllSanitisableLast(items: seq<JsonValue>)
    requires items != []
    ensures AllSanitisable(items) <==> AllSanitisable(items[..|items| - 1]) && Sanitisable(items[|items| - 1])
  {
    var init := items[..|items| - 1];
    if AllSanitisable(init) && Sanitisable(items[|items| - 1]) {
      forall k | 0 <= k < |items| ensures Sanitisable(items[k]) {
        if k < |init| {
          assert items[k] == init[k];
        }
      }
    }
  }

  /** Sanitising raises exactly when the items before the last raise or the last one does. */
  lemma SanitizeItemsLastFails(items: seq<JsonValue>, toFloat: string -> Option<real>)
    requires items != []
    ensures SanitizeItems(items, toFloat).Failure? <==>
      SanitizeItems(items[..|items| - 1], toFloat).Failure? || SanitizeItem(items[|items| - 1], toFloat).Failure?
  {
    hide SanitizeItem, AllClean, IsCleanItem;
  }

  /** A page's items raise exactly when one of them cannot be sanitised. */
  lemma {:induction false} SanitizeItemsFailsIff(items: seq<JsonValue>, toFloat: string -> Option<real>)
    ensures SanitizeItems(items, toFloat).Failure? <==> !AllSanitisable(items)
    decreases |items|
  {
    if items != [] {
      hide SanitizeItem, SanitizeItems, AllSanitisable;
      SanitizeItemsFailsIff(items[..|items| - 1], toFloat);
      SanitizeItemsLastFails(items, toFloat);
      AllSanitisableLast(items);
    }
  }

  /** Sanitising pieces one after the other: failures come first-come, kept items keep their order. */
  function Chain(first: Result<seq<BillItem>, Crash>, second: Result<seq<BillItem>, Crash>): Result<seq<BillItem>, Crash> {
    match first
    case Failure(e) => Failure(e)
    case Success(x) =>
      match second
      case Failure(e) => Failure(e)
      case Success(y) => Success(x + y)
  }

  /**
   * Order is preserved: sanitising two runs of items one after the other is
   * sanitising each and concatenating the kept items, in that order.
   */
  lemma {:induction false} SanitizeItemsAppend(a: seq<JsonValue>, b: seq<JsonValue>, toFloat: string -> Option<real>)
    ensures SanitizeItems(a + b, toFloat) == Chain(SanitizeItems(a, toFloat), SanitizeItems(b, toFloat))
    decreases |b|
  {
    if b == [] {
      assert a + b == a;
      match SanitizeItems(a, toFloat)
      case Failure(_) =>
      case Success(x) => assert x + [] == x;
    } else {
      var init := b[..|b| - 1];
      assert (a + b)[..|a + b| - 1] == a + init;
      assert (a + b)[|a + b| - 1] == b[|b| - 1];
      SanitizeItemsAppend(a, init, toFloat);
      match SanitizeItems(a, toFloat)
      case Failure(_) =>
      case Success(x) =>
        match SanitizeItems(init, toFloat)
        case Failure(_) =>
        case Success(y) =>
          match SanitizeItem(b[|b| - 1], toFloat)
          case Failure(_) =>
          case Success(None) =>
          case Success(Some(item)) => assert x + (y + [item]) == (x + y) + [item];
    }
  }

  /** The raw item a sanitised item would be if the model returned it verbatim. */
  function AsRawItem(b: BillItem): JsonValue {
    Obj(map["name" := Str(b.itemName), "rate" := Num(b.itemRate),
            "quantity" := Num(b.itemQuantity), "amount" := Num(b.itemAmount)])
  }

  function AsRawItems(bs: seq<BillItem>): (r: seq<JsonValue>)
    ensures |r| == |bs|
  {
    if bs == [] then [] else AsRawItems(bs[..|bs| - 1]) + [AsRawItem(bs[|bs| - 1])]
  }

  /** The name of a raw item reads back as the item's name. */
  lemma RawItemName(b: BillItem)
    ensures NameValue(AsRawItem(b).fields) == Str(b.itemName)
  {
    if b.itemName == [] {
      assert GetOr(AsRawItem(b).fields, "name", Null) == Str([]);
    } else {
      assert GetOr(AsRawItem(b).fields, "name", Null) == Str(b.itemName);
    }
  }

  /** The numbers of a raw item coerce back to the item's numbers. */
  lemma RawItemNumbers(b: BillItem, toFloat: string -> Option<real>)
    ensures CoerceNumber(Get(AsRawItem(b).fields, "rate"), toFloat) == b.itemRate
    ensures CoerceNumber(Get(AsRawItem(b).fields, "quantity"), toFloat) == b.itemQuantity
    ensures CoerceNumber(Get(AsRawItem(b).fields, "amount"), toFloat) == b.itemAmount
  {
    var fields := AsRawItem(b).fields;
    assert Get(fields, "rate") == Some(Num(b.itemRate));
    assert Get(fields, "quantity") == Some(Num(b.itemQuantity));
    assert Get(fields, "amount") == Some(Num(b.itemAmount));
  }

  /** A clean item goes through sanitisation unchanged: nothing is dropped, no number moves. */
  lemma SanitizeCleanItem(b: BillItem, toFloat: string -> Option<real>)
    requires IsCleanItem(b)
    ensures SanitizeItem(AsRawItem(b), toFloat) == Success(Some(b))
  {
    RawItemName(b);
    RawItemNumbers(b, toFloat);
    assert Strip(b.itemName) == b.itemName;
  }

  /**
   * Sanitisation is idempotent: feeding already-sanitised items back in
   * (as the objects they would be in model output) removes nothing and
   * changes nothing.
   */
  lemma {:induction false} SanitizeIdempotent(bs: seq<BillItem>, toFloat: string -> Option<real>)
    requires AllClean(bs)
    ensures SanitizeItems(AsRawItems(bs), toFloat) == Success(bs)
    decreases |bs|
  {
    if bs != [] {
      var init := bs[..|bs| - 1];
      var b := bs[|bs| - 1];
      var raw := AsRawItems(bs);
      assert raw == AsRawItems(init) + [AsRawItem(b)];
      assert raw[..|raw| - 1] == AsRawItems(init);
      AllCleanPrefix(bs);
      SanitizeIdempotent(init, toFloat);
      SanitizeCleanItem(b, toFloat);
      LastSplit(bs);
    }
  }

  /** Sanitising the output of a successful sanitisation gives that output back. */
  lemma SanitizeTwice(items: seq<JsonValue>, toFloat: string -> Option<real>)
    requires SanitizeItems(items, toFloat).Success?
    ensures var once := SanitizeItems(items, toFloat).value;
      SanitizeItems(AsRawItems(once), toFloat) == Success(once)
  {
    SanitizeIdempotent(SanitizeItems(items, toFloat).value, toFloat);
  }

  /** Sanitising one more item extends the prefix's result by that item's outcome. */
  lemma SanitizeItemsStep(items: seq<JsonValue>, i: nat, toFloat: string -> Option<real>)
    requires i < |items|
    ensures SanitizeItems(items[..i + 1], toFloat) ==
      match SanitizeItems(items[..i], toFloat)
      case Failure(e) => Failure(e)
      case Success(kept) =>
        match SanitizeItem(items[i], toFloat)
        case Failure(e) => Failure(e)
        case Success(None) => Success(kept)
        case Success(Some(b)) => Success(kept + [b])
  {
    assert items[..i + 1][..i] == items[..i];
  }

  /** Once a prefix raises, the whole list raises with the same exception. */
  lemma SanitizeItemsStopsAt(items: seq<JsonValue>, n: nat, toFloat: string -> Option<real>)
    requires n <= |items| && SanitizeItems(items[..n], toFloat).Failure?
    ensures SanitizeItems(items, toFloat) == SanitizeItems(items[..n], toFloat)
  {
    SanitizeItemsAppend(items[..n], items[n..], toFloat);
    assert items[..n] + items[n..] == items;
  }

  /**
   * The body of the inner `for item in items` loop of main.py, for one
   * item: read and strip the name, skip summary rows, coerce the numbers.
   */
  method SanitizeOne(item: JsonValue, toFloat: string -> Option<real>) returns (r: Result<Option<BillItem>, Crash>)
    ensures r == SanitizeItem(item, toFloat)
  {
    if !item.Obj? {
      return Failure(ItemNotAnObject);
    }
    var nameValue := GetOr(item.fields, "name", Null);
    if !Truthy(nameValue) {
      nameValue := Str([]);
    }
    if !nameValue.Str? {
      return Failure(NameNotAString);
    }
    var name := Strip(nameValue.s);
    if IsSummaryRow(name) {
      return Success(None);
    }
    var rate := CoerceNumber(Get(item.fields, "rate"), toFloat);
    var quantity := CoerceNumber(Get(item.fields, "quantity"), toFloat);
    var amount := CoerceNumber(Get(item.fields, "amount"), toFloat);
    return Success(Some(BillItem(name, amount, rate, quantity)));
  }

  /** The inner `for item in items` loop of main.py, appending kept items and skipping summary rows. */
  method BuildBillItems(items: seq<JsonValue>, toFloat: string -> Option<real>) returns (r: Result<seq<BillItem>, Crash>)
    ensures r == SanitizeItems(items, toFloat)
  {
    var billItems: seq<BillItem> := [];
    var i := 0;
    while i < |items|
      invariant 0 <= i <= |items|
      invariant SanitizeItems(items[..i], toFloat) == Success(billItems)
    {
      SanitizeItemsStep(items, i, toFloat);
      var outcome := SanitizeOne(items[i], toFloat);
      match outcome {
        case Failure(e) =>
          SanitizeItemsStopsAt(items, i + 1, toFloat);
          return Failure(e);
        case Success(None) =>
        case Success(Some(b)) =>
          billItems := billItems + [b];
      }
      i := i + 1;
    }
    assert items[..i] == items;
    return Success(billItems);
  }

  // ---------------------------------------------------------------------
  // Building the response
  // ---------------------------------------------------------------------

  /** `str(v)`: a string stays as it is; any other value is rendered by Python's `str`. */
  function PyStr(v: JsonValue, render: JsonValue -> string): string {
    if v.Str? then v.s else render(v)
  }

  /**
   * What `for item in items` walks over: the elements of a list; nothing
   * for an empty string or object; for a non-empty string or object, its
   * characters or keys, which are strings and so fail at `.get`; and a
   * number, bool or None cannot be iterated.
   */
  function IterItems(v: JsonValue): (r: Result<seq<JsonValue>, Crash>)
    ensures r.Success? <==> v.Arr? || v == Str([]) || v == Obj(map[])
    ensures v.Arr? ==> r == Success(v.elems)
    ensures r.Success? && !v.Arr? ==> r.value == []
    ensures v.Null? || v.Bool? || v.Num? ==> r == Failure(ItemsNotIterable)
  {
    match v
    case Arr(elems) => Success(elems)
    case Str(s) => if s == [] then Success([]) else Failure(ItemNotAnObject)
    case Obj(m) => if m == map[] then Success([]) else Failure(ItemNotAnObject)
    case _ => Failure(ItemsNotIterable)
  }

  /**
   * The response entry for one page record: page_no as a string (default
   * "1"), page_type as it is (default "Bill Detail"), and the sanitised
   * items.  For a normalised record the page type is one of the three valid
   * names and the items are exactly the sanitised list.
   */
  function PageLine(page: map<string, JsonValue>, toFloat: string -> Option<real>, render: JsonValue -> string)
    : (r: Result<PageLineItems, Crash>)
    ensures r.Success? && "page_no" !in page ==> r.value.pageNo == "1"
    ensures r.Success? && "page_no" in page && page["page_no"].Str? ==> r.value.pageNo == page["page_no"].s
    ensures r.Success? && "page_no" in page && !page["page_no"].Str? ==> r.value.pageNo == render(page["page_no"])
    ensures IsNormalisedPage(page) ==> r.Success? == SanitizeItems(page["items"].elems, toFloat).Success?
    ensures IsNormalisedPage(page) && r.Success? ==>
      && r.value.pageType == page["page_type"]
      && r.value.pageType.Str? && r.value.pageType.s in ValidPageTypes
      && r.value.billItems == SanitizeItems(page["items"].elems, toFloat).value
    ensures r.Success? ==> AllClean(r.value.billItems)
  {
    var pageNoText := PyStr(GetOr(page, "page_no", Str("1")), render);
    var pageType := GetOr(page, "page_type", Str(DefaultPageType));
    match IterItems(GetOr(page, "items", Arr([])))
    case Failure(e) => Failure(e)
    case Success(items) =>
      match SanitizeItems(items, toFloat)
      case Failure(e) => Failure(e)
      case Success(billItems) => Success(PageLineItems(pageNoText, pageType, billItems))
  }

  /**
   * An answer that does not parse still gets its entry in the response: it
   * carries the page's own number, the page type "Bill Detail" and no bill
   * items.
   */
  lemma UnparsablePageEntry(pageNo: int, response: ModelResponse, parse: string -> Option<JsonValue>,
                            toFloat: string -> Option<real>, render: JsonValue -> string)
    requires parse(CleanJsonText(RawText(response))).None?
    ensures PageRecord(pageNo, response, parse).Success?
    ensures PageLine(PageRecord(pageNo, response, parse).value.0, toFloat, render) ==
      Success(PageLineItems(IntToString(pageNo), Str(DefaultPageType), []))
  {
    ParseFailureGivesFallback(pageNo, response, parse);
    assert SanitizeItems([], toFloat) == Success([]);
  }

  /** The page records the extractor gives for the pages, one per page, in page order. */
  function Records(pages: seq<Page>, model: (int, Bytes, string) -> ModelResponse, parse: string -> Option<JsonValue>)
    : (rs: seq<Result<(map<string, JsonValue>, Usage), Crash>>)
    ensures |rs| == |pages|
  {
    seq(|pages|, k requires 0 <= k < |pages| =>
      PageRecord(pages[k].pageNo, model(pages[k].pageNo, pages[k].image, pages[k].mimeType), parse))
  }

  /** Every page extracted and every page's items sanitised without an exception. */
  predicate AllPagesSucceed(records: seq<Result<(map<string, JsonValue>, Usage), Crash>>,
                            toFloat: string -> Option<real>, render: JsonValue -> string)
  {
    forall k :: 0 <= k < |records| ==>
      records[k].Success? && PageLine(records[k].value.0, toFloat, render).Success?
  }

  function AddUsage(a: Usage, b: Usage): Usage {
    Usage(a.totalTokens + b.totalTokens, a.inputTokens + b.inputTokens, a.outputTokens + b.outputTokens)
  }

  /** The three counters summed field by field over the records that succeeded. */
  function TotalUsage(records: seq<Result<(map<string, JsonValue>, Usage), Crash>>): Usage {
    if records == [] then Usage(0, 0, 0)
    else
      var last := records[|records| - 1];
      AddUsage(TotalUsage(records[..|records| - 1]), if last.Success? then last.value.1 else Usage(0, 0, 0))
  }

  /** The number of bill items over all pages. */
  function TotalItemCount(lines: seq<PageLineItems>): nat {
    if lines == [] then 0
    else TotalItemCount(lines[..|lines| - 1]) + |lines[|lines| - 1].billItems|
  }

  /** Counting the items of one more page. */
  lemma TotalItemCountStep(lines: seq<PageLineItems>, line: PageLineItems)
    ensures TotalItemCount(lines + [line]) == TotalItemCount(lines) + |line.billItems|
  {
    assert (lines + [line])[..|lines|] == lines;
  }

  /** The response entries for a run of page records, in order, or the first exception. */
  function PageLines(pagesData: seq<map<string, JsonValue>>, toFloat: string -> Option<real>, render: JsonValue -> string)
    : (r: Result<seq<PageLineItems>, Crash>)
    ensures r.Success? ==> |r.value| == |pagesData|
    decreases |pagesData|
  {
    if pagesData == [] then Success([])
    else
      match PageLines(pagesData[..|pagesData| - 1], toFloat, render)
      case Failure(e) => Failure(e)
      case Success(lines) =>
        match PageLine(pagesData[|pagesData| - 1], toFloat, render)
        case Failure(e) => Failure(e)
        case Success(line) => Success(lines + [line])
  }

  /** Converting one more page record extends the entries by that record's entry. */
  lemma PageLinesStep(pagesData: seq<map<string, JsonValue>>, j: nat, toFloat: string -> Option<real>, render: JsonValue -> string)
    requires j < |pagesData|
    ensures PageLines(pagesData[..j + 1], toFloat, render) ==
      match PageLines(pagesData[..j], toFloat, render)
      case Failure(e) => Failure(e)
      case Success(lines) =>
        match PageLine(pagesData[j], toFloat, render)
        case Failure(e) => Failure(e)
        case Success(line) => Success(lines + [line])
  {
    assert pagesData[..j + 1][..j] == pagesData[..j];
  }

  /** Once a prefix of the records raises, so does the whole run, with the same exception. */
  lemma {:induction false} PageLinesStopsAt(pagesData: seq<map<string, JsonValue>>, n: nat,
                                            toFloat: string -> Option<real>, render: JsonValue -> string)
    requires n <= |pagesData| && PageLines(pagesData[..n], toFloat, render).Failure?
    ensures PageLines(pagesData, toFloat, render) == PageLines(pagesData[..n], toFloat, render)
    decreases |pagesData|
  {
    hide PageLine;
    if n < |pagesData| {
      var init := pagesData[..|pagesData| - 1];
      assert init[..n] == pagesData[..n];
      PageLinesStopsAt(init, n, toFloat, render);
    } else {
      assert pagesData[..n] == pagesData;
    }
  }

  /** The entries fail to build exactly when some record's conversion raises. */
  lemma {:induction false} PageLinesFailsIff(pagesData: seq<map<string, JsonValue>>,
                                             toFloat: string -> Option<real>, render: JsonValue -> string)
    ensures PageLines(pagesData, toFloat, render).Failure? <==>
      exists k :: 0 <= k < |pagesData| && PageLine(pagesData[k], toFloat, render).Failure?
    decreases |pagesData|
  {
    hide PageLine;
    if pagesData != [] {
      var init := pagesData[..|pagesData| - 1];
      var last := pagesData[|pagesData| - 1];
      PageLinesFailsIff(init, toFloat, render);
      if PageLines(init, toFloat, render).Failure? {
        var k :| 0 <= k < |init| && PageLine(init[k], toFloat, render).Failure?;
        assert pagesData[k] == init[k];
      } else if PageLine(last, toFloat, render).Failure? {
        assert PageLine(pagesData[|pagesData| - 1], toFloat, render).Failure?;
      } else {
        forall k | 0 <= k < |pagesData| ensures PageLine(pagesData[k], toFloat, render).Success? {
          if k < |init| {
            assert pagesData[k] == init[k];
          }
        }
      }
    }
  }

  /** When the entries are built, entry `k` is the conversion of record `k`. */
  lemma {:induction false} PageLinesAt(pagesData: seq<map<string, JsonValue>>, toFloat: string -> Option<real>, render: JsonValue -> string)
    requires PageLines(pagesData, toFloat, render).Success?
    ensures forall k :: 0 <= k < |pagesData| ==>
      PageLine(pagesData[k], toFloat, render) == Success(PageLines(pagesData, toFloat, render).value[k])
    decreases |pagesData|
  {
    hide PageLine;
    if pagesData != [] {
      var init := pagesData[..|pagesData| - 1];
      PageLinesAt(init, toFloat, render);
      var lines := PageLines(init, toFloat, render).value;
      var all := PageLines(pagesData, toFloat, render).value;
      assert all[..|init|] == lines;
      forall k | 0 <= k < |pagesData|
        ensures PageLine(pagesData[k], toFloat, render) == Success(all[k])
      {
        if k < |init| {
          assert pagesData[k] == init[k];
          assert all[k] == lines[k];
        }
      }
    }
  }

  /**
   * The body of the `for page_data in pagewise_results` loop of main.py for
   * one page record: its page number as text, its page type and its
   * sanitised items.
   */
  method BuildPageLine(page: map<string, JsonValue>, toFloat: string -> Option<real>, render: JsonValue -> string)
    returns (r: Result<PageLineItems, Crash>)
    ensures r == PageLine(page, toFloat, render)
  {
    var pageNoText := PyStr(GetOr(page, "page_no", Str("1")), render);
    var pageType := GetOr(page, "page_type", Str(DefaultPageType));
    var items := IterItems(GetOr(page, "items", Arr([])));
    if items.Failure? {
      return Failure(items.error);
    }
    var billItems := BuildBillItems(items.value, toFloat);
    if billItems.Failure? {
      return Failure(billItems.error);
    }
    return Success(PageLineItems(pageNoText, pageType, billItems.value));
  }

  /**
   * What the page loop of main.py makes of a run of page records: the page
   * data in order and the counters summed, or the first exception raised.
   */
  function Collect(records: seq<Result<(map<string, JsonValue>, Usage), Crash>>)
    : (r: Result<(seq<map<string, JsonValue>>, Usage), Crash>)
    ensures r.Success? ==> |r.value.0| == |records|
  {
    if records == [] then Success(([], Usage(0, 0, 0)))
    else
      match Collect(records[..|records| - 1])
      case Failure(e) => Failure(e)
      case Success((results, running)) =>
        match records[|records| - 1]
        case Failure(e) => Failure(e)
        case Success((page, usage)) => Success((results + [page], AddUsage(running, usage)))
  }

  /** The page loop over one more record. */
  lemma CollectStep(records: seq<Result<(map<string, JsonValue>, Usage), Crash>>, i: nat)
    requires i < |records|
    ensures Collect(records[..i + 1]) ==
      match Collect(records[..i])
      case Failure(e) => Failure(e)
      case Success((results, running)) =>
        match records[i]
        case Failure(e) => Failure(e)
        case Success((page, usage)) => Success((results + [page], AddUsage(running, usage)))
  {
    assert records[..i + 1][..i] == records[..i];
  }

  lemma WholePrefix<T>(s: seq<T>)
    ensures s[..|s|] == s
  {
  }

  /** Once a prefix of the records raises, so does the whole run, with the same exception. */
  lemma {:induction false} CollectStopsAt(records: seq<Result<(map<string, JsonValue>, Usage), Crash>>, n: nat)
    requires n <= |records| && Collect(records[..n]).Failure?
    ensures Collect(records) == Collect(records[..n])
    decreases |records|
  {
    if n < |records| {
      var init := records[..|records| - 1];
      assert init[..n] == records[..n];
      CollectStopsAt(init, n);
    } else {
      assert records[..n] == records;
    }
  }

  /**
   * The page loop succeeds exactly when every record does; its page data is
   * then the records' page data, in order, and its counters are the sums of
   * the records' counters.
   */
  lemma {:induction false} CollectMeaning(records: seq<Result<(map<string, JsonValue>, Usage), Crash>>)
    ensures Collect(records).Success? <==> forall k :: 0 <= k < |records| ==> records[k].Success?
    ensures Collect(records).Success? ==>
      && (forall k :: 0 <= k < |records| ==> Collect(records).value.0[k] == records[k].value.0)
      && Collect(records).value.1 == TotalUsage(records)
    decreases |records|
  {
    if records != [] {
      var init := records[..|records| - 1];
      var last := records[|records| - 1];
      CollectMeaning(init);
      if Collect(init).Failure? {
        var k :| 0 <= k < |init| && !init[k].Success?;
        assert records[k] == init[k];
      } else if last.Failure? {
      } else {
        var results := Collect(init).value.0;
        forall k | 0 <= k < |records| ensures records[k].Success? && Collect(records).value.0[k] == records[k].value.0 {
          if k < |init| {
            assert records[k] == init[k];
            assert Collect(records).value.0[k] == results[k];
          }
        }
      }
    }
  }

  /**
   * The `for page_no, img_bytes, mime in pages` loop of main.py: ask the
   * model about each page in turn, keep each page record and add up the
   * three token counters.  The first record that raises ends the loop.
   */
  method ExtractPages(pages: seq<Page>, model: (int, Bytes, string) -> ModelResponse, parse: string -> Option<JsonValue>)
    returns (r: Result<(seq<map<string, JsonValue>>, Usage), Crash>)
    ensures r == Collect(Records(pages, model, parse))
  {
    hide PageRecord, UsageOf, IsNormalisedPage;
    ghost var records := Records(pages, model, parse);
    var pagewiseResults: seq<map<string, JsonValue>> := [];
    var totalTokens, inputTokens, outputTokens := 0, 0, 0;
    var i := 0;
    while i < |pages|
      invariant 0 <= i <= |pages|
      invariant Collect(records[..i]) == Success((pagewiseResults, Usage(totalTokens, inputTokens, outputTokens)))
    {
      var page := pages[i];
      var response := model(page.pageNo, page.image, page.mimeType);
      var record := ExtractPage(page.pageNo, response, parse);
      assert record == records[i];
      CollectStep(records, i);
      if record.Failure? {
        CollectStopsAt(records, i + 1);
        return Failure(record.error);
      }
      var (pageData, usage) := record.value;
      totalTokens := totalTokens + usage.totalTokens;
      inputTokens := inputTokens + usage.inputTokens;
      outputTokens := outputTokens + usage.outputTokens;
      pagewiseResults := pagewiseResults + [pageData];
      i := i + 1;
    }
    WholePrefix(records);
    return Success((pagewiseResults, Usage(totalTokens, inputTokens, outputTokens)));
  }

  /**
   * Once every page record succeeded and `results` holds their page data,
   * converting `results` succeeds exactly when every record converts, and
   * entry `k` is then the conversion of record `k`.
   */
  lemma LinesOfRecords(records: seq<Result<(map<string, JsonValue>, Usage), Crash>>, results: seq<map<string, JsonValue>>,
                       toFloat: string -> Option<real>, render: JsonValue -> string)
    requires |results| == |records|
    requires forall k :: 0 <= k < |records| ==> records[k].Success? && results[k] == records[k].value.0
    ensures PageLines(results, toFloat, render).Success? <==> AllPagesSucceed(records, toFloat, render)
    ensures PageLines(results, toFloat, render).Success? ==>
      forall k :: 0 <= k < |records| ==>
        Success(PageLines(results, toFloat, render).value[k]) == PageLine(records[k].value.0, toFloat, render)
  {
    hide PageLine;
    PageLinesFailsIff(results, toFloat, render);
    if PageLines(results, toFloat, render).Success? {
      PageLinesAt(results, toFloat, render);
    } else {
      var k :| 0 <= k < |results| && PageLine(results[k], toFloat, render).Failure?;
      assert !(records[k].Success? && PageLine(records[k].value.0, toFloat, render).Success?);
    }
  }

  /**
   * The `for page in pagewise_results` loop of main.py: turn each page
   * record into its response entry and count the bill items.  The first
   * record whose items raise ends the loop.
   */
  method BuildPageLines(pagesData: seq<map<string, JsonValue>>, toFloat: string -> Option<real>, render: JsonValue -> string)
    returns (r: Result<(seq<PageLineItems>, nat), Crash>)
    ensures r.Success? <==> PageLines(pagesData, toFloat, render).Success?
    ensures r.Success? ==>
      && r.value.0 == PageLines(pagesData, toFloat, render).value
      && r.value.1 == TotalItemCount(r.value.0)
  {
    assert PageLines(pagesData[..0], toFloat, render) == Success([]);
    assert TotalItemCount([]) == 0;
    hide PageLine, PageLines, TotalItemCount;
    var pagewiseLineItems: seq<PageLineItems> := [];
    var totalItemCount := 0;
    var j := 0;
    while j < |pagesData|
      invariant 0 <= j <= |pagesData|
      invariant PageLines(pagesData[..j], toFloat, render) == Success(pagewiseLineItems)
      invariant totalItemCount == TotalItemCount(pagewiseLineItems)
    {
      PageLinesStep(pagesData, j, toFloat, render);
      var line := BuildPageLine(pagesData[j], toFloat, render);
      if line.Failure? {
        PageLinesStopsAt(pagesData, j + 1, toFloat, render);
        return Failure(line.error);
      }
      TotalItemCountStep(pagewiseLineItems, line.value);
      totalItemCount := totalItemCount + |line.value.billItems|;
      pagewiseLineItems := pagewiseLineItems + [line.value];
      j := j + 1;
    }
    assert pagesData[..j] == pagesData;
    return Success((pagewiseLineItems, totalItemCount));
  }

  /**
   * extract_bill_data from the split onwards.  A failed split is passed on;
   * no pages is a 400 raised before the model is asked anything.  Otherwise
   * the answer is a 500 exactly when some page record or some page's items
   * raise; and a response is always marked successful, has one entry per
   * page in page order, each entry being that page's record turned into
   * bill items, counts the items over all pages, and sums the token
   * counters over all pages.
   */
  method ExtractBillData(
    split: Result<seq<Page>, HttpError>,
    model: (int, Bytes, string) -> ModelResponse,
    parse: string -> Option<JsonValue>,
    toFloat: string -> Option<real>,
    render: JsonValue -> string)
    returns (r: Result<ExtractionResponse, HttpError>)
    ensures split.Failure? ==> r == Failure(split.error)
    ensures split == Success([]) ==> r == Failure(BadRequest(NoPagesDetail))
    ensures split.Success? && split.value != [] ==>
      var records := Records(split.value, model, parse);
      && (r.Success? <==> AllPagesSucceed(records, toFloat, render))
      && (r.Failure? ==> r.error == InternalServerError)
      && (r.Success? ==>
        && r.value.isSuccess
        && |r.value.data.pagewiseLineItems| == |records|
        && (forall k :: 0 <= k < |records| ==>
              Success(r.value.data.pagewiseLineItems[k]) == PageLine(records[k].value.0, toFloat, render))
        && r.value.data.totalItemCount == TotalItemCount(r.value.data.pagewiseLineItems)
        && r.value.tokenUsage == TotalUsage(records))
  {
    if split.Failure? {
      return Failure(split.error);
    }
    var pages := split.value;
    if pages == [] {
      return Failure(BadRequest(NoPagesDetail));
    }
    ghost var records := Records(pages, model, parse);
    var extracted := ExtractPages(pages, model, parse);
    CollectMeaning(records);
    if extracted.Failure? {
      return Failure(InternalServerError);
    }
    var (pagewiseResults, usage) := extracted.value;
    LinesOfRecords(records, pagewiseResults, toFloat, render);
    var built := BuildPageLines(pagewiseResults, toFloat, render);
    if built.Failure? {
      return Failure(InternalServerError);
    }
    var (pagewiseLineItems, totalItemCount) := built.value;

    var isSuccess := true;
    r := Success(ExtractionResponse(
      isSuccess,
      usage,
      ResponseData(pagewiseLineItems, totalItemCount)));
  }
}
