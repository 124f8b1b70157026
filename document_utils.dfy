/**
 * The page splitter (src/document_utils.py, split_into_pages): turns the
 * downloaded bytes into numbered page images, choosing a path by the
 * content type.
 *
 * The PDF library is replaced by a rasteriser given as a function from the
 * bytes to a `Rasterisation`: either the document does not open, or it
 * opens and yields page images in order, possibly raising on the page
 * after the last one it yielded.
 */
module DocumentUtils {
  import opened Wrappers
  import opened Errors
  import opened PyText

  newtype byte = x: int | 0 <= x < 256

  type Bytes = seq<byte>

  /** One page handed to the extractor: 1-based number, image bytes, image MIME type. */
  datatype Page = Page(pageNo: int, image: Bytes, mimeType: string)

  /**
   * What the rasteriser does with the bytes: `OpenFailed` with the
   * exception's text, or `Opened` with the PNG images of the pages it got
   * through, in page order; `failsAfter` says that rendering the next page
   * raised.
   */
  datatype Rasterisation =
    | OpenFailed(reason: string)
    | Opened(images: seq<Bytes>, failsAfter: bool)

  const PngMime: string := "image/png"

  /** The content type sends the bytes down the PDF path. */
  predicate IsPdfType(contentType: string) {
    Contains(contentType, "pdf") || contentType == []
  }

  /** The content type names one of the still-image formats. */
  predicate IsImageType(contentType: string) {
    Contains(contentType, "png") || Contains(contentType, "jpeg") || Contains(contentType, "jpg")
  }

  /** The pages made from rendered images: numbered from 1 in order, all PNG. */
  ghost predicate NumberedFrom(pages: seq<Page>, images: seq<Bytes>) {
    && |pages| == |images|
    && forall k :: 0 <= k < |pages| ==> pages[k] == Page(k + 1, images[k], PngMime)
  }

  /** The `for i, page in enumerate(doc)` loop: one PNG page per rendered image, numbered i + 1. */
  method RenderPages(images: seq<Bytes>) returns (pages: seq<Page>)
    ensures NumberedFrom(pages, images)
  {
    pages := [];
    var i := 0;
    while i < |images|
      invariant 0 <= i <= |images|
      invariant NumberedFrom(pages, images[..i])
    {
      pages := pages + [Page(i + 1, images[i], PngMime)];
      i := i + 1;
    }
    assert images[..i] == images;
  }

  /**
   * split_into_pages.  A content type containing "pdf", or an empty one,
   * takes the PDF path: a document that does not open is a 400, so is one
   * with no pages, and a page that fails to render raises (a 500); the
   * result is never empty.  Otherwise a content type naming png, jpeg or jpg
   * gives the bytes back untouched as the one page.  Any other content type
   * tries the PDF path and, if opening or rendering raises, appends the raw
   * bytes as page 1 to whatever was rendered; this is the only path that can
   * give an empty list.
   */
  method SplitIntoPages(fileBytes: Bytes, contentType: string, rasterise: Bytes -> Rasterisation)
    returns (r: Result<seq<Page>, HttpError>)
    ensures IsPdfType(contentType) ==>
      match rasterise(fileBytes)
      case OpenFailed(reason) => r == Failure(BadRequest("Failed to open PDF document: " + reason))
      case Opened(images, failsAfter) =>
        if failsAfter then r == Failure(InternalServerError)
        else if images == [] then r == Failure(BadRequest("No pages found in PDF document."))
        else r.Success? && NumberedFrom(r.value, images)
    ensures !IsPdfType(contentType) && IsImageType(contentType) ==>
      r == Success([Page(1, fileBytes, contentType)])
    ensures !IsPdfType(contentType) && !IsImageType(contentType) ==>
      match rasterise(fileBytes)
      case OpenFailed(_) => r == Success([Page(1, fileBytes, PngMime)])
      case Opened(images, failsAfter) =>
        && r.Success?
        && |r.value| == |images| + (if failsAfter then 1 else 0)
        && NumberedFrom(r.value[..|images|], images)
        && (failsAfter ==> r.value[|images|] == Page(1, fileBytes, PngMime))
    ensures r == Success([]) <==>
      !IsPdfType(contentType) && !IsImageType(contentType) && rasterise(fileBytes) == Opened([], false)
    ensures r.Success? ==> forall k :: 0 <= k < |r.value| ==> 1 <= r.value[k].pageNo <= k + 1
  {
    var pages: seq<Page> := [];
    if IsPdfType(contentType) {
      match rasterise(fileBytes) {
        case OpenFailed(reason) =>
          return Failure(BadRequest("Failed to open PDF document: " + reason));
        case Opened(images, failsAfter) =>
          pages := RenderPages(images);
          if failsAfter {
            return Failure(InternalServerError);
          }
      }
      if pages == [] {
        return Failure(BadRequest("No pages found in PDF document."));
      }
    } else if IsImageType(contentType) {
      pages := pages + [Page(1, fileBytes, contentType)];
      assert pages == [Page(1, fileBytes, contentType)];
    } else {
      match rasterise(fileBytes) {
        case OpenFailed(_) =>
          pages := pages + [Page(1, fileBytes, PngMime)];
          assert pages == [Page(1, fileBytes, PngMime)];
        case Opened(images, failsAfter) =>
          var rendered := RenderPages(images);
          pages := rendered;
          if failsAfter {
            pages := pages + [Page(1, fileBytes, PngMime)];
          }
          assert pages[..|images|] == rendered;
      }
    }
    return Success(pages);
  }
}
