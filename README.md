# BidHaus intake quality manager — a Dafny model

This project models the core of the BidHaus "Quality Manager", a Next.js tool.
A user uploads a CSV of product listings. The tool flags vendor information,
phone numbers and watermarked images, and the user reviews the flagged issues.
The model covers five parts of the source:

- `lib/utils/validation.ts` (module `Validation`):
  - `parseCSV` turns the text into product records. It finds the id, name,
    description and image columns by header pattern, and assigns every
    column to a property of a plain object; a `__proto__` header stores
    nothing. It skips blank lines and generates an id when one is missing.
  - `validateProducts` compiles the vendor, phone and custom patterns. It
    runs them over every non-empty description and reports one issue per
    match, in order.
- `app/page.tsx` (modules `IssueList` and `Dashboard`):
  - the issue list the review page keeps, with one record per product id;
  - the upsert of text findings and the merge of watermark findings;
  - resolve and ignore;
  - the dashboard counts and the type filter;
  - `getProductImages`;
  - the analysis driver as a class `Dashboard.Page`, whose image loop bumps
    the progress counter for every image, whatever the check does.
- `app/test-watermark/page.tsx` (module `WatermarkTest`):
  - `parseCSVImageUrls`;
  - the per-URL check loop of `processCSV`, which numbers its requests
    `Product n` / `product-n`;
  - the page's resolve, ignore and `getProductImages`, as a class
    `WatermarkTest.TestPage`.
- `app/api/upload-csv/route.ts` (module `UploadCsv`): the `POST` handler.
  This covers the file checks, the row loop with fixed SKU and URL columns,
  the derived file names, the `idCounter` that advances only after a
  successful download and write, the summary, and the error answers.
- `components/ImagePreviewModal.tsx` (module `ImagePreview`): the carousel
  dialog as a class `ImagePreview.Preview`. It covers wrap-around
  navigation, the keyboard handler and the swipe gesture with its 50-pixel
  threshold.

`Base` holds `Option` and `Result`. `Strings` models the JavaScript string
operations the code relies on:
- `split` on one character, always giving at least one piece;
- `trim`, with JavaScript's set of whitespace characters;
- `toLowerCase` on ASCII letters;
- `includes` and `endsWith`;
- decimal formatting of counters.

Whatever the code cannot decide on its own is a parameter of the model:
- the regular-expression engine (`Validation.Engine`: whether a pattern
  compiles, and its first match);
- the uuid generator (`uuid(k)` is the k-th id generated);
- the watermark check (`check(i)` is the outcome of the i-th image check);
- the check endpoint (`respond(request)`);
- the form read, the download and the file writes (`formOk`, `transfer(i)`,
  `mkdirOk`, `summaryOk`).

Two details of the code shape the model:
- The vendor detector in `validation.ts` is the configurable regular
  expression `\b(company|vendor|store|consignor|seller)\b`, one of the
  page's fixed settings.
- The review page calls `validateProducts` with a third argument, a
  streaming callback, and keeps records that hold a list `issueTypes`.
  `Dashboard` therefore takes the records the text detector reports through
  that callback as an input list, `reported`, plus a flag saying whether the
  detector then throws.

## Model

| member | source | states |
|---|---|---|
| Strings.TrimStartProps | lib/utils/validation.ts:34 | `trim` drops only whitespace from the front, and what is left starts with a non-space character |
| Strings.TrimEndProps | lib/utils/validation.ts:34 | `trim` drops only whitespace from the back, and what is left ends with a non-space character |
| Strings.BlankIffAllSpace | lib/utils/validation.ts:43 | `line.trim() !== ''` fails exactly when every character of the line is whitespace |
| Strings.TrimIdempotent | lib/utils/validation.ts:45 | trimming a trimmed value changes nothing |
| Strings.SplitJoin | lib/utils/validation.ts:29 | joining the pieces of `split` with the separator gives back the text |
| Strings.SplitSingle | lib/utils/validation.ts:29-30 | a text without the separator splits into exactly one piece, the text itself |
| Strings.SplitAppend | lib/utils/validation.ts:91 | splitting `a + sep + b` gives the pieces of `a` followed by the pieces of `b` |
| Strings.SplitFirstIsPrefix | app/api/upload-csv/route.ts:104-105 | `split('?')[0]` is the prefix of the text that stops right before its first separator, or the whole text |
| Strings.SplitLastIsSuffix | app/api/upload-csv/route.ts:100-101 | the last piece of `split('/')` is the suffix of the text that starts right after its last separator, or the whole text |
| Strings.NatToStringRoundTrip | app/api/upload-csv/route.ts:108 | the decimal form of a counter reads back as the same number |
| Strings.NatToStringInjective | app/api/upload-csv/route.ts:108 | different counters print differently |
| Validation.FindHeaderIsFirst | lib/utils/validation.ts:37-40 | the header `find` picks for a role is the first header matching the role's case-insensitive pattern; none is found exactly when no header matches |
| Validation.AssignColumns | lib/utils/validation.ts:52-66 | the column loop assigns every column that has a value, in header order, to the property its header selects |
| Validation.FieldValue | lib/utils/validation.ts:52-66 | each property of a row holds the value of the last column routed to it; id, name and description stay empty and the image URL and extra keys stay unset when no such column has a value; a `__proto__` column stores nothing |
| Validation.ExtraValuesIgnored | lib/utils/validation.ts:53 | values beyond the number of headers never reach the product |
| Validation.NonBlankMembers | lib/utils/validation.ts:43 | the blank-line filter keeps exactly the non-blank lines |
| Validation.NonBlankAppend | lib/utils/validation.ts:43 | the filter keeps order: it distributes over concatenation |
| Validation.AppendLine | lib/utils/validation.ts:43-73 | one data line: a blank line is skipped, and any other line adds its product, taking the next generated id when its id is empty |
| Validation.BuildProducts | lib/utils/validation.ts:42-74 | the products are those of the non-blank data lines in order, and the lines without an id take the generated ids in turn |
| Validation.ParseCsv | lib/utils/validation.ts:28-75 | `parseCSV` throws the "at least a header row" error for fewer than two lines, otherwise returns the rows built from the trimmed header cells |
| Validation.ParseFailsIff | lib/utils/validation.ts:29-32 | `parseCSV` throws exactly when the text has no line break, and then with that message |
| Validation.BuildRowsAt | lib/utils/validation.ts:44-73 | row k comes from the k-th non-blank line: it is that line's assignment, except that an empty id is replaced by a non-empty generated one; a present id is kept |
| Validation.ParsedRows | lib/utils/validation.ts:28-75 | for text with a line break the result has one product per non-blank data line, in order, each with a non-empty id |
| Validation.CompiledPatternsSound | lib/utils/validation.ts:89-99 | every custom pattern kept is trimmed, non-empty and compiles |
| Validation.CompiledPatternsAppend | lib/utils/validation.ts:91-99 | compiling the pattern lines keeps their order: it distributes over concatenation |
| Validation.CompiledPatternsSkip | lib/utils/validation.ts:92-98 | a blank line or a pattern that fails to compile is skipped wherever it stands among the lines |
| Validation.CustomPatternAdded | lib/utils/validation.ts:90-99 | adding one more pattern line, to any text, adds its trimmed pattern at the end when it is non-blank and compiles, and changes nothing otherwise |
| Validation.SkippedBetween | lib/utils/validation.ts:90-99 | a blank or failing line between two parts of the pattern text leaves the custom patterns those parts give |
| Validation.SkippedFirst | lib/utils/validation.ts:90-99 | a blank or failing first line leaves the custom patterns of the rest |
| Validation.SkippedLast | lib/utils/validation.ts:90-99 | a blank or failing last line leaves the custom patterns of the rest |
| Validation.CompileCustomPatterns | lib/utils/validation.ts:89-100 | the custom patterns are the trimmed non-blank lines that compile, in order; an empty text gives none |
| Validation.CustomFindingsAre | lib/utils/validation.ts:135-147 | the custom findings are one per matching pattern, in pattern order, each naming the pattern's 1-based position; every matching pattern is reported |
| Validation.PushCustomIssues | lib/utils/validation.ts:135-147 | the loop over the custom patterns appends the issues of the custom findings to the list |
| Validation.PushPatternIssues | lib/utils/validation.ts:107-132 | the vendor check and then the phone check append their issues to the list |
| Validation.PushProductIssues | lib/utils/validation.ts:103-148 | one product adds nothing when its description is empty, and otherwise its vendor, phone and custom issues, in that order |
| Validation.ValidateProducts | lib/utils/validation.ts:78-151 | `validateProducts` throws on a vendor or phone pattern that does not compile, otherwise returns all issues in product order |
| Validation.ValidateFailsIff | lib/utils/validation.ts:85-86 | validation fails exactly when the vendor or the phone pattern does not compile |
| Validation.IssuesBelongToProducts | lib/utils/validation.ts:103-148 | the i-th issue carries the i-th generated id, is unresolved, and copies the id, name and image URL of a product with a non-empty description |
| Validation.PatternFindingsShape | lib/utils/validation.ts:107-132 | the vendor finding, present exactly when the vendor pattern matches, comes first; the phone finding, present exactly when the phone pattern matches, quotes the first match |
| Validation.ProductFindingsShape | lib/utils/validation.ts:103-147 | an empty description gives no findings; otherwise there is one finding per matching pattern, vendor first, phone next, then the custom ones |
| Validation.InvalidCustomPatternHarmless | lib/utils/validation.ts:89-100 | a custom pattern line that is blank or fails to compile, first, in the middle or last, leaves the result of `validateProducts` as it is without that line |
| Validation.AllIssuesIgnoresOptionsText | lib/utils/validation.ts:103-148 | once the patterns are compiled, the issues depend on the options only through the vendor and phone patterns |
| IssueList.UpsertUnique | app/page.tsx:148-162 | the upsert keeps ids unique, leaves every record with another id in place, and grows the list by one exactly when the id was new; the reported record is in the list |
| IssueList.UpsertIdempotent | app/page.tsx:148-162 | reporting the same record twice gives the same list as reporting it once |
| IssueList.MergeWatermarkUnique | app/page.tsx:216-239 | the watermark merge keeps ids unique; the matching record only gains the finding at the end of its list; a new product id gives a new record at the end |
| IssueList.MergeWatermarkCount | app/page.tsx:216-239 | a watermark merged into a list with unique ids adds exactly one issue type to the total |
| IssueList.ToggleResolvedInvolution | app/page.tsx:309-314 | resolve flips only the flag of the records with that id, and doing it twice restores the list |
| IssueList.IgnoreMembers | app/page.tsx:318-321 | ignore keeps exactly the records with another id |
| IssueList.IgnoreAppend | app/page.tsx:318-321 | ignore keeps order: it distributes over concatenation |
| IssueList.IgnoreIdempotent | app/page.tsx:318-321 | ignoring the same id twice is ignoring it once |
| IssueList.IgnoreAbsent | app/page.tsx:318-321 | ignoring an id no record has leaves the list unchanged |
| IssueList.TagCountsBounded | app/page.tsx:85-95 | within one record, the counts of three distinct tags add up to at most its number of types |
| IssueList.KindCountsBounded | app/page.tsx:82-95 | over the list, the counts of three distinct tags never exceed the total issue count |
| IssueList.DashboardCountsBounded | app/page.tsx:82-95 | watermark + vendor + phone counts never exceed `totalIssueCount` |
| IssueList.TotalCountAppend | app/page.tsx:82 | the total count is additive over concatenation |
| IssueList.TotalCountOne | app/page.tsx:82 | replacing one record's types changes the total by the difference in their numbers |
| IssueList.FilteredMembers | app/page.tsx:98-101 | under a tag, the filter keeps exactly the records having a type with that tag |
| IssueList.FilteredAppend | app/page.tsx:98-101 | the filter keeps order: it distributes over concatenation |
| IssueList.FilteredShrinks | app/page.tsx:98-101 | the filtered list is never longer than the list, and holds all the list's issues of the filtered tag |
| IssueList.TagCountZero | app/page.tsx:85-95 | a record with no type of a tag contributes nothing to that tag's count |
| Dashboard.ImageProductsMembers | app/page.tsx:183-185 | the image loop visits exactly the products with a non-blank image URL |
| Dashboard.ImageProductsAppend | app/page.tsx:183-185 | that selection keeps order: it distributes over concatenation |
| Dashboard.TextPhaseUnique | app/page.tsx:144-179 | after the text findings are upserted in order, ids are unique and every reported record's id is in the list |
| Dashboard.ImagePhaseProps | app/page.tsx:188-263 | the image loop keeps ids unique and every earlier record's id at its place, and adds exactly one issue type per watermark found |
| Dashboard.AnalysisUnique | app/page.tsx:138-264 | after a whole analysis ids are unique, every text finding is still listed, and the total grows by the number of watermarks found |
| Dashboard.ProductImagesMembers | app/page.tsx:326-330 | `getProductImages` returns exactly the non-blank image URLs of the products with that id, and never more than the products with images |
| Dashboard.ProductImagesAppend | app/page.tsx:326-330 | the gallery keeps product order: it distributes over concatenation |
| Dashboard.Page.ReportTextFindings | app/page.tsx:144-179 | each reported record is upserted into the list, in order; nothing else on the page changes |
| Dashboard.Page.ScanImages | app/page.tsx:188-263 | the watermarks found are merged in order; the processed counter grows by one per image, including failed checks; `found` holds exactly when some check found a watermark |
| Dashboard.Page.AnalyzeData | app/page.tsx:113-307 | empty data changes nothing; otherwise the image total is set and the list cleared, and analysing ends false. A throwing text phase keeps its upserts and the tab; otherwise the list is the whole analysis, every image is counted and the review tab opens |
| Dashboard.Page.FileUploaded | app/page.tsx:103-111 | the products are stored and the upload flagged, then the analysis runs over them: with a throwing text phase the list holds just its upserts, no image is counted and the tab stays; otherwise the list is the whole analysis and the review tab opens; an empty upload leaves the list and tab; the result says whether anything was found |
| Dashboard.Page.MarkResolved | app/page.tsx:309-316 | the list becomes the resolve toggle of the old list |
| Dashboard.Page.IgnoreIssue | app/page.tsx:318-323 | the list loses exactly the records with that id |
| WatermarkTest.FindUrlHeaderIsFirst | app/test-watermark/page.tsx:63-68 | `findIndex` returns the first header naming an image URL column, and -1 exactly when there is none |
| WatermarkTest.ColumnValueTrimmed | app/test-watermark/page.tsx:73-74 | a column value is already trimmed |
| WatermarkTest.ColumnValuesShape | app/test-watermark/page.tsx:70-76 | every URL extracted is non-empty, trimmed and the URL column's cell on one of the data lines |
| WatermarkTest.ColumnValuesAppend | app/test-watermark/page.tsx:70-76 | extraction keeps line order: it distributes over concatenation |
| WatermarkTest.ColumnValuesComplete | app/test-watermark/page.tsx:70-76 | every line's non-empty cell in the URL column is extracted |
| WatermarkTest.ParseCsvImageUrlsEmpty | app/test-watermark/page.tsx:59-68 | fewer than two lines, or no URL header, gives no URLs |
| WatermarkTest.ParseCsvImageUrlsShape | app/test-watermark/page.tsx:59-77 | there are fewer URLs than lines, and each is non-empty and trimmed |
| WatermarkTest.ParseCsvImageUrlsExact | app/test-watermark/page.tsx:59-77 | with a URL header, the URLs are exactly the non-empty values of the first URL column on the non-blank data lines: each URL is one, and each one is a URL |
| WatermarkTest.ParseCsvImageUrlsAppend | app/test-watermark/page.tsx:59-77 | the URLs keep line order: more lines appended to the text append their URLs, from the column the header selects, after the earlier ones; no URL header gives none |
| WatermarkTest.SingleLineNoUrls | app/test-watermark/page.tsx:60-61 | text without a line break yields no URL |
| WatermarkTest.RequestsDistinct | app/test-watermark/page.tsx:105-123 | each request carries its URL, and no two requests share a product id or a product name |
| WatermarkTest.ScanIssuesShape | app/test-watermark/page.tsx:154-166 | at most one issue per URL; each is unresolved, holds one issue type and shows one of the checked URLs |
| WatermarkTest.ScanIssuesAre | app/test-watermark/page.tsx:105-166 | the issues are exactly the records of the replies reporting a watermark with an issue type, in URL order: the j-th issue is the j-th such reply's record and shows that reply's own URL, and every such reply has its issue |
| WatermarkTest.RepliesStep | app/test-watermark/page.tsx:105-166 | one more URL adds its reply's record, when the reply reports a watermark with an issue type, at the end, and nothing otherwise |
| WatermarkTest.ScanIssuesUpTo | app/test-watermark/page.tsx:105-166 | after the first n URLs the list holds exactly the positive replies' records among them, in URL order |
| WatermarkTest.EchoedScanUnique | app/test-watermark/page.tsx:119-123 | when the endpoint echoes the request's product id, the issues have distinct ids, each the id of one of the requests |
| WatermarkTest.FirstImage | app/test-watermark/page.tsx:223-227 | at most one image is returned |
| WatermarkTest.FirstImageIsFirst | app/test-watermark/page.tsx:223-227 | the image returned is that of the first issue with the id, and nothing is returned when no issue has it or its URL is empty |
| WatermarkTest.TestPage.CheckUrls | app/test-watermark/page.tsx:105-193 | the issues of the replies are appended in URL order, and the counter grows by one per URL, including failed and throwing requests |
| WatermarkTest.TestPage.ProcessCsv | app/test-watermark/page.tsx:79-210 | blank text changes nothing; otherwise the list holds the issues of the extracted URLs, every URL is counted, processing ends false, and the total is set only when URLs were found |
| WatermarkTest.TestPage.MarkResolved | app/test-watermark/page.tsx:212-216 | the list becomes the resolve toggle of the old list |
| WatermarkTest.TestPage.IgnoreIssue | app/test-watermark/page.tsx:218-220 | the list loses exactly the records with that id |
| WatermarkTest.TestPage.ProductImages | app/test-watermark/page.tsx:223-227 | at most one image per product id |
| UploadCsv.AttemptsAreEligible | app/api/upload-csv/route.ts:79-95 | a download is attempted for exactly the rows with both columns and a non-blank SKU and URL, in increasing order |
| UploadCsv.LastSegmentIsSuffix | app/api/upload-csv/route.ts:100-101 | the last `/` segment is the longest suffix of the URL without `/`: everything after its last `/` |
| UploadCsv.StripQueryIsPrefix | app/api/upload-csv/route.ts:104-106 | cutting at `?` leaves the longest prefix without `?`: everything before the first `?` |
| UploadCsv.LongestFreeSuffixUnique | app/api/upload-csv/route.ts:100-101 | there is only one longest suffix without a given character, so the segment is determined |
| UploadCsv.LongestFreePrefixUnique | app/api/upload-csv/route.ts:104-106 | there is only one longest prefix without a given character, so the cut is determined |
| UploadCsv.BaseFilenameShape | app/api/upload-csv/route.ts:100-106 | the base file name is the longest `?`-free prefix of the URL's longest `/`-free suffix, or of `image.jpg` when that suffix is empty; so it holds neither `/` nor `?` and is `image.jpg` or a piece of the URL |
| UploadCsv.BaseFilenamePlain | app/api/upload-csv/route.ts:100-106 | a non-empty URL without `/` and `?` is its own base name |
| UploadCsv.FileNamesDistinct | app/api/upload-csv/route.ts:108 | file names with different counters differ as strings, whatever the SKUs and base names |
| UploadCsv.DownloadsSnoc | app/api/upload-csv/route.ts:79-131 | one more row records at most one more image, at the end, exactly when the row is eligible and its transfer succeeds |
| UploadCsv.DownloadsShape | app/api/upload-csv/route.ts:79-131 | the recorded images carry the counters 1, 2, … in order; each comes from an eligible row whose transfer succeeded, reported as its index + 2, with the trimmed SKU and URL and the file name and path built from them; rows increase |
| UploadCsv.DownloadsComplete | app/api/upload-csv/route.ts:79-131 | every eligible row whose download and write succeed is recorded |
| UploadCsv.ProcessRow | app/api/upload-csv/route.ts:80-130 | one pass of the loop: a short row or a blank SKU or URL is skipped, and a successful transfer records the image and advances the counter |
| UploadCsv.DownloadRows | app/api/upload-csv/route.ts:72-131 | the loop records the images of the successful transfers, and `idCounter` ends one past the number recorded |
| UploadCsv.BaseFilenameOf | app/api/upload-csv/route.ts:100-106 | the reassigning computation of the base name agrees with its definition |
| UploadCsv.Post | app/api/upload-csv/route.ts:33-159 | a failing form read answers 500; a missing or empty `file` entry answers 400 "No CSV file provided"; a non-empty text entry answers 500, since its `.csv` test throws; a file name not ending in `.csv` answers 400 "File must be a CSV"; a parse, mkdir or summary failure answers 500; otherwise the summary of the downloaded images, with its count |
| ImagePreview.ImagesOf | components/ImagePreviewModal.tsx:34 | the images shown are the collection when it is non-empty, else the single image, so never none |
| ImagePreview.WrapIsModular | components/ImagePreviewModal.tsx:67-78 | inside the list, next and previous are +1 and -1 modulo the length, and stay inside |
| ImagePreview.NextPrevInverse | components/ImagePreviewModal.tsx:67-78 | next and previous undo each other |
| ImagePreview.AdvanceWraps | components/ImagePreviewModal.tsx:74-78 | k steps forward move k places, wrapping once past the end; n steps come back to the start |
| ImagePreview.SwipeOf | components/ImagePreviewModal.tsx:89-103 | for fractional pixel positions, a gesture navigates exactly when both positions are set (non-zero) and the distance exceeds 50 pixels; leftward goes next, rightward previous |
| ImagePreview.Preview.Images | components/ImagePreviewModal.tsx:34 | there is always at least one image |
| ImagePreview.Preview.SyncIndex | components/ImagePreviewModal.tsx:38-40 | the active index follows the `currentIndex` prop |
| ImagePreview.Preview.NavigatePrevious | components/ImagePreviewModal.tsx:67-71 | with one image nothing changes; otherwise direction -1 and the previous index, wrapping; an index in range stays in range |
| ImagePreview.Preview.NavigateNext | components/ImagePreviewModal.tsx:74-78 | with one image nothing changes; otherwise direction 1 and the next index, wrapping; an index in range stays in range |
| ImagePreview.Preview.KeyDown | components/ImagePreviewModal.tsx:44-57 | ignored while closed; Escape asks to close once, ArrowLeft and ArrowRight navigate, any other key changes nothing |
| ImagePreview.Preview.TouchStart | components/ImagePreviewModal.tsx:81-83 | records the start position |
| ImagePreview.Preview.TouchMove | components/ImagePreviewModal.tsx:85-87 | records the latest position |
| ImagePreview.Preview.TouchEnd | components/ImagePreviewModal.tsx:89-108 | with an unset position nothing changes; otherwise the swipe navigates as `SwipeOf` says and both positions are cleared |

## Left out

- I/O is not modelled:
  - toasts, console logging, animation variants and the rendered markup;
  - the loading-skeleton counters (`loadingImageCount`, `loadingCount`);
  - `currentProcessingUrl`.
  None of these feed back into the issue lists or the counters modelled.
- The final toasts that read `issues` from the closure are not modelled, so
  the model does not show that they read a stale list. These are the issue
  breakdown in `app/page.tsx` and the "Found N images" message in
  `app/test-watermark/page.tsx`.
- Concurrency is not modelled. The analysis and the test loop are
  asynchronous React state updates; the model runs each updater in program
  order, as a single awaiting caller sees it.
- The regular-expression engine, uuid generation, the watermark check
  (`checkImageForWatermark` is not part of this model), the check endpoint,
  the HTTP download, `mkdir`, `writeFile` and the CSV library (`csv-parse`)
  are parameters rather than code.
- Dashboard.Page.AnalyzeData: takes the text detector's callback calls as
  the list `reported` plus a throw flag. The `validateProducts` with a
  callback that the page calls is not the one in `validation.ts`.
- UploadCsv.Post: the 500 answer's `details` text, the error message of the
  exception, is not modelled. A parse failure is one outcome, `None`, of the
  file's records.
- UploadCsv.DownloadRows: one oracle `transfer(i)` stands for the download
  and the write of row i. The counter and the record depend only on both
  succeeding.
- Strings.Lower: maps ASCII letters only.
  - For the header patterns of `parseCSV` this is exact. Case-insensitive
    matching without the `u` flag never maps a non-ASCII character to an
    ASCII one.
  - `toLowerCase` in `parseCSVImageUrls` does map two non-ASCII characters to
    ASCII letters. U+212A becomes `k`, and U+0130 becomes `i` followed by
    U+0307. Neither can complete a match there: no needle (`image`, `img`,
    `photo`, `url`) contains `k`, and none has a letter `i` at its end.
- Strings are sequences of characters, not UTF-16 code units.
- UploadCsv.FileNamesDistinct: promises only that the file-name strings
  differ.
  - `path.join` normalisation of the output path is not modelled, and the SKU
    is taken from the row verbatim.
  - So a SKU holding `/..` can make two different names resolve to one path,
    for example `id_1_/../z_img.jpg` and `id_2_/../z_img.jpg`.
  - The model therefore does not promise that no image file overwrites
    another.
- ImagePreview.SwipeOf: touch positions are exact reals. Double rounding
  and a `NaN` position are not modelled.
- The carousel's `currentImage` lookup and `alt` text are not modelled.
- The `watermarkThreshold` setting is carried in `Dashboard.Settings` but has no effect: the page never reads it.
- The OpenAI watermark routes and the other pages are not part of this model.
