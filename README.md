# Responsive website screenshotter, modelled in Dafny

The repository has two scripts. Each renders one web page under a catalogue of device viewports, captures each rendering with a headless browser, retries failed captures, and lays the successful captures out on collage images.

- `gif_version.py` emulates 32 devices. For each one it records 15 frames while scrolling and encodes them as a GIF. It then draws one collage per device category, with the devices as cards in a one- or two-column grid.
- `responsive_website_screenshotter.py` captures one PNG per viewport for 20 viewports. It lays them out three to a row on a single 3600 x 2400 collage.

This project models the logic of both scripts. That means the catalogues, the per-viewport attempt/retry loop with its driver clean-up, the derived viewport metrics and result records, the frame and GIF-encoding loops, the blank-screenshot classifier, the page-content check, the collage geometry and drawing loops, the category selection, and the collection of results in `process_website`. The model then proves properties about all of these.

How the model treats the browser and the imaging library:

- **Outcomes are inputs.** The browser and the imaging library are not modelled. What they do is an input.
  - A browser is a function from (device name, attempt number) to what that attempt runs into: Chrome fails to start, a given call raises (and, for the responsive script, with which exception class), or the page loads with a given outcome for every frame.
  - Whether an image file opens, decodes and saves is a function of its path.
  - Font metrics are a function of font and text.
- **Traces record the calls.** Each capture produces a trace of abstract events: attempts, driver opens and quits, driver calls, sleeps and backoffs. The properties about clean-up and retries are stated over this trace.
- **Drawing is a record.** A collage is the ordered record of what is pasted or drawn on its canvas, together with its size and file path.
- **Arithmetic is exact.**
  - Float ratios are exact rationals, so every `int(...)` of a positive ratio is a floor, written as cross-multiplication or integer division.
  - A device pixel ratio is a whole number of quarters. Every ratio in the catalogue is a multiple of 0.25.

Modules:

- `Basics` holds options, paths, ASCII case mapping, substring search, decimal rendering, and the order-preserving filter `[s for s in xs if s]`.
- `Session` holds the trace events, the driver-ownership automaton, and the retry controller that both capture loops share.
- `Raster` holds draw operations, the `Canvas` class and saved boards.
- `ContentCheck` and `PageCheck` are the two content tests.
- `GifCatalog`, `GifCapture`, `CardLayout`, `CategoryCollage` and `GifPipeline` cover `gif_version.py`.
- `ResponsiveCapture`, `ResponsiveCollage` and `ResponsivePipeline` cover `responsive_website_screenshotter.py`.

Every loop of the source is a method with a `while` loop. Each method is proved equal to a specification function, and the properties are proved about that function:

- the attempt loop
- the frame loop
- the frame-decoding loop
- the category and card loops
- the collage item loop
- the result-collection loop

Each canvas is a `Canvas` object whose `Paint` method appends to its record of operations.

## Design description and code

The repository's design description does not always match the code. Where they disagree, the model follows the code:

- **Content validation.** The description says each capture validates its content and retries blank captures. In the code, `check_screenshot_content` and `verify_page_content` are never called. The model treats them as standalone predicates (`ContentCheck`, `PageCheck`), and no capture retries blank pages.
- **Atomic saving.** The description says the final image is written to a temporary file and renamed. Neither script does this: the file is written directly under its final name.
- **Near-white threshold.** The description calls an image with 99% of its pixels "at ≥250" near-white and blank. The code tests `> 250`. So a page that is 99% grey at exactly 250 per channel and 1% black counts as content (`ContentCheck.ThresholdEdgeIsContent`).

## Model

| member | source | states |
|---|---|---|
| ContentCheck.ClassifierRule | gif_version.py:290-327 | An empty histogram is never content. Otherwise the verdict is false exactly when near-white pixels exceed 98% of the total, or very-light pixels exceed 95% while dark pixels are under 1%; so the `dark_ratio > 0.02` branch never changes the answer |
| ContentCheck.BandsNested | gif_version.py:296-312 | near-white count ≤ very-light count, very-light + dark ≤ total and near-white + dark ≤ total, since a near-white colour is very light and no very-light colour is dark |
| ContentCheck.DarkShareMeansContent | gif_version.py:314-325 | a non-empty histogram with more than 2% dark pixels is always content |
| ContentCheck.ScaleInvariant | gif_version.py:292-318 | multiplying every count by the same factor leaves the verdict unchanged: only the shares matter |
| ContentCheck.Scaled | gif_version.py:292-294 | the scaled histogram keeps every colour and multiplies its count |
| ContentCheck.MostlyWhiteIsBlank | gif_version.py:319-320 | 99 white pixels and one black pixel are judged blank |
| ContentCheck.ThresholdEdgeIsContent | gif_version.py:296-325 | 99 pixels at exactly 250 per channel and one black pixel are judged content, because the near-white test is strict |
| PageCheck.PageContentThresholds | gif_version.py:260-278 | a page with 10 or fewer elements or 50 or fewer text characters fails; with more of both, one image is enough to pass |
| PageCheck.MoreContentStillPasses | gif_version.py:274-276 | a page with at least as many elements, text, images and markup as a passing page also passes |
| Basics.Contains | gif_version.py:347 | `t in s` holds exactly when some position of s starts an occurrence of t |
| Basics.Lower | gif_version.py:347 | lower-casing maps each character, keeping the length |
| Basics.Upper | gif_version.py:616 | upper-casing maps each character, keeping the length |
| Basics.LowerIdempotent | gif_version.py:347 | lower-casing twice is the same as lower-casing once |
| Basics.DecimalRoundTrip | gif_version.py:688 | the decimal rendering of n is all digits, has no leading zero unless n is 0, and reads back as n |
| Basics.PresentAppend | gif_version.py:724-726 | collecting the present results of a + b gives those of a followed by those of b |
| Basics.PresentMembers | gif_version.py:724-726 | a value is collected exactly when it is present in the input |
| Basics.PresentAll | gif_version.py:724-726 | when every result is present, all of them are kept, in order |
| Basics.PresentCounts | gif_version.py:724-726 | each value is collected exactly as often as it is present |
| Session.RunAppend | gif_version.py:331-392 | checking a concatenated trace is checking the first part, then the second from the state where the first ends |
| Session.RunCounts | gif_version.py:336-392 | along a trace that keeps the ownership rules, opens and quits balance, up to the driver live at either end |
| Session.DisciplinedBalanced | gif_version.py:387-392 | a trace that keeps the rules quits every driver it opens |
| Session.CallsKeepLive | gif_version.py:336-378 | driver calls and sleeps keep a live driver live |
| Session.RetryUnfold | gif_version.py:331-385 | one iteration of the attempt loop: return the attempt's result, return None after a retried last attempt, or sleep and go on with the next attempt |
| Session.RetryStep | gif_version.py:331-385 | the same step when the trace emitted so far is carried along, as the loop does |
| Session.AttemptTraceDisciplined | gif_version.py:331-392 | one attempt, including its backoff sleep and `finally` quit, keeps the ownership rules |
| Session.AttemptTraceCounts | gif_version.py:331-385 | one attempt contributes one attempt event, and one backoff exactly when it sleeps |
| Session.RetryCounts | gif_version.py:331-385 | at most `n - k` attempts are made, with one backoff between consecutive attempts and none after the last; none at all when `n <= k` |
| Session.RetryDisciplined | gif_version.py:331-392 | every driver the loop opens is quit exactly once, before the next attempt starts and before the capture returns |
| Session.RetryAllFail | gif_version.py:380-384 | when every attempt asks for a retry, all of them are made and None is returned |
| Session.RetryFirstFinish | gif_version.py:366-384 | the first attempt that does not ask for a retry decides the result |
| Session.RetryStopsAtFinish | gif_version.py:366-384 | no attempt follows the first one that does not ask for a retry |
| Session.RetryResultSource | gif_version.py:366-378 | a value is returned only if some attempt finished with it |
| GifCatalog.EveryViewportCategorised | gif_version.py:27-108 | every one of the 32 catalogue devices is listed by some collage category |
| GifCatalog.CategorisedSmartphones | gif_version.py:93-107 | the seven smartphones are listed by the iPhone and Android-phone categories |
| GifCatalog.CategorisedAppleDevices | gif_version.py:73-83 | the Apple devices are listed by the MacBook and iPad categories |
| GifCatalog.CategorisedDesktops | gif_version.py:61-71 | the desktops are listed by the desktop-monitor category |
| GifCatalog.CategorisedLatestModels | gif_version.py:50-59 | the four unheaded devices are listed by the MacBook, iPad and Android-phone categories |
| GifCatalog.CategorisedAndroidTablets | gif_version.py:85-91 | the Android tablets are listed by the Android-tablet category |
| GifCatalog.CategorisedPresentationDisplays | gif_version.py:28-36 | the presentation displays are listed by the design-presentation category |
| GifCatalog.CategorisedDesignFormats | gif_version.py:38-42 | the design formats are listed by the design-presentation category |
| GifCatalog.CategorisedAspectRatios | gif_version.py:44-48 | the aspect-ratio formats are listed by the design-presentation category |
| GifCatalog.ViewportNamesDistinct | gif_version.py:27-108 | no two catalogue entries share a device name |
| GifCatalog.CategoriesDisjoint | gif_version.py:402-447 | a device name is listed by at most one collage category |
| GifCatalog.EveryViewportInOneCategory | gif_version.py:402-447 | every catalogue device is listed by exactly one collage category, so its GIF appears on exactly one collage |
| GifCatalog.EveryViewportNamed | gif_version.py:450-496 | every catalogue device has a friendly name, so its card never falls back to the raw device name |
| GifCatalog.NamedSmartphones | gif_version.py:93-107 | each smartphone has a friendly name |
| GifCatalog.NamedAppleDevices | gif_version.py:73-83 | each Apple device has a friendly name |
| GifCatalog.NamedDesktops | gif_version.py:61-71 | each desktop has a friendly name |
| GifCatalog.NamedLatestModels | gif_version.py:50-59 | each of the four unheaded devices has a friendly name |
| GifCatalog.NamedAndroidTablets | gif_version.py:85-91 | each Android tablet has a friendly name |
| GifCatalog.NamedPresentationDisplays | gif_version.py:28-36 | each presentation display has a friendly name |
| GifCatalog.NamedDesignFormats | gif_version.py:38-42 | each design format has a friendly name |
| GifCatalog.NamedAspectRatios | gif_version.py:44-48 | each aspect-ratio format has a friendly name |
| GifCapture.PhysicalSize | gif_version.py:339-340 | `int(size / dpr)` is the largest whole r with r * dpr ≤ size |
| GifCapture.IsMobileIgnoresCase | gif_version.py:347 | the mobile flag does not depend on the name's capitalisation |
| GifCapture.IPhoneMobile | gif_version.py:347 | a name starting with "iphone", in any capitalisation, is emulated as mobile |
| GifCapture.RecordFields | gif_version.py:361-376 | the record copies the viewport's name, size, ratio and user agent; its file is `screenshot-<name>.gif` in the output directory; its physical sizes are the floors of size / dpr |
| GifCapture.GifPathInjective | gif_version.py:361-364 | distinct device names give distinct GIF files |
| GifCapture.CatalogueGifPathsDistinct | gif_version.py:361-364 | the 32 catalogue devices are written to 32 distinct GIF files, so no capture overwrites another's |
| GifCapture.CapturedFrames | gif_version.py:215-235 | when every iteration takes its screenshot, the result is exactly the 15 frames in order; otherwise it is empty |
| GifCapture.FrameEventsPrefix | gif_version.py:216-227 | after i iterations that took their frames, the loop's calls are a screenshot, a scroll and a 200 ms sleep per iteration, followed by the calls of the rest |
| GifCapture.FrameEventsAtFailure | gif_version.py:216-235 | when iteration i is the first to raise, the loop has made the calls of the i frames before it, then the screenshot, and also the scroll when the scroll is what raised |
| GifCapture.FrameEventsInSession | gif_version.py:216-227 | the frame loop only makes driver calls and sleeps |
| GifCapture.CaptureGifFrames | gif_version.py:207-235 | the loop returns the frames `CapturedFrames` describes and makes the calls `FrameEvents` describes |
| GifCapture.CreateGifFromFrames | gif_version.py:237-258 | the output path is returned exactly when there is a frame, every frame decodes and the file is saved; otherwise None |
| GifCapture.GifAttemptWellFormed | gif_version.py:333-378 | an attempt holds a driver exactly when Chrome started, and makes only driver calls after that |
| GifCapture.GifAttemptDecision | gif_version.py:336-384 | a launch failure, a raising setup call or an empty frame list is retried; with all 15 frames the capture ends, returning the record if every frame decodes and the GIF is saved, otherwise None |
| GifCapture.GifCaptureDiscipline | gif_version.py:331-392 | every browser started is quit exactly once, before the next attempt and before the capture returns; at most `retry_count` attempts are made, with a 3 s sleep between consecutive attempts and none after the last; with `retry_count ≤ 0` nothing happens and None is returned |
| GifCapture.GifCaptureAllFail | gif_version.py:380-384 | when every attempt fails in a retried way, all `retry_count` attempts are made and None is returned |
| GifCapture.GifEncodeFailureStops | gif_version.py:366-378 | an attempt that takes all 15 frames, but has a frame that does not decode or a GIF that is not saved, returns None at once, with no further attempt |
| GifCapture.GifCaptureResult | gif_version.py:366-376 | a capture that returns a record returns this viewport's record |
| GifCapture.RunAttempt | gif_version.py:333-378 | the body of one attempt produces the events and the decision `GifAttemptEnd` describes |
| GifCapture.CaptureScreenshot | gif_version.py:329-392 | the attempt loop returns the result and trace of `GifCapture`, the function the lemmas above are about |
| CardLayout.Columns | gif_version.py:585 | one column for one card, otherwise two |
| CardLayout.DisplayHeightFloor | gif_version.py:658-660 | the drawn height is the exactly scaled height rounded down |
| CardLayout.TallestIndex | gif_version.py:592 | picks a shot whose height-to-width ratio is at least every other shot's, compared by cross-multiplying |
| CardLayout.DisplayHeightMonotone | gif_version.py:592-593 | a smaller ratio never gives a taller picture after rounding down |
| CardLayout.ImageHeightIsMax | gif_version.py:592-593 | the shared picture slot is as tall as the tallest drawn picture: none is taller and one fills it |
| CardLayout.GridShape | gif_version.py:584-605 | 1 or 2 columns (1 exactly when there is one card); card width 2800 or 1380; canvas width always 3000; just enough rows for the cards; height = margins + header + rows of cards + gutters between them; every picture fits the slot |
| CardLayout.RowsCover | gif_version.py:597 | `ceil(n / cols)` rows hold n cards and leave no row empty |
| CardLayout.CardInsideCanvas | gif_version.py:637-655 | each card, and its shadow 10 px wider on every side, lies inside the canvas: 100 px margins left, right and bottom, the header above |
| CardLayout.LaterRowBelow | gif_version.py:641 | a card in a later row starts at least a gutter below the bottom of a card in an earlier row |
| CardLayout.CardsApart | gif_version.py:637-641 | two distinct cards are at least one 40 px gutter apart, horizontally or vertically, so they never overlap |
| CardLayout.PictureInsideCard | gif_version.py:658-697 | the picture is inset by the padding and spans the card minus the padding; the 120 px information area below it stays clear of the bottom padding; both information lines start at least 100 px above the card's bottom edge |
| Raster.CenteredTextInsideBox | gif_version.py:564-575 | a centred text stays inside its box exactly when the font sets it no wider than the box; a wider text starts left of the box |
| Raster.AlignedXPlacement | gif_version.py:564-575 | with no width, or left-aligned, text starts at x; right-aligned, it ends at the box's end; centred, the space left of it and the space right of it differ by at most one pixel |
| CategoryCollage.Select | gif_version.py:579 | the selection is no longer than the input |
| CategoryCollage.SelectMembers | gif_version.py:579 | a category keeps exactly the shots whose device it lists |
| CategoryCollage.SelectAppend | gif_version.py:579 | selection keeps input order: it distributes over concatenation |
| CategoryCollage.HeaderOps | gif_version.py:612-633 | the header is the upper-cased title, then the subtitle placed 30 px below the title's measured height |
| CategoryCollage.InfoLinesInsideCard | gif_version.py:673-697 | on a card with a picture, the device name and the specs line each stay between the card's side paddings exactly when the font sets them no wider than the picture; the name starts below the picture; a name at most 35 px tall ends before the specs line, and a specs line at most 60 px tall ends above the bottom padding |
| CategoryCollage.CardPicture | gif_version.py:643-701 | a card draws nothing when its file cannot be opened; it holds a picture exactly when the image loads and is at least 1 px tall; that picture is the shot's file, inset in the card |
| CategoryCollage.CardsOpsSource | gif_version.py:636-701 | every operation of the card loop comes from one of the cards |
| CategoryCollage.CardsOpsHold | gif_version.py:636-701 | every operation of each card is in the card loop's output |
| CategoryCollage.BoardPictures | gif_version.py:584-701 | on a category board, every picture is one of the category's screenshots and lies inside the canvas; every shot that loads and is at least 1 px tall gets its picture |
| CategoryCollage.Drafts | gif_version.py:578-581 | one planned board per category, in table order |
| CategoryCollage.WrittenFromDrafts | gif_version.py:578-712 | every board written is one of the planned boards |
| CategoryCollage.WrittenAllSaved | gif_version.py:704-708 | when every save succeeds, every planned board is written |
| CategoryCollage.WrittenStops | gif_version.py:708-712 | a save that fails ends the run: nothing after it is written |
| CategoryCollage.CollagesFromCategories | gif_version.py:578-581 | every board written is the board of some category for the shots it selects; a category with no shots gets none |
| CategoryCollage.CollagesAllSaved | gif_version.py:578-709 | when every save succeeds, each category with shots gets its board |
| CategoryCollage.SaveFailureStops | gif_version.py:708-712 | a board that fails to save stops the run: the boards written are those of the earlier categories |
| CategoryCollage.NoShotsNoBoards | gif_version.py:396-399 | without shots no board is written |
| CategoryCollage.DrawCard | gif_version.py:643-701 | the card's `try` block paints exactly the operations `CardOps` describes, stopping at the first call that raises |
| CategoryCollage.DrawCards | gif_version.py:636-701 | the card loop appends every card's operations in order |
| CategoryCollage.DrawCategory | gif_version.py:584-708 | a category's canvas receives the header, then the cards, and is saved under `collage_<key>.png` |
| CategoryCollage.DraftCategory | gif_version.py:579-581 | a category with no shots is skipped, and otherwise drawn |
| CategoryCollage.CreateCategoryCollages | gif_version.py:394-712 | the category loop writes exactly the boards `Collages` describes, which the lemmas above characterise |
| GifPipeline.Captures | gif_version.py:717-729 | one capture result per viewport, read back in submission order |
| GifPipeline.ShotsAreRecords | gif_version.py:717-729 | at most one record per viewport; exactly the records that came back are kept; each is the record of one of the viewports |
| GifPipeline.AllCapturedInOrder | gif_version.py:717-729 | when every capture succeeds, the records are the viewports' records in catalogue order |
| GifPipeline.TracesDisciplined | gif_version.py:717-729 | captures made one after another never have two browsers open at once, and quit every browser |
| GifPipeline.TracesAttempts | gif_version.py:717-729 | each viewport's capture makes at most `retry_count` attempts, so the run as a whole makes at most n · `retry_count` |
| GifPipeline.ProcessedBoards | gif_version.py:731-735 | with no record no collage is drawn; otherwise the collages are those of the categories for the records |
| GifPipeline.ProcessWebsiteWith | gif_version.py:714-735 | the run returns the records, collages and browser trace that `Processed` describes |
| GifPipeline.ProcessWebsite | gif_version.py:714-735 | the same, for the 32 catalogue devices, 3 attempts each, the category table and the name table |
| ResponsiveCapture.RecordFields | responsive_website_screenshotter.py:104-115 | the record copies the viewport's name and size; its file is `screenshot-<name>.png` in the output directory |
| ResponsiveCapture.WindowSizes | responsive_website_screenshotter.py:86-108 | both time-outs are set to 30 s; the page loads in a window padded by 100 px each way; the screenshot is taken at the exact viewport size after 3 s of waiting |
| ResponsiveCapture.AttemptWellFormed | responsive_website_screenshotter.py:84-115 | an attempt holds a driver exactly when Chrome started, and makes only driver calls after that |
| ResponsiveCapture.AttemptDecision | responsive_website_screenshotter.py:84-126 | an attempt is retried exactly when it raises a WebDriverException; it returns the record exactly when every call returns; it returns None exactly when another exception is raised |
| ResponsiveCapture.CaptureDiscipline | responsive_website_screenshotter.py:82-133 | every browser started is quit exactly once on every path; at most `retry_count` attempts are made, with a 2 s sleep between consecutive attempts and none after the last; with `retry_count ≤ 0` nothing happens and None is returned |
| ResponsiveCapture.DriverErrorsExhaust | responsive_website_screenshotter.py:117-122 | when every attempt raises a WebDriverException, all `retry_count` attempts are made and None is returned |
| ResponsiveCapture.OtherErrorStops | responsive_website_screenshotter.py:124-126 | any other exception returns None at once, with no further attempt |
| ResponsiveCapture.FirstSuccessWins | responsive_website_screenshotter.py:110-122 | the first attempt in which every call returns gives the record, and no attempt follows it |
| ResponsiveCapture.CaptureResult | responsive_website_screenshotter.py:110-115 | a capture that returns a record returns this viewport's record |
| ResponsiveCapture.RunAttempt | responsive_website_screenshotter.py:84-126 | the body of one attempt produces the events and the decision `AttemptEnd` describes |
| ResponsiveCapture.CaptureScreenshot | responsive_website_screenshotter.py:81-133 | the attempt loop returns the result and trace of `Capture`, the function the lemmas above are about |
| ResponsiveCollage.FitSizeBounds | responsive_website_screenshotter.py:162-167 | the scaled picture fits 1000 x 700; the side whose bound binds gets exactly its bound; the other side is the exactly scaled side rounded down |
| ResponsiveCollage.ItemPicture | responsive_website_screenshotter.py:160-178 | an item draws something exactly when its file loads and both scaled sides are at least 1 px; it is then the picture at the cell's corner and the caption `name (w x h)` 10 px below it |
| ResponsiveCollage.ItemInsideCanvas | responsive_website_screenshotter.py:154-175 | on a canvas with a row for every three items, each picture lies inside the canvas, and its caption starts at least 40 px above the bottom |
| ResponsiveCollage.ItemsApart | responsive_website_screenshotter.py:155-158 | two distinct items are at least 200 px apart side by side, or at least 100 px apart one above the other |
| ResponsiveCollage.ItemsOpsSource | responsive_website_screenshotter.py:154-178 | every operation of the item loop comes from one of the items |
| ResponsiveCollage.ItemsOpsHold | responsive_website_screenshotter.py:154-178 | every operation of each item is in the item loop's output |
| ResponsiveCollage.CollagePictures | responsive_website_screenshotter.py:135-184 | a written collage is `website-responsive-collage.png`, 3600 px wide; every picture on it is one of the screenshots and lies inside it; every screenshot that loads and scales to at least 1 px each way gets its picture |
| ResponsiveCollage.CollageSkipped | responsive_website_screenshotter.py:138-142 | no screenshots, no collage; a failed save, no collage; otherwise a collage |
| ResponsiveCollage.AsWrittenLosesLaterItems | responsive_website_screenshotter.py:144-158 | on the fixed 2400 px canvas, everything from the tenth item on is drawn at least 50 px below the bottom edge |
| ResponsiveCollage.TenthViewportBelowCanvas | responsive_website_screenshotter.py:24-52 | the tenth catalogue viewport, ipad-10.9, is scaled to 933 x 700 and placed at y = 2450 |
| ResponsiveCollage.CorrectedHeight | responsive_website_screenshotter.py:144-146 | the corrected canvas is never shorter than the fixed one |
| ResponsiveCollage.CorrectedHeightAgrees | responsive_website_screenshotter.py:144-158 | the corrected canvas equals the fixed 2400 px one exactly when there are at most nine screenshots |
| ResponsiveCollage.DrawItem | responsive_website_screenshotter.py:160-178 | one item's `try` block paints exactly the operations `ItemOps` describes |
| ResponsiveCollage.DrawItems | responsive_website_screenshotter.py:154-178 | the item loop appends every item's operations in order |
| ResponsiveCollage.CreateCollage | responsive_website_screenshotter.py:135-188 | the collage writer returns exactly the collage `Collage` describes |
| ResponsivePipeline.Captures | responsive_website_screenshotter.py:193-208 | one capture result per viewport, read back in submission order |
| ResponsivePipeline.ShotsAreRecords | responsive_website_screenshotter.py:193-208 | at most one record per viewport; exactly the records that came back are kept; each is the record of one of the viewports |
| ResponsivePipeline.AllCapturedInOrder | responsive_website_screenshotter.py:193-208 | when every capture succeeds, the records are the viewports' records in catalogue order |
| ResponsivePipeline.TracesDisciplined | responsive_website_screenshotter.py:193-208 | captures made one after another never have two browsers open at once, and quit every browser |
| ResponsivePipeline.TracesAttempts | responsive_website_screenshotter.py:193-208 | each viewport's capture makes at most `retry_count` attempts, so the run as a whole makes at most n · `retry_count` |
| ResponsivePipeline.ProcessedCollage | responsive_website_screenshotter.py:210-214 | the collage is written exactly when some record came back and it saves, and it is then the collage of those records |
| ResponsivePipeline.FixedCanvasLosesEleven | responsive_website_screenshotter.py:24-52 | with all 20 catalogue viewports captured, the fixed canvas leaves the last 11 of them entirely below its bottom edge |
| ResponsivePipeline.ProcessWebsiteWith | responsive_website_screenshotter.py:190-214 | the run returns the records, the collage and the browser trace that `Processed` describes |
| ResponsivePipeline.ProcessWebsite | responsive_website_screenshotter.py:190-214 | the same, for the 20 catalogue viewports and 3 attempts each |

## Findings

| source | as written | input that shows it | evidently intended | confidence | as-written member | corrected member |
|---|---|---|---|---|---|---|
| responsive_website_screenshotter.py:144-158 | the collage canvas is always 3600 x 2400; items start at `y = (i // 3) * 800 + 50`, so from the tenth item on (i ≥ 9) they start at y ≥ 2450, below the bottom edge, and are silently cut off | all 20 catalogue viewports captured: the tenth, ipad-10.9 (2048 x 1536), is pasted as a 933 x 700 picture at y = 2450, and items 9 to 19 (11 screenshots) are invisible | the canvas is tall enough for every row: 800 px per row, at least the original 2400 | not executed | ResponsiveCollage.AsWrittenLosesLaterItems, ResponsiveCollage.TenthViewportBelowCanvas, ResponsivePipeline.FixedCanvasLosesEleven | ResponsiveCollage.CreateCollage (canvas height ResponsiveCollage.CorrectedHeight), with ResponsiveCollage.CollagePictures proving every picture lies inside the canvas |

## Left out

- **The browser.** Selenium, Chrome options, the user-agent argument, CDP commands, the JavaScript of `wait_for_page_load` and `inject_hydration_handling`, and screenshot extraction are foreign calls. They appear only through the per-attempt outcome function and as events in the trace.
- **The imaging library.** PIL decoding, `convert`, resizing, LANCZOS resampling, pasting, the blurred shadow, fonts and `getbbox`, and saving are foreign calls.
  - The classifier takes the thumbnail's colour histogram as input.
  - Text placement takes the font metrics as input.
  - Whether a file opens, decodes and saves is an input.
  - The `Canvas` records operations instead of pixels.
- **Floating point.** The model uses exact rationals, which can differ from what the floats compute at boundaries. For example, `int(w * (1000 / w))` can give 999 instead of 1000. This applies to:
  - `int(width / dpr)`
  - the `h / w` ratios
  - `int(w * scale)`
  - the `dpr` value passed to device emulation
- **Concurrency.** The `ThreadPoolExecutor` is not modelled. Results are read back in submission order whatever the order of completion, and the model keeps exactly that order. The browser traces of the captures are concatenated as if one worker ran them one after another, so the "never two browsers at once" property holds per worker, not across the three workers of the responsive script's default.
- **Effects outside the results.**
  - Logging, `os.makedirs`, the temporary directory, the font-path table, `main` and the output-directory separator of `os.path.join` are outside the model.
  - `time.sleep` becomes a `Backoff` or `Pause` event.
  - The return value of `driver.save_screenshot` is ignored, as in the source.
  - A `driver.quit()` that raises is swallowed in the source. It appears as an ordinary `Quit` event.
- **Unused return values.** The height returned by `draw_text` is used only for the subtitle position, and the model uses it only there. `create_shadow` is modelled as one `Shadow` operation.
- **GIF first frame.** The `img.seek(0)` for animated files is not modelled separately. A card always shows the file's picture.
- **The None filters.** The filters at the top of `create_category_collages` and `create_collage` are the identity at their only call site, because `process_website` already drops None. The model's collage builders take the list of records.
- **Duplicates inside one category's list.** A category listing a device twice would change nothing, because the list is only used for membership tests. The model does not prove the lists are free of repeats.
- **The outer handlers.** An exception escaping the outer `try` of `create_category_collages` can only come from `canvas.save`. The model represents it as a failed save, which ends the run.
- ResponsiveCollage.CreateCollage: draws on the corrected canvas height rather than the source's fixed 2400 px (see Findings). The as-written canvas is modelled by `ResponsiveCollage.AsWrittenBoard`. For up to nine screenshots the two agree.
- ResponsivePipeline.Processed, ResponsivePipeline.ProcessWebsiteWith and ResponsivePipeline.ProcessWebsite: they build their collage with `ResponsiveCollage.CreateCollage`, so the collage they return has the corrected canvas height, not 2400 px.
- Basics.Lower and Basics.Upper: these change case only for ASCII letters, one character for one. Python's `str.lower` and `str.upper` follow Unicode and can change a string's length. The two agree on the ASCII device names and category titles they are applied to.
- CategoryCollage.InfoLinesInsideCard: the lines are proved to fit only for font metrics within the bounds it states. The source never checks the metrics, so a device name set wider than the picture starts left of it and can run past the card's padding.
