# Broadband site: carousel, search overlay and speed test

A Dafny model of the three pieces of the broadband provider's web site that
hold decision logic, with proofs of what they guarantee:

- `carousel.dfy` (module `Carousel`): the home page's plans carousel. One
  index moves over the plans. "Next" wraps forward and "previous" wraps
  backward; the arrow buttons, the arrow keys and the autoplay tick all use
  those two moves. A navigation dot jumps to its plan. The window of three
  plans on screen starts at the current index. The component state is the
  class `PlansCarousel`; the index arithmetic is a set of functions and
  lemmas.
- `search.dfy` (module `Search`): the site-wide search overlay. Its state is
  open or closed, the query, the results and the highlighted result. It
  reacts to Cmd/Ctrl+K, Escape, the arrow keys, Enter, typing and clicks. The
  results are the entries of a fixed four-entry catalogue whose title or
  description contains the query, ignoring case. The transitions are pure
  functions over an `Overlay` value, and the lemmas are proved about them.
  The class `SearchOverlay` performs them field by field, the way the
  component does, and is proved to reach the same states. It also records
  every route it sends the router to.
- `speed.dfy` (module `SpeedTest`): the speed test page.
  - The test runs a ping, then a 5-second download phase, then a 5-second
    upload phase.
  - The two rate phases are loops over 1 MiB blocks. They keep a running byte
    count and the count and time of the last live sample.
  - A live download sample is shown at most every 100 ms. Each phase ends with
    the average rate in megabits (2^20 bits) per second, rounded to
    hundredths.
  - The results are graded Excellent, Good, Fair or Poor, each grade with its
    own colour and advice.
  - The loops are methods with invariants, proved against a model of the
    clock. The page state is the class `SpeedTestPage`.
- `wrappers.dfy` (module `Wrappers`): `Option`, standing for a value that may
  be `null`.

The environment's inputs become explicit parameters:

- The clock of a rate phase is the sequence of readings it takes, in order.
  It never runs backwards, and by its last reading 5 s have passed. Past the
  last reading the clock stays at that value.
- A failing request is the number of the block whose request throws
  (`failAt`).
- The way a download block arrives is the list of its chunk lengths
  (`chunksOf`).
- The ping probe is its send time, its answer time, and whether it failed.

## Model

| member | source | states |
|---|---|---|
| `Carousel.Next` | components/ui/carousel.tsx:43-45 | "next" stays in range, moves to `i + 1` below the last plan and wraps from the last plan to 0 |
| `Carousel.Prev` | components/ui/carousel.tsx:47-51 | "previous" stays in range and moves to the one index whose "next" is the current one |
| `Carousel.PrevUndoesNext` | components/ui/carousel.tsx:43-51 | "previous" after "next" comes back to the starting index |
| `Carousel.NextTimes` | components/ui/carousel.tsx:44 | any number of "next" presses stays in range |
| `Carousel.NextTimesAdvances` | components/ui/carousel.tsx:44 | `k` presses of "next" advance the index by `k` modulo the plan count |
| `Carousel.FullRound` | components/ui/carousel.tsx:44 | as many "next" presses as there are plans come back to the start |
| `Carousel.NoShortCycle` | components/ui/carousel.tsx:44 | fewer presses than there are plans never come back to the start |
| `Carousel.NextTimesCompose` | components/ui/carousel.tsx:44 | `a` presses and then `b` presses are `a + b` presses |
| `Carousel.Window` | components/ui/carousel.tsx:34-40 | the window on screen holds exactly 3 indices, each a valid plan index |
| `Carousel.WindowShape` | components/ui/carousel.tsx:31-40 | the window starts at the current index, and each card is the "next" of the one before |
| `Carousel.WindowDistinctIff` | components/ui/carousel.tsx:36-38 | the three cards are distinct plans if and only if there are at least three plans; with fewer, a plan repeats |
| `Carousel.WindowSlides` | components/ui/carousel.tsx:34-45 | after "next" the window slides one card to the left |
| `Carousel.PlansCarousel.constructor` | components/ui/carousel.tsx:29-30 | a carousel starts at the first plan |
| `Carousel.PlansCarousel.NextSlide` | components/ui/carousel.tsx:43-45 | the index becomes `Next` of the old index and stays valid |
| `Carousel.PlansCarousel.PrevSlide` | components/ui/carousel.tsx:47-51 | the index becomes `Prev` of the old index and stays valid |
| `Carousel.PlansCarousel.GoToSlide` | components/ui/carousel.tsx:138-141 | a dot click sets the index to exactly that dot's plan and changes nothing else |
| `Carousel.PlansCarousel.HandleKeyPress` | components/ui/carousel.tsx:55-58 | ArrowRight is "next", ArrowLeft is "previous", any other key changes nothing |
| `Carousel.PlansCarousel.GetVisibleIndices` | components/ui/carousel.tsx:34-40 | the loop builds exactly the 3-index window `(currentIndex + i) % n`, each a valid plan index |
| `Search.LowerChar` | components/ui/search.tsx:98-99 | a lower-cased character is never a capital letter, and a character that is not a capital is left alone |
| `Search.LowerCharTable` | components/ui/search.tsx:98-99 | each of the 26 capital letters becomes its own small letter |
| `Search.ToLower` | components/ui/search.tsx:98-99 | lower-casing keeps the length, leaves no capital letter, and changes no character that was not a capital |
| `Search.ToLowerIdempotent` | components/ui/search.tsx:98-99 | lower-casing a lower-cased text changes nothing |
| `Search.Includes` | components/ui/search.tsx:98-99 | the empty text is contained in every text, and a contained text is no longer than its container |
| `Search.IncludesIff` | components/ui/search.tsx:98-99 | the substring scan succeeds exactly when the needle occurs at some position |
| `Search.OccursShift` | components/ui/search.tsx:98-99 | an occurrence in a text's tail is an occurrence in the text one position on, and back |
| `Search.FirstCharAbsent` | components/ui/search.tsx:98-99 | a needle whose first character is absent from the text is not found |
| `Search.Matches` | components/ui/search.tsx:98-99 | an empty query matches every entry, and a matched query is no longer than the entry's title or its description |
| `Search.Filter` | components/ui/search.tsx:97-100 | the filter never lengthens the list, and keeps only entries of the list that pass the test |
| `Search.FilterSelects` | components/ui/search.tsx:97-100 | the filter keeps exactly the accepted entries, each once, in their original order |
| `Search.FilterSameKeep` | components/ui/search.tsx:97-100 | two filters whose tests agree on every entry keep the same list |
| `Search.FilterMatches` | components/ui/search.tsx:97-100 | the query filter never lengthens the list and keeps only matching entries of it |
| `Search.FilterMatchesSelects` | components/ui/search.tsx:97-100 | the query filter keeps exactly the matching entries of any list, in their order |
| `Search.SearchResults` | components/ui/search.tsx:66-103 | an empty query lists nothing; no query lists more than the catalogue |
| `Search.SearchResultsAreCatalogueSelection` | components/ui/search.tsx:72-102 | a non-empty query lists an order-preserving sub-list of the catalogue, holding exactly the entries whose lower-cased title or description contains the lower-cased query |
| `Search.QueryCaseIgnored` | components/ui/search.tsx:97-100 | a query and its lower-cased form list the same results |
| `Search.CaseVariantsAgree` | components/ui/search.tsx:97-100 | two queries that agree letter by letter up to case ("Quote", "quote", "QUOTE") list the same results |
| `Search.QuoteFindsOnlyQuote` | components/ui/search.tsx:72-100 | the query "Quote" lists the quote request entry alone |
| `Search.NoLetterQMisses` | components/ui/search.tsx:97-100 | an entry with no letter q in its title or description does not match "Quote" |
| `Search.Toggle` | components/ui/search.tsx:19-24 | toggling flips open/closed and leaves a consistent state: the results are those of the query and the highlight is in range |
| `Search.ToggleResets` | components/ui/search.tsx:19-24 | toggling, from any state, flips open/closed and resets the query, the results and the highlight; toggling twice returns to the original open/closed state |
| `Search.KeyDown` | components/ui/search.tsx:27-58 | a key either toggles the overlay or changes at most the highlight; a navigation happens only from an open overlay with a shown result highlighted, goes to that result's url, and closes the overlay |
| `Search.EscapeCloses` | components/ui/search.tsx:35-37 | Escape closes an open overlay, back to its first state, and navigates nowhere |
| `Search.ArrowDownIndex` | components/ui/search.tsx:41-43 | ArrowDown moves the highlight down by at most one and never past the last result (exact move in `ArrowKeysClamp`) |
| `Search.ArrowUpIndex` | components/ui/search.tsx:48 | ArrowUp moves the highlight up by at most one and never below the first result (exact move in `ArrowKeysClamp`) |
| `Search.ClosedIgnoresKeys` | components/ui/search.tsx:28-33 | while closed, every key but Cmd/Ctrl+K leaves the state alone and goes nowhere |
| `Search.ShortcutToggles` | components/ui/search.tsx:28-31 | Cmd/Ctrl+K toggles the overlay whether it is open or closed |
| `Search.ArrowKeysClamp` | components/ui/search.tsx:39-49 | ArrowDown moves down by at most one and never past the last result; ArrowUp moves up by at most one and never below the first; each key moves exactly when there is room; with no highlight ArrowUp keeps none, and with no results ArrowDown keeps none |
| `Search.ArrowKeysUndo` | components/ui/search.tsx:39-49 | inside the list, ArrowUp undoes ArrowDown and ArrowDown undoes ArrowUp |
| `Search.ArrowDownSaturates` | components/ui/search.tsx:39-44 | from no highlight, `k` ArrowDown presses highlight result `k - 1`, stopping at the last result |
| `Search.EnterFollowsSelection` | components/ui/search.tsx:51-58 | Enter navigates exactly when a shown result is highlighted, then to that result's url, closing and resetting; otherwise it does nothing |
| `Search.KeyDownKeepsQuery` | components/ui/search.tsx:27-58 | other keys never open or close the overlay, never change its query or results, and never navigate |
| `Search.TypeQuery` | components/ui/search.tsx:165 | typing keeps the overlay open, sets the query, makes the results those of the new query, and keeps the highlight |
| `Search.ClickResult` | components/ui/search.tsx:180-183 | a click on a shown result goes to its url and puts the overlay back in its first state |
| `Search.NavigationTargetsCatalogue` | components/ui/search.tsx:51-58 | from any reachable state, every navigation, by Enter or by a click on a shown result (search.tsx:180-183), goes to the url of a catalogue entry |
| `Search.InitialInv` | components/ui/search.tsx:13-16 | the first state satisfies the invariant and highlights nothing |
| `Search.KeyDownInv` | components/ui/search.tsx:27-58 | every key keeps the invariant: results match the query, the highlight is -1 or a catalogue position, a closed overlay is blank |
| `Search.KeyDownSelectionInRange` | components/ui/search.tsx:39-58 | keys keep the highlight on a shown result or on none |
| `Search.TypeQueryAndClickInv` | components/ui/search.tsx:165-183 | typing and clicking a result keep the invariant |
| `Search.NarrowingStrandsSelection` | components/ui/search.tsx:66-103 | typing does not reset the highlight: narrowing to one result leaves a lower highlight pointing at nothing, and Enter then does nothing |
| `Search.SearchOverlay.constructor` | components/ui/search.tsx:13-16 | the overlay starts closed and blank, with no navigation |
| `Search.SearchOverlay.ToggleSearch` | components/ui/search.tsx:19-24 | the fields become `Toggle` of the old state; no navigation |
| `Search.SearchOverlay.HandleKeyDown` | components/ui/search.tsx:27-58 | the listener's sequence of tests, all made on the state as the key found it, reaches `KeyDown` of the old state and pushes exactly the route it names |
| `Search.SearchOverlay.SetQuery` | components/ui/search.tsx:66-103 | a change of the search box sets the query, and the effect sets the results to those of the new query |
| `Search.SearchOverlay.SelectResult` | components/ui/search.tsx:180-183 | a click pushes the clicked result's url and toggles |
| `SpeedTest.SpeedAnalysis` | app/speed/page.tsx:156-168 | each download or upload grade comes with its own colour |
| `SpeedTest.PingAnalysis` | app/speed/page.tsx:183-188 | each ping grade comes with its own colour, the same colours as the rate grades |
| `SpeedTest.DownloadBands` | app/speed/page.tsx:157-161 | download grade: Excellent at 100 and above, Good in [50, 100), Fair in [25, 50), Poor below 25 |
| `SpeedTest.UploadBands` | app/speed/page.tsx:162-167 | upload grade: Excellent at 50 and above, Good in [25, 50), Fair in [10, 25), Poor below 10 |
| `SpeedTest.PingBands` | app/speed/page.tsx:183-188 | ping grade: Excellent below 20, Good in [20, 50), Fair in [50, 100), Poor at 100 and above |
| `SpeedTest.SpeedGradeMonotone` | app/speed/page.tsx:157-167 | a faster rate never gets a worse grade |
| `SpeedTest.PingGradeMonotone` | app/speed/page.tsx:184-187 | a shorter ping never gets a worse grade |
| `SpeedTest.UploadGradedNoHarsher` | app/speed/page.tsx:157-167 | a rate never gets a worse grade as an upload than as a download |
| `SpeedTest.RateMbps` | app/speed/page.tsx:59-63 | the rate of a non-negative byte count is never negative |
| `SpeedTest.RateTimesTime` | app/speed/page.tsx:59-63 | rate × milliseconds × 2^20 equals the bits moved times 1000 |
| `SpeedTest.RateForm` | app/speed/page.tsx:59-63 | the rate is the byte count times 8000 / 2^20, over the milliseconds |
| `SpeedTest.FiveMiBInTwoSeconds` | app/speed/page.tsx:118-122 | 5 MiB in 2 s is 20 megabits per second |
| `SpeedTest.RateMonotone` | app/speed/page.tsx:59-63 | more bytes in the same time is a higher rate; the same bytes in more time a lower one |
| `SpeedTest.RateGrowsWithBytes` | app/speed/page.tsx:59-63 | more bytes in the same time is a higher rate |
| `SpeedTest.RateFallsWithTime` | app/speed/page.tsx:59-63 | the same bytes in more time is a lower rate |
| `SpeedTest.RoundHalfUp` | app/speed/page.tsx:65 | `Math.round` gives an integer within a half of its argument, halves going up |
| `SpeedTest.RoundToHundredths` | app/speed/page.tsx:65 | the stored rate is a whole number of hundredths within 0.005 of the exact one (so the nearest, halves going up), and non-negative for a non-negative rate |
| `SpeedTest.RoundingIdempotent` | app/speed/page.tsx:65 | rounding a rounded rate changes nothing |
| `SpeedTest.RoundingMonotone` | app/speed/page.tsx:65 | rounding keeps the order of rates |
| `SpeedTest.UploadBlockDone` | app/speed/page.tsx:38-56 | each upload block adds exactly 1 MiB; afterwards `lastBytes == total` and `lastUpdate == now`; a sample is shown exactly when time has passed, and is then one block over that time |
| `SpeedTest.DownloadChunk` | app/speed/page.tsx:98-112 | each chunk adds its length; a sample is shown, and the last-sample counters reset, exactly when 100 ms have passed, otherwise they stay; the sample is the bytes since the last sample over the time since it, rounded to hundredths; `lastBytes <= total` is kept and every sample is non-negative |
| `SpeedTest.ReadingMonotone` | app/speed/page.tsx:39 | the clock never runs backwards |
| `SpeedTest.UploadSamples` | app/speed/page.tsx:38-51 | the upload phase shows at most one live sample per block |
| `SpeedTest.UploadSamplesOrdered` | app/speed/page.tsx:38-51 | the live upload samples are non-negative, none later than the last update, strictly in time order |
| `SpeedTest.MeasureUpload` | app/speed/page.tsx:14-72 | blocks are started only while under 5 s; the count is blocks × 1 MiB; the phase has no rate exactly when the request of a block it started throws; otherwise its rate is the rounded average over the whole phase (at least 5 s); the live samples are exactly `UploadSamples` of the blocks sent |
| `SpeedTest.ReadChunks` | app/speed/page.tsx:94-113 | reading a block shows at most one sample per chunk |
| `SpeedTest.ReadChunksKeeps` | app/speed/page.tsx:94-113 | reading a block keeps the samples shown before it, in front of the new ones |
| `SpeedTest.ReadChunksTotal` | app/speed/page.tsx:98 | reading a block adds the sum of its chunk lengths to the count |
| `SpeedTest.GateTracks` | app/speed/page.tsx:98-112 | one chunk keeps the counters in step with the last sample shown, and the samples non-negative and 100 ms apart |
| `SpeedTest.ReadChunksTracks` | app/speed/page.tsx:94-113 | reading a whole block keeps that invariant |
| `SpeedTest.ReadBlock` | app/speed/page.tsx:94-113 | the chunk loop computes exactly `ReadChunks` (chunk `c` sampled at its own clock reading), adds the sum of the chunks and keeps the sampling invariant |
| `SpeedTest.DownloadRun` | app/speed/page.tsx:84-116 | after `b` blocks the count is the sum of all their chunks |
| `SpeedTest.DownloadRunTracks` | app/speed/page.tsx:84-116 | after any number of blocks the counters are in step with the samples, which are non-negative and 100 ms apart |
| `SpeedTest.DownloadBlock` | app/speed/page.tsx:85-115 | one block takes the run of the first `b` blocks to the run of the first `b + 1` |
| `SpeedTest.DownloadBlocks` | app/speed/page.tsx:84-116 | the loop ends with the run of the blocks it completed, all started under 5 s, and stops either at the block whose fetch throws or at the first loop test past 5 s |
| `SpeedTest.MeasureDownload` | app/speed/page.tsx:75-131 | blocks are fetched only while under 5 s; the count is the sum of all chunks received; the phase has no rate exactly when the fetch of a block it started throws; otherwise its rate is the rounded average over the whole phase; the live samples are exactly those of `DownloadRun`, non-negative and at least 100 ms apart |
| `SpeedTest.SpeedTestPage.constructor` | app/speed/page.tsx:7-12 | no results, not testing, phase "download" |
| `SpeedTest.SpeedTestPage.MeasurePing` | app/speed/page.tsx:133-143 | the ping is the round-trip time, never negative, or none if the request failed; nothing else changes |
| `SpeedTest.SpeedTestPage.MeasureDownloadSpeed` | app/speed/page.tsx:75-131 | sets the phase to download, stores the rounded average rate of the phase, or none exactly when a started block's fetch throws, and clears the live rate |
| `SpeedTest.SpeedTestPage.MeasureUploadSpeed` | app/speed/page.tsx:14-72 | sets the phase to upload, stores the rounded average rate of the phase, or none exactly when a started block's request throws, and clears the live rate |
| `SpeedTest.SpeedTestPage.StartSpeedTest` | app/speed/page.tsx:145-151 | ping, download and upload run in that order, all while marked testing, and testing ends afterwards; the stored rates are those the two phases report, each the rounded average or none exactly on a failure |

## Left out

- Rendering, animation and layout: the cards, the speed gauge and its needle angle, skeletons, the autoplay `setInterval`, and listener registration and removal. Only the transitions these trigger are modelled.
- Carousel.PlansCarousel.constructor: requires at least one plan. With no plans the component computes `NaN` indices and fails when it renders; both callers pass a non-empty list.
- Search.LowerChar: lower-cases ASCII letters only. The catalogue is ASCII, but `toLowerCase` also folds other scripts, so a query with non-ASCII capitals may match differently.
- Stale listeners: the keydown listener sees the render it was registered in. `HandleKeyDown` reads the state as the key found it; interleavings of several events within one render are not modelled.
- Floating point: rates are exact reals and times whole milliseconds. `Math.round` is modelled exactly on reals, but binary floating-point error is not, nor are fractional `performance.now()` readings. The ping is therefore the exact difference of two integer readings.
- Clock: `performance.now()`, `fetch`, `Blob`, `URL.createObjectURL` and the stream reader become parameters.
  - Past the last given reading, the clock is held at the last value.
  - A failure is modelled at the request of a whole block, not in the middle of a stream.
  - The `/api/ping` route the page calls is not part of the repository, so the ping probe's outcome is an input. Its two times come from the same clock, which never runs backwards, so the answer time is never before the send time (`ProbeOk`).
- The last live rate shown during a phase: `currentSpeed` is `None` after every phase, as the `finally` blocks leave it. The values it takes during a phase are the phase report's `samples`.
- Whether a grade is shown at all: the page shows a grade only for a non-zero stored rate or ping, and that is rendering.
- The API routes (mail, quote submission, upload sink): validation there is delegated to a schema library, and the rest is mail sending and templates.
