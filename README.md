# Instagram media downloader page — a verified model of its core

The page lets a user paste an Instagram link and then previews or downloads
the post's media. This project models the three pieces of sequential logic in
`script.js` and proves properties about them:

1. **URL gate** (`Classifier`): the buttons trim the text field and reject an
   empty value. `validateUrl` then accepts a string only when `new URL(...)`
   parses it and the hostname contains `instagram.com` anywhere. The browser's
   URL parser is a parameter, `hostnameOf: string -> Option<string>`. It returns
   the parsed hostname, or `None` where the constructor throws.
   `String.prototype.trim` and `String.prototype.includes` are written out in
   `JsStrings`.
2. **Path extractor and mock resolver** (`PathExtractor`, `Resolver`).
   `fetchInstagramMedia` looks for the leftmost match of
   `/\/(p|reel|tv)\/([A-Za-z0-9_-]+)/` and builds a placeholder media record
   from the kind and the id. Here the regular expression is an explicit scanner
   over the characters of the URL. It is proved equal to an independent
   definition: the leftmost marker, followed by the longest run of id
   characters. The `Math.random() > 0.7` draw is the boolean parameter `coin`.
3. **Download-link plan** (`Presentation`, `Page`). `downloadMediaFromPreview`
   and `downloadMedia` contain the same branching. `Presentation.LinkPlan`
   specifies, as an ordered list of actions, what that branching puts into the
   `#downloadLinks` container. The actions are previews, download anchors with
   their `href` and file name, "Download All", and the media-info block.
   `Page.DownloadPanel.ShowDownloadOptions` is the imperative builder. It clears
   the list and appends the containers, with a loop over the carousel items,
   and it is proved to produce exactly `LinkPlan`. Both call sites are modelled
   by this one method.

The media record is the loosely shaped JavaScript object: a datatype whose
fields are all optional (`mediaType` stands for the object's `type`, a Dafny
keyword). This keeps the fallbacks `videoUrl || url`, `urls || media` and
`item.url || item` as the source has them. A string is truthy when it is
present and non-empty. An array is always truthy.

When no path matches, `fetchInstagramMedia`
reaches its `catch` block and returns a placeholder image. The builders clear
the `#downloadLinks` container and append to it. A record of type `carousel`
with neither `urls` nor `media` makes `(data.urls || data.media).forEach` throw,
after the "Preview All Images" button has been appended. The model keeps this
path (`Plan.completed == false`) and proves that no record the resolver returns
takes it.

## Model

| member | source | states |
|---|---|---|
| JsStrings.Trim | script.js:637 | `trim()` returns a middle slice of the input with only whitespace cut on either side, neither end of it whitespace; it is empty exactly when the input is all whitespace |
| JsStrings.SkipLeading | script.js:637 | the first non-whitespace index: everything before it is whitespace |
| JsStrings.SkipTrailing | script.js:637 | the end of the last non-whitespace character: everything after it is whitespace |
| JsStrings.IncludesFrom | script.js:55 | the substring search finds `sub` at or after `from` exactly when it occurs there |
| JsStrings.Includes | script.js:55 | `includes` is true exactly when the substring occurs at some index |
| JsStrings.NatToString | script.js:291 | `${index + 1}` is a non-empty string of decimal digits without a leading zero |
| JsStrings.DecimalRoundTrip | script.js:291 | reading the decimal rendering back gives the number |
| JsStrings.NatToStringInjective | script.js:291 | distinct numbers render differently |
| Classifier.ValidateUrl | script.js:52-63 | the result is the Instagram tag exactly when the URL parses and its hostname contains `instagram.com`; otherwise it is `false` (`None`) |
| Classifier.LookalikeHostAccepted | script.js:55 | a hostname such as `notinstagram.com` is accepted, because the test is a plain substring test |
| Classifier.Submit | script.js:636-647 | an all-whitespace field gives the "enter a URL" alert; otherwise a trimmed URL that fails `validateUrl` gives the "valid Instagram URL" alert; otherwise the trimmed, non-empty URL is passed on with its platform |
| PathExtractor.IdRunEnd | script.js:579 | the greedy `[A-Za-z0-9_-]+` run: every character in it is an id character and the next one is not |
| PathExtractor.KindAt | script.js:579 | the alternative found at an index really matches there, and when none is found none of `p`, `reel`, `tv` matches there |
| PathExtractor.MatchAt | script.js:579-585 | at a marker, the reported match is that marker with the longest id after it |
| PathExtractor.ScanFrom | script.js:579 | the scan reports a marker followed by a maximal id, with no marker between its start index and the match; when it reports nothing, there is no marker at or after its start |
| PathExtractor.ExtractPath | script.js:579-585 | a reported match is the leftmost match with a maximal id; nothing is reported exactly when the URL has no match |
| PathExtractor.IdRunIsMaximal | script.js:579 | the greedy run after a marker is a non-empty id that cannot be extended |
| PathExtractor.KindIsDetermined | script.js:579 | at one index at most one of `/p/`, `/reel/`, `/tv/` can match |
| PathExtractor.MaximalIdUnique | script.js:579 | after a given index there is only one id that cannot be extended |
| PathExtractor.MaximalIdIsGreedy | script.js:579 | a maximal id ends exactly where the greedy `+` run stops |
| PathExtractor.LeftmostMatchUnique | script.js:579-585 | the leftmost match, its kind and its id are determined by the string |
| PathExtractor.ExtractPathComplete | script.js:579-585 | whenever a leftmost match exists, the scanner returns exactly it |
| Resolver.FetchInstagramMedia | script.js:576-633 | total: every URL yields a record of type `reel`, `carousel` or `image`; an image has a truthy `url`, a carousel exactly 3 items, and every record a truthy description |
| Resolver.FetchWithoutPath | script.js:580-582 | a URL with no `/p/`, `/reel/` or `/tv/` match yields the placeholder image, with description `Instagram Image (Failed to load)` and no caption |
| Resolver.FetchReel | script.js:591-598 | a reel or tv link yields type `reel` with the placeholder video, a thumbnail ending with the id and description `Instagram Reel - <id>`, whatever the draw |
| Resolver.FetchPostIsNotReel | script.js:599-622 | a post link never yields a reel |
| Resolver.FetchPostCarousel | script.js:601-613 | a post link with the draw above the threshold yields a carousel of exactly three `{url}` items numbered 1 to 3, each built from the id, and description `Instagram Carousel - <id>` |
| Resolver.CarouselImagesEndWithId | script.js:607-609 | each carousel image URL ends with the post id |
| Resolver.FetchPostImage | script.js:614-620 | a post link with the draw at or below the threshold yields one image whose URL ends with the id, and description `Instagram Image - <id>` |
| Presentation.LinkPlan | script.js:191-360 | whatever the record, the first action appended after clearing is a preview button; `VideoPlan`, `ImagePlan`, `CarouselPlan` and `IncompletePlan` fix the whole plan of each branch |
| Presentation.VideoPlan | script.js:202-257 | a video or reel gets exactly a preview and a download of the video, then a "Preview Thumbnail" button and the thumbnail's download exactly when the thumbnail is truthy, then the info block; nothing else |
| Presentation.ImagePlan | script.js:319-346 | a single image gets exactly one preview/download pair of its `url`, then the info block; nothing else |
| Presentation.DownloadFollowsPreview | script.js:191-346 | in every plan, each download anchor comes right after a preview button: files are offered as preview/download pairs |
| Presentation.CarouselDownloadFollowsPreview | script.js:275-301 | in a carousel's plan, each download anchor sits at an even position `2i + 2`, is item `i`'s anchor, and follows item `i`'s preview button |
| Presentation.CarouselActionAt | script.js:258-359 | position by position, a carousel's completed plan holds the preview-all button, then item `i`'s preview at `2i + 1` and its anchor at `2i + 2`, then "Download All", then the info block |
| Presentation.ItemActionsAt | script.js:275-301 | the `forEach` appends, for item `i`, its preview titled `Image <i+1>` at position `2i` and its download anchor at `2i+1`, `2N` actions in all |
| Presentation.ItemDownloads | script.js:288-291 | the individual download anchors of a carousel are its items' links, in item order, named `<platform>_image_<i+1>.jpg` |
| Presentation.VideoDownloads | script.js:202-257 | a video or reel offers its `videoUrl` (or else its `url`) as `<platform>_video.mp4`, then its thumbnail as `<platform>_thumbnail.jpg` exactly when the thumbnail is truthy |
| Presentation.ImageDownloads | script.js:319-346 | a record that is neither video nor carousel offers only its `url`, as `<platform>_image.jpg` |
| Presentation.CarouselDownloads | script.js:258-318 | a carousel offers exactly its items' links; its buttons and the info block are not anchors |
| Presentation.CarouselPlan | script.js:258-359 | a carousel of N items gets one preview-all button, then N preview/download pairs in item order, then one download-all button whose anchors are the same N links in the same order, then exactly the info block |
| Presentation.CarouselNamesDistinct | script.js:291 | the file names of a carousel's anchors are pairwise distinct |
| Presentation.IncompletePlan | script.js:258-275 | among the records the model represents (items are never `null` or `undefined`), the builder stops early exactly for a carousel-like record with neither `urls` nor `media`, with only the "Preview All Images" button and nothing to download |
| Presentation.InfoLast | script.js:349-359 | on a completed plan, the info block is the last action exactly when the caption or the description is truthy, appears nowhere else, and shows each of them only when truthy |
| Presentation.ClickAll | script.js:307-316 | the download-all handler clicks one anchor per item, in order, with the item's `href` and its 1-based file name |
| Page.ResolvedPlanCompletes | script.js:403-560 | for every resolved record the plan completes and ends with the info block; it offers 2 files for a reel, 3 for a carousel and 1 for an image |
| Page.PostCarouselOffers | script.js:601-613 | for any post link and a carousel draw, the plan offers three files, each an image of that post |
| Page.PostImageOffers | script.js:614-620 | for any post link and a single-image draw, the plan offers one file, an image of that post |
| Page.SamplePostAccepted | script.js:636-647 | when the URL parser gives the hostname `instagram.com`, the gate accepts `https://instagram.com/p/ABC123` as it is |
| Page.SamplePostPath | script.js:579-585 | the leftmost match in the sample link is the post id `ABC123` at index 21 |
| Page.SamplePostCarousel | script.js:601-613 | for the sample link and a carousel draw, three files are offered, each an image of `ABC123` |
| Page.SamplePostImage | script.js:614-620 | for the sample link and a single-image draw, one file is offered, an image of `ABC123` |
| Page.DownloadPanel.ShowDownloadOptions | script.js:191-360 | the list is cleared and then holds exactly `LinkPlan`'s actions, whatever it held before; the result says whether the builder ran to its end |
| Page.DownloadPanel.DownloadMedia | script.js:363-570 | after resolving, the list holds the plan of the resolved record, and the `catch` block is never reached |
| Page.DownloadPanel.OnDownloadClick | script.js:636-650 | a rejected input raises its alert and leaves the list unchanged; an accepted one rebuilds the list from the resolved record |

## Left out

- URL parsing (`new URL`, line 54) follows the WHATWG URL Standard and is a parameter, `hostnameOf`. `ValidateUrl` and `Submit` assume no property of that parser. `Page.SamplePostAccepted` holds only under the hypothesis that the parser gives the hostname `instagram.com` for the sample link.
- `Math.random()` (line 601) is the boolean `coin`. The model does not capture the probability of a carousel (about 0.3).
- The 2000 ms delay and the `async`/`await` structure of `fetchInstagramMedia`, `downloadMedia` and `previewOnly` are timing, not logic.
- The global `currentMediaData`/`currentPlatform` slot (lines 26-27, 176-177, 668-673) is not modelled. Its only behaviour beyond plain assignment is a last-write-wins race between overlapping fetches. `ShowDownloadOptions` takes the record and the platform as arguments instead.
- `previewOnly`, `showPreview` and `hidePreview` (lines 97-188) are not modelled. They depend on asynchronous `onload`/`onerror` media events and on video playback. `showPreview` has no branch for the type `reel`, so a reel opened with "Preview" renders nothing and the overlay stays hidden. The model does not state this.
- `showNotification`, its timers, the progress bar, the accordion, `alert` dialogs, element markup and CSS classes are view glue. The alert of the click handler is returned as a string.
- Clipboard auto-paste, the Enter-key shortcut, smooth scrolling and the scroll animations (lines 675-734) are browser APIs and UI.
- The preview button's handler (lines 652-666) runs the same gate as the download button. `Classifier.Submit` models that gate for both; what follows it (`previewOnly`) is left out with the preview overlay.
- `downloadMedia` checks `platform === 'instagram'` before fetching (line 380). The only platform `validateUrl` produces is Instagram, so the `null` response path is not modelled.
- Capitalize: `toUpperCase` is modelled for ASCII letters only. The platform name is always `instagram`.
- Non-array values of `urls` and `media` (a string, say) are not modelled. `MediaRecord.urls` is `Some` exactly when the property holds an array.
- `String(value)` for an object in an `href` is modelled only for an item object without a truthy `url`, which gives `"[object Object]"`. The resolver never builds such an item, so the page itself does not meet this case.
- MediaRecords.Item and Presentation.IncompletePlan: an array element that is `null` or `undefined` makes `item.url` throw inside the `forEach` (lines 290 and 491). The list then holds the preview-all button and the earlier pairs, with no "Download All" and no info block. Such elements are not modelled, so this second early stop is not captured. The resolver never builds one.
