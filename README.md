# Downcoomer core logic in Dafny

Downcoomer is a SwiftUI client for a creator-content API. It lists creators and posts, shows a
post's media and bulk-downloads a creator's files. Nearly all of it is view layout. This
project models its three pieces of logic, with the network, the filesystem and the OS dialogs
turned into inputs:

- **Records and the API client** (`Logic2.swift`). The model covers the hand-written `Creator`
  decoder and the synthesized decoders of `Post`, `FileDetails` and `Attachment`. It also covers
  the endpoint URLs and the way `fetch` classifies a data task's outcome. JSON is an abstract
  value (`JsonValues.Json`). The decoding primitives mirror Foundation's `JSONDecoder`: a keyed
  container, `decode`, `decodeIfPresent`, `try?`, and arrays decoded element by element.
  Swift's `Int` is 64 bits wide: an integer outside that range does not decode as `Int`.
  `String(Int)` is modelled exactly (`Decimal`).
- **The bulk fetch and the download** (`ProfileDownloadView.swift`). The view's `@State`
  fields are a class, `ProfileDownloadView`, updated in place by `EditCreatorID`,
  `ChooseDirectory`, `FetchAllPosts`, `ReceiveValue` (the sink's value closure) and
  `ReceiveCompletion` (its completion closure). Each of these methods is proved equal to a
  pure step function of the old state, and the lemmas are stated over those functions.
  `DownloadPostMedia` returns the request that `PlanDownload` describes. `Run` applies a
  sequence of events. `Session` plays the fetch against a server that holds a creator's
  pages. The download is split in two: planning the request (`PlanDownload`) and the task's
  completion handler (`CompleteDownload`).
- **Media selection** (`PostDetailView.swift`). This covers the video condition, the image
  filter on attachment names, and the media URLs.

The model follows the code as written, including these behaviours:

- Optional `Post` fields are read with `decodeIfPresent`. A present value of the wrong type
  therefore fails the whole post, and one bad post fails the whole fetch. Only `Creator.name`
  is lenient.
- `ApiService.fetch` never looks at the HTTP status. Only the page fetch of the download view
  checks it, and it accepts exactly 200.
- `fetchCreatorPosts` sends no offset parameter.
- The paginator never advances. Its follow-up request re-enters the reset and asks for offset 0
  again (see Findings).
- The primary file is played as video whenever it has a name. Only the primary file is ever
  downloaded.
- There is no cancellation and no retry.
- The download's completion handler force-unwraps the file's name. A primary file with a path
  but no name decodes and a download is planned for it; once a download delivers a file, the
  handler traps (`Crashed`). With the URL as written that needs the host of
  `coomer.suOptional(…` to answer; with the intended media URL any successful download traps.
- The downloaded file is moved with `FileManager.moveItem`. A move error, including the one
  raised when the destination already exists, is caught and printed. Files are never
  overwritten.

## Model

| member | source | states |
|---|---|---|
| `Records.DecodeCreator` | Downcoomer/Logic2.swift:23-41 | decoding succeeds iff id and service are strings, updated is an in-range integer, and indexed is an in-range integer or a string. The result holds those values, indexed as its decimal text or verbatim, and name only when it is a string. The first bad field among id, service and updated is the one reported. A bad or missing indexed is always a type mismatch at path ["indexed"] |
| `Records.IndexedIntMatchesString` | Downcoomer/Logic2.swift:34-37 | an integer indexed n and the string holding the decimal text of n decode to the same Creator |
| `Records.IndexedIntsDistinct` | Downcoomer/Logic2.swift:34-35 | two integer indexed values give the same indexed text iff they are equal |
| `Records.NameIsLenient` | Downcoomer/Logic2.swift:31 | replacing name by any JSON value keeps a successful decode successful; name becomes that value only if it is a string, otherwise nil |
| `Records.DecodeFileDetails` | Downcoomer/Logic2.swift:58-61 | the primary file decodes iff it is an object whose name and path are each absent, null or a string; each becomes nil unless it is a string |
| `Records.DecodeAttachment` | Downcoomer/Logic2.swift:63-67 | an attachment decodes iff it is an object with string name and string path |
| `Records.DecodeAttachments` | Downcoomer/Logic2.swift:56 | the attachment array decodes iff every element has a string name and path; the result has one attachment per element, in order |
| `Records.DecodeEmbed` | Downcoomer/Logic2.swift:50 | embed decodes iff it is an object whose every value is a string; the result has the same keys, each mapped to its string |
| `Records.DecodePost` | Downcoomer/Logic2.swift:44-68 | a post decodes iff every optional key is absent, null or of its type (strings; the embed, file and attachments shapes above). Each string property (id, user, service, title, content, sharedFile, added, published, edited) is the string found or nil. embed is present iff its key holds an object, with the same keys and strings. file is present iff its key holds an object, with its name and path. attachments is present iff its key holds an array, with one attachment per element, in order, holding that element's name and path |
| `JsonValues.KeyedContainer` | Downcoomer/Logic2.swift:24 | a keyed container is obtained iff the value is an object, and it is that object's fields |
| `JsonValues.StringValue` | Downcoomer/Logic2.swift:26 | a String decodes iff the value is a string, giving that string; null is a value-not-found error |
| `JsonValues.ArrayValue` | Downcoomer/Logic2.swift:162 | `[T]` decodes iff the value is an array whose every element decodes; the result holds each element's value, in order |
| `JsonValues.IntValue` | Downcoomer/Logic2.swift:28 | an Int decodes iff the value is an integral number within 64-bit range |
| `JsonValues.Decode` | Downcoomer/Logic2.swift:26-28 | a required key decodes iff it is present and its value decodes; a missing key is a key-not-found error at that key |
| `JsonValues.DecodeIfPresent` | Downcoomer/Logic2.swift:44-56 | an optional key gives nil iff it is absent or null; any other value must decode |
| `JsonValues.Try` | Downcoomer/Logic2.swift:31 | `try?` gives a value iff decoding succeeds |
| `JsonValues.DecodeElements` | Downcoomer/Logic2.swift:162 | an array decodes iff every element decodes, giving each element's value in order; otherwise the error is that of the first failing element |
| `JsonValues.DecodeBody` | Downcoomer/Logic2.swift:161-162 | the body decodes iff it is valid JSON holding an array whose elements decode; the result holds each element's value, in order. Malformed bytes are corrupted data |
| `Decimal.NatToString` | Downcoomer/Logic2.swift:35 | the decimal text is non-empty, all digits, and starts with '0' only for zero |
| `Decimal.IntToString` | Downcoomer/Logic2.swift:35 | the text starts with '-' iff the number is negative, and holds no '?' or '/' |
| `Decimal.ParseNatToString` | Downcoomer/Logic2.swift:35 | reading the digits of n back gives n |
| `Decimal.IntToStringRoundTrip` | Downcoomer/Logic2.swift:35 | reading the decimal text of any integer back gives that integer |
| `Decimal.IntToStringInjective` | Downcoomer/Logic2.swift:35 | two integers have the same decimal text iff they are equal |
| `ApiService.CreatorsURL` | Downcoomer/Logic2.swift:123-129 | the creators URL starts with the base URL and carries no query |
| `ApiService.RecentPostsURL` | Downcoomer/Logic2.swift:132-134 | the recent-posts URL starts with the base URL and carries no query |
| `ApiService.CreatorPostsURL` | Downcoomer/Logic2.swift:137-139 | the creator-posts URL starts with the base URL and has a '?' only if the service or creator ID brings one: no offset is sent |
| `ApiService.CreatorPostsURLInjective` | Downcoomer/Logic2.swift:138 | for service names without '/', the URL determines both service and creator ID |
| `ApiService.EndpointsDistinct` | Downcoomer/Logic2.swift:127-139 | the creators, recent-posts and creator-posts URLs are pairwise distinct for every service and creator ID |
| `ApiService.Fetch` | Downcoomer/Logic2.swift:143-169 | a transport error gives failure with that error. Otherwise missing data gives the "No data" failure. Otherwise the result is success iff the whole array decodes, with the decoded values, and a decoding failure carries the decoder's own error |
| `ApiService.FetchIgnoresStatus` | Downcoomer/Logic2.swift:144-167 | the classification is the same whatever the HTTP status |
| `ApiService.OneBadAttachmentFailsFetch` | Downcoomer/Logic2.swift:162 | one post with an attachment lacking a string name or path fails the whole fetch, even with status 200 |
| `ProfileDownload.PageURL` | Downcoomer/ProfileDownloadView.swift:94 | the page URL is the fixed endpoint, then the creator ID verbatim, then "?o=" and the offset's decimal text |
| `ProfileDownload.PageURLInjective` | Downcoomer/ProfileDownloadView.swift:94 | for creator IDs without '?', the URL determines both creator ID and offset |
| `ProfileDownload.FetchPostsOutcome` | Downcoomer/ProfileDownloadView.swift:93-107 | a transport failure propagates, and any status other than exactly 200 (or a non-HTTP response) is a bad server response. Otherwise the result is success iff the posts decode, with the decoded posts, and a decoding failure carries the decoder's own error |
| `ProfileDownload.FetchAllPostsStep` | Downcoomer/ProfileDownloadView.swift:70-77 | an empty creator ID changes nothing and requests nothing. Otherwise loading starts, the message is cleared, offset is 0, posts are emptied, and offset 0 is requested for that creator, at the page URL of that creator and offset 0 |
| `ProfileDownload.ReceiveValueStep` | Downcoomer/ProfileDownloadView.swift:83-88 | a page of any size other than 50 is appended in order and ends the chain. A page of exactly 50 re-enters the fetch: a request for offset 0 with posts emptied and offset 0. If the creator ID was cleared meanwhile, the page stays appended, offset grows by 50, and nothing is requested. The creator ID and the selected directory are always kept |
| `ProfileDownload.ReceiveCompletionStep` | Downcoomer/ProfileDownloadView.swift:78-82 | loading stops on every completion; a failure sets the message; posts, offset and creator are kept |
| `ProfileDownload.EditCreatorIDStep` | Downcoomer/ProfileDownloadView.swift:26 | typing sets the creator ID and leaves every other field as it was |
| `ProfileDownload.ChooseDirectoryStep` | Downcoomer/ProfileDownloadView.swift:159-163 | OK selects the chosen directory and changes nothing else; a cancelled panel changes nothing |
| `ProfileDownload.Apply` | Downcoomer/ProfileDownloadView.swift:70-91 | every request any event issues is for offset 0 and a non-empty creator ID |
| `ProfileDownload.Run` | Downcoomer/ProfileDownloadView.swift:26-91 | playing a sequence of events issues at most one page request per event |
| `ProfileDownload.RunConcat` | Downcoomer/ProfileDownloadView.swift:26-91 | playing two sequences of events one after the other gives the same final state and requests as playing their concatenation |
| `ProfileDownload.EveryRequestIsForOffsetZero` | Downcoomer/ProfileDownloadView.swift:74-87 | over any sequence of events, every page request issued is for offset 0 and a non-empty creator ID |
| `ProfileDownload.OffsetStaysPageAligned` | Downcoomer/ProfileDownloadView.swift:74-86 | over any sequence of events, the offset stays a multiple of 50 |
| `ProfileDownload.Session` | Downcoomer/ProfileDownloadView.swift:70-107 | answering pending requests with the server's pages keeps the creator ID; after at least one round loading is off, and any request still pending is again for offset 0 and the same creator |
| `ProfileDownload.AsWrittenNeverAdvances` | Downcoomer/ProfileDownloadView.swift:70-91 | with a full first page, every round re-requests offset 0 and ends with an empty post list and loading off, however many rounds pass |
| `ProfileDownload.AsWrittenShortFirstPage` | Downcoomer/ProfileDownloadView.swift:77-88 | with a short first page, one round shows exactly that page, with loading off and nothing more requested |
| `ProfileDownload.IntendedPaginate` | Downcoomer/ProfileDownloadView.swift:84-87 | the intended paginator (not the code as written): the first request is at offset 50·k, and it requests at most one page per answer |
| `ProfileDownload.IntendedCollectsAllPages` | Downcoomer/ProfileDownloadView.swift:84-87 | the intended paginator, given full pages then one short page, collects every post in order, requests offsets 0, 50, 100, … and ends exhausted |
| `ProfileDownload.IntendedKeepsPostsBeforeFailure` | Downcoomer/ProfileDownloadView.swift:79-84 | the intended paginator stops at a failed page with that error, keeping the posts of the full pages before it |
| `ProfileDownload.IntendedFourPages` | Downcoomer/ProfileDownloadView.swift:84-87 | the intended paginator, given pages of 50, 50, 50 and 13 posts, collects 163 posts from offsets 0, 50, 100, 150 |
| `ProfileDownload.PlanDownload` | Downcoomer/ProfileDownloadView.swift:109-112 | a download starts iff the post has a file and a directory is selected. It is for that file and directory, and its URL text starts with "https://coomer.su" (the host part is not coomer.su itself, see `AsWrittenSourceIsNotMediaURL`) |
| `ProfileDownload.InterpolatedOptional` | Downcoomer/ProfileDownloadView.swift:112 | interpolating a nil optional gives "nil"; a present string s gives `Optional("` + s + `")`, from which s can be read back |
| `ProfileDownload.InterpolatedOptionalInjective` | Downcoomer/ProfileDownloadView.swift:112 | two optionals have the same interpolated text iff they are equal |
| `ProfileDownload.AsWrittenSourceIsNotMediaURL` | Downcoomer/ProfileDownloadView.swift:112 | as written, the URL fetched is the media host followed by `Optional("` + path + `")`, never the media URL of the path |
| `ProfileDownload.AsWrittenNilPathSource` | Downcoomer/ProfileDownloadView.swift:112 | as written, a file without a path is fetched from "https://coomer.sunil" |
| `ProfileDownload.PlanDownloadIntended` | Downcoomer/ProfileDownloadView.swift:110-112 | intended: a file with a path in a selected directory is fetched from the media host followed by that path |
| `ProfileDownload.CompleteDownload` | Downcoomer/ProfileDownloadView.swift:114-127 | without a downloaded file nothing happens. Otherwise a nil file name traps at its force unwrap; a named file's destination is the directory with the name appended, and a move error is caught as an outcome, never propagated |
| `ProfileDownload.NamelessFileCrashes` | Downcoomer/ProfileDownloadView.swift:110-120 | a primary file with a path and no name decodes and a download is planned for it, as written and as intended; if the download delivers a file, the completion handler traps on the nil name |
| `ProfileDownload.AttachmentsNeverDownloaded` | Downcoomer/ProfileDownloadView.swift:109-112 | the download plan does not depend on the post's attachments |
| `ProfileDownload.ProfileDownloadView.constructor` | Downcoomer/ProfileDownloadView.swift:15-21 | the view starts with an empty creator ID, no posts, not loading, no message, offset 0, no directory |
| `ProfileDownload.ProfileDownloadView.EditCreatorID` | Downcoomer/ProfileDownloadView.swift:26 | the fields become those of `EditCreatorIDStep`: only the creator ID changes |
| `ProfileDownload.ProfileDownloadView.ChooseDirectory` | Downcoomer/ProfileDownloadView.swift:159-163 | the fields become those of `ChooseDirectoryStep`: a chosen directory becomes the selection, a cancelled panel changes nothing |
| `ProfileDownload.ProfileDownloadView.FetchAllPosts` | Downcoomer/ProfileDownloadView.swift:70-77 | the fields and the request issued are those of `FetchAllPostsStep`; any request is for offset 0 |
| `ProfileDownload.ProfileDownloadView.ReceiveValue` | Downcoomer/ProfileDownloadView.swift:83-88 | the fields and the request issued are those of `ReceiveValueStep`, re-entering `FetchAllPosts` after a full page |
| `ProfileDownload.ProfileDownloadView.ReceiveCompletion` | Downcoomer/ProfileDownloadView.swift:78-82 | the fields become those of `ReceiveCompletionStep` |
| `ProfileDownload.ProfileDownloadView.DownloadPostMedia` | Downcoomer/ProfileDownloadView.swift:109-112 | a download request is made iff the post has a file and a directory is selected, and it is the request `PlanDownload` describes |
| `PostDetail.HasSuffixIffAppended` | Downcoomer/PostDetailView.swift:34 | a string has a suffix iff it is some string followed by that suffix |
| `PostDetail.HasSuffix` | Downcoomer/PostDetailView.swift:34 | the case-sensitive suffix test on characters, characterized by `HasSuffixIffAppended` |
| `PostDetail.OptionalHasSuffix` | Downcoomer/PostDetailView.swift:27 | the optional suffix test is nil iff the name is nil, and otherwise it is the case-sensitive suffix test |
| `PostDetail.ShowsVideo` | Downcoomer/PostDetailView.swift:27 | the video player is shown iff the post has a file whose name is non-nil, whatever its extension |
| `PostDetail.AnyNamedFileIsVideo` | Downcoomer/PostDetailView.swift:27 | a named file is played as video even when its name fails the ".mp4" test |
| `PostDetail.MediaURL` | Downcoomer/PostDetailView.swift:35 | a media URL is the host "https://coomer.su" followed by the path verbatim |
| `PostDetail.IsImageName` | Downcoomer/PostDetailView.swift:34 | an attachment name is an image name iff it ends in ".jpg" or ".png" |
| `PostDetail.IsImageNameIffExtension` | Downcoomer/PostDetailView.swift:34 | an image name is exactly some text followed by ".jpg" or by ".png" |
| `PostDetail.ImageSuffixIsCaseSensitive` | Downcoomer/PostDetailView.swift:34 | ".jpg" and ".png" names are images; ".JPG", ".jpeg" and ".gif" names are not |
| `PostDetail.SelectImages` | Downcoomer/PostDetailView.swift:32-34 | the images shown are exactly the attachments whose name ends in ".jpg" or ".png", never more than there are attachments |
| `PostDetail.SelectImagesConcat` | Downcoomer/PostDetailView.swift:33-34 | selection distributes over concatenation, so attachments keep their relative order |
| `PostDetail.SelectImagesKeepsAll` | Downcoomer/PostDetailView.swift:34 | selection keeps every attachment iff every attachment is an image |
| `PostDetail.ImageURLs` | Downcoomer/PostDetailView.swift:32-38 | a nil attachment list shows no images. Otherwise the i-th URL is the media URL of the i-th selected image |
| `PostDetail.DetailView` | Downcoomer/PostDetailView.swift:15-41 | given a title (force-unwrapped) and, when a video is shown, a path (force-unwrapped), the screen shows the title and the content only when present. It shows a video iff the file is named, at the media URL of its path, and its image URLs are exactly `ImageURLs` of the attachments: the media URLs of the selected images, in order |

## Left out

- URLSession, Combine publishers, `cancellables` and the hops to the main queue are left out. Each response is an input or an event, and the model is sequential.
- Parsing bytes into JSON is not modelled: a body is parsed JSON or malformed. A non-integral number is one abstract value.
- The `print` calls, `DateFormatter` extensions and `AVAsset.videoSize` are left out. So are `Comment`, `PostDetail`, `ApiResponse` and the top-level `Attachment`, which are unused by this core.
- The view layouts, previews, navigation and the other screens are declarative UI.
- `NSOpenPanel` is an OS dialog; its answer is the input of `ChooseDirectory`.
- `FileManager.moveItem` is not modelled: the move's error, if any, is an input of `CompleteDownload`.
- The attachment `id` (a fresh `UUID`) is left out, because it is random.
- `URL(string:)` and its force unwrap are left out: the model stops at the URL text, and whether Foundation accepts that text is not modelled.
- The localized error text is an input: `localizedDescription` belongs to Foundation.
- The force unwraps of `post.title` and `post.service` in the list layout of the download view are left out, because they are layout.
- `JsonValues.DecodeElements`: the array index that Swift adds to a coding path is not recorded, because the key path alone identifies the field.
- `Records.DecodeEmbed`: a non-string value inside embed is reported as a type mismatch at the embed key. Swift reports the inner key, and a null value as not found. Which error is raised first depends on dictionary order.
- `ProfileDownload.PlanDownload`: Swift escapes quotes, backslashes and control characters inside the debug text of the interpolated path. The model writes the path verbatim.
- `PostDetail.HasSuffix`: Swift compares grapheme clusters and the model compares Unicode scalars. They differ only when a scalar next to the suffix's first character combines with it.
- `ProfileDownload.CompleteDownload`: the file name is appended as one path component. `appendingPathComponent` splits a name holding '/' into several components, and the model does not.
- `ProfileDownload.PageURL`: the creator ID is inserted verbatim. Percent-encoding by `URL(string:)` is not modelled.

## Findings

| source | as written | input that shows it | evidently intended | confidence | as-written member | corrected member |
|---|---|---|---|---|---|---|
| Downcoomer/ProfileDownloadView.swift:112 | the download URL interpolates the optional `file.path` itself, which yields its debug text | file path "/d/a.mp4" gives "https://coomer.suOptional(\"/d/a.mp4\")"; a nil path gives "https://coomer.sunil" (`AsWrittenNilPathSource`) | "https://coomer.su/d/a.mp4", the media host followed by the path | high; not executed | `ProfileDownload.AsWrittenSourceIsNotMediaURL` | `ProfileDownload.PlanDownloadIntended` |
| Downcoomer/ProfileDownloadView.swift:86-87 | after a full page the offset is advanced, but re-entering `fetchAllPosts` resets it to 0 and empties the posts | a creator whose pages hold 50 then 13 posts: offset 0 is requested forever, and the list stays empty with loading off | request offsets 0, 50, … and accumulate pages until a short one (63 posts here) | high; not executed | `ProfileDownload.AsWrittenNeverAdvances` | `ProfileDownload.IntendedCollectsAllPages` |
