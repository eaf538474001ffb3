# WhatsApp bot plugins: a Dafny model

This project models the logic of five plugins of a WhatsApp bot and proves properties of
that model. Each plugin is a handler that reacts to a chat message or to a delete notice.

- **Movie downloader** (`movie.dfy`, class `MoviePlugin.MovieBot`). This is a session
  machine driven by replies. The `movie` command scrapes a search page, sends a numbered
  listing and remembers the list in `pendingMovies`. A numeric reply picks a movie. The
  handler then drops that entry, fetches the movie's page, sends a quality menu and
  remembers the offer in `pendingQuality`. A second numeric reply picks a quality, drops
  that entry and sends the file as a document. If the link is a pixeldrain page, it is
  first rewritten to pixeldrain's direct download address.
- **Anti-delete** (`antidelete.dfy`, class `AntiDelete.Cache`). Every incoming message is
  cached by id, and its media file is saved under a name whose extension depends on the
  media type. When a delete notice arrives for a cached message, the handler sends the
  message back to its chat. Saved media is sent according to its extension. Otherwise the
  handler sends the message's text, found through a fixed priority chain.
- **All-in-one downloader** (`downloader.dfy`, module `Downloader`). It finds the platform
  from the link's host names, in a fixed order. It treats what the platform library
  returns as a list. For each item it takes the first usable download field, skips items
  that have none, and sends the rest as an image, a video or a document.
- **Group administration** (`group.dfy`, module `GroupAdmin`). It covers the bot id, the
  admin predicates over the participant list and how the target user is resolved. It also
  covers the guards of the kick, promote, demote, setpp, open and close commands, shared
  by all six, and the kick command's own check on whether the target is an admin.
- **YouTube audio and video** (`song.dfy`, module `Song`). It decides whether the input
  is a link or a search query, in the same way as the plugin's unanchored regular
  expression. It picks the first search result and fills in the defaults for title,
  quality, file name, thumbnail and shown URL.

Two modules are shared by all the plugins:

- `jstext.dfy` states the JavaScript string built-ins that the plugins use (`trim`,
  `includes`, `indexOf`, `split`, `replace`, `toString`, `parseInt`, case folding) over
  `seq<char>`.
- `transport.dfy` gives the outgoing messages. Each `sendMessage` or `reply` appends one
  `Event` to an ordered log.

Foreign calls are inputs of each handler. These are HTTP scraping, the downloader
libraries, the YouTube search, HTML entity decoding and the clock. A call that throws is
modelled by `None` or a `...Thrown` value. Where the source catches a failed send, the
model takes a bool or a count saying how many sends succeed.

## Model

| member | source | states |
|---|---|---|
| MoviePlugin.MovieBot.constructor | plugins/movie.js:5-6 | Both session maps start empty and nothing has been sent. |
| MoviePlugin.MovieBot.Search | plugins/movie.js:18-68 | An empty query gets the "provide a movie name" reply. A failed request gets the "something went wrong" reply, and so does a listing that could not be sent. No results gets "No movies found". None of these touches `pendingMovies`. After the listing image is sent, `pendingMovies[sender]` is exactly the scraped list in page order, overwriting any earlier entry. `pendingQuality` is never touched. |
| MoviePlugin.CollectMovies | plugins/movie.js:25-31 | The loop yields one movie per result row, in document order, with the title trimmed. |
| MoviePlugin.MoviesAt | plugins/movie.js:25-31 | The scraped list has the length of the rows, and its i-th movie comes from the i-th row. |
| MoviePlugin.SelectionReplyIff | plugins/movie.js:71 | A reply passes the filter exactly when its trimmed text is how some positive number is printed in decimal, which excludes leading zeros and signs. |
| MoviePlugin.SelectionNumber | plugins/movie.js:75 | `parseInt` of an accepted reply is at least 1. |
| MoviePlugin.MovieBot.SelectMovie | plugins/movie.js:71-139 | If n is greater than the list length, the handler reacts, replies "Invalid selection" and keeps both maps unchanged. Otherwise it removes only this sender's `pendingMovies` entry, before the fetch. It then sends what the fetched page leads to, and stores a `pendingQuality` entry only when the menu went out. |
| MoviePlugin.MovieBot.OfferQualities | plugins/movie.js:81-100 | A failed page fetch replies "Failed to fetch movie details". A page with no offered link replies "No download links found" and stores no session. |
| MoviePlugin.MovieBot.ShowMenu | plugins/movie.js:102-137 | The pixeldrain hint is followed by the quality menu image. Only after that image is sent is the sender's `pendingQuality` set to the movie, the offered qualities, the IMDb text and the year. If the hint send throws, only "Failed to fetch movie details" follows and no menu is sent. If the image send throws, the hint is followed by that reply. Neither failure stores anything. |
| MoviePlugin.MenuOutcomeSession | plugins/movie.js:90-133 | A quality session is opened exactly when the page was fetched, offers at least one link, and both the hint and the menu were delivered. It then holds the chosen movie and the non-empty offered list, which contains no Telegram server. |
| MoviePlugin.MenuOutcomeEvents | plugins/movie.js:100-137 | The selection sends one or two messages, all to the chat. It sends two exactly when there were links to offer and the hint went out, and its last message is the menu image exactly when the session opened. |
| MoviePlugin.CollectQualities | plugins/movie.js:90-98 | The loop keeps the link rows in order, minus those whose trimmed server name is "telegram" ignoring case. |
| MoviePlugin.OfferedMembers | plugins/movie.js:91-97 | A quality is offered exactly when some row that is not a Telegram server produced it. |
| MoviePlugin.OfferedNoTelegram | plugins/movie.js:93 | The offer is no longer than the rows and has no Telegram server. |
| MoviePlugin.MovieBot.SelectQuality | plugins/movie.js:142-193 | If n is out of range, the handler reacts, replies "Invalid selection" and keeps the entry. Otherwise, before the fetch, it removes only this sender's `pendingQuality` entry and sends the wait notice. Then a failed fetch replies "Failed to fetch or send movie", and so does a failed document send. A missing href replies "Failed to get download link". Otherwise it sends the document with the rewritten URL, the mp4 mime type, the file name `<title>-<quality>.mp4` and the download caption. The chosen quality is never a Telegram server, by the invariant `Valid` that every handler keeps. `pendingMovies` is never touched. |
| MoviePlugin.DownloadUrlShape | plugins/movie.js:157-163 | A link without `pixeldrain.com/u/` is kept as it is. A pixeldrain link becomes `https://pixeldrain.com/api/file/<id>?download`. Here `<id>` is the text right after the first `/u/`, up to the next `/u/` or the end: no `/u/` starts inside it. |
| MoviePlugin.PixeldrainHasSeparator | plugins/movie.js:160-161 | A link that passes the pixeldrain test contains `/u/`, so the split has a second part. |
| MoviePlugin.EmojiIndexDecode | plugins/movie.js:42 | Reading every third character of a position's label gives back the decimal digits of the number. |
| MoviePlugin.EmojiIndexInjective | plugins/movie.js:42 | Distinct numbers get distinct keycap labels. |
| MoviePlugin.KeycapsDecode | plugins/movie.js:42 | Each digit maps to a keycap emoji that starts with that digit. |
| MoviePlugin.NumberEmojiShape | plugins/movie.js:35 | The keycap for digit d is d, then VS16, then U+20E3. |
| MoviePlugin.Year | plugins/movie.js:86-87 | The year is "Unknown" exactly when the trimmed year text is empty. Otherwise it is the trimmed text with every non-digit removed, so it consists of digits only. |
| MoviePlugin.BuildListing | plugins/movie.js:37-48 | The listing built with `+=` is the header, one numbered line per movie in order, then the footer. |
| MoviePlugin.BuildQualityMenu | plugins/movie.js:104-116 | The menu built with `+=` is the header, one numbered line per offered quality in order, then the rule. |
| AntiDelete.Cache.constructor | plugins/antidelete.js:4-7 | Both caches start empty. |
| AntiDelete.Cache.OnMessage | plugins/antidelete.js:11-39 | A message with no content, or one sent by the bot, changes nothing. Otherwise `{key, message}` is stored under the id, overwriting any earlier entry. A media path is recorded only when a buffer and a truthy type are present and the write succeeded. No key ever disappears from either map. |
| AntiDelete.ExtensionShape | plugins/antidelete.js:19-28 | The extension has no `/` and is empty or starts with a dot. For any media type outside the table, it is `.bin`. |
| AntiDelete.CapturedKindRecovered | plugins/antidelete.js:19-23 | Image, video, audio and sticker media are saved as .jpg, .mp4, .ogg and .webp. They are therefore sent back as an image, a video, an audio plus a text, and a sticker plus a text. |
| AntiDelete.ExtNameShape | plugins/antidelete.js:25-26 | The document extension is a suffix of the file name, once trailing slashes are dropped. It has no `/`, and when it is not empty it has exactly one dot, at its start. |
| AntiDelete.BasenameShape | plugins/antidelete.js:26 | The base name is a suffix of the path with no `/` in it. |
| AntiDelete.BasenameAfterSlash | plugins/antidelete.js:26 | The base name starts right after the path's last `/`, or is the whole path when there is none. |
| AntiDelete.LastDot | plugins/antidelete.js:26 | Finds the last dot of a name: the result is a dot with no dot after it, and None means there is no dot. |
| AntiDelete.DropTrailingSlashes | plugins/antidelete.js:26 | Gives a prefix of the path that does not end in `/`. |
| AntiDelete.DroppedAreSlashes | plugins/antidelete.js:26 | Only slashes are dropped: every character after the kept prefix is `/`. |
| AntiDelete.Cache.OnDelete | plugins/antidelete.js:41-120 | What goes out is the planned recovery of each update, in order. An update whose sends throw part-way only loses its own later sends. Neither cache is changed. |
| AntiDelete.RecoverIff | plugins/antidelete.js:43-57 | An update sends something exactly when it has a key, counts as a delete, and its primary or fallback id is cached. Every message goes to the update's chat. |
| AntiDelete.Lookup | plugins/antidelete.js:51-53 | The primary id wins. The fallback id is used only when the primary id is not cached. A missing id is looked up as "undefined". |
| AntiDelete.Cache.ResendOne | plugins/antidelete.js:60-115 | The `try` block sends exactly the planned recovery of the cached message. |
| AntiDelete.RecoveryShape | plugins/antidelete.js:67-114 | A cached message is always answered with at least one message, all to the chat. |
| AntiDelete.MediaEventsShape | plugins/antidelete.js:69-86 | Saved media is sent as one or two messages, all to the chat. |
| AntiDelete.MediaKindByExtension | plugins/antidelete.js:70-81 | .jpg gives an image and .mp4 a video, each with the caption. .webp gives a sticker then a text, and .ogg gives an opus audio then a text. |
| AntiDelete.Cache.ExtractText | plugins/antidelete.js:88-108 | The loop's text is the priority chain of `TextOf`: conversation first, then the extended text, then the image, video and document captions, then the first value that has a text. |
| AntiDelete.FirstTextIff | plugins/antidelete.js:101-107 | The scan finds nothing exactly when no value has a text. Otherwise it returns the text of the first value that has one. |
| AntiDelete.TextOfNone | plugins/antidelete.js:88-108 | No text is recovered exactly when every step of the chain fails. |
| AntiDelete.TextOfNonEmpty | plugins/antidelete.js:110 | A recovered text is never empty, so it is always appended to the caption. |
| AntiDelete.Delivered | plugins/antidelete.js:116-118 | A throwing send cuts an update's messages to a prefix, and an update without failure sends everything. |
| AntiDelete.FailureIsolated | plugins/antidelete.js:116-118 | If one update's very first send throws, the other updates' messages are unchanged. |
| AntiDelete.SentAll | plugins/antidelete.js:42-119 | Without failures the batch sends the concatenation of the plans. |
| Downloader.DetectIsFirstMatch | plugins/downloader-all.js:15-26 | `detectPlatform` is the first rule in the fixed order whose substrings occur in the URL. |
| Downloader.FirstMatchSpec | plugins/downloader-all.js:15-25 | A rule list's answer is the earliest matching rule, and it is null exactly when no rule matches. |
| Downloader.LooseTwitterTest | plugins/downloader-all.js:20 | The `x.com` pattern is a substring test: "dropbox.com" is classified as Twitter. |
| Downloader.FirstTruthy | plugins/downloader-all.js:30-37 | The `\|\|` chain yields a non-empty value exactly when some field is truthy, and it is the first truthy one. |
| Downloader.ExtractUrlIsFirstTruthy | plugins/downloader-all.js:29-37 | `extractUrl` is the first truthy of `url`, `download`, `download_link`, `link`, `urls[0]`. |
| Downloader.NoDownloadWithoutPlatform | plugins/downloader-all.js:51-59 | With an empty query or an unsupported link, one reply is sent. Nothing depends on the library or on sends failing, so no download is tried. |
| Downloader.SuccessfulDownload | plugins/downloader-all.js:61-154 | A result that is not falsy gives "Platform detected", then the messages of every list item, then "Download complete". A result that is not an array is handled as a one-element list. |
| Downloader.Download | plugins/downloader-all.js:49-159 | The handler's loop sends exactly what `Replies` prescribes for the query, the library's answer and the point where a send throws. |
| Downloader.SendItem | plugins/downloader-all.js:101-151 | One item's sends are in the specified order. |
| Downloader.SkippedItem | plugins/downloader-all.js:104-107 | An item without a URL gives only the skip warning, and the items around it are still processed. |
| Downloader.ItemClassified | plugins/downloader-all.js:109-151 | A thumbnail image comes first when one exists. Then the item is an image if its type is "image" or its URL ends in jpg/png/jpeg/gif in any case. Failing that, it is a video for type "video" or mp4/mov/webm. Otherwise it is a document. Everything goes to the chat. |
| Downloader.ListEventsAppend | plugins/downloader-all.js:99-152 | Items are processed one after another: a list's sends are its parts' sends in order. |
| GroupAdmin.BotId | plugins/group.js:9 | The bot id is the user id's part before the first `:`, followed by `@s.whatsapp.net`. |
| GroupAdmin.UserAdminIff | plugins/group.js:11-17 | The sender is an admin exactly when the sender is the bot, or some participant with that id is "admin" or "superadmin". |
| GroupAdmin.BotAdminIff | plugins/group.js:19-23 | The bot is an admin exactly when it owns the group, or its participant entry is "admin" or "superadmin". |
| GroupAdmin.HasAdminIff | plugins/group.js:15-16 | `some` holds exactly when some participant matches. |
| GroupAdmin.TargetUserOrder | plugins/group.js:31-39 | The target is the first mention, else the quoted sender. Failing both, it is `args[0]` with its first `@` removed and `@s.whatsapp.net` appended, when `args[0]` contains an `@`. Otherwise there is none. |
| GroupAdmin.GroupCheckFirst | plugins/group.js:50 | Outside a group, every command only replies its group-only text, whatever the other inputs are. |
| GroupAdmin.ChangeNeedsAdmins | plugins/group.js:55-56 | A group change is requested only in a group where sender and bot are both admins. The two refusals come in this order and with each command's own text. |
| GroupAdmin.MissingTarget | plugins/group.js:58-59 | Kick, promote and demote reply "Mention or reply to a user." when there is no target. |
| GroupAdmin.MemberChangeTarget | plugins/group.js:58-68 | A participant change applies to the resolved target. A kick happens only when the target's entry has no truthy admin field. |
| GroupAdmin.AdminHasAnyRole | plugins/group.js:61-63 | Every real admin fails the kick check, so the check is at least as strict as the admin predicate. |
| GroupAdmin.AnyRoleIsLooser | plugins/group.js:61-63 | The kick check is looser than the admin predicate: a "member" role already blocks the kick. |
| GroupAdmin.ConfirmedOnlyOnSuccess | plugins/group.js:68-70 | A confirmation is sent exactly when the group change succeeded. A failed change sends nothing, because there is no catch. Every refusal is one reply. |
| Song.LinkIffHost | plugins/song.js:32-34 | The input is used as a URL exactly when `youtube.com/` or `youtu.be/` followed by some character that is not a line terminator occurs anywhere in it. |
| Song.IsLinkIff | plugins/song.js:32 | The regex scan matches exactly when the pattern occurs at some position. |
| Song.PatternHasHost | plugins/song.js:32 | A match of the full pattern, with its optional scheme and `www.`, contains the host part. |
| Song.FindFirstVideo | plugins/song.js:7-16 | The result is null exactly when there are no videos. Otherwise it is the first video's URL and its decoded title, with "Unknown Title" as the default. |
| Song.EmptyQueryNoLookup | plugins/song.js:29 | An empty query only gets the prompt, whatever search and conversion would answer. |
| Song.SearchOnlyForNonLinks | plugins/song.js:34-38 | A link is used as it is, without a search. Any other input resolves exactly when the search returns at least one video, and then it resolves to the first video's URL. |
| Song.SearchAnnounced | plugins/song.js:35 | For a non-empty query, the "searching" notice comes first exactly when the input is not a link. |
| Song.Resolved | plugins/song.js:36-42 | After resolution, the first message is a text and never the searching notice. |
| Song.ConversionOfResolvedUrl | plugins/song.js:42-44 | Once a URL is resolved, "found" is sent and conversion runs on that URL. |
| Song.MissingDownloadNoMedia | plugins/song.js:45-46 | A result without a download URL gets the failure reply and no audio or video. |
| Song.SuccessfulSend | plugins/song.js:48-80 | The preview image is sent when there is a thumbnail. Then comes the audio (mpeg) or the video with its caption, then "send successfully". |
| Song.FailedSend | plugins/song.js:81-83 | A send that throws ends the output with the error reply, after the sends that succeeded. |
| Song.Defaults | plugins/song.js:49-59 | The quality defaults to 128kbps for audio and 360p for video. The file name defaults to `<title>.mp3`. The shown URL falls back to the resolved URL. The thumbnail is `thumbnail`, then `image`. |
| JsText.TrimShape | plugins/movie.js:71 | `trim` removes exactly the leading and trailing runs of JavaScript white space. |
| JsText.TrimIdempotent | plugins/movie.js:71 | Trimming twice is trimming once. |
| JsText.IndexOf | plugins/movie.js:161 | `indexOf` finds the first occurrence at or after the start, and -1 means there is none. |
| JsText.IncludesIff | plugins/downloader-all.js:16 | `includes` and an unanchored literal regex hold exactly when the text occurs somewhere. |
| JsText.SplitHead | plugins/group.js:9 | `split(sep)[0]` is the text before the first separator, or the whole string. No separator starts inside it. |
| JsText.SplitSecond | plugins/movie.js:161 | `split(sep)[1]` is the text between the first separator and the next one, or the end: no separator starts inside it. |
| JsText.SplitSecondNoSeparator | plugins/movie.js:161 | That part contains no separator. |
| JsText.ReplaceFirst | plugins/group.js:37 | `replace` with a string replaces only the first occurrence. |
| JsText.ReplaceNewlines | plugins/movie.js:106 | A text without newlines is left unchanged. |
| JsText.ReplaceNewlinesAppend | plugins/movie.js:106 | The pieces of a text are replaced independently of each other. |
| JsText.ReplaceNewlinesChar | plugins/movie.js:106 | A line feed becomes the replacement and every other character stays. With the previous row, each line feed of the description is replaced in place. |
| JsText.KeepDigits | plugins/movie.js:87 | `replace(/\D/g, '')` leaves only digits, and leaves a string of digits unchanged. |
| JsText.KeepDigitsAppend | plugins/movie.js:87 | The digits of a text are the digits of its pieces, in order. |
| JsText.KeepDigitsChar | plugins/movie.js:87 | A digit is kept and any other character is removed. With the previous row, the year is exactly the digits of its text, in order. |
| JsText.DecimalStringRoundTrip | plugins/movie.js:42 | `toString` of a number is non-empty digits that parse back to it, with no leading zero when positive. |
| JsText.ParseDigitsRoundTrip | plugins/movie.js:75 | `parseInt` of a positive decimal, printed again, gives back the same text. |

## Left out

- HTTP and scraping (`axios.get`, the cheerio selectors), `ab-downloader`, `yt-search`,
  `@vreden/youtube_scraper` and `he.decode` are inputs. They are scraped rows and pages,
  the library's answer, functions from the query or URL to a reply, and a decode
  function. Parsing HTML and calling those libraries is not part of this model.
- `contextInfo` (the forwarded-newsletter decoration), `quoted: mek` and the chat keys
  used for reactions are not modelled. An event carries the recipient, the payload and
  the mentions.
- `new Date().toLocaleString()` in plugins/antidelete.js:64 is a `now` text input. The
  files that exist (`fs.existsSync`) are a set input, and the file write is a
  success flag. `path.join` is modelled as joining with `/`, without normalising `..` or
  repeated slashes.
- `cmd` registration and the router in `../command` are not part of this model. Nor is
  the automatic reaction from a command's `react` option. Handlers are called directly,
  and a filter is a precondition of its handler. So the model does not settle which
  handler runs when a sender has both a `pendingMovies` and a `pendingQuality` entry. The
  two maps are separate, and a sender can hold both.
- Concurrency: each handler is one atomic step. Unawaited `reply` calls are modelled as
  sends in program order: "Platform detected" at plugins/downloader-all.js:61, "searching"
  and "found" in plugins/song.js, and the catch replies at plugins/movie.js:137 and 191.
- `console.log` and `console.error` are ignored, so antidelete's catch (lines 116-118)
  only drops the rest of that update's sends.
- Send failures are modelled where the source has a catch that changes what is sent
  next. This covers the movie listing, Pixeldrain hint, menu and document sends (a flag each);
  antidelete's sends (a per-update count of successful sends); and the downloader and song
  loops (how many sends succeed before one throws). A throwing `reply` or reaction in
  places without a catch is not modelled.
- plugins/group.js does not parse as shown: `getGroupContext` is never closed, calls an
  undefined `reply` and returns nothing. The model applies the predicates it computes
  (bot id, `isUserAdmin`, `isBotAdmin`) to the group metadata, taken as an input. Each
  command then uses those values in place of what it destructures. `participants` for the
  kick check is the metadata's list.
- `groupParticipantsUpdate`, `updateProfilePicture` with `downloadMediaMessage`, and
  `groupSettingUpdate` become one requested `Change` and a `changeOk` flag. Nothing
  catches their failure, so a failed change sends no confirmation.
- `parseInt` on a reply is exact here. JavaScript loses precision past 2^53, but such a
  number is out of range of any list anyway.
- JavaScript strings are UTF-16, while here a string is a sequence of Unicode scalar
  values. Lengths and slicing of astral characters are therefore not UTF-16 code units.
  Case folding (`toLowerCase`, `toUpperCase`, the `/i` flag) is modelled for ASCII
  letters only. That is exact for the ASCII constants compared ("telegram", the file
  extensions), but not for `platform.toUpperCase()` of non-ASCII text, which never
  occurs.
- `Object.values` order is taken to be insertion order. JavaScript lists integer-like
  keys first, and message field names are never integer-like. Ids that coincide with
  `Object.prototype` members (for example "constructor") are not modelled.
- plugins/yts.js and config.js are not part of this model.
- Features of the general design that the code does not have are not modelled. These
  are a result cap of 10, quality normalisation, dedup and sorting, a session TTL sweep,
  a download size ceiling and temp-file cleanup. The model follows the code where it
  differs from that design:
  - an out-of-range selection keeps the session (plugins/movie.js:77, 147);
  - a failed menu send leaves no session of either kind;
  - the antidelete caches only grow;
  - antidelete's catch sends nothing to the user.
- AntiDelete.ExtNameShape: the shape of `path.extname` is proved as a whole (a suffix with
  its only dot at the front). Worked examples such as `"a.tar.gz"` giving `".gz"` are not proved.
- Downloader.Download: the throw is modelled on the planned list of sends. The last
  successful prefix is followed by the failure reply, and the loop's own state at the
  moment of the throw is not modelled.
