/** The YouTube audio and video commands of plugins/song.js: the query is taken as a link
    when it looks like one, otherwise the first search result is used; the converter's
    answer is then sent back with a preview and a caption built from default chains. */
module Song {
  import opened Common
  import opened JsText
  import opened Transport

  /* ---------------- ytRegex ---------------- */

  /** `(youtube\.com|youtu\.be)\/.+` at position `j`: a host, a slash and at least one
      character that `.` accepts, that is, not a line terminator. */
  predicate HostAt(s: string, j: nat)
  {
    (OccursAt(s, "youtube.com/", j) && j + 12 < |s| && !IsLineTerminator(s[j + 12]))
    || (OccursAt(s, "youtu.be/", j) && j + 9 < |s| && !IsLineTerminator(s[j + 9]))
  }

  /** `(www\.)?` followed by the host part, at position `j`. */
  predicate WwwAt(s: string, j: nat)
  {
    HostAt(s, j) || (OccursAt(s, "www.", j) && HostAt(s, j + 4))
  }

  /** The whole pattern `(https?:\/\/)?(www\.)?(youtube\.com|youtu\.be)\/.+` matching at
      position `i`, with every choice of the optional groups. */
  predicate PatternAt(s: string, i: nat)
  {
    WwwAt(s, i) || (OccursAt(s, "http://", i) && WwwAt(s, i + 7))
    || (OccursAt(s, "https://", i) && WwwAt(s, i + 8))
  }

  /** `ytRegex.test(s)`: the pattern has no anchors, so every start position is tried. */
  function IsLink(s: string, from: nat): bool
    decreases |s| - from
  {
    if from > |s| then false else PatternAt(s, from) || IsLink(s, from + 1)
  }

  lemma {:induction false} IsLinkIff(s: string, from: nat)
    decreases |s| - from
    ensures IsLink(s, from) <==> exists i: nat :: from <= i <= |s| && PatternAt(s, i)
  {
    if from <= |s| {
      IsLinkIff(s, from + 1);
      if PatternAt(s, from) {
        assert from <= from <= |s|;
      } else if IsLink(s, from + 1) {
        var i: nat :| from + 1 <= i <= |s| && PatternAt(s, i);
      } else {
        forall i: nat | from <= i <= |s|
          ensures !PatternAt(s, i)
        {
          if i > from {
            assert from + 1 <= i;
          }
        }
      }
    }
  }

  /** A match found with optional prefixes contains a match of the host part alone. */
  lemma PatternHasHost(s: string, i: nat)
    requires PatternAt(s, i)
    ensures exists j: nat :: HostAt(s, j)
  {
    if HostAt(s, i) {
    } else if OccursAt(s, "www.", i) && HostAt(s, i + 4) {
    } else if OccursAt(s, "http://", i) && WwwAt(s, i + 7) {
      if !HostAt(s, i + 7) {
        assert HostAt(s, i + 11);
      }
    } else {
      if !HostAt(s, i + 8) {
        assert HostAt(s, i + 12);
      }
    }
  }

  /** Because the scheme and `www.` groups are optional and nothing anchors the pattern,
      a query counts as a link exactly when `youtube.com/` or `youtu.be/` occurs in it
      followed by one more character other than a line terminator; a query like
      `see youtube.com/x` or `myyoutu.be/y` is a link, and a bare `youtube.com/` is not. */
  lemma LinkIffHost(s: string)
    ensures IsLink(s, 0) <==> exists j: nat :: HostAt(s, j)
  {
    IsLinkIff(s, 0);
    if IsLink(s, 0) {
      var i: nat :| i <= |s| && PatternAt(s, i);
      PatternHasHost(s, i);
    }
    if exists j: nat :: HostAt(s, j) {
      var j: nat :| HostAt(s, j);
      assert PatternAt(s, j);
    }
  }

  /* ---------------- findFirstVideo ---------------- */

  /** One search hit of `yt-search` (a missing title is `None`). */
  datatype Hit = Hit(title: Option<string>, url: string)

  /** What `findFirstVideo` returns. */
  datatype Found = Found(title: string, url: string)

  const UnknownTitle := "Unknown Title"

  /** `findFirstVideo`: no hit gives nothing; otherwise the first hit's URL and its title,
      `"Unknown Title"` when it has none; `decode` is the HTML-entity decoding of the `he`
      library. */
  function FindFirstVideo(videos: seq<Hit>, decode: string -> string): (r: Option<Found>)
    ensures r.None? <==> videos == []
    ensures r.Some? ==> r.value.url == videos[0].url
    ensures r.Some? ==>
      r.value.title == decode(if Truthy(videos[0].title) then videos[0].title.value
                              else UnknownTitle)
  {
    if |videos| == 0 then None
    else
      var first := videos[0];
      Some(Found(decode(if Truthy(first.title) then first.title.value else UnknownTitle),
                 first.url))
  }

  /* ---------------- ytmp3 and ytmp4 ---------------- */

  /** What the search library answers: it throws, or returns its hits. */
  datatype SearchReply = SearchThrown | SearchHits(videos: seq<Hit>)

  datatype Metadata = Metadata(title: Option<string>, thumbnail: Option<string>,
                               image: Option<string>, url: Option<string>)

  datatype Download = Download(url: Option<string>, quality: Option<string>,
                               filename: Option<string>)

  /** What the converter answers: it throws, or returns a result whose parts may be
      missing. */
  datatype Conversion = ConversionThrown | Converted(metadata: Option<Metadata>,
                                                     download: Option<Download>)

  datatype Kind = Mp3 | Mp4

  function PromptText(k: Kind): string
  {
    if k.Mp3? then "*🎵 Give song name or the link*" else "*🎥 Send video name or link*"
  }

  function SearchingText(k: Kind): string
  {
    if k.Mp3? then "🔎 *searching youtube*" else "🔎 *seaching youtube*"
  }

  const NoResultsText := "❌ *No results found on YouTube!*"

  function FoundText(k: Kind): string
  {
    if k.Mp3? then "🎶 *found*" else "🎬 *found*"
  }

  function NoLinkText(k: Kind): string
  {
    if k.Mp3? then "❌ *Failed to get MP3 link. Try again later!*" else "❌ *Failed to get MP4 link. Try again later!*"
  }

  function DoneText(k: Kind): string
  {
    if k.Mp3? then "✅ *send successfully*" else "✅ *Send successfully*"
  }

  function ErrorText(k: Kind): string
  {
    if k.Mp3? then "❌ *Error while processing your audio request.*" else "❌ *Error while processing your video request.*"
  }

  /** `download.quality || "128kbps"` or `|| "360p"`. */
  function Quality(k: Kind, d: Download): string
  {
    if Truthy(d.quality) then d.quality.value else if k.Mp3? then "128kbps" else "360p"
  }

  /** `metadata?.title || "Unknown Title"`, decoded. */
  function Title(m: Option<Metadata>, decode: string -> string): string
  {
    decode(if m.Some? && Truthy(m.value.title) then m.value.title.value else UnknownTitle)
  }

  /** `metadata?.thumbnail || metadata?.image || null`. */
  function Thumb(m: Option<Metadata>): Option<string>
  {
    if m.None? then None
    else if Truthy(m.value.thumbnail) then m.value.thumbnail
    else if Truthy(m.value.image) then m.value.image
    else None
  }

  /** `metadata?.url || videoUrl`. */
  function ShownUrl(m: Option<Metadata>, videoUrl: string): string
  {
    if m.Some? && Truthy(m.value.url) then m.value.url.value else videoUrl
  }

  /** The preview caption. */
  function Description(k: Kind, title: string, quality: string, url: string): string
  {
    "\n" + (if k.Mp3? then "🎵 *AUDIO DOWNLOADER*" else "🎬 *VIDEO DOWNLOADER*") + "\n"
    + (if k.Mp3? then "🎧 *Title:* " else "🎬 *Title:* ") + title + "\n"
    + (if k.Mp3? then "📊 *Quality:* " else "📊 *Quality:* ") + quality + "\n"
    + (if k.Mp3? then "🔗 *URL:* " else "🔗 *URL:* ") + url + "\n"
  }

  /** `download.filename || `${title}.mp3``. */
  function FileName(d: Download, title: string): string
  {
    if Truthy(d.filename) then d.filename.value else title + ".mp3"
  }

  /** The media message itself: audio with its file name, or video with a caption. */
  function MediaEvent(k: Kind, from: string, fileUrl: string, d: Download, title: string)
    : Event
  {
    if k.Mp3? then Audio(from, fileUrl, Some("audio/mpeg"), Some(FileName(d, title)))
    else Video(from, fileUrl, "🎬 *" + title + "* (" + Quality(k, d) + ")", [])
  }

  /** The URL handed to the converter: the query itself when it is a link, else the first
      search hit's URL; `None` when the search throws or finds nothing. */
  function VideoUrl(query: string, search: string -> SearchReply, decode: string -> string)
    : Option<string>
  {
    if IsLink(query, 0) then Some(query)
    else match search(query)
      case SearchThrown => None
      case SearchHits(videos) =>
        var first := FindFirstVideo(videos, decode);
        if first.None? then None else Some(first.value.url)
  }

  /** What the command sends, in order, for the text `q` after the command word.
      `search` and `convert` stand for the two libraries; when `accepted` is `Some(k)`,
      only the first `k` media sends succeed and the next one throws. */
  function Replies(k: Kind, from: string, q: string, search: string -> SearchReply,
                   convert: string -> Conversion, decode: string -> string,
                   accepted: Option<nat>): seq<Event>
  {
    if q == "" then [Reply(from, PromptText(k))]
    else
      var query := Trim(q);
      (if IsLink(query, 0) then [] else [Reply(from, SearchingText(k))])
      + Resolved(k, from, query, search, convert, decode, accepted)
  }

  /** What follows the search announcement: the search's failure, or the notice that a
      video was found followed by what the conversion gives. */
  function Resolved(k: Kind, from: string, query: string, search: string -> SearchReply,
                    convert: string -> Conversion, decode: string -> string,
                    accepted: Option<nat>): (r: seq<Event>)
    ensures r != [] && r[0].Text? && r[0] != Reply(from, SearchingText(k))
  {
    if !IsLink(query, 0) && search(query).SearchThrown? then [Reply(from, ErrorText(k))]
    else if VideoUrl(query, search, decode).None? then [Reply(from, NoResultsText)]
    else
      var videoUrl := VideoUrl(query, search, decode).value;
      [Reply(from, FoundText(k))] + Sends(k, from, videoUrl, convert(videoUrl), decode, accepted)
  }

  /** What is sent for the converter's answer about `videoUrl`. */
  function Sends(k: Kind, from: string, videoUrl: string, c: Conversion,
                 decode: string -> string, accepted: Option<nat>): seq<Event>
  {
    match c
    case ConversionThrown => [Reply(from, ErrorText(k))]
    case Converted(metadata, download) =>
      if download.None? || !Truthy(download.value.url) then [Reply(from, NoLinkText(k))]
      else
        var d := download.value;
        var title := Title(metadata, decode);
        var desc := Description(k, title, Quality(k, d), ShownUrl(metadata, videoUrl));
        var thumb := Thumb(metadata);
        var planned := (if thumb.Some? then [Image(from, thumb, desc, [])] else [])
                       + [MediaEvent(k, from, d.url.value, d, title)];
        if accepted.Some? && accepted.value < |planned| then
          planned[..accepted.value] + [Reply(from, ErrorText(k))]
        else planned + [Reply(from, DoneText(k))]
  }

  /** An empty query is answered with the prompt alone: no search, no conversion. */
  lemma EmptyQueryNoLookup(k: Kind, from: string, s1: string -> SearchReply,
                           s2: string -> SearchReply, c1: string -> Conversion,
                           c2: string -> Conversion, decode: string -> string,
                           a1: Option<nat>, a2: Option<nat>)
    ensures Replies(k, from, "", s1, c1, decode, a1) == Replies(k, from, "", s2, c2, decode, a2)
                                                      == [Reply(from, PromptText(k))]
  {
  }

  /** A link is converted as it stands and never searched for; any other query is
      searched for, announced first, and its first hit's URL is converted. */
  lemma SearchOnlyForNonLinks(q: string, s1: string -> SearchReply, s2: string -> SearchReply,
                              decode: string -> string)
    ensures IsLink(Trim(q), 0) ==> VideoUrl(Trim(q), s1, decode) == VideoUrl(Trim(q), s2, decode) == Some(Trim(q))
    ensures !IsLink(Trim(q), 0) ==>
      (VideoUrl(Trim(q), s1, decode).Some? <==>
         s1(Trim(q)).SearchHits? && s1(Trim(q)).videos != [])
      && (VideoUrl(Trim(q), s1, decode).Some? ==> VideoUrl(Trim(q), s1, decode).value == s1(Trim(q)).videos[0].url)
  {
  }

  /** An announced search precedes everything else; a link is not announced. */
  lemma SearchAnnounced(k: Kind, from: string, q: string, search: string -> SearchReply,
                        convert: string -> Conversion, decode: string -> string,
                        accepted: Option<nat>)
    requires q != ""
    ensures var e := Replies(k, from, q, search, convert, decode, accepted);
      && |e| >= 2
      && (e[0] == Reply(from, SearchingText(k)) <==> !IsLink(Trim(q), 0))
  {
  }

  /** Once a video URL is known, the found notice is sent, then what the conversion of
      that URL gives. */
  lemma ConversionOfResolvedUrl(k: Kind, from: string, query: string,
                                search: string -> SearchReply, convert: string -> Conversion,
                                decode: string -> string, accepted: Option<nat>)
    requires VideoUrl(query, search, decode).Some?
    ensures var videoUrl := VideoUrl(query, search, decode).value;
      Resolved(k, from, query, search, convert, decode, accepted)
        == [Reply(from, FoundText(k))] + Sends(k, from, videoUrl, convert(videoUrl), decode, accepted)
  {
  }

  /** A converter answer without `download.url` gets the failure notice and no image,
      audio or video. */
  lemma MissingDownloadNoMedia(k: Kind, from: string, videoUrl: string, c: Conversion,
                               decode: string -> string, accepted: Option<nat>)
    requires c.Converted? && (c.download.None? || !Truthy(c.download.value.url))
    ensures Sends(k, from, videoUrl, c, decode, accepted) == [Reply(from, NoLinkText(k))]
  {
  }

  /** When the converter answers with a link and every send succeeds: the preview comes
      exactly when there is a thumbnail, then the media (audio named by `FileName`, video
      captioned with the title and quality), then the success notice; the URL shown is the
      metadata's URL, else the URL that was converted. */
  lemma SuccessfulSend(k: Kind, from: string, videoUrl: string, c: Conversion,
                       decode: string -> string)
    requires c.Converted? && c.download.Some? && Truthy(c.download.value.url)
    ensures var d, title := c.download.value, Title(c.metadata, decode);
      var media := MediaEvent(k, from, d.url.value, d, title);
      var preview := Image(from, Thumb(c.metadata),
                           Description(k, title, Quality(k, d), ShownUrl(c.metadata, videoUrl)), []);
      Sends(k, from, videoUrl, c, decode, None)
        == (if Thumb(c.metadata).Some? then [preview, media] else [media])
           + [Reply(from, DoneText(k))]
  {
  }

  /** A failing send ends the sends with the error notice, keeping those that succeeded. */
  lemma FailedSend(k: Kind, from: string, videoUrl: string, c: Conversion,
                   decode: string -> string, n: nat)
    requires c.Converted? && c.download.Some? && Truthy(c.download.value.url)
    ensures var full := Sends(k, from, videoUrl, c, decode, None);
      var e := Sends(k, from, videoUrl, c, decode, Some(n));
      n < |full| - 1 ==> e == full[..n] + [Reply(from, ErrorText(k))]
  {
    SuccessfulSend(k, from, videoUrl, c, decode);
  }

  /** The defaults the two commands fall back on. */
  lemma Defaults(k: Kind, d: Download, m: Option<Metadata>, title: string, videoUrl: string)
    ensures !Truthy(d.quality) ==> Quality(k, d) == (if k.Mp3? then "128kbps" else "360p")
    ensures Truthy(d.quality) ==> Quality(k, d) == d.quality.value
    ensures FileName(d, title) == (if Truthy(d.filename) then d.filename.value else title + ".mp3")
    ensures !(m.Some? && Truthy(m.value.url)) ==> ShownUrl(m, videoUrl) == videoUrl
    ensures m.Some? && Truthy(m.value.url) ==> ShownUrl(m, videoUrl) == m.value.url.value
    ensures Thumb(m).Some? <==> m.Some? && (Truthy(m.value.thumbnail) || Truthy(m.value.image))
    ensures m.Some? && Truthy(m.value.thumbnail) ==> Thumb(m) == m.value.thumbnail
    ensures m.Some? && !Truthy(m.value.thumbnail) && Truthy(m.value.image) ==>
              Thumb(m) == m.value.image
    ensures Thumb(m).Some? ==> (Thumb(m).value != ""
            && (Thumb(m) == m.value.thumbnail || Thumb(m) == m.value.image))
  {
  }
}
