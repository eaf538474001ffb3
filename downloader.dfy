/** The all-in-one `dl` command of plugins/downloader-all.js: the link's platform is found by
    an ordered list of substring tests, the platform's downloader is asked for the media,
    and every returned item is sent back as an image, a video or a plain file. */
module Downloader {
  import opened Common
  import opened JsText
  import opened Transport

  datatype Platform =
    | YouTube | TikTok | Instagram | Facebook | Twitter | MediaFire | CapCut | GDrive | Pinterest

  /** The platform's name as the handler reports it. */
  function Name(p: Platform): string
  {
    match p
    case YouTube => "youtube"
    case TikTok => "tiktok"
    case Instagram => "instagram"
    case Facebook => "facebook"
    case Twitter => "twitter"
    case MediaFire => "mediafire"
    case CapCut => "capcut"
    case GDrive => "gdrive"
    case Pinterest => "pinterest"
  }

  /* ---------------- detectPlatform ---------------- */

  /** `detectPlatform`: the first of the nine tests that holds; each regular expression is a
      plain alternation of literal host fragments, so each test is a substring test. */
  function Detect(url: string): Option<Platform>
  {
    if Includes(url, "youtube.com") || Includes(url, "youtu.be") then Some(YouTube)
    else if Includes(url, "tiktok.com") then Some(TikTok)
    else if Includes(url, "instagram.com") then Some(Instagram)
    else if Includes(url, "facebook.com") || Includes(url, "fb.watch") then Some(Facebook)
    else if Includes(url, "twitter.com") || Includes(url, "x.com") then Some(Twitter)
    else if Includes(url, "mediafire.com") then Some(MediaFire)
    else if Includes(url, "capcut.com") then Some(CapCut)
    else if Includes(url, "drive.google.com") then Some(GDrive)
    else if Includes(url, "pin.it") || Includes(url, "pinterest.com") then Some(Pinterest)
    else None
  }

  /** One row of the detection table: a platform and the fragments that select it. */
  datatype Rule = Rule(platform: Platform, fragments: seq<string>)

  /** The detection table in the order the tests are made. */
  const Rules: seq<Rule> := [
    Rule(YouTube, ["youtube.com", "youtu.be"]),
    Rule(TikTok, ["tiktok.com"]),
    Rule(Instagram, ["instagram.com"]),
    Rule(Facebook, ["facebook.com", "fb.watch"]),
    Rule(Twitter, ["twitter.com", "x.com"]),
    Rule(MediaFire, ["mediafire.com"]),
    Rule(CapCut, ["capcut.com"]),
    Rule(GDrive, ["drive.google.com"]),
    Rule(Pinterest, ["pin.it", "pinterest.com"])
  ]

  predicate Matches(url: string, r: Rule)
  {
    exists k :: 0 <= k < |r.fragments| && Includes(url, r.fragments[k])
  }

  /** The platform of the first rule, from index `i` on, that matches. */
  function FirstMatch(url: string, rules: seq<Rule>, i: nat): Option<Platform>
    decreases |rules| - i
  {
    if i >= |rules| then None
    else if Matches(url, rules[i]) then Some(rules[i].platform)
    else FirstMatch(url, rules, i + 1)
  }

  /** The first match is a matching rule with no matching rule before it; there is none
      exactly when no rule matches. */
  lemma {:induction false} FirstMatchSpec(url: string, rules: seq<Rule>, i: nat)
    decreases |rules| - i
    ensures var r := FirstMatch(url, rules, i);
      && (r.Some? ==>
            exists k :: i <= k < |rules| && Matches(url, rules[k]) && r.value == rules[k].platform
                        && forall m :: i <= m < k ==> !Matches(url, rules[m]))
      && (r.None? <==> forall k :: i <= k < |rules| ==> !Matches(url, rules[k]))
  {
    if i < |rules| && !Matches(url, rules[i]) {
      FirstMatchSpec(url, rules, i + 1);
    }
  }

  lemma MatchesPair(url: string, p: Platform, a: string, b: string)
    ensures Matches(url, Rule(p, [a, b])) <==> Includes(url, a) || Includes(url, b)
  {
    if Includes(url, a) {
      assert [a, b][0] == a;
    } else if Includes(url, b) {
      assert [a, b][1] == b;
    }
  }

  lemma MatchesOne(url: string, p: Platform, a: string)
    ensures Matches(url, Rule(p, [a])) <==> Includes(url, a)
  {
    if Includes(url, a) {
      assert [a][0] == a;
    }
  }

  /** The chain of tests is the first match over the table, so (by `FirstMatchSpec`) a
      platform is reported exactly when one of its fragments occurs and no fragment of an
      earlier platform does. */
  lemma DetectIsFirstMatch(url: string)
    ensures Detect(url) == FirstMatch(url, Rules, 0)
  {
    MatchesPair(url, YouTube, "youtube.com", "youtu.be");
    MatchesOne(url, TikTok, "tiktok.com");
    MatchesOne(url, Instagram, "instagram.com");
    MatchesPair(url, Facebook, "facebook.com", "fb.watch");
    MatchesPair(url, Twitter, "twitter.com", "x.com");
    MatchesOne(url, MediaFire, "mediafire.com");
    MatchesOne(url, CapCut, "capcut.com");
    MatchesOne(url, GDrive, "drive.google.com");
    MatchesPair(url, Pinterest, "pin.it", "pinterest.com");
    assert FirstMatch(url, Rules, 9) == None;
  }

  /* ---------------- extractUrl ---------------- */

  /** One item of a downloader's result, reduced to the properties the handler reads
      (`urls` empty: missing). */
  datatype Media = Media(url: Option<string>, download: Option<string>,
                         downloadLink: Option<string>, link: Option<string>, urls: seq<string>,
                         thumbnail: Option<string>, thumb: Option<string>,
                         title: Option<string>, kind: Option<string>)

  /** The first truthy string of a list. */
  function FirstTruthy(xs: seq<Option<string>>): (r: Option<string>)
    ensures r.Some? ==> r.value != ""
    ensures r.Some? <==> exists i :: 0 <= i < |xs| && Truthy(xs[i])
    ensures r.Some? ==>
      exists i :: 0 <= i < |xs| && xs[i] == r && forall j :: 0 <= j < i ==> !Truthy(xs[j])
  {
    if xs == [] then None
    else if Truthy(xs[0]) then xs[0]
    else
      var r := FirstTruthy(xs[1..]);
      assert forall i :: 1 <= i < |xs| ==> xs[i] == xs[1..][i - 1];
      if r.Some? then
        var i :| 0 <= i < |xs[1..]| && xs[1..][i] == r
                 && forall j :: 0 <= j < i ==> !Truthy(xs[1..][j]);
        assert xs[i + 1] == r;
        r
      else r
  }

  lemma FirstTruthyCons(x: Option<string>, xs: seq<Option<string>>)
    ensures FirstTruthy([x] + xs) == if Truthy(x) then x else FirstTruthy(xs)
  {
    assert ([x] + xs)[1..] == xs;
  }

  /** `media?.urls?.[0]`. */
  function FirstOf(urls: seq<string>): Option<string>
  {
    if urls == [] then None else Some(urls[0])
  }

  /** The properties `extractUrl` tries, in its order. */
  function Candidates(m: Media): seq<Option<string>>
  {
    [m.url, m.download, m.downloadLink, m.link, FirstOf(m.urls)]
  }

  /** `extractUrl`: the `||` chain; a null item has no URL. */
  function ExtractUrl(media: Option<Media>): Option<string>
  {
    if media.None? then None
    else
      var m := media.value;
      if Truthy(m.url) then m.url
      else if Truthy(m.download) then m.download
      else if Truthy(m.downloadLink) then m.downloadLink
      else if Truthy(m.link) then m.link
      else if Truthy(FirstOf(m.urls)) then FirstOf(m.urls)
      else None
  }

  /** The chain yields the first truthy candidate: a non-empty URL when some candidate has
      one, and nothing otherwise. */
  lemma ExtractUrlIsFirstTruthy(m: Media)
    ensures ExtractUrl(Some(m)) == FirstTruthy(Candidates(m))
  {
    FirstTruthyCons(m.url, [m.download, m.downloadLink, m.link, FirstOf(m.urls)]);
    FirstTruthyCons(m.download, [m.downloadLink, m.link, FirstOf(m.urls)]);
    FirstTruthyCons(m.downloadLink, [m.link, FirstOf(m.urls)]);
    FirstTruthyCons(m.link, [FirstOf(m.urls)]);
    FirstTruthyCons(FirstOf(m.urls), []);
  }

  /* ---------------- Items ---------------- */

  const SkipText := "⚠️ *Skipping one file: No download link found.*"
  const OctetStream := "application/octet-stream"

  /** `media?.thumbnail || media?.thumb`. */
  function Thumb(media: Option<Media>): Option<string>
  {
    if media.None? then None
    else if Truthy(media.value.thumbnail) then media.value.thumbnail
    else if Truthy(media.value.thumb) then media.value.thumb
    else None
  }

  /** `media?.title || platform.toUpperCase()`. */
  function Title(media: Option<Media>, p: Platform): string
  {
    if media.Some? && Truthy(media.value.title) then media.value.title.value
    else Upper(Name(p))
  }

  /** `type === t`. */
  predicate HasKind(media: Option<Media>, t: string)
  {
    media.Some? && media.value.kind == Some(t)
  }

  /** `/\.(jpg|png|jpeg|gif)$/i`: the case-insensitive flag folds only ASCII letters onto
      these ASCII patterns. */
  predicate ImageLink(dl: string)
  {
    var l := Lower(dl);
    EndsWith(l, ".jpg") || EndsWith(l, ".png") || EndsWith(l, ".jpeg") || EndsWith(l, ".gif")
  }

  /** `/\.(mp4|mov|webm)$/i`. */
  predicate VideoLink(dl: string)
  {
    var l := Lower(dl);
    EndsWith(l, ".mp4") || EndsWith(l, ".mov") || EndsWith(l, ".webm")
  }

  /** What is sent for one item of the list. */
  function ItemEvents(from: string, p: Platform, media: Option<Media>): seq<Event>
  {
    var dl := ExtractUrl(media);
    var title := Title(media, p);
    if dl.None? then [Reply(from, SkipText)]
    else
      var preview := if Thumb(media).Some? then [Image(from, Thumb(media), "📥 *" + title + "*", [])]
                     else [];
      var url := dl.value;
      if HasKind(media, "image") || ImageLink(url) then
        preview + [Image(from, Some(url), title, [])]
      else if HasKind(media, "video") || VideoLink(url) then
        preview + [Video(from, url, title, [])]
      else
        preview + [Document(from, url, Some(title + ".file"), Some(OctetStream), None, [])]
  }

  /** What is sent for each item of a list. */
  function ItemPlans(from: string, p: Platform, list: seq<Option<Media>>): (r: seq<seq<Event>>)
    ensures |r| == |list|
  {
    seq(|list|, i requires 0 <= i < |list| => ItemEvents(from, p, list[i]))
  }

  /** What is sent for a whole list, item after item. */
  function ListEvents(from: string, p: Platform, list: seq<Option<Media>>): seq<Event>
  {
    Flatten(ItemPlans(from, p, list))
  }

  /** The sends for a list are those for its first part followed by those for the rest. */
  lemma ListEventsAppend(from: string, p: Platform, xs: seq<Option<Media>>,
                         ys: seq<Option<Media>>)
    ensures ListEvents(from, p, xs + ys) == ListEvents(from, p, xs) + ListEvents(from, p, ys)
  {
    assert ItemPlans(from, p, xs + ys) == ItemPlans(from, p, xs) + ItemPlans(from, p, ys);
    FlattenAppend(ItemPlans(from, p, xs), ItemPlans(from, p, ys));
  }

  lemma ListEventsSingle(from: string, p: Platform, m: Option<Media>)
    ensures ListEvents(from, p, [m]) == ItemEvents(from, p, m)
  {
    var plans := ItemPlans(from, p, [m]);
    assert plans == [ItemEvents(from, p, m)];
    assert plans[1..] == [];
    assert Flatten(plans) == plans[0] + Flatten(plans[1..]);
  }

  /** An item without a download link is skipped with one notice, and what comes after it
      is still sent. */
  lemma SkippedItem(from: string, p: Platform, xs: seq<Option<Media>>, m: Option<Media>,
                    ys: seq<Option<Media>>)
    requires ExtractUrl(m).None?
    ensures ListEvents(from, p, xs + [m] + ys)
         == ListEvents(from, p, xs) + [Reply(from, SkipText)] + ListEvents(from, p, ys)
  {
    ListEventsAppend(from, p, xs + [m], ys);
    ListEventsAppend(from, p, xs, [m]);
    ListEventsSingle(from, p, m);
  }

  /** An item with a link is sent as exactly one media message, preceded by its preview
      exactly when it has a thumbnail. An image (by type or by extension) wins over a
      video, and a file is sent only when it is neither. */
  lemma ItemClassified(from: string, p: Platform, media: Option<Media>)
    requires ExtractUrl(media).Some?
    ensures var e, url, title := ItemEvents(from, p, media), ExtractUrl(media).value,
                                 Title(media, p);
      && |e| == (if Thumb(media).Some? then 2 else 1)
      && (Thumb(media).Some? ==> e[0] == Image(from, Thumb(media), "📥 *" + title + "*", []))
      && var last := e[|e| - 1];
      && (last.Image? <==> HasKind(media, "image") || ImageLink(url))
      && (last.Video? <==>
            !(HasKind(media, "image") || ImageLink(url))
            && (HasKind(media, "video") || VideoLink(url)))
      && (last.Document? <==>
            !(HasKind(media, "image") || ImageLink(url))
            && !(HasKind(media, "video") || VideoLink(url)))
      && last.to == from
  {
  }

  /* ---------------- The handler ---------------- */

  const NoLinkText := "*📥 Send any media link to download!*"
  const UnsupportedText := "*❌ Unsupported link!*\nSend: YouTube, TikTok, FB, IG, Twitter, CapCut, GDrive, Pinterest, MediaFire links."
  const NothingFoundText := "❌ *Nothing found*"
  const CompleteText := "✅ *Download complete!*"
  const FailedText := "❌ *Failed to download media. Invalid link or server error.*"

  function DetectedText(p: Platform): string
  {
    "🔍 *Platform detected:* " + Name(p)
  }

  /** What the platform's downloader gives back for the link: it throws, yields something
      falsy, yields one object, or yields an array. */
  datatype Response = Thrown | Falsy | One(item: Media) | Many(items: seq<Option<Media>>)

  /** `Array.isArray(result) ? result : [result]`. */
  function AsList(r: Response): seq<Option<Media>>
  {
    match r
    case Many(items) => items
    case One(item) => [Some(item)]
    case _ => []
  }

  /** What the `dl` handler sends for the query `q` when the downloader answers `response`,
      and, when `accepted` is `Some(k)`, only the first `k` sends of the item loop succeed
      before one throws. */
  function Replies(from: string, q: string, response: Response, accepted: Option<nat>)
    : seq<Event>
  {
    if q == "" then [Reply(from, NoLinkText)]
    else
      var url := Trim(q);
      match Detect(url)
      case None => [Reply(from, UnsupportedText)]
      case Some(p) =>
        var detected := Reply(from, DetectedText(p));
        if response.Thrown? then [detected, Reply(from, FailedText)]
        else if response.Falsy? then [detected, Reply(from, NothingFoundText)]
        else
          var planned := ListEvents(from, p, AsList(response));
          if accepted.Some? && accepted.value < |planned| then
            [detected] + planned[..accepted.value] + [Reply(from, FailedText)]
          else [detected] + planned + [Reply(from, CompleteText)]
  }

  /** Without a query, or for a link of no known platform, the handler sends one reply and
      what the downloader would have answered plays no part. */
  lemma NoDownloadWithoutPlatform(from: string, q: string, r1: Response, r2: Response,
                                  a1: Option<nat>, a2: Option<nat>)
    requires q == "" || Detect(Trim(q)).None?
    ensures Replies(from, q, r1, a1) == Replies(from, q, r2, a2)
    ensures |Replies(from, q, r1, a1)| == 1
  {
  }

  /** When nothing in the loop throws, the handler reports the platform, sends every
      item's messages in list order, and ends with the completion notice; a lone object is
      handled as a one-item list. */
  lemma SuccessfulDownload(from: string, q: string, response: Response)
    requires q != "" && Detect(Trim(q)).Some?
    requires response.One? || response.Many?
    ensures var p := Detect(Trim(q)).value;
      Replies(from, q, response, None)
        == [Reply(from, DetectedText(p))] + ListEvents(from, p, AsList(response))
           + [Reply(from, CompleteText)]
    ensures response.One? ==>
      var p := Detect(Trim(q)).value;
      ListEvents(from, p, AsList(response)) == ItemEvents(from, p, Some(response.item))
  {
    if response.One? {
      ListEventsSingle(from, Detect(Trim(q)).value, Some(response.item));
    }
  }

  /** The body of the item loop for an item with a download link, as the guarded sends of
      the source; `ItemEvents` is the same step as a value, which the lemmas reason about. */
  method SendItem(from: string, p: Platform, media: Option<Media>, dl: string)
    returns (item: seq<Event>)
    requires ExtractUrl(media) == Some(dl)
    ensures item == ItemEvents(from, p, media)
  {
    var thumb := Thumb(media);
    var title := Title(media, p);
    item := [];
    if thumb.Some? {
      item := [Image(from, thumb, "📥 *" + title + "*", [])];
    }
    var isImage := HasKind(media, "image") || ImageLink(dl);
    var isVideo := HasKind(media, "video") || VideoLink(dl);
    if isImage {
      item := item + [Image(from, Some(dl), title, [])];
    } else if isVideo {
      item := item + [Video(from, dl, title, [])];
    } else {
      item := item + [Document(from, dl, Some(title + ".file"), Some(OctetStream), None, [])];
    }
  }

  /** The handler, with the item loop of the source. */
  method Download(from: string, q: string, response: Response, accepted: Option<nat>)
    returns (sent: seq<Event>)
    ensures sent == Replies(from, q, response, accepted)
  {
    if q == "" {
      return [Reply(from, NoLinkText)];
    }
    var url := Trim(q);
    var platform := Detect(url);
    if platform.None? {
      return [Reply(from, UnsupportedText)];
    }
    var p := platform.value;
    sent := [Reply(from, DetectedText(p))];
    if response.Thrown? {
      return sent + [Reply(from, FailedText)];
    }
    if response.Falsy? {
      return sent + [Reply(from, NothingFoundText)];
    }
    var list := AsList(response);
    var planned: seq<Event> := [];
    for i := 0 to |list|
      invariant planned == ListEvents(from, p, list[..i])
    {
      var media := list[i];
      assert list[..i + 1] == list[..i] + [media];
      ListEventsAppend(from, p, list[..i], [media]);
      ListEventsSingle(from, p, media);
      var dl := ExtractUrl(media);
      if dl.None? {
        planned := planned + [Reply(from, SkipText)];
        continue;
      }
      var item := SendItem(from, p, media, dl.value);
      planned := planned + item;
    }
    assert list[..|list|] == list;
    if accepted.Some? && accepted.value < |planned| {
      sent := sent + planned[..accepted.value] + [Reply(from, FailedText)];
    } else {
      sent := sent + planned + [Reply(from, CompleteText)];
    }
  }

  /** The `x.com` test is a bare substring test: any host ending in `x.com`, such as
      `dropbox.com`, is handed to the Twitter downloader. */
  lemma LooseTwitterTest()
    ensures Detect("dropbox.com") == Some(Twitter)
  {
    var url := "dropbox.com";
    assert OccursAt(url, "x.com", 6);
    IncludesIff(url, "x.com");
    assert 'y' !in url && 'i' !in url && 'f' !in url;
    AbsentLetter(url, "youtube.com", 'y');
    AbsentLetter(url, "youtu.be", 'y');
    AbsentLetter(url, "tiktok.com", 'i');
    AbsentLetter(url, "instagram.com", 'i');
    AbsentLetter(url, "facebook.com", 'f');
    AbsentLetter(url, "fb.watch", 'f');
  }

  /** A text cannot contain a fragment holding a letter the text lacks. */
  lemma AbsentLetter(s: string, t: string, c: char)
    requires c in t && c !in s
    ensures !Includes(s, t)
  {
  }
}
