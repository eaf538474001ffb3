/** The two-step, reply-driven movie download conversation of plugins/movie.js: a `movie`
    search lists results and remembers them per sender; a numeric reply picks a movie and
    lists its download qualities; a second numeric reply picks a quality and sends it. */
module MoviePlugin {
  import opened Common
  import opened JsText
  import opened Transport

  /** One search hit: the trimmed `.title a` text, its `href` and the image `src`. */
  datatype Movie = Movie(title: string, link: Option<string>, thumb: Option<string>)

  /** A `.result-item article` as scraped: title text and the two attributes. */
  datatype MovieRow = MovieRow(titleText: string, href: Option<string>, src: Option<string>)

  /** A `.sbox .download-link` box as scraped. */
  datatype LinkRow = LinkRow(serverText: string, qualityText: string, sizeText: string,
                             href: Option<string>)

  /** One offered quality, with its trimmed texts. */
  datatype QualityLink = QualityLink(server: string, quality: string, size: string,
                                     linkPage: Option<string>)

  /** A movie page: the texts of the IMDb, year and description nodes, and the link boxes. */
  datatype MoviePage = MoviePage(imdbText: string, yearText: string, descriptionText: string,
                                 links: seq<LinkRow>)

  /** A download page: the `href` of `#download-link`, if the attribute exists. */
  datatype LinkPage = LinkPage(downloadHref: Option<string>)

  /** What `pendingQuality[sender]` holds. */
  datatype QualityChoice = QualityChoice(movie: Movie, qualities: seq<QualityLink>,
                                         imdb: string, year: string)

  // Texts the handlers send.
  const NoQueryText := "❌ Please provide a movie name."
  const NoMoviesText := "❌ No movies found."
  const SearchFailedText := "❌ Sorry, something went wrong while fetching movies."
  const SelectedReaction := "✅"
  const InvalidSelectionText := "❌ Invalid selection."
  const NoLinksText := "❌ No download links found."
  const PixeldrainHint := "📣 *ඉක්මනට download කරගන්න ඕනිනම් Pixeldrain Link Use කරන්ඩෝ...!* "
  const DetailsFailedText := "❌ Failed to fetch movie details or qualities."
  const WaitText := "*පොඩ්ඩක් ඉන්න ඉක්මනට Download කරලා දෙන්නම්...👀❤️*"
  const NoDownloadLinkText := "❌ Failed to get download link."
  const SendFailedText := "❌ Failed to fetch or send movie."
  const BannerUrl := "https://github.com/dilshan62/DILSHAN-MD/blob/main/images/DILSHAN-MD-MOVIE.png?raw=true"

  /* ---------------- Scraping loops ---------------- */

  function ToMovie(row: MovieRow): Movie
  {
    Movie(Trim(row.titleText), row.href, row.src)
  }

  /** The `movies` array the search loop builds: one entry per article, in page order. */
  function Movies(rows: seq<MovieRow>): seq<Movie>
  {
    if rows == [] then [] else Movies(rows[..|rows| - 1]) + [ToMovie(rows[|rows| - 1])]
  }

  /** The pending list holds exactly the scraped articles, in page order. */
  lemma {:induction false} MoviesAt(rows: seq<MovieRow>)
    ensures |Movies(rows)| == |rows|
    ensures forall i :: 0 <= i < |rows| ==> Movies(rows)[i] == ToMovie(rows[i])
  {
    if rows != [] {
      MoviesAt(rows[..|rows| - 1]);
    }
  }

  /** The `.each` loop of the search handler. */
  method CollectMovies(rows: seq<MovieRow>) returns (movies: seq<Movie>)
    ensures movies == Movies(rows)
  {
    movies := [];
    for i := 0 to |rows|
      invariant movies == Movies(rows[..i])
    {
      assert rows[..i + 1][..i] == rows[..i];
      movies := movies + [ToMovie(rows[i])];
    }
    assert rows[..|rows|] == rows;
  }

  /** `server.toLowerCase() === "telegram"`. */
  predicate IsTelegram(server: string)
  {
    Lower(server) == "telegram"
  }

  function ToQuality(row: LinkRow): QualityLink
  {
    QualityLink(Trim(row.serverText), Trim(row.qualityText), Trim(row.sizeText), row.href)
  }

  /** The row kept by the quality loop: its trimmed server is not `telegram`. */
  predicate Kept(row: LinkRow)
  {
    !IsTelegram(Trim(row.serverText))
  }

  /** The `qualities` array the selection loop builds. */
  function Offered(rows: seq<LinkRow>): seq<QualityLink>
  {
    if rows == [] then []
    else
      var last := rows[|rows| - 1];
      Offered(rows[..|rows| - 1]) + (if Kept(last) then [ToQuality(last)] else [])
  }

  /** A link is offered exactly when some row is kept and yields it. */
  lemma {:induction false} OfferedMembers(rows: seq<LinkRow>, q: QualityLink)
    ensures q in Offered(rows) <==>
            exists i :: 0 <= i < |rows| && Kept(rows[i]) && q == ToQuality(rows[i])
  {
    if rows != [] {
      var init, last := rows[..|rows| - 1], rows[|rows| - 1];
      var tail := if Kept(last) then [ToQuality(last)] else [];
      assert Offered(rows) == Offered(init) + tail;
      assert q in Offered(rows) <==> q in Offered(init) || q in tail;
      OfferedMembers(init, q);
      if q in Offered(init) {
        var i :| 0 <= i < |init| && Kept(init[i]) && q == ToQuality(init[i]);
        assert rows[i] == init[i];
      } else if q in tail {
        assert Kept(rows[|rows| - 1]) && q == ToQuality(rows[|rows| - 1]);
      } else {
        forall i | 0 <= i < |rows| && Kept(rows[i]) ensures q != ToQuality(rows[i]) {
          if i < |init| {
            assert rows[i] == init[i];
          }
        }
      }
    }
  }

  /** No offered link is a telegram server, and at most one link is offered per row. */
  lemma {:induction false} OfferedNoTelegram(rows: seq<LinkRow>)
    ensures |Offered(rows)| <= |rows|
    ensures forall q :: q in Offered(rows) ==> !IsTelegram(q.server)
  {
    if rows != [] {
      var init, last := rows[..|rows| - 1], rows[|rows| - 1];
      OfferedNoTelegram(init);
      assert Offered(rows) == Offered(init) + (if Kept(last) then [ToQuality(last)] else []);
    }
  }

  /** The `.each` loop of the movie-selection handler. */
  method CollectQualities(rows: seq<LinkRow>) returns (qualities: seq<QualityLink>)
    ensures qualities == Offered(rows)
  {
    qualities := [];
    for i := 0 to |rows|
      invariant qualities == Offered(rows[..i])
    {
      assert rows[..i + 1][..i] == rows[..i];
      var server := Trim(rows[i].serverText);
      if !IsTelegram(server) {
        qualities := qualities + [QualityLink(server, Trim(rows[i].qualityText),
                                              Trim(rows[i].sizeText), rows[i].href)];
      }
    }
    assert rows[..|rows|] == rows;
  }

  /* ---------------- Numbered replies ---------------- */

  /** The reply filter's text test: `/^[1-9][0-9]*$/.test(text.trim())`. */
  predicate IsSelectionReply(text: string)
  {
    IsPositiveDecimal(Trim(text))
  }

  /** The filter accepts exactly the replies whose trimmed text is how a positive number is
      printed. */
  lemma SelectionReplyIff(text: string)
    ensures IsSelectionReply(text) <==> exists n: nat :: n >= 1 && Trim(text) == DecimalString(n)
  {
    if IsSelectionReply(text) {
      ParseDigitsRoundTrip(Trim(text));
    }
    if exists n: nat :: n >= 1 && Trim(text) == DecimalString(n) {
      var n: nat :| n >= 1 && Trim(text) == DecimalString(n);
      DecimalStringRoundTrip(n);
    }
  }

  /** `parseInt(body.trim())`. */
  function SelectionNumber(text: string): (n: nat)
    requires IsSelectionReply(text)
    ensures n >= 1
  {
    ParseDigitsRoundTrip(Trim(text));
    ParseDigits(Trim(text))
  }

  /* ---------------- Numbering ---------------- */

  const NumberEmojis: seq<string> :=
    ["0\U{FE0F}\U{20E3}", "1\U{FE0F}\U{20E3}", "2\U{FE0F}\U{20E3}", "3\U{FE0F}\U{20E3}",
     "4\U{FE0F}\U{20E3}", "5\U{FE0F}\U{20E3}", "6\U{FE0F}\U{20E3}", "7\U{FE0F}\U{20E3}",
     "8\U{FE0F}\U{20E3}", "9\U{FE0F}\U{20E3}"]

  /** Each digit mapped to its keycap emoji: the digit, VS16, then the combining keycap. */
  function Keycaps(t: string): string
    requires AllDigits(t)
  {
    if t == [] then [] else NumberEmojis[DigitValue(t[0])] + Keycaps(t[1..])
  }

  /** The keycap emoji of digit `d` is the digit itself followed by VS16 and U+20E3. */
  lemma NumberEmojiShape(d: nat)
    requires d < 10
    ensures NumberEmojis[d] == [DigitChar(d), '\U{FE0F}', '\U{20E3}']
  {
  }

  /** `(i + 1).toString().split("").map(n => numberEmojis[n]).join("")` for position `i`. */
  function EmojiIndex(n: nat): string
  {
    DecimalStringRoundTrip(n);
    Keycaps(DecimalString(n))
  }

  /** Every third character: reads the digits back out of a keycap label. */
  function EveryThird(e: string): string
  {
    if |e| < 3 then [] else [e[0]] + EveryThird(e[3..])
  }

  lemma {:induction false} KeycapsDecode(t: string)
    requires AllDigits(t)
    ensures EveryThird(Keycaps(t)) == t
  {
    if t != [] {
      KeycapsDecode(t[1..]);
      var e, rest := NumberEmojis[DigitValue(t[0])], Keycaps(t[1..]);
      NumberEmojiShape(DigitValue(t[0]));
      assert Keycaps(t) == e + rest;
      assert (e + rest)[3..] == rest;
      assert (e + rest)[0] == t[0];
    }
  }

  /** The label of a position determines the position: the number is read back from it. */
  lemma EmojiIndexDecode(n: nat)
    ensures AllDigits(EveryThird(EmojiIndex(n)))
    ensures ParseDigits(EveryThird(EmojiIndex(n))) == n
  {
    DecimalStringRoundTrip(n);
    KeycapsDecode(DecimalString(n));
  }

  /** Distinct positions get distinct labels. */
  lemma EmojiIndexInjective(a: nat, b: nat)
    ensures EmojiIndex(a) == EmojiIndex(b) ==> a == b
  {
    EmojiIndexDecode(a);
    EmojiIndexDecode(b);
  }

  /* ---------------- Defaults ---------------- */

  /** `text || fallback` on a trimmed text. */
  function Or(text: string, fallback: string): string
  {
    if text == "" then fallback else text
  }

  /** `yearText ? yearText.replace(/\D/g, '') : "Unknown"` on the trimmed year text. */
  function Year(yearText: string): (r: string)
    ensures Trim(yearText) == "" <==> r == "Unknown"
    ensures Trim(yearText) != "" ==> AllDigits(r) && r == KeepDigits(Trim(yearText))
  {
    var t := Trim(yearText);
    if t == "" then "Unknown"
    else
      var r := KeepDigits(t);
      assert !AllDigits("Unknown") by { assert !IsDigit("Unknown"[0]); }
      r
  }

  function Imdb(page: MoviePage): string
  {
    Or(Trim(page.imdbText), "N/A")
  }

  function Description(page: MoviePage): string
  {
    Or(Trim(page.descriptionText), "No description available.")
  }

  /* ---------------- Pixeldrain ---------------- */

  const PixeldrainUser := "pixeldrain.com/u/"
  const PixeldrainApi := "https://pixeldrain.com/api/file/"

  lemma PixeldrainHasSeparator(href: string)
    requires Includes(href, PixeldrainUser)
    ensures Includes(href, "/u/")
  {
    var i := IndexOf(href, PixeldrainUser, 0).value;
    assert href[i + 14..i + 17] == PixeldrainUser[14..17] == "/u/";
    assert OccursAt(href, "/u/", i + 14);
    IncludesIff(href, "/u/");
  }

  /** `downloadHref.split("/u/")[1]`. */
  function FileId(href: string): string
    requires Includes(href, PixeldrainUser)
  {
    PixeldrainHasSeparator(href);
    SplitSecond(href, "/u/")
  }

  /** The download locator after the pixeldrain rewrite. */
  function DownloadUrl(href: string): string
  {
    if Includes(href, PixeldrainUser) then PixeldrainApi + FileId(href) + "?download" else href
  }

  /** The id is the text that directly follows the first `/u/` anywhere in the locator
      (not necessarily the one after `pixeldrain.com`) and runs up to the next `/u/` or the
      end: it never holds `/u/` itself. Other locators pass unchanged. */
  lemma DownloadUrlShape(href: string)
    ensures !Includes(href, PixeldrainUser) ==> DownloadUrl(href) == href
    ensures Includes(href, PixeldrainUser) ==>
      && Includes(href, "/u/")
      && var id, i := FileId(href), IndexOf(href, "/u/", 0).value;
      && DownloadUrl(href) == PixeldrainApi + id + "?download"
      && id <= href[i + 3..]
      && !Includes(id, "/u/")
      && (forall j :: i + 3 <= j < i + 3 + |id| ==> !OccursAt(href, "/u/", j))
      && (i + 3 + |id| == |href| || OccursAt(href, "/u/", i + 3 + |id|))
  {
    if Includes(href, PixeldrainUser) {
      PixeldrainHasSeparator(href);
      SplitSecondNoSeparator(href, "/u/");
      var id, i := FileId(href), IndexOf(href, "/u/", 0).value;
      assert id == SplitSecond(href, "/u/");
      assert forall j :: i + 3 <= j < i + 3 + |id| ==> !OccursAt(href, "/u/", j);
    }
  }

  /* ---------------- Captions ---------------- */

  const ListingHeader := "╭━━━❰ 🎬 *MOVIE RESULTS* ❱━━━╮\n" + "┃🔰 *WELCOME TO DILSHAN-MD* 🔰\n" + "┃───────────────────────\n"
  const ListingFooter := "┃───────────────────────\n" + "┃ ❤️ *REPLY YOUR MOVIE NUMBER*\n" + "╰━━━━━━━━━━━━━━━━━━━━━━━╯\n\n"

  function ListingLine(position: nat, title: string): string
  {
    "\U{2503} " + EmojiIndex(position) + " *" + title + "*\n\n"
  }

  /** The search listing as far as the first `|movies|` entries: the header, then one
      line per entry in list order, the entry at index `i` labelled `i + 1`. */
  function ListingSoFar(movies: seq<Movie>): string
  {
    if movies == [] then ListingHeader
    else ListingSoFar(movies[..|movies| - 1]) + ListingLine(|movies|, movies[|movies| - 1].title)
  }

  /** The whole listing caption. */
  function ListingCaption(movies: seq<Movie>): string
  {
    ListingSoFar(movies) + ListingFooter
  }

  /** The listing caption, built by `+=` in a `forEach`. */
  method BuildListing(movies: seq<Movie>) returns (desc: string)
    ensures desc == ListingCaption(movies)
  {
    desc := ListingHeader;
    for i := 0 to |movies|
      invariant desc == ListingSoFar(movies[..i])
    {
      assert movies[..i + 1][..i] == movies[..i];
      desc := desc + ListingLine(i + 1, movies[i].title);
    }
    assert movies[..|movies|] == movies;
    desc := desc + ListingFooter;
  }

  function QualityMenuHeader(title: string, imdb: string, description: string): string
  {
    "\U{256D}\U{2501}[ \U{1F3AC} *" + title + "* ]\U{2501}\U{2B23}\n"
    + "\U{2503} \U{2B50} IMDb: *" + Or(imdb, "N/A") + "*\n"
    + "\U{2503} \U{1F4DD} Description:\n\U{2503} " + ReplaceNewlines(description, "\n\U{2503} ") + "\n"
    + "┏━━━━━━━━━━━━━━━━━━━━━━┓\n" + "┃ 📍 *CHOOSE MOVIE QUALITY...!*\n" + "┗━━━━━━━━━━━━━━━━━━━━━━┛\n\n"
  }

  const QualityMenuFooter := "\n─────────────────────────\n"

  function QualityLine(position: nat, q: QualityLink): string
  {
    EmojiIndex(position) + " *" + q.quality + "* - " + q.size + " (" + q.server + ")\n"
  }

  /** The quality menu as far as the first `|qualities|` entries. */
  function MenuSoFar(header: string, qualities: seq<QualityLink>): string
  {
    if qualities == [] then header
    else MenuSoFar(header, qualities[..|qualities| - 1])
         + QualityLine(|qualities|, qualities[|qualities| - 1])
  }

  /** The whole quality menu caption. */
  function QualityMenu(title: string, imdb: string, description: string,
                       qualities: seq<QualityLink>): string
  {
    MenuSoFar(QualityMenuHeader(title, imdb, description), qualities) + QualityMenuFooter
  }

  /** The quality menu caption, built by `+=` in a `forEach`. */
  method BuildQualityMenu(title: string, imdb: string, description: string,
                          qualities: seq<QualityLink>) returns (msg: string)
    ensures msg == QualityMenu(title, imdb, description, qualities)
  {
    var header := QualityMenuHeader(title, imdb, description);
    msg := header;
    for i := 0 to |qualities|
      invariant msg == MenuSoFar(header, qualities[..i])
    {
      assert qualities[..i + 1][..i] == qualities[..i];
      msg := msg + QualityLine(i + 1, qualities[i]);
    }
    assert qualities[..|qualities|] == qualities;
    msg := msg + QualityMenuFooter;
  }

  function DownloadCaption(title: string, imdb: string, q: QualityLink): string
  {
    "\U{256D}\U{2501}[ \U{2705} MOVIE DOWNLOAD ]\U{2501}\U{2B23}\n"
    + "\U{2503} \U{1F3AC} Title: *" + title + "*\n"
    + "\U{2503} \U{2B50} IMDb: " + imdb + "\n"
    + "\U{2503} \U{1F4BE} Quality: " + q.quality + "\n"
    + "\U{2503} \U{1F4E6} Size: " + q.size + "\n"
    + "\U{2503} \U{1F517} Server: " + q.server + "\n"
    + "\U{2570}\U{2500}\U{1F525} *DILSHAN - MD* \U{1F525}\U{2500}\U{256F}"
  }

  /** The page fetched for an optional locator: `axios.get(undefined)` fails like a
      request that fails. */
  function FetchFrom<P>(locator: Option<string>, fetch: string -> Option<P>): Option<P>
  {
    if locator.Some? then fetch(locator.value) else None
  }

  /** What the movie-selection handler does once the chosen movie's page has been fetched
      (`page`): the messages it sends, and the quality session it opens, if any. */
  datatype Outcome<S> = Outcome(events: seq<Event>, session: Option<S>)

  function MenuOutcome(from: string, movie: Movie, page: Option<MoviePage>, hinted: bool,
                       delivered: bool): Outcome<QualityChoice>
  {
    if page.None? then Outcome([Reply(from, DetailsFailedText)], None)
    else
      var p := page.value;
      var qualities := Offered(p.links);
      if qualities == [] then Outcome([Reply(from, NoLinksText)], None)
      else if !hinted then Outcome([Reply(from, DetailsFailedText)], None)
      else if !delivered then
        Outcome([Reply(from, PixeldrainHint), Reply(from, DetailsFailedText)], None)
      else
        var menu := QualityMenu(movie.title, Imdb(p), Description(p), qualities);
        Outcome([Reply(from, PixeldrainHint), Image(from, movie.thumb, menu, [])],
                Some(QualityChoice(movie, qualities, Imdb(p), Year(p.yearText))))
  }

  /** A session is opened exactly when the page has offered links and the menu went out;
      it then holds that movie, every offered link in page order, and no telegram server. */
  lemma MenuOutcomeSession(from: string, movie: Movie, page: Option<MoviePage>, hinted: bool,
                           delivered: bool)
    ensures var o := MenuOutcome(from, movie, page, hinted, delivered);
      && (o.session.Some? <==>
            page.Some? && Offered(page.value.links) != [] && hinted && delivered)
      && (o.session.Some? ==>
            && o.session.value.movie == movie
            && o.session.value.qualities == Offered(page.value.links)
            && o.session.value.qualities != []
            && (forall q :: q in o.session.value.qualities ==> !IsTelegram(q.server)))
  {
    if page.Some? {
      OfferedNoTelegram(page.value.links);
    }
  }

  /** The menu is sent, after the Pixeldrain hint, exactly when a session is opened; every
      path ends the exchange with one message that names this chat. */
  lemma MenuOutcomeEvents(from: string, movie: Movie, page: Option<MoviePage>, hinted: bool,
                          delivered: bool)
    ensures var o := MenuOutcome(from, movie, page, hinted, delivered);
      && 1 <= |o.events| <= 2
      && (forall e :: e in o.events ==> e.to == from)
      && (o.session.Some? <==> o.events[|o.events| - 1].Image?)
      && (|o.events| == 2 <==> page.Some? && Offered(page.value.links) != [] && hinted)
  {
  }

  /** `m[k] = v` when there is a value to store. */
  function Remember<S>(m: map<string, S>, k: string, v: Option<S>): (r: map<string, S>)
    ensures v.None? ==> r == m
    ensures v.Some? ==> r == m[k := v.value]
  {
    if v.Some? then m[k := v.value] else m
  }

  /* ---------------- The session machine ---------------- */

  /** The module-level `pendingMovies` and `pendingQuality` dictionaries, and the log of
      what the handlers have sent. */
  class MovieBot {
    var pendingMovies: map<string, seq<Movie>>
    var pendingQuality: map<string, QualityChoice>
    var outbox: seq<Event>

    /** A pending movie list is never empty; a pending quality list is never empty and
        never offers a telegram server. */
    ghost predicate Valid()
      reads this
    {
      && (forall s :: s in pendingMovies ==> pendingMovies[s] != [])
      && (forall s :: s in pendingQuality ==>
            && pendingQuality[s].qualities != []
            && forall q :: q in pendingQuality[s].qualities ==> !IsTelegram(q.server))
    }

    constructor ()
      ensures Valid()
      ensures pendingMovies == map[] && pendingQuality == map[] && outbox == []
    {
      pendingMovies := map[];
      pendingQuality := map[];
      outbox := [];
    }

    /** The filter of the movie-selection handler. */
    predicate TakesMovieReply(sender: string, text: string)
      reads this
    {
      sender in pendingMovies && IsSelectionReply(text)
    }

    /** The filter of the quality-selection handler. */
    predicate TakesQualityReply(sender: string, text: string)
      reads this
    {
      sender in pendingQuality && IsSelectionReply(text)
    }

    /** The `movie` command. `results` is what the search page yields for `q` (`None`: the
        request failed); `delivered` tells whether sending the listing succeeds. */
    method Search(from: string, sender: string, q: string,
                  results: Option<seq<MovieRow>>, delivered: bool)
      requires Valid()
      modifies this
      ensures Valid()
      ensures pendingQuality == old(pendingQuality)
      ensures q == "" ==>
                pendingMovies == old(pendingMovies)
                && outbox == old(outbox) + [Reply(from, NoQueryText)]
      ensures q != "" && results.None? ==>
                pendingMovies == old(pendingMovies)
                && outbox == old(outbox) + [Reply(from, SearchFailedText)]
      ensures q != "" && results == Some([]) ==>
                pendingMovies == old(pendingMovies)
                && outbox == old(outbox) + [Reply(from, NoMoviesText)]
      ensures q != "" && results.Some? && results.value != [] ==>
                var movies := Movies(results.value);
                if delivered then
                  && pendingMovies == old(pendingMovies)[sender := movies]
                  && outbox == old(outbox) + [Image(from, Some(BannerUrl),
                                 ListingCaption(movies), [])]
                else
                  && pendingMovies == old(pendingMovies)
                  && outbox == old(outbox) + [Reply(from, SearchFailedText)]
    {
      if q == "" {
        outbox := outbox + [Reply(from, NoQueryText)];
        return;
      }
      if results.None? {
        outbox := outbox + [Reply(from, SearchFailedText)];
        return;
      }
      var movies := CollectMovies(results.value);
      MoviesAt(results.value);
      if |movies| == 0 {
        outbox := outbox + [Reply(from, NoMoviesText)];
        return;
      }
      var desc := BuildListing(movies);
      if !delivered {
        outbox := outbox + [Reply(from, SearchFailedText)];
        return;
      }
      outbox := outbox + [Image(from, Some(BannerUrl), desc, [])];
      pendingMovies := pendingMovies[sender := movies];
    }

    /** The movie-selection handler, run when `TakesMovieReply(sender, body)`. `fetch` gives
        the page behind a locator (`None`: the request failed); `hinted` and `delivered` tell
        whether sending the Pixeldrain hint and the quality menu succeed. */
    method SelectMovie(from: string, sender: string, body: string,
                       fetch: string -> Option<MoviePage>, hinted: bool, delivered: bool)
      requires Valid() && TakesMovieReply(sender, body)
      modifies this
      ensures Valid()
      ensures var list, n := old(pendingMovies)[sender], SelectionNumber(body);
        n > |list| ==>
          && pendingMovies == old(pendingMovies)
          && pendingQuality == old(pendingQuality)
          && outbox == old(outbox) + [React(from, SelectedReaction),
                                      Reply(from, InvalidSelectionText)]
      ensures var list, n := old(pendingMovies)[sender], SelectionNumber(body);
        n <= |list| ==>
          var outcome := MenuOutcome(from, list[n - 1], FetchFrom(list[n - 1].link, fetch),
                                     hinted, delivered);
          && pendingMovies == old(pendingMovies) - {sender}
          && pendingQuality == Remember(old(pendingQuality), sender, outcome.session)
          && outbox == old(outbox) + [React(from, SelectedReaction)] + outcome.events
    {
      outbox := outbox + [React(from, SelectedReaction)];
      var movies := pendingMovies[sender];
      var n := SelectionNumber(body);
      var index := n - 1;
      if index < 0 || index >= |movies| {
        outbox := outbox + [Reply(from, InvalidSelectionText)];
        return;
      }
      var movie := movies[index];
      pendingMovies := pendingMovies - {sender};
      var page := FetchFrom(movie.link, fetch);
      OfferQualities(from, sender, movie, page, hinted, delivered);
    }

    /** The rest of the movie-selection handler once the movie's page has been fetched
        (`None`: the fetch failed). */
    method OfferQualities(from: string, sender: string, movie: Movie, page: Option<MoviePage>,
                          hinted: bool, delivered: bool)
      requires Valid()
      modifies this
      ensures Valid()
      ensures pendingMovies == old(pendingMovies)
      ensures pendingQuality == Remember(old(pendingQuality), sender,
                                         MenuOutcome(from, movie, page, hinted, delivered).session)
      ensures outbox == old(outbox) + MenuOutcome(from, movie, page, hinted, delivered).events
    {
      if page.None? {
        outbox := outbox + [Reply(from, DetailsFailedText)];
        return;
      }
      var qualities := CollectQualities(page.value.links);
      if |qualities| == 0 {
        outbox := outbox + [Reply(from, NoLinksText)];
        return;
      }
      ShowMenu(from, sender, movie, page.value, qualities, hinted, delivered);
    }

    /** Sends the quality menu for a page with offered links and opens the session. */
    method ShowMenu(from: string, sender: string, movie: Movie, p: MoviePage,
                    qualities: seq<QualityLink>, hinted: bool, delivered: bool)
      requires Valid() && qualities == Offered(p.links) && qualities != []
      modifies this
      ensures Valid()
      ensures pendingMovies == old(pendingMovies)
      ensures pendingQuality == Remember(old(pendingQuality), sender,
                                         MenuOutcome(from, movie, Some(p), hinted, delivered).session)
      ensures outbox == old(outbox) + MenuOutcome(from, movie, Some(p), hinted, delivered).events
    {
      ghost var outcome := MenuOutcome(from, movie, Some(p), hinted, delivered);
      var imdb := Imdb(p);
      var year := Year(p.yearText);
      var description := Description(p);
      OfferedNoTelegram(p.links);
      var menu := BuildQualityMenu(movie.title, imdb, description, qualities);
      ghost var start := outbox;
      if !hinted {
        outbox := outbox + [Reply(from, DetailsFailedText)];
        return;
      }
      outbox := outbox + [Reply(from, PixeldrainHint)];
      if !delivered {
        outbox := outbox + [Reply(from, DetailsFailedText)];
        assert outbox == start + [Reply(from, PixeldrainHint), Reply(from, DetailsFailedText)];
        return;
      }
      outbox := outbox + [Image(from, movie.thumb, menu, [])];
      assert outbox == start + [Reply(from, PixeldrainHint), Image(from, movie.thumb, menu, [])];
      pendingQuality := pendingQuality[sender := QualityChoice(movie, qualities, imdb, year)];
      assert outcome == Outcome([Reply(from, PixeldrainHint), Image(from, movie.thumb, menu, [])],
                                Some(QualityChoice(movie, qualities, imdb, year)));
    }

    /** The quality-selection handler, run when `TakesQualityReply(sender, body)`. `fetch`
        gives the download page behind a locator; `delivered` tells whether sending the
        document succeeds. */
    method SelectQuality(from: string, sender: string, body: string,
                         fetch: string -> Option<LinkPage>, delivered: bool)
      requires Valid() && TakesQualityReply(sender, body)
      modifies this
      ensures Valid()
      ensures pendingMovies == old(pendingMovies)
      ensures var choice, n := old(pendingQuality)[sender], SelectionNumber(body);
        n > |choice.qualities| ==>
          && pendingQuality == old(pendingQuality)
          && outbox == old(outbox) + [React(from, SelectedReaction),
                                      Reply(from, InvalidSelectionText)]
      ensures var choice, n := old(pendingQuality)[sender], SelectionNumber(body);
        n <= |choice.qualities| ==>
          var selected := choice.qualities[n - 1];
          var page := FetchFrom(selected.linkPage, fetch);
          var start := old(outbox) + [React(from, SelectedReaction), Reply(from, WaitText)];
          && !IsTelegram(selected.server)
          && pendingQuality == old(pendingQuality) - {sender}
          && (page.None? ==> outbox == start + [Reply(from, SendFailedText)])
          && (page.Some? && !Truthy(page.value.downloadHref) ==>
                outbox == start + [Reply(from, NoDownloadLinkText)])
          && (page.Some? && Truthy(page.value.downloadHref) ==>
                var doc := Document(from, DownloadUrl(page.value.downloadHref.value),
                                    Some(choice.movie.title + "-" + selected.quality + ".mp4"),
                                    Some("video/mp4"),
                                    Some(DownloadCaption(choice.movie.title, choice.imdb, selected)),
                                    []);
                outbox == start + [if delivered then doc else Reply(from, SendFailedText)])
    {
      outbox := outbox + [React(from, SelectedReaction)];
      var choice := pendingQuality[sender];
      var n := SelectionNumber(body);
      var index := n - 1;
      if index < 0 || index >= |choice.qualities| {
        outbox := outbox + [Reply(from, InvalidSelectionText)];
        return;
      }
      var selected := choice.qualities[index];
      pendingQuality := pendingQuality - {sender};
      outbox := outbox + [Reply(from, WaitText)];

      var page := FetchFrom(selected.linkPage, fetch);
      if page.None? {
        outbox := outbox + [Reply(from, SendFailedText)];
        return;
      }
      var href := page.value.downloadHref;
      if !Truthy(href) {
        outbox := outbox + [Reply(from, NoDownloadLinkText)];
        return;
      }
      var url := DownloadUrl(href.value);
      var caption := DownloadCaption(choice.movie.title, choice.imdb, selected);
      if !delivered {
        outbox := outbox + [Reply(from, SendFailedText)];
        return;
      }
      outbox := outbox + [Document(from, url, Some(choice.movie.title + "-" + selected.quality + ".mp4"),
                                   Some("video/mp4"), Some(caption), [])];
    }
  }
}
