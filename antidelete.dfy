/** The anti-delete plugin of plugins/antidelete.js: every incoming message is cached by id
    (and its media saved to the temp folder); when a delete notice for a cached message
    arrives, the message is sent back to its chat. */
module AntiDelete {
  import opened Common
  import opened JsText
  import opened Transport

  /** `msg.key` / `update.key`: the chat, whether the bot sent it, its id and, in groups,
      the participant who sent it. */
  datatype Key = Key(remoteJid: string, fromMe: bool, id: Option<string>,
                     participant: Option<string>)

  /** A property value of a message object, as far as the plugin looks at one: `Null`
      stands for null, undefined and a missing property; an object is reduced to the three
      string properties the plugin reads. */
  datatype Value =
    | Null
    | Str(s: string)
    | Obj(text: Option<string>, caption: Option<string>, fileName: Option<string>)

  /** A message object (`msg.message`) as its properties in insertion order. */
  datatype Field = Field(name: string, value: Value)
  type Content = seq<Field>

  /** What `onMessage` receives: the key, the content (`None`: falsy), whether a media
      buffer was attached and the media type. */
  datatype Incoming = Incoming(key: Key, message: Option<Content>, mediaBuffer: bool,
                               mediaType: Option<string>)

  /** A `deletedMessages` entry. */
  datatype Cached = Cached(key: Key, message: Content)

  /** `update.update`: whether its `message` is `null`, and its `key.id` if both exist. */
  datatype Inner = Inner(messageIsNull: bool, keyId: Option<string>)

  /** One element of the `updates` array handed to `onDelete`. */
  datatype Update = Update(key: Option<Key>, action: Option<string>, inner: Option<Inner>)

  /* ---------------- JavaScript objects ---------------- */

  /** An id used as a property name: `undefined` becomes the string "undefined". */
  function PropertyKey(id: Option<string>): string
  {
    if id.Some? then id.value else "undefined"
  }

  /** `content[name]`. */
  function Get(content: Content, name: string): Value
  {
    if content == [] then Null
    else if content[0].name == name then content[0].value
    else Get(content[1..], name)
  }

  /** `Object.values(content)`. */
  function Values(content: Content): (vs: seq<Value>)
    ensures |vs| == |content|
    ensures forall i :: 0 <= i < |content| ==> vs[i] == content[i].value
  {
    if content == [] then [] else [content[0].value] + Values(content[1..])
  }

  predicate IsTruthy(v: Value)
  {
    match v
    case Null => false
    case Str(s) => s != ""
    case Obj(_, _, _) => true
  }

  /** A value interpolated into a template string. */
  function Display(v: Value): string
  {
    match v
    case Null => "null"
    case Str(s) => s
    case Obj(_, _, _) => "[object Object]"
  }

  /** `v.text` when it is truthy (`v?.text` for the final scan). */
  function TextProp(v: Value): Option<string>
  {
    if v.Obj? && Truthy(v.text) then v.text else None
  }

  /** `v.caption` when it is truthy. */
  function CaptionProp(v: Value): Option<string>
  {
    if v.Obj? && Truthy(v.caption) then v.caption else None
  }

  /* ---------------- path.extname ---------------- */

  function DropTrailingSlashes(p: string): (r: string)
    ensures r <= p
    ensures r == [] || r[|r| - 1] != '/'
  {
    if p != [] && p[|p| - 1] == '/' then DropTrailingSlashes(p[..|p| - 1]) else p
  }

  /** Only slashes are dropped: everything after the kept prefix is `/`. */
  lemma {:induction false} DroppedAreSlashes(p: string)
    ensures var r := DropTrailingSlashes(p);
      forall i :: |r| <= i < |p| ==> p[i] == '/'
  {
    if p != [] && p[|p| - 1] == '/' {
      var init := p[..|p| - 1];
      DroppedAreSlashes(init);
      var r := DropTrailingSlashes(init);
      forall i | |r| <= i < |p| ensures p[i] == '/' {
        if i < |init| {
          assert p[i] == init[i];
        }
      }
    }
  }

  /** The text after the last `/`. */
  function Basename(p: string): string
  {
    if p == [] || p[|p| - 1] == '/' then [] else Basename(p[..|p| - 1]) + [p[|p| - 1]]
  }

  lemma {:induction false} BasenameShape(p: string)
    ensures EndsWith(p, Basename(p))
    ensures '/' !in Basename(p)
  {
    if p != [] && p[|p| - 1] != '/' {
      var init := p[..|p| - 1];
      BasenameShape(init);
      var b := Basename(init);
      assert p[|p| - |b| - 1..] == p[|init| - |b|..|init|] + [p[|p| - 1]];
    }
  }

  /** The base name starts right after the last `/` of the path, or at its start. */
  lemma {:induction false} BasenameAfterSlash(p: string)
    ensures |Basename(p)| == |p| || (|Basename(p)| < |p| && p[|p| - |Basename(p)| - 1] == '/')
  {
    if p != [] && p[|p| - 1] != '/' {
      var init := p[..|p| - 1];
      BasenameAfterSlash(init);
      var b := Basename(init);
      assert |Basename(p)| == |b| + 1;
      if |b| < |init| {
        assert p[|p| - |b| - 2] == init[|init| - |b| - 1];
      }
    }
  }

  /** The index of the last `.`. */
  function LastDot(b: string): (r: Option<nat>)
    ensures r.Some? ==> r.value < |b| && b[r.value] == '.' && '.' !in b[r.value + 1..]
    ensures r.None? ==> '.' !in b
  {
    if b == [] then None
    else if b[|b| - 1] == '.' then Some(|b| - 1)
    else
      var r := LastDot(b[..|b| - 1]);
      assert b == b[..|b| - 1] + [b[|b| - 1]];
      assert r.Some? ==> b[r.value + 1..] == b[..|b| - 1][r.value + 1..] + [b[|b| - 1]];
      r
  }

  /** Node's `path.extname` (POSIX): the last segment with trailing slashes ignored, from its
      last `.` on; empty when there is no dot, the only dot opens the name, or the name is
      `..`. */
  function ExtName(p: string): string
  {
    var b := Basename(DropTrailingSlashes(p));
    match LastDot(b)
    case None => ""
    case Some(i) => if i == 0 || b == ".." then "" else b[i..]
  }

  /** An extension is empty or a dot followed by a dot-free, slash-free tail of the name. */
  lemma ExtNameShape(p: string)
    ensures var r := ExtName(p);
      && EndsWith(DropTrailingSlashes(p), r)
      && '/' !in r
      && (r != [] ==> r[0] == '.' && '.' !in r[1..])
  {
    var q := DropTrailingSlashes(p);
    var b := Basename(q);
    BasenameShape(q);
    var d := LastDot(b);
    if d.Some? && d.value != 0 && b != ".." {
      var i := d.value;
      assert ExtName(p) == b[i..];
      TailOfSuffix(q, b, i);
      assert b[i..][1..] == b[i + 1..];
    } else {
      assert ExtName(p) == "";
      assert q[|q|..] == "";
    }
  }

  /** A tail of a suffix is a suffix, made of the same characters. */
  lemma TailOfSuffix(q: string, b: string, i: nat)
    requires EndsWith(q, b) && i <= |b|
    ensures EndsWith(q, b[i..])
    ensures forall c :: c in b[i..] ==> c in b
  {
    assert q[|q| - |b[i..]|..] == q[|q| - |b|..][i..];
  }

  /* ---------------- Capture ---------------- */

  /** The extension of the saved media file, by `msg._mediaType`. */
  function Extension(mediaType: string, content: Content): string
  {
    if mediaType == "imageMessage" then ".jpg"
    else if mediaType == "videoMessage" then ".mp4"
    else if mediaType == "audioMessage" then ".ogg"
    else if mediaType == "stickerMessage" then ".webp"
    else if mediaType == "documentMessage" then
      var d := Get(content, "documentMessage");
      if d.Obj? && Truthy(d.fileName) then ExtName(d.fileName.value) else ".bin"
    else ".bin"
  }

  /** Every extension is slash-free, and is empty or starts with a dot: the saved file
      stays directly inside the temp folder whatever the document's name. */
  lemma ExtensionShape(mediaType: string, content: Content)
    ensures var e := Extension(mediaType, content);
      && '/' !in e
      && (e != [] ==> e[0] == '.')
      && (mediaType !in {"imageMessage", "videoMessage", "audioMessage", "stickerMessage",
                         "documentMessage"}
          ==> e == ".bin")
  {
    var d := Get(content, "documentMessage");
    if d.Obj? && Truthy(d.fileName) {
      ExtNameShape(d.fileName.value);
    }
  }

  /** `path.join(tempFolder, id + ext)`. */
  function MediaFile(folder: string, id: string, ext: string): string
  {
    folder + "/" + id + ext
  }

  /* ---------------- Recovery ---------------- */

  const OggMimetype := "audio/ogg; codecs=opus"

  /** The delete condition: `action === 'delete'` or `update.update.message === null`. */
  predicate IsDeleteEvent(u: Update)
  {
    u.action == Some("delete") || (u.inner.Some? && u.inner.value.messageIsNull)
  }

  /** `update.update?.key?.id`. */
  function FallbackId(u: Update): Option<string>
  {
    if u.inner.Some? then u.inner.value.keyId else None
  }

  /** `deletedMessages[primary] || deletedMessages[fallback]`. */
  function Lookup(messages: map<string, Cached>, primary: Option<string>,
                  fallback: Option<string>): (r: Option<Cached>)
    ensures r.Some? <==> PropertyKey(primary) in messages || PropertyKey(fallback) in messages
    ensures PropertyKey(primary) in messages ==> r == Some(messages[PropertyKey(primary)])
    ensures PropertyKey(primary) !in messages && PropertyKey(fallback) in messages ==>
              r == Some(messages[PropertyKey(fallback)])
  {
    if PropertyKey(primary) in messages then Some(messages[PropertyKey(primary)])
    else if PropertyKey(fallback) in messages then Some(messages[PropertyKey(fallback)])
    else None
  }

  /** `deletedMediaPath[primary] || deletedMediaPath[fallback]`: an empty path is falsy. */
  function LookupPath(media: map<string, string>, primary: Option<string>,
                      fallback: Option<string>): Option<string>
  {
    var a, b := PropertyKey(primary), PropertyKey(fallback);
    if a in media && media[a] != "" then Some(media[a])
    else if b in media && media[b] != "" then Some(media[b])
    else None
  }

  /** The sender shown: `participant`, or the chat when there is none. */
  function Sender(key: Key): string
  {
    if Truthy(key.participant) then key.participant.value else key.remoteJid
  }

  /** The recovery caption; `now` is the clock's locale text. */
  function Caption(sender: string, now: string): string
  {
    "*Deleted message recovered*\n\n👤 *Sender:* @" + SplitHead(sender, "@")
      + "\n🕒 *Time:* " + now + "\n"
  }

  /** The saved media sent back, chosen by the file's extension. The `.pdf` branch of the
      source and its final branch send the same document. */
  function MediaEvents(from: string, sender: string, path: string, caption: string)
    : seq<Event>
  {
    if EndsWith(path, ".jpg") then [Image(from, Some(path), caption, [sender])]
    else if EndsWith(path, ".mp4") then [Video(from, path, caption, [sender])]
    else if EndsWith(path, ".webp") then [Sticker(from, path), Text(from, caption, [sender])]
    else if EndsWith(path, ".ogg") then
      [Audio(from, path, Some(OggMimetype), None), Text(from, caption, [sender])]
    else [Document(from, path, None, None, Some(caption), [sender])]
  }

  /** The text recovered from a message: the conversation, the extended text, the image,
      video or document caption, and otherwise the first property value with a `text`. */
  function TextOf(m: Content): Option<string>
  {
    var conversation := Get(m, "conversation");
    if IsTruthy(conversation) then Some(Display(conversation))
    else if TextProp(Get(m, "extendedTextMessage")).Some? then TextProp(Get(m, "extendedTextMessage"))
    else if CaptionProp(Get(m, "imageMessage")).Some? then CaptionProp(Get(m, "imageMessage"))
    else if CaptionProp(Get(m, "videoMessage")).Some? then CaptionProp(Get(m, "videoMessage"))
    else if CaptionProp(Get(m, "documentMessage")).Some? then
      CaptionProp(Get(m, "documentMessage"))
    else FirstText(Values(m))
  }

  /** The first value with a truthy `text`. */
  function FirstText(vs: seq<Value>): Option<string>
  {
    if vs == [] then None
    else if TextProp(vs[0]).Some? then TextProp(vs[0])
    else FirstText(vs[1..])
  }

  /** The scan finds a text exactly when some value holds one, and then it is the first. */
  lemma {:induction false} FirstTextIff(vs: seq<Value>)
    ensures FirstText(vs).None? <==> forall i :: 0 <= i < |vs| ==> TextProp(vs[i]).None?
    ensures FirstText(vs).Some? ==>
      exists i :: 0 <= i < |vs| && FirstText(vs) == TextProp(vs[i])
                  && forall j :: 0 <= j < i ==> TextProp(vs[j]).None?
  {
    if vs != [] {
      FirstTextIff(vs[1..]);
      if TextProp(vs[0]).None? {
        assert forall i :: 1 <= i < |vs| ==> vs[i] == vs[1..][i - 1];
        if FirstText(vs).Some? {
          var k :| 0 <= k < |vs[1..]| && FirstText(vs[1..]) == TextProp(vs[1..][k])
                   && forall j :: 0 <= j < k ==> TextProp(vs[1..][j]).None?;
          assert FirstText(vs) == TextProp(vs[k + 1]);
          forall j | 0 <= j < k + 1 ensures TextProp(vs[j]).None? {
            if j > 0 {
              assert vs[j] == vs[1..][j - 1];
            }
          }
        }
      }
    }
  }

  /** Whatever text is recovered is non-empty. */
  lemma TextOfNonEmpty(m: Content)
    ensures TextOf(m).Some? ==> TextOf(m).value != ""
  {
    var conversation := Get(m, "conversation");
    if IsTruthy(conversation) {
      assert Display(conversation) != "";
    } else if FirstText(Values(m)).Some? {
      FirstTextIff(Values(m));
    }
  }

  /** No text is recovered exactly when none of the six places the plugin looks at holds
      one. */
  lemma TextOfNone(m: Content)
    ensures TextOf(m).None? <==>
      && !IsTruthy(Get(m, "conversation"))
      && TextProp(Get(m, "extendedTextMessage")).None?
      && CaptionProp(Get(m, "imageMessage")).None?
      && CaptionProp(Get(m, "videoMessage")).None?
      && CaptionProp(Get(m, "documentMessage")).None?
      && forall i :: 0 <= i < |m| ==> TextProp(m[i].value).None?
  {
    var vs := Values(m);
    FirstTextIff(vs);
    if FirstText(vs).Some? {
      var i :| 0 <= i < |vs| && FirstText(vs) == TextProp(vs[i]);
      assert vs[i] == m[i].value;
    }
  }

  /** What the `try` block sends for a cached message. */
  function Recovery(deleted: Cached, from: string, sender: string, mediaPath: Option<string>,
                    existing: set<string>, now: string): (r: seq<Event>)
  {
    var caption := Caption(sender, now);
    if mediaPath.Some? && mediaPath.value in existing then
      MediaEvents(from, sender, mediaPath.value, caption)
    else
      match TextOf(deleted.message)
      case Some(t) => [Text(from, caption + "\n\n📝 *Message:* " + t, [sender])]
      case None => [Text(from, caption, [sender])]
  }

  /** The outside world during one `onDelete` call: the clock's text and the files that
      exist. */
  datatype Environment = Environment(now: string, existing: set<string>)

  /** What the handler means to send for one update. */
  function Recover(messages: map<string, Cached>, media: map<string, string>,
                   env: Environment, u: Option<Update>): seq<Event>
  {
    if u.None? || u.value.key.None? || !IsDeleteEvent(u.value) then []
    else
      var key := u.value.key.value;
      match Lookup(messages, key.id, FallbackId(u.value))
      case None => []
      case Some(deleted) =>
        Recovery(deleted, key.remoteJid, Sender(key),
                 LookupPath(media, key.id, FallbackId(u.value)), env.existing, env.now)
  }

  /** What actually goes out for update `i` when, for each index listed in `accepted`, only
      that many of its sends succeed before one throws. */
  function Delivered(accepted: map<nat, nat>, i: nat, planned: seq<Event>): (r: seq<Event>)
    ensures r <= planned
    ensures i !in accepted ==> r == planned
  {
    if i in accepted && accepted[i] < |planned| then planned[..accepted[i]] else planned
  }

  /** Everything sent for the updates planned as `plans[lo..hi]`, in order. */
  function Sent(accepted: map<nat, nat>, plans: seq<seq<Event>>, lo: nat, hi: nat)
    : seq<Event>
    requires lo <= hi <= |plans|
    decreases hi - lo
  {
    if lo == hi then []
    else Sent(accepted, plans, lo, hi - 1) + Delivered(accepted, hi - 1, plans[hi - 1])
  }

  /** The recovery planned for each update of a batch. */
  function Plans(messages: map<string, Cached>, media: map<string, string>, env: Environment,
                 updates: seq<Option<Update>>): (plans: seq<seq<Event>>)
    ensures |plans| == |updates|
    ensures forall i :: 0 <= i < |updates| ==> plans[i] == Recover(messages, media, env, updates[i])
  {
    seq(|updates|, i requires 0 <= i < |updates| => Recover(messages, media, env, updates[i]))
  }

  /** Media is sent back as one or two messages, all to the chat. */
  lemma MediaEventsShape(from: string, sender: string, path: string, caption: string)
    ensures var r := MediaEvents(from, sender, path, caption);
      1 <= |r| <= 2 && forall e :: e in r ==> e.to == from
  {
    var r := MediaEvents(from, sender, path, caption);
    if !EndsWith(path, ".jpg") && !EndsWith(path, ".mp4") {
      if EndsWith(path, ".webp") {
        assert r == [Sticker(from, path), Text(from, caption, [sender])];
      } else if EndsWith(path, ".ogg") {
        assert r == [Audio(from, path, Some(OggMimetype), None), Text(from, caption, [sender])];
      }
    }
  }

  /** Every recovery sends at least one message, all of them to the chat. */
  lemma RecoveryShape(deleted: Cached, from: string, sender: string, mediaPath: Option<string>,
                      existing: set<string>, now: string)
    ensures var r := Recovery(deleted, from, sender, mediaPath, existing, now);
      |r| >= 1 && forall e :: e in r ==> e.to == from
  {
    if mediaPath.Some? && mediaPath.value in existing {
      MediaEventsShape(from, sender, mediaPath.value, Caption(sender, now));
    }
  }

  /** An update without a key, one that is not a delete, and one whose ids are uncached
      sends nothing; any other update sends at least one message, addressed to its chat. */
  lemma RecoverIff(messages: map<string, Cached>, media: map<string, string>,
                   env: Environment, u: Option<Update>)
    ensures Recover(messages, media, env, u) != [] <==>
      && u.Some? && u.value.key.Some? && IsDeleteEvent(u.value)
      && (PropertyKey(u.value.key.value.id) in messages
          || PropertyKey(FallbackId(u.value)) in messages)
    ensures forall e :: e in Recover(messages, media, env, u) ==>
              e.to == u.value.key.value.remoteJid
  {
    if u.Some? && u.value.key.Some? && IsDeleteEvent(u.value) {
      var key := u.value.key.value;
      var deleted := Lookup(messages, key.id, FallbackId(u.value));
      if deleted.Some? {
        RecoveryShape(deleted.value, key.remoteJid, Sender(key),
                      LookupPath(media, key.id, FallbackId(u.value)), env.existing, env.now);
      }
    }
  }

  /** The sends of a range split at any point in it. */
  lemma {:induction false} SentSplit(accepted: map<nat, nat>, plans: seq<seq<Event>>,
                                     lo: nat, mid: nat, hi: nat)
    requires lo <= mid <= hi <= |plans|
    ensures Sent(accepted, plans, lo, hi)
         == Sent(accepted, plans, lo, mid) + Sent(accepted, plans, mid, hi)
    decreases hi - mid
  {
    if mid < hi {
      SentSplit(accepted, plans, lo, mid, hi - 1);
    }
  }

  /** A range's sends do not depend on how the sends of an update outside it fare. */
  lemma {:induction false} SentLocal(accepted: map<nat, nat>, plans: seq<seq<Event>>,
                                     lo: nat, hi: nat, j: nat, k: nat)
    requires lo <= hi <= |plans|
    requires j < lo || hi <= j
    ensures Sent(accepted[j := k], plans, lo, hi) == Sent(accepted, plans, lo, hi)
    decreases hi - lo
  {
    if lo < hi {
      SentLocal(accepted, plans, lo, hi - 1, j, k);
    }
  }

  /** An update whose very first send throws costs only its own messages: the updates
      before and after it are sent exactly as they would be otherwise. */
  lemma FailureIsolated(accepted: map<nat, nat>, plans: seq<seq<Event>>, j: nat)
    requires j < |plans|
    ensures Sent(accepted[j := 0], plans, 0, |plans|)
         == Sent(accepted, plans, 0, j) + Sent(accepted, plans, j + 1, |plans|)
  {
    var n := |plans|;
    SentSplit(accepted[j := 0], plans, 0, j, n);
    SentSplit(accepted[j := 0], plans, j, j + 1, n);
    SentLocal(accepted, plans, 0, j, j, 0);
    SentLocal(accepted, plans, j + 1, n, j, 0);
  }

  /** With no failures, a batch sends each update's recovery in turn. */
  lemma {:induction false} SentAll(plans: seq<seq<Event>>, hi: nat)
    requires hi <= |plans|
    ensures Sent(map[], plans, 0, hi) == Flatten(plans[..hi])
  {
    if hi > 0 {
      SentAll(plans, hi - 1);
      FlattenSnoc(plans[..hi - 1], plans[hi - 1]);
      assert plans[..hi] == plans[..hi - 1] + [plans[hi - 1]];
    }
  }

  /** A file with one of the four media extensions is sent back as that kind of message. */
  lemma MediaKindByExtension(prefix: string, ext: string, from: string, sender: string,
                             caption: string)
    requires ext in {".jpg", ".mp4", ".ogg", ".webp"}
    ensures var path := prefix + ext;
      var sent := MediaEvents(from, sender, path, caption);
      && (ext == ".jpg" ==> sent == [Image(from, Some(path), caption, [sender])])
      && (ext == ".mp4" ==> sent == [Video(from, path, caption, [sender])])
      && (ext == ".webp" ==> sent == [Sticker(from, path), Text(from, caption, [sender])])
      && (ext == ".ogg" ==>
            sent == [Audio(from, path, Some(OggMimetype), None), Text(from, caption, [sender])])
  {
    EndsWithAppend(prefix, ext, ".jpg");
    EndsWithAppend(prefix, ext, ".mp4");
    EndsWithAppend(prefix, ext, ".ogg");
    if ext == ".webp" {
      EndsWithAppend(prefix, ext, ".webp");
    }
  }

  /** Media captured by `onMessage` has the extension its type calls for, so its recovery
      sends it back as the same kind of message. */
  lemma CapturedKindRecovered(folder: string, id: string, mediaType: string, content: Content,
                              from: string, sender: string, caption: string)
    requires mediaType in {"imageMessage", "videoMessage", "audioMessage", "stickerMessage"}
    ensures var path := MediaFile(folder, id, Extension(mediaType, content));
      var sent := MediaEvents(from, sender, path, caption);
      && (mediaType == "imageMessage" ==> sent == [Image(from, Some(path), caption, [sender])])
      && (mediaType == "videoMessage" ==> sent == [Video(from, path, caption, [sender])])
      && (mediaType == "stickerMessage" ==>
            sent == [Sticker(from, path), Text(from, caption, [sender])])
      && (mediaType == "audioMessage" ==>
            sent == [Audio(from, path, Some(OggMimetype), None), Text(from, caption, [sender])])
  {
    var ext := Extension(mediaType, content);
    MediaKindByExtension(folder + "/" + id, ext, from, sender, caption);
  }

  /* ---------------- The cache ---------------- */

  /** The module-level `deletedMessages` and `deletedMediaPath` dictionaries. */
  class Cache {
    var deletedMessages: map<string, Cached>
    var deletedMediaPath: map<string, string>
    const tempFolder: string

    /** Every entry is filed under its own id; media is only recorded for cached messages,
        as that id's file in the temp folder. */
    ghost predicate Valid()
      reads this
    {
      && deletedMediaPath.Keys <= deletedMessages.Keys
      && (forall k :: k in deletedMessages ==> PropertyKey(deletedMessages[k].key.id) == k)
      && (forall k :: k in deletedMediaPath ==> tempFolder + "/" + k <= deletedMediaPath[k])
    }

    constructor (folder: string)
      ensures Valid()
      ensures deletedMessages == map[] && deletedMediaPath == map[] && tempFolder == folder
    {
      deletedMessages := map[];
      deletedMediaPath := map[];
      tempFolder := folder;
    }

    /** `onMessage`; `writeOk` tells whether writing the media file succeeds. */
    method OnMessage(msg: Incoming, writeOk: bool)
      requires Valid()
      modifies this
      ensures Valid()
      ensures old(deletedMessages).Keys <= deletedMessages.Keys
      ensures old(deletedMediaPath).Keys <= deletedMediaPath.Keys
      ensures msg.message.None? || msg.key.fromMe ==>
                deletedMessages == old(deletedMessages)
                && deletedMediaPath == old(deletedMediaPath)
      ensures msg.message.Some? && !msg.key.fromMe ==>
                var id := PropertyKey(msg.key.id);
                && deletedMessages == old(deletedMessages)[id := Cached(msg.key, msg.message.value)]
                && deletedMediaPath ==
                     if msg.mediaBuffer && Truthy(msg.mediaType) && writeOk
                     then old(deletedMediaPath)[id := MediaFile(tempFolder, id,
                            Extension(msg.mediaType.value, msg.message.value))]
                     else old(deletedMediaPath)
    {
      if msg.message.None? || msg.key.fromMe {
        return;
      }
      var id := PropertyKey(msg.key.id);
      deletedMessages := deletedMessages[id := Cached(msg.key, msg.message.value)];
      if msg.mediaBuffer && Truthy(msg.mediaType) {
        var ext := Extension(msg.mediaType.value, msg.message.value);
        var filePath := MediaFile(tempFolder, id, ext);
        if writeOk {
          deletedMediaPath := deletedMediaPath[id := filePath];
        }
      }
    }

    /** The text extraction chain, with its scan of `Object.values` for a `text`. */
    static method ExtractText(m: Content) returns (text: Option<string>)
      ensures text == TextOf(m)
    {
      var conversation := Get(m, "conversation");
      if IsTruthy(conversation) {
        return Some(Display(conversation));
      } else if TextProp(Get(m, "extendedTextMessage")).Some? {
        return TextProp(Get(m, "extendedTextMessage"));
      } else if CaptionProp(Get(m, "imageMessage")).Some? {
        return CaptionProp(Get(m, "imageMessage"));
      } else if CaptionProp(Get(m, "videoMessage")).Some? {
        return CaptionProp(Get(m, "videoMessage"));
      } else if CaptionProp(Get(m, "documentMessage")).Some? {
        return CaptionProp(Get(m, "documentMessage"));
      }
      var values := Values(m);
      text := None;
      var i := 0;
      while i < |values|
        invariant 0 <= i <= |values|
        invariant text.None? && FirstText(values) == FirstText(values[i..])
      {
        assert values[i..][0] == values[i] && values[i..][1..] == values[i + 1..];
        if TextProp(values[i]).Some? {
          text := TextProp(values[i]);
          break;
        }
        i := i + 1;
      }
    }

    /** The `try` block for a cached message, as the statements that send one message after
        another; `Recovery` is the same block as a value, which the lemmas reason about. */
    method ResendOne(deleted: Cached, from: string, sender: string, mediaPath: Option<string>,
                     existing: set<string>, now: string) returns (sent: seq<Event>)
      ensures sent == Recovery(deleted, from, sender, mediaPath, existing, now)
    {
      var caption := Caption(sender, now);
      if mediaPath.Some? && mediaPath.value in existing {
        var path := mediaPath.value;
        if EndsWith(path, ".jpg") {
          sent := [Image(from, Some(path), caption, [sender])];
        } else if EndsWith(path, ".mp4") {
          sent := [Video(from, path, caption, [sender])];
        } else if EndsWith(path, ".webp") {
          sent := [Sticker(from, path), Text(from, caption, [sender])];
        } else if EndsWith(path, ".ogg") {
          sent := [Audio(from, path, Some(OggMimetype), None), Text(from, caption, [sender])];
        } else if EndsWith(path, ".pdf") {
          sent := [Document(from, path, None, None, Some(caption), [sender])];
        } else {
          sent := [Document(from, path, None, None, Some(caption), [sender])];
        }
      } else {
        var textMessage := ExtractText(deleted.message);
        if textMessage.Some? {
          sent := [Text(from, caption + "\n\n📝 *Message:* " + textMessage.value, [sender])];
        } else {
          sent := [Text(from, caption, [sender])];
        }
      }
    }

    /** `onDelete`: the messages sent back for a batch of updates, in order, when the
        sends of each update listed in `accepted` stop after that many. It changes neither
        cache map. */
    method OnDelete(updates: seq<Option<Update>>, env: Environment, accepted: map<nat, nat>)
      returns (sent: seq<Event>)
      ensures sent == Sent(accepted, Plans(deletedMessages, deletedMediaPath, env, updates),
                           0, |updates|)
    {
      ghost var plans := Plans(deletedMessages, deletedMediaPath, env, updates);
      sent := [];
      for i := 0 to |updates|
        invariant sent == Sent(accepted, plans, 0, i)
      {
        var u := updates[i];
        if u.None? || u.value.key.None? {
          continue;
        }
        if !IsDeleteEvent(u.value) {
          continue;
        }
        var key := u.value.key.value;
        var from := key.remoteJid;
        var sender := Sender(key);
        var deleted := Lookup(deletedMessages, key.id, FallbackId(u.value));
        if deleted.None? {
          continue;
        }
        var mediaPath := LookupPath(deletedMediaPath, key.id, FallbackId(u.value));
        var planned := ResendOne(deleted.value, from, sender, mediaPath, env.existing, env.now);
        sent := sent + Delivered(accepted, i, planned);
      }
    }
  }
}
