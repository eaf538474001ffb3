/** The messaging transport as the plugins see it: each `sendMessage` (and each `reply`,
    which sends a text to the chat the command came from) appends one event to an
    ordered log. Delivery itself is outside the model. */
module Transport {
  import opened Common

  datatype Event =
    | Text(to: string, text: string, mentions: seq<string>)
    | React(to: string, emoji: string)
    | Image(to: string, imageUrl: Option<string>, caption: string, mentions: seq<string>)
    | Video(to: string, url: string, caption: string, mentions: seq<string>)
    | Audio(to: string, url: string, mimetype: Option<string>, fileName: Option<string>)
    | Sticker(to: string, url: string)
    | Document(to: string, url: string, fileName: Option<string>, mimetype: Option<string>,
               documentCaption: Option<string>, mentions: seq<string>)

  /** `reply(text)`: a plain text to the originating chat. */
  function Reply(to: string, text: string): Event
  {
    Text(to, text, [])
  }

  /** The log of a batch of sends, one group of events after another. */
  function Flatten(xs: seq<seq<Event>>): seq<Event>
  {
    if xs == [] then [] else xs[0] + Flatten(xs[1..])
  }

  lemma {:induction false} FlattenSnoc(xs: seq<seq<Event>>, x: seq<Event>)
    ensures Flatten(xs + [x]) == Flatten(xs) + x
  {
    if xs != [] {
      assert (xs + [x])[1..] == xs[1..] + [x];
      FlattenSnoc(xs[1..], x);
    }
  }

  lemma {:induction false} FlattenAppend(xs: seq<seq<Event>>, ys: seq<seq<Event>>)
    ensures Flatten(xs + ys) == Flatten(xs) + Flatten(ys)
  {
    if xs == [] {
      assert xs + ys == ys;
    } else {
      assert (xs + ys)[1..] == xs[1..] + ys;
      FlattenAppend(xs[1..], ys);
    }
  }
}
