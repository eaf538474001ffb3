/** The group-administration commands of plugins/group.js: the bot's own id, the two admin
    tests over the group's participant list, how the target user of a command is found,
    and the order in which each command's guards are checked. */
module GroupAdmin {
  import opened Common
  import opened JsText
  import opened Transport

  const UserSuffix := "@s.whatsapp.net"

  /* ---------------- Identities and admin tests ---------------- */

  /** The bot's chat id: its login id up to the first `:`, as a user JID. */
  function BotId(userId: string): (r: string)
    ensures |r| >= |UserSuffix| && r[|r| - |UserSuffix|..] == UserSuffix
    ensures var head := r[..|r| - |UserSuffix|];
      && head <= userId && ':' !in head
      && (':' in userId ==> |head| < |userId| && userId[|head|] == ':')
      && (':' !in userId ==> head == userId)
  {
    var head := SplitHead(userId, ":");
    IncludesChar(head, ':');
    IncludesChar(userId, ':');
    var r := head + UserSuffix;
    assert r[..|r| - |UserSuffix|] == head;
    r
  }

  /** One member of the group as `groupMetadata` lists it; `admin` is missing for a plain
      member. */
  datatype Participant = Participant(id: string, admin: Option<string>)

  datatype Metadata = Metadata(owner: Option<string>, participants: seq<Participant>)

  predicate IsAdminRole(admin: Option<string>)
  {
    admin == Some("admin") || admin == Some("superadmin")
  }

  /** `participants.some(p => p.id === id && (p.admin === "admin" || p.admin === "superadmin"))`. */
  function HasAdmin(ps: seq<Participant>, id: string): bool
  {
    if ps == [] then false
    else (ps[0].id == id && IsAdminRole(ps[0].admin)) || HasAdmin(ps[1..], id)
  }

  /** `HasAdmin` is the existential it is written as. */
  lemma {:induction false} HasAdminIff(ps: seq<Participant>, id: string)
    ensures HasAdmin(ps, id) <==> exists i :: 0 <= i < |ps| && ps[i].id == id && IsAdminRole(ps[i].admin)
  {
    if ps != [] {
      HasAdminIff(ps[1..], id);
      assert forall i :: 1 <= i < |ps| ==> ps[i] == ps[1..][i - 1];
      if HasAdmin(ps[1..], id) {
        var i :| 0 <= i < |ps[1..]| && ps[1..][i].id == id && IsAdminRole(ps[1..][i].admin);
        assert ps[i + 1] == ps[1..][i];
      }
    }
  }

  /** `isUserAdmin`: the bot itself, or an admin or super-admin member. */
  predicate IsUserAdmin(meta: Metadata, sender: string, botId: string)
  {
    sender == botId || HasAdmin(meta.participants, sender)
  }

  /** `isBotAdmin`: the group's owner is the bot, or the bot is an admin or super-admin
      member. */
  predicate IsBotAdmin(meta: Metadata, botId: string)
  {
    meta.owner == Some(botId) || HasAdmin(meta.participants, botId)
  }

  lemma UserAdminIff(meta: Metadata, sender: string, botId: string)
    ensures IsUserAdmin(meta, sender, botId) <==>
      sender == botId
      || exists i :: 0 <= i < |meta.participants| && meta.participants[i].id == sender
                     && IsAdminRole(meta.participants[i].admin)
  {
    HasAdminIff(meta.participants, sender);
  }

  lemma BotAdminIff(meta: Metadata, botId: string)
    ensures IsBotAdmin(meta, botId) <==>
      meta.owner == Some(botId)
      || exists i :: 0 <= i < |meta.participants| && meta.participants[i].id == botId
                     && IsAdminRole(meta.participants[i].admin)
  {
    HasAdminIff(meta.participants, botId);
  }

  /** The test kick applies to its target: some member with that id has a truthy `admin`. */
  function HasAnyRole(ps: seq<Participant>, id: string): bool
  {
    if ps == [] then false
    else (ps[0].id == id && Truthy(ps[0].admin)) || HasAnyRole(ps[1..], id)
  }

  /** Every admin or super-admin is caught by the kick test. */
  lemma {:induction false} AdminHasAnyRole(ps: seq<Participant>, id: string)
    ensures HasAdmin(ps, id) ==> HasAnyRole(ps, id)
  {
    if ps != [] {
      AdminHasAnyRole(ps[1..], id);
    }
  }

  /** The kick test is strictly looser: a member whose `admin` field holds any other
      non-empty value is also refused although no admin test counts it as an admin. */
  lemma AnyRoleIsLooser()
    ensures var ps := [Participant("a@s.whatsapp.net", Some("member"))];
      HasAnyRole(ps, "a@s.whatsapp.net") && !HasAdmin(ps, "a@s.whatsapp.net")
  {
    var ps := [Participant("a@s.whatsapp.net", Some("member"))];
    assert ps[1..] == [];
  }

  /* ---------------- getTargetUser ---------------- */

  /** `getTargetUser`: the first mentioned JID, else the quoted message's sender, else the
      first argument made into a user JID when it contains `@`. */
  function TargetUser(mentioned: seq<string>, quotedSender: Option<string>, args: seq<string>)
    : Option<string>
  {
    if |mentioned| > 0 then Some(mentioned[0])
    else if Truthy(quotedSender) then quotedSender
    else if |args| > 0 && Includes(args[0], "@") then
      Some(ReplaceFirst(args[0], "@", "") + UserSuffix)
    else None
  }

  /** The target comes from the first source that offers one, in the order mentions, quoted
      sender, argument; an argument target is the argument with its first `@` cut out,
      followed by the user suffix. */
  lemma TargetUserOrder(mentioned: seq<string>, quotedSender: Option<string>, args: seq<string>)
    ensures var t := TargetUser(mentioned, quotedSender, args);
      && (|mentioned| > 0 ==> t == Some(mentioned[0]))
      && (|mentioned| == 0 && Truthy(quotedSender) ==> t == quotedSender)
      && (|mentioned| == 0 && !Truthy(quotedSender) ==>
            (t.Some? <==> |args| > 0 && '@' in args[0]))
      && (|mentioned| == 0 && !Truthy(quotedSender) && t.Some? ==>
            exists i :: 0 <= i < |args[0]| && args[0][i] == '@' && '@' !in args[0][..i]
                        && t.value == args[0][..i] + args[0][i + 1..] + UserSuffix)
  {
    if |args| > 0 {
      IncludesChar(args[0], '@');
      if '@' in args[0] {
        FirstAtRemoved(args[0]);
      }
    }
  }

  /** `replace("@", "")` cuts out the first `@` and nothing else. */
  lemma FirstAtRemoved(a: string)
    requires '@' in a
    ensures exists i :: 0 <= i < |a| && a[i] == '@' && '@' !in a[..i]
                        && ReplaceFirst(a, "@", "") == a[..i] + a[i + 1..]
  {
    IncludesChar(a, '@');
    var i := IndexOf(a, "@", 0).value;
    assert OccursAt(a, "@", i);
    assert a[i..i + 1][0] == a[i];
    NoEarlierOccurrence(a, "@", i);
    IncludesChar(a[..i], '@');
    assert a[..i] + "" == a[..i];
  }

  /* ---------------- The commands ---------------- */

  datatype Command = Kick | Promote | Demote | SetPicture | Open | Close

  /** A call into the messaging library that changes the group. */
  datatype Change =
    | UpdateParticipant(target: string, action: string)
    | UpdatePicture
    | UpdateSetting(setting: string)

  /** What a command sees: whether the chat is a group, who sent the command, the bot's
      login id, the group's metadata, the JIDs mentioned in the command, the quoted message
      (its sender and whether it is an image), the arguments, and whether the library call
      that makes the change succeeds. */
  datatype Request = Request(chat: string, isGroup: bool, sender: string, userId: string,
                             meta: Metadata, mentioned: seq<string>,
                             quotedSender: Option<string>, quotedImage: bool,
                             args: seq<string>, changeOk: bool)

  /** What a command sends and which change it asks for. */
  datatype Outcome = Outcome(events: seq<Event>, change: Option<Change>)

  function GroupOnlyText(c: Command): string
  {
    if c.Open? || c.Close? then "❌ Group only." else "❌ Group only command."
  }

  function UserAdminText(c: Command): string
  {
    if c.Kick? || c.Promote? || c.Demote? then "❌ You must be an admin." else "❌ You must be admin."
  }

  function BotAdminText(c: Command): string
  {
    if c.Kick? then "❌ I must be admin to do this." else "❌ I must be admin."
  }

  const NoTargetText := "❌ Mention or reply to a user."
  const TargetIsAdminText := "❌ I can’t kick another admin."
  const NoImageText := "❌ Reply to an image."
  const PictureDoneText := "✅ Group profile picture updated."
  const UnmutedText := "✅ Group unmuted."
  const MutedText := "✅ Group muted."

  /** The confirmation of a member change, mentioning the target. */
  function Confirmation(chat: string, verb: string, target: string): Event
  {
    Text(chat, "✅ " + verb + ": @" + SplitHead(target, "@"), [target])
  }

  /** The admin checks every command makes once the chat is known to be a group. */
  predicate Authorised(r: Request)
  {
    var botId := BotId(r.userId);
    IsUserAdmin(r.meta, r.sender, botId) && IsBotAdmin(r.meta, botId)
  }

  /** A command's handler: the group check first, then the two admin checks, then the
      command's own checks; the change is asked for after every check has passed, and the
      confirmation follows only if the change succeeded. */
  function Handle(c: Command, r: Request): Outcome
  {
    var botId := BotId(r.userId);
    if !r.isGroup then Outcome([Reply(r.chat, GroupOnlyText(c))], None)
    else if !IsUserAdmin(r.meta, r.sender, botId) then
      Outcome([Reply(r.chat, UserAdminText(c))], None)
    else if !IsBotAdmin(r.meta, botId) then Outcome([Reply(r.chat, BotAdminText(c))], None)
    else match c
      case Kick | Promote | Demote =>
        var target := TargetUser(r.mentioned, r.quotedSender, r.args);
        if !Truthy(target) then Outcome([Reply(r.chat, NoTargetText)], None)
        else if c.Kick? && HasAnyRole(r.meta.participants, target.value) then
          Outcome([Reply(r.chat, TargetIsAdminText)], None)
        else
          var t := target.value;
          var action := if c.Kick? then "remove" else if c.Promote? then "promote" else "demote";
          var verb := if c.Kick? then "Kicked" else if c.Promote? then "Promoted" else "Demoted";
          Outcome(if r.changeOk then [Confirmation(r.chat, verb, t)] else [],
                  Some(UpdateParticipant(t, action)))
      case SetPicture =>
        if !r.quotedImage then Outcome([Reply(r.chat, NoImageText)], None)
        else Outcome(if r.changeOk then [Reply(r.chat, PictureDoneText)] else [],
                     Some(UpdatePicture))
      case Open =>
        Outcome(if r.changeOk then [Reply(r.chat, UnmutedText)] else [],
                Some(UpdateSetting("not_announcement")))
      case Close =>
        Outcome(if r.changeOk then [Reply(r.chat, MutedText)] else [],
                Some(UpdateSetting("announcement")))
  }

  /** Outside a group every command answers with its group-only notice and nothing else,
      whatever the rest of the request holds. */
  lemma GroupCheckFirst(c: Command, r: Request, r': Request)
    requires !r.isGroup && !r'.isGroup && r.chat == r'.chat
    ensures Handle(c, r) == Handle(c, r')
    ensures Handle(c, r) == Outcome([Reply(r.chat, GroupOnlyText(c))], None)
  {
  }

  /** No change is asked for unless the chat is a group, the sender passes the user admin
      test and the bot passes the bot admin test; printed notices otherwise say which test
      failed. */
  lemma ChangeNeedsAdmins(c: Command, r: Request)
    ensures Handle(c, r).change.Some? ==> r.isGroup && Authorised(r)
    ensures r.isGroup && !IsUserAdmin(r.meta, r.sender, BotId(r.userId)) ==>
      Handle(c, r) == Outcome([Reply(r.chat, UserAdminText(c))], None)
    ensures r.isGroup && IsUserAdmin(r.meta, r.sender, BotId(r.userId))
            && !IsBotAdmin(r.meta, BotId(r.userId)) ==>
      Handle(c, r) == Outcome([Reply(r.chat, BotAdminText(c))], None)
  {
  }

  /** Kick, promote and demote without a target answer with the prompt to mention a user. */
  lemma MissingTarget(c: Command, r: Request)
    requires c.Kick? || c.Promote? || c.Demote?
    requires r.isGroup && Authorised(r)
    requires !Truthy(TargetUser(r.mentioned, r.quotedSender, r.args))
    ensures Handle(c, r) == Outcome([Reply(r.chat, NoTargetText)], None)
  {
  }

  /** A member change always concerns the target found by `TargetUser`, and kick never
      asks to remove a member whose `admin` field is set, let alone an admin. */
  lemma MemberChangeTarget(c: Command, r: Request)
    requires Handle(c, r).change.Some? && Handle(c, r).change.value.UpdateParticipant?
    ensures c.Kick? || c.Promote? || c.Demote?
    ensures var t := Handle(c, r).change.value.target;
      && TargetUser(r.mentioned, r.quotedSender, r.args) == Some(t) && t != ""
      && (c.Kick? ==> !HasAnyRole(r.meta.participants, t) && !HasAdmin(r.meta.participants, t))
  {
    var t := Handle(c, r).change.value.target;
    AdminHasAnyRole(r.meta.participants, t);
  }

  /** When every check passes and the change succeeds, exactly one confirmation is sent,
      after the change. */
  lemma ConfirmedOnlyOnSuccess(c: Command, r: Request)
    ensures Handle(c, r).change.Some? ==>
      (|Handle(c, r).events| == 1 <==> r.changeOk)
      && (!r.changeOk ==> Handle(c, r).events == [])
    ensures Handle(c, r).change.None? ==> |Handle(c, r).events| == 1
  {
  }
}
