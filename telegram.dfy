/**
 * The parts of the Telegram adapters that the live sync and the backfill
 * share: display names of users and chats, the media label, the note line of
 * one message, the note file of a chat, appending to it, and the live sync's
 * per-chat high-water mark of message ids.
 */
module Telegram {
  import opened Text
  import opened FileNames

  /** The kinds of peer the client hands back; `OtherEntity` may lack an id. */
  datatype Entity =
    | User(id: int, firstName: Option<string>, lastName: Option<string>, username: Option<string>)
    | Chat(id: int, title: Option<string>)
    | Channel(id: int, title: Option<string>)
    | OtherEntity(otherId: Option<int>)

  /** `is_group`: chats and channels. */
  predicate IsGroup(e: Entity)
  {
    e.Chat? || e.Channel?
  }

  /** `" ".join(p for p in [first, last] if p).strip()` */
  function FullName(first: string, last: string): string
  {
    Strip(if first != "" && last != "" then first + " " + last else first + last)
  }

  /** get_entity_name */
  function EntityName(e: Entity): (r: string)
    ensures r != ""
  {
    match e
    case User(id, first, last, username) =>
      var full := FullName(OrElse(first, ""), OrElse(last, ""));
      if full != "" then full else OrElse(username, "User_" + IntToString(id))
    case Chat(id, title) => OrElse(title, "Group_" + IntToString(id))
    case Channel(id, title) => OrElse(title, "Group_" + IntToString(id))
    case OtherEntity(id) => "Unknown_" + (if id.Some? then IntToString(id.value) else "entity")
  }

  /**
   * Which name each kind of peer gets: a user's joined first and last name,
   * else the username, else "User_<id>"; a group's or channel's title, else
   * "Group_<id>"; anything else "Unknown_<id>".
   */
  lemma EntityNameSpec(e: Entity)
    ensures e.User? && OrElse(e.firstName, "") != "" && OrElse(e.lastName, "") != ""
            && Strip(OrElse(e.firstName, "") + " " + OrElse(e.lastName, "")) != ""
      ==> EntityName(e) == Strip(OrElse(e.firstName, "") + " " + OrElse(e.lastName, ""))
    ensures e.User? && Strip(OrElse(e.firstName, "")) != "" && OrElse(e.lastName, "") == ""
      ==> EntityName(e) == Strip(OrElse(e.firstName, ""))
    ensures e.User? && OrElse(e.firstName, "") == "" && Strip(OrElse(e.lastName, "")) != ""
      ==> EntityName(e) == Strip(OrElse(e.lastName, ""))
    ensures e.User? && FullName(OrElse(e.firstName, ""), OrElse(e.lastName, "")) == ""
      ==> EntityName(e) == OrElse(e.username, "User_" + IntToString(e.id))
    ensures e.User? && OrElse(e.firstName, "") == "" && OrElse(e.lastName, "") == ""
      ==> EntityName(e) == OrElse(e.username, "User_" + IntToString(e.id))
    ensures IsGroup(e) ==> EntityName(e) == OrElse(e.title, "Group_" + IntToString(e.id))
    ensures e.OtherEntity? ==> StartsWith(EntityName(e), "Unknown_")
  {
    if e.User? {
      var f := OrElse(e.firstName, "");
      var l := OrElse(e.lastName, "");
      assert f + "" == f;
      assert "" + l == l;
      if f == "" && OrElse(e.lastName, "") == "" {
        assert FullName("", "") == "";
      }
    }
  }

  // ---------------------------------------------------------------------
  // Media

  /** A document's attributes: `Some(name)` for one that carries a file name. */
  datatype Document = Document(attributes: seq<Option<string>>, mimeType: string)

  datatype Media = NoMedia | Photo | DocumentMedia(document: Option<Document>) | OtherMedia

  /** The first attribute carrying a file name. */
  function FirstFileName(attributes: seq<Option<string>>): (r: Option<string>)
    ensures r.Some? ==> exists i :: 0 <= i < |attributes| && attributes[i] == r
    ensures r.None? ==> forall i :: 0 <= i < |attributes| ==> attributes[i].None?
  {
    if attributes == [] then None
    else if attributes[0].Some? then attributes[0]
    else FirstFileName(attributes[1..])
  }

  /** get_media_description */
  function MediaDescription(m: Media): string
  {
    match m
    case NoMedia => ""
    case Photo => "[Photo]"
    case DocumentMedia(doc) =>
      if doc.None? then "[Media]"
      else
        var name := FirstFileName(doc.value.attributes);
        if name.Some? then "[File: " + name.value + "]"
        else if Contains(doc.value.mimeType, "video") then "[Video]"
        else if Contains(doc.value.mimeType, "audio") then "[Audio]"
        else if Contains(doc.value.mimeType, "voice") then "[Voice]"
        else "[Document]"
    case OtherMedia => "[Media]"
  }

  /** The label is empty exactly when there is no media, and otherwise is bracketed. */
  lemma MediaDescriptionSpec(m: Media)
    ensures MediaDescription(m) == "" <==> m.NoMedia?
    ensures m != NoMedia ==> var d := MediaDescription(m);
      |d| >= 2 && d[0] == '[' && d[|d| - 1] == ']'
  {
  }

  /** A MIME type naming both audio and voice is labelled audio: the audio test comes first. */
  lemma AudioBeforeVoice(doc: Document)
    requires FirstFileName(doc.attributes).None?
    requires !Contains(doc.mimeType, "video") && Contains(doc.mimeType, "audio")
    ensures MediaDescription(DocumentMedia(Some(doc))) == "[Audio]"
  {
  }

  // ---------------------------------------------------------------------
  // One message as a note line

  /** The media label and the text, joined by a space when both are there. */
  function MessageContent(media: Media, text: string): (r: string)
  {
    var d := MediaDescription(media);
    if d != "" && text != "" then d + " " + text else d + text
  }

  /**
   * format_message: `[stamp] sender: content  ` and a newline, with "Me" for
   * outgoing messages; `stamp` is the message date formatted as
   * "%Y-%m-%d %H:%M:%S".
   */
  function FormatMessage(stamp: string, media: Media, text: string, senderName: string,
                         isOutgoing: bool): string
  {
    var content := MessageContent(media, text);
    if content == "" then ""
    else "[" + stamp + "] " + (if isOutgoing then "Me" else senderName) + ": " + content + "  \n"
  }

  /** The content is empty exactly when there is neither media nor text. */
  lemma MessageContentSpec(media: Media, text: string)
    ensures MessageContent(media, text) == "" <==> media.NoMedia? && text == ""
    ensures media.NoMedia? ==> MessageContent(media, text) == text
    ensures text == "" ==> MessageContent(media, text) == MediaDescription(media)
  {
    MediaDescriptionSpec(media);
    assert MediaDescription(media) + "" == MediaDescription(media);
  }

  /**
   * A line is produced exactly when there is media or text; it opens with
   * the stamp and the sender ("Me" when outgoing) and closes with two spaces
   * and a newline.
   */
  lemma FormatMessageSpec(stamp: string, media: Media, text: string, senderName: string,
                          isOutgoing: bool)
    ensures var r := FormatMessage(stamp, media, text, senderName, isOutgoing);
      var lead := "[" + stamp + "] " + (if isOutgoing then "Me" else senderName) + ": ";
      && (r == "" <==> media.NoMedia? && text == "")
      && (r != "" ==> StartsWith(r, lead) && EndsWith(r, "  \n"))
      && (r != "" ==> r[|lead|..|r| - 3] == MessageContent(media, text))
  {
    MessageContentSpec(media, text);
    var r := FormatMessage(stamp, media, text, senderName, isOutgoing);
    if r != "" {
      var lead := "[" + stamp + "] " + (if isOutgoing then "Me" else senderName) + ": ";
      var content := MessageContent(media, text);
      assert r == lead + content + "  \n";
      LeadContentTail(lead, content, "  \n");
    }
  }

  // ---------------------------------------------------------------------
  // Note files

  /** The sub-folder of a chat's note. */
  function Folder(isGroupChat: bool): string
  {
    if isGroupChat then "Groups/" else "DMs/"
  }

  /** get_chat_file, relative to the Telegram notes folder. */
  function ChatFile(chatName: string, isGroupChat: bool): string
  {
    Folder(isGroupChat) + Sanitize(chatName) + ".md"
  }

  lemma SanitizedNoSlash(chatName: string)
    ensures '/' !in Sanitize(chatName)
  {
    var name := Sanitize(chatName);
    SanitizeSafe(chatName);
    forall i | 0 <= i < |name| ensures name[i] != '/' {
      assert !Unsafe(name[i]);
    }
  }

  /**
   * A chat's file sits directly in its folder: the part after the folder
   * holds no "/".
   */
  lemma ChatFileSpec(chatName: string, isGroupChat: bool)
    ensures var dir := Folder(isGroupChat);
      var f := ChatFile(chatName, isGroupChat);
      && StartsWith(f, dir) && EndsWith(f, ".md")
      && '/' !in f[|dir|..]
  {
    SanitizedNoSlash(chatName);
    InFolder(Folder(isGroupChat), Sanitize(chatName), ".md");
  }

  /** A group's file never coincides with a direct chat's. */
  lemma ChatFilesApart(groupName: string, chatName: string)
    ensures ChatFile(groupName, true) != ChatFile(chatName, false)
  {
    assert ChatFile(groupName, true)[0] == 'G';
    assert ChatFile(chatName, false)[0] == 'D';
  }

  /** The header of a new note, up to its "---" rule. */
  function Banner(chatName: string, isGroupChat: bool): string
  {
    "# " + chatName + "\n\n_Telegram " + (if isGroupChat then "group" else "chat")
    + " - live sync via telethon_\n\n---"
  }

  /**
   * write_message_to_file on the file's content (None for a missing file): a
   * non-empty line is appended after a newline, and a new file first gets the
   * header; an empty line leaves the file alone.
   */
  function AppendMessage(file: Option<string>, formatted: string, chatName: string,
                         isGroupChat: bool): Option<string>
  {
    if formatted == "" then file
    else Some((if file.Some? then file.value else Banner(chatName, isGroupChat) + "\n") + "\n" + formatted)
  }

  /** Appending keeps what was there in front and puts the line last. */
  lemma AppendMessageSpec(file: Option<string>, formatted: string, chatName: string,
                          isGroupChat: bool)
    ensures var r := AppendMessage(file, formatted, chatName, isGroupChat);
      && (formatted == "" ==> r == file)
      && (formatted != "" ==> r.Some? && EndsWith(r.value, "\n" + formatted))
      && (formatted != "" && file.Some? ==> StartsWith(r.value, file.value))
      && (formatted != "" && file.None? ==> StartsWith(r.value, Banner(chatName, isGroupChat) + "\n"))
  {
    var r := AppendMessage(file, formatted, chatName, isGroupChat);
    if formatted != "" {
      var base := if file.Some? then file.value else Banner(chatName, isGroupChat) + "\n";
      assert r.value == base + ("\n" + formatted);
    }
  }

  /** Two appends to an existing note add both lines in order. */
  lemma AppendTwice(file: string, a: string, b: string, chatName: string, isGroupChat: bool)
    requires a != "" && b != ""
    ensures AppendMessage(AppendMessage(Some(file), a, chatName, isGroupChat), b, chatName, isGroupChat)
      == Some(file + "\n" + a + "\n" + b)
  {
  }

  // ---------------------------------------------------------------------
  // The live sync's per-chat mark

  datatype ChatMark = ChatMark(lastMsgId: int, name: string, updated: string)

  /** get_last_msg_id */
  function LastMsgId(chats: map<int, ChatMark>, chat: int): (r: Option<int>)
    ensures r.None? <==> chat !in chats
  {
    if chat in chats then Some(chats[chat].lastMsgId) else None
  }

  /** The stored id, 0 when the chat is unknown. */
  function MarkOf(chats: map<int, ChatMark>, chat: int): int
  {
    if chat in chats then chats[chat].lastMsgId else 0
  }

  /** SyncState.update: the record is replaced only by a greater message id. */
  function Advance(chats: map<int, ChatMark>, chat: int, msgId: int, name: string,
                   now: string): map<int, ChatMark>
  {
    if msgId > MarkOf(chats, chat) then chats[chat := ChatMark(msgId, name, now)] else chats
  }

  function Max(a: int, b: int): int
  {
    if a < b then b else a
  }

  /**
   * The mark is the running maximum of the ids seen (counting from 0), no
   * other chat is touched, and nothing changes unless the id is greater.
   */
  lemma AdvanceSpec(chats: map<int, ChatMark>, chat: int, msgId: int, name: string,
                    now: string, other: int)
    ensures var c := Advance(chats, chat, msgId, name, now);
      && MarkOf(c, chat) == Max(MarkOf(chats, chat), msgId)
      && (other != chat ==> LastMsgId(c, other) == LastMsgId(chats, other))
      && (msgId <= MarkOf(chats, chat) ==> c == chats)
      && (msgId > MarkOf(chats, chat) ==> c[chat] == ChatMark(msgId, name, now))
  {
  }

  /** Seeing two ids in either order leaves the same mark. */
  lemma AdvanceOrder(chats: map<int, ChatMark>, chat: int, a: int, b: int, name: string,
                     now: string)
    ensures MarkOf(Advance(Advance(chats, chat, a, name, now), chat, b, name, now), chat)
         == MarkOf(Advance(Advance(chats, chat, b, name, now), chat, a, name, now), chat)
  {
    AdvanceSpec(chats, chat, a, name, now, chat);
    AdvanceSpec(Advance(chats, chat, a, name, now), chat, b, name, now, chat);
    AdvanceSpec(chats, chat, b, name, now, chat);
    AdvanceSpec(Advance(chats, chat, b, name, now), chat, a, name, now, chat);
  }

  class SyncState {
    var chats: map<int, ChatMark>
    var initialSyncDone: bool

    constructor (chats: map<int, ChatMark>, initialSyncDone: bool)
      ensures this.chats == chats && this.initialSyncDone == initialSyncDone
    {
      this.chats := chats;
      this.initialSyncDone := initialSyncDone;
    }

    method GetLastMsgId(chat: int) returns (id: Option<int>)
      ensures id == LastMsgId(chats, chat)
      ensures id.Some? ==> id.value == MarkOf(chats, chat)
    {
      if chat in chats {
        id := Some(chats[chat].lastMsgId);
      } else {
        id := None;
      }
    }

    method Update(chat: int, msgId: int, name: string, now: string)
      modifies this
      ensures chats == Advance(old(chats), chat, msgId, name, now)
      ensures initialSyncDone == old(initialSyncDone)
    {
      var current := if chat in chats then chats[chat].lastMsgId else 0;
      if msgId > current {
        chats := chats[chat := ChatMark(msgId, name, now)];
      }
    }

    /** The `initial_sync_done` setter: the flag changes, the per-chat marks do not. */
    method SetInitialSyncDone(value: bool)
      modifies this
      ensures initialSyncDone == value && chats == old(chats)
    {
      initialSyncDone := value;
    }
  }
}
