/**
 * The Signal adapter: signal-cli emits one JSON envelope per line; each one
 * is decoded into a Message, deduplicated against a per-chat high-water mark
 * of millisecond timestamps, and appended to the chat's note as one line.
 *
 * A JSON object is modelled as a datatype whose fields are the keys the
 * adapter reads; `Some(x)` of an object stands for a non-empty object (Python
 * treats `{}` as false) and `None` for a missing, null or empty one.
 */
module SignalSync {
  import opened Text
  import opened FileNames

  /** Timestamps below this many milliseconds (before 2001) are rejected. */
  const MinTimestamp: int := 1000000000000

  datatype Message = Message(
    timestamp: int,             // milliseconds since the epoch
    senderNumber: string,
    senderName: string,
    text: string,
    groupId: Option<string>,
    groupName: Option<string>,
    attachments: seq<string>,   // the major part of each attachment's MIME type
    isOutgoing: bool)

  predicate IsGroup(m: Message)
  {
    m.groupId.Some?
  }

  /** The key of the conversation: the group for group messages, the peer otherwise. */
  function ChatId(m: Message): (r: string)
    ensures r != ""
    ensures IsGroup(m) && m.groupId.value != "" ==> r == m.groupId.value
    ensures IsGroup(m) && m.groupId.value == "" ==> r == "unknown_group"
    ensures !IsGroup(m) && m.senderNumber != "" ==> r == m.senderNumber
    ensures !IsGroup(m) && m.senderNumber == "" ==> r == "unknown"
  {
    if IsGroup(m) then OrElse(m.groupId, "unknown_group") else if m.senderNumber != "" then m.senderNumber else "unknown"
  }

  /** Two direct chats with different known peers are kept apart. */
  lemma ChatIdSeparates(m: Message, n: Message)
    requires !IsGroup(m) && !IsGroup(n)
    requires m.senderNumber != "" && n.senderNumber != ""
    ensures ChatId(m) == ChatId(n) <==> m.senderNumber == n.senderNumber
  {
  }

  function DisplaySender(m: Message): (r: string)
    ensures r != ""
    ensures m.isOutgoing ==> r == "Me"
    ensures !m.isOutgoing && m.senderName != "" ==> r == m.senderName
  {
    if m.isOutgoing then "Me"
    else if m.senderName != "" then m.senderName
    else if m.senderNumber != "" then m.senderNumber
    else "Unknown"
  }

  // ---------------------------------------------------------------------
  // Contacts

  /** `update(number, name)`: a name is stored only when it says more than the number. */
  function Learn(cache: map<string, string>, number: string, name: string): (r: map<string, string>)
  {
    if number != "" && name != "" && name != number then cache[number := name] else cache
  }

  /** `get_name(number)` */
  function NameOf(cache: map<string, string>, number: string): (r: string)
    ensures number == "" ==> r == "Unknown"
    ensures number != "" && number !in cache ==> r == number
  {
    if number == "" then "Unknown" else if number in cache then cache[number] else number
  }

  /** Every cached entry maps a number to a non-empty name. */
  predicate Named(cache: map<string, string>)
  {
    forall k :: k in cache ==> k != "" && cache[k] != ""
  }

  /** Learning keeps the cache named, and a known name is never empty. */
  lemma LearnNamed(cache: map<string, string>, number: string, name: string, other: string)
    requires Named(cache)
    ensures Named(Learn(cache, number, name))
    ensures NameOf(cache, other) != ""
  {
  }

  /**
   * After learning, the number's name is the new one exactly when the new one
   * was worth storing, and every other number keeps its name.
   */
  lemma LearnThenName(cache: map<string, string>, number: string, name: string, other: string)
    ensures var c := Learn(cache, number, name);
      && (number != "" && name != "" && name != number ==> NameOf(c, number) == name)
      && (name == "" || name == number ==> c == cache)
      && (other != number ==> NameOf(c, other) == NameOf(cache, other))
  {
  }

  class ContactsCache {
    var names: map<string, string>

    constructor (names: map<string, string>)
      ensures this.names == names
    {
      this.names := names;
    }

    method GetName(number: string) returns (name: string)
      ensures name == NameOf(names, number)
      ensures Named(names) ==> name != ""
    {
      if number == "" {
        return "Unknown";
      }
      if number in names {
        name := names[number];
      } else {
        name := number;
      }
    }

    method Update(number: string, name: string)
      modifies this
      ensures names == Learn(old(names), number, name)
      ensures old(Named(names)) ==> Named(names)
    {
      if number != "" && name != "" && name != number {
        names := names[number := name];
      }
    }
  }

  // ---------------------------------------------------------------------
  // Envelopes

  datatype GroupInfo = GroupInfo(groupId: Option<string>, groupName: Option<string>, title: Option<string>)

  datatype Attachment = Attachment(contentType: Option<string>)

  /** A `dataMessage` or a `sentMessage` object. */
  datatype Body = Body(
    timestamp: Option<int>,
    message: Option<string>,
    destinationNumber: Option<string>,
    destination: Option<string>,
    groupInfo: Option<GroupInfo>,
    groupV2: Option<GroupInfo>,
    attachments: seq<Attachment>)

  datatype SyncMessage = SyncMessage(sentMessage: Option<Body>)

  datatype Envelope = Envelope(
    sourceNumber: Option<string>,
    source: Option<string>,
    sourceName: Option<string>,
    timestamp: Option<int>,
    dataMessage: Option<Body>,
    syncMessage: Option<SyncMessage>)

  /** One decoded JSON line of signal-cli's output. */
  datatype Line = Line(envelope: Option<Envelope>, account: Option<string>)

  /** `a or b or 0` on optional integers. */
  function FirstStamp(a: Option<int>, b: Option<int>): int
  {
    if a.Some? && a.value != 0 then a.value else if b.Some? && b.value != 0 then b.value else 0
  }

  function SenderNumber(e: Envelope): string
  {
    OrElse(e.sourceNumber, OrElse(e.source, ""))
  }

  /** `data.get("account", "")` */
  function Account(l: Line): string
  {
    if l.account.Some? then l.account.value else ""
  }

  function GroupOf(b: Body): Option<GroupInfo>
  {
    if b.groupInfo.Some? then b.groupInfo else b.groupV2
  }

  function GroupIdOf(b: Body): Option<string>
  {
    if GroupOf(b).Some? then GroupOf(b).value.groupId else None
  }

  /** `group_info.get("groupName") or group_info.get("title")` */
  function GroupNameOf(b: Body): Option<string>
  {
    var g := GroupOf(b);
    if g.None? then None else if Truthy(g.value.groupName) then g.value.groupName else g.value.title
  }

  /** `a.get("contentType", "file").split("/")[0]` for every attachment. */
  function Kinds(atts: seq<Attachment>): (r: seq<string>)
    ensures |r| == |atts|
  {
    if atts == [] then []
    else
      var ct := if atts[0].contentType.Some? then atts[0].contentType.value else "file";
      [BeforeFirst(ct, '/')] + Kinds(atts[1..])
  }

  /** The contacts-cache update `parse_envelope` makes before decoding. */
  function LearnFrom(l: Line, cache: map<string, string>): map<string, string>
  {
    if l.envelope.None? then cache
    else
      var e := l.envelope.value;
      var name := OrElse(e.sourceName, "");
      var number := SenderNumber(e);
      if name != "" && number != "" then Learn(cache, number, name) else cache
  }

  /** The message `parse_envelope` decodes, given the cache after its update. */
  function Decode(l: Line, cache: map<string, string>): Option<Message>
  {
    if l.envelope.None? then None
    else
      var e := l.envelope.value;
      if e.dataMessage.Some? then
        var dm := e.dataMessage.value;
        var ts := FirstStamp(dm.timestamp, e.timestamp);
        var number := SenderNumber(e);
        if ts < MinTimestamp then None
        else Some(Message(ts, number, NameOf(cache, number), OrElse(dm.message, ""),
                          GroupIdOf(dm), GroupNameOf(dm), Kinds(dm.attachments), number == Account(l)))
      else if e.syncMessage.Some? && e.syncMessage.value.sentMessage.Some? then
        var sent := e.syncMessage.value.sentMessage.value;
        var ts := FirstStamp(sent.timestamp, None);
        var dest := OrElse(sent.destinationNumber, OrElse(sent.destination, ""));
        if ts < MinTimestamp then None
        else Some(Message(ts, dest, NameOf(cache, dest), OrElse(sent.message, ""),
                          GroupIdOf(sent), GroupNameOf(sent), Kinds(sent.attachments), true))
      else None
  }

  /**
   * What a decoded message is: never older than 2001; a data message is
   * outgoing exactly when it comes from the account itself; a sent message is
   * always outgoing and names its destination as the peer; the sender's name
   * is looked up in the cache; nothing decodes without an envelope or without
   * either kind of message.
   */
  lemma DecodeSpec(l: Line, cache: map<string, string>)
    ensures var r := Decode(l, cache);
      && (l.envelope.None? ==> r.None?)
      && (r.Some? ==> r.value.timestamp >= MinTimestamp)
      && (r.Some? ==> r.value.senderName == NameOf(cache, r.value.senderNumber))
      && (l.envelope.Some? && l.envelope.value.dataMessage.Some? && r.Some? ==>
            r.value.senderNumber == SenderNumber(l.envelope.value)
            && (r.value.isOutgoing <==> r.value.senderNumber == Account(l)))
      && (l.envelope.Some? && l.envelope.value.dataMessage.None? && r.Some? ==>
            var sent := l.envelope.value.syncMessage.value.sentMessage.value;
            r.value.isOutgoing
            && r.value.senderNumber == OrElse(sent.destinationNumber, OrElse(sent.destination, "")))
      && (l.envelope.Some? && l.envelope.value.dataMessage.None?
          && (l.envelope.value.syncMessage.None? || l.envelope.value.syncMessage.value.sentMessage.None?)
          ==> r.None?)
  {
  }

  /** A timestamp of zero counts as missing and falls through to the next source. */
  lemma DecodeRejectsOld(l: Line, cache: map<string, string>)
    requires l.envelope.Some? && l.envelope.value.dataMessage.Some?
    requires FirstStamp(l.envelope.value.dataMessage.value.timestamp, l.envelope.value.timestamp) < MinTimestamp
    ensures Decode(l, cache).None?
  {
  }

  /** parse_envelope: learn the sender's name, then decode. */
  method ParseEnvelope(l: Line, contacts: ContactsCache) returns (msg: Option<Message>)
    modifies contacts
    ensures contacts.names == LearnFrom(l, old(contacts.names))
    ensures msg == Decode(l, contacts.names)
  {
    if l.envelope.None? {
      return None;
    }
    var e := l.envelope.value;
    var number := SenderNumber(e);
    var name := OrElse(e.sourceName, "");
    if name != "" && number != "" {
      contacts.Update(number, name);
    }
    if e.dataMessage.Some? {
      var dm := e.dataMessage.value;
      var ts := FirstStamp(dm.timestamp, e.timestamp);
      if ts < MinTimestamp {
        return None;
      }
      var senderName := contacts.GetName(number);
      msg := Some(Message(ts, number, senderName, OrElse(dm.message, ""),
                          GroupIdOf(dm), GroupNameOf(dm), Kinds(dm.attachments), number == Account(l)));
      return;
    }
    if e.syncMessage.Some? && e.syncMessage.value.sentMessage.Some? {
      var sent := e.syncMessage.value.sentMessage.value;
      var ts := FirstStamp(sent.timestamp, None);
      if ts < MinTimestamp {
        return None;
      }
      var dest := OrElse(sent.destinationNumber, OrElse(sent.destination, ""));
      var destName := contacts.GetName(dest);
      msg := Some(Message(ts, dest, destName, OrElse(sent.message, ""),
                          GroupIdOf(sent), GroupNameOf(sent), Kinds(sent.attachments), true));
      return;
    }
    msg := None;
  }

  // ---------------------------------------------------------------------
  // The line appended to the chat note

  function Bracketed(kinds: seq<string>): (r: seq<string>)
    ensures |r| == |kinds|
  {
    if kinds == [] then [] else ["[" + kinds[0] + "]"] + Bracketed(kinds[1..])
  }

  /** The attachments as "[type]" joined by single spaces. */
  function AttachmentText(kinds: seq<string>): string
  {
    Join(Bracketed(kinds), " ")
  }

  /** The content of the note line: attachments first, two spaces, then the text. */
  function Content(m: Message): string
  {
    if m.attachments == [] then m.text
    else if m.text != "" then Strip(AttachmentText(m.attachments) + "  " + m.text)
    else AttachmentText(m.attachments)
  }

  /** The line `write_message_atomic` appends, or None when there is nothing to write. */
  function NoteLine(m: Message, stamp: string): Option<string>
  {
    var c := Content(m);
    if c == "" then None else Some("\n[" + stamp + "] " + DisplaySender(m) + ": " + c + "  \n")
  }

  lemma JoinStarts(parts: seq<string>, sep: string)
    requires parts != []
    ensures StartsWith(Join(parts, sep), parts[0])
  {
    if |parts| > 1 {
      assert Join(parts, sep) == parts[0] + (sep + Join(parts[1..], sep));
    }
  }

  /** Stripping a string that opens with `p`, whose last character is not whitespace, keeps `p` in front. */
  lemma StripKeepsFront(s: string, p: string)
    requires StartsWith(s, p) && p != [] && !IsSpace(p[0]) && !IsSpace(p[|p| - 1])
    ensures StartsWith(Strip(s), p)
  {
    assert TrimStart(s) == s;
    TrimEndSpec(s);
    var r := TrimEnd(s);
    assert s[|p| - 1] == p[|p| - 1];
    assert |r| >= |p|;
    assert r[..|p|] == s[..|p|];
  }

  /**
   * The content is empty exactly when there is neither text nor attachment;
   * with attachments it opens with the first one in brackets, and without
   * them it is the text.
   */
  lemma ContentSpec(m: Message)
    ensures Content(m) == "" <==> m.attachments == [] && m.text == ""
    ensures m.attachments == [] ==> Content(m) == m.text
    ensures m.attachments != [] ==> StartsWith(Content(m), "[" + m.attachments[0] + "]")
    ensures NoteLine(m, "").None? <==> Content(m) == ""
  {
    if m.attachments != [] {
      var first := "[" + m.attachments[0] + "]";
      var parts := Bracketed(m.attachments);
      assert parts[0] == first;
      JoinStarts(parts, " ");
      var a := AttachmentText(m.attachments);
      if m.text != "" {
        assert StartsWith(a + "  " + m.text, first) by {
          assert (a + "  " + m.text)[..|first|] == a[..|first|];
        }
        StripKeepsFront(a + "  " + m.text, first);
      }
    }
  }

  // ---------------------------------------------------------------------
  // Per-chat high-water mark

  datatype ChatRecord = ChatRecord(ts: int, name: string)

  /** `get_last_timestamp(chat_id)` */
  function LastTimestamp(chats: map<string, ChatRecord>, chat: string): Option<int>
  {
    if chat in chats then Some(chats[chat].ts) else None
  }

  class SyncState {
    var chats: map<string, ChatRecord>

    constructor (chats: map<string, ChatRecord>)
      ensures this.chats == chats
    {
      this.chats := chats;
    }

    method Update(chat: string, ts: int, name: string)
      modifies this
      ensures chats == old(chats)[chat := ChatRecord(ts, name)]
    {
      chats := chats[chat := ChatRecord(ts, name)];
    }
  }

  /** `if last_ts and msg_ts <= last_ts`: the message is already in the note. */
  predicate Seen(chats: map<string, ChatRecord>, m: Message)
  {
    var last := LastTimestamp(chats, ChatId(m));
    last.Some? && last.value != 0 && m.timestamp <= last.value
  }

  datatype Processed = Processed(written: bool, chats: map<string, ChatRecord>, line: Option<string>)

  /**
   * process_line after the contacts update: drop undecodable or text-less
   * messages and ones at or below the chat's mark, otherwise write the line
   * and raise the mark to the message's timestamp.
   */
  function Process(l: Line, chats: map<string, ChatRecord>, cache: map<string, string>,
                   clock: int -> string): Processed
  {
    var msg := Decode(l, cache);
    if msg.None? || msg.value.text == "" || Seen(chats, msg.value) then Processed(false, chats, None)
    else
      var m := msg.value;
      Processed(true, chats[ChatId(m) := ChatRecord(m.timestamp, OrElse(m.groupName, m.senderName))],
                NoteLine(m, clock(m.timestamp)))
  }

  /**
   * The mark of every chat only rises; a written message leaves its chat's
   * mark at its own timestamp, above the old one, and a line is written for
   * it; no other chat changes; nothing changes when nothing is written.
   */
  lemma ProcessAdvances(l: Line, chats: map<string, ChatRecord>, cache: map<string, string>,
                        clock: int -> string)
    ensures var p := Process(l, chats, cache, clock);
      && (forall c :: c in chats ==> c in p.chats && p.chats[c].ts >= chats[c].ts)
      && (!p.written ==> p.chats == chats && p.line.None?)
      && (p.written ==>
            var m := Decode(l, cache).value;
            && m.text != ""
            && p.chats[ChatId(m)].ts == m.timestamp
            && (ChatId(m) in chats ==> m.timestamp > chats[ChatId(m)].ts)
            && p.line == NoteLine(m, clock(m.timestamp)) && p.line.Some?
            && (forall c :: c in chats && c != ChatId(m) ==> p.chats[c] == chats[c]))
  {
    var msg := Decode(l, cache);
    if msg.Some? {
      DecodeSpec(l, cache);
      ContentSpec(msg.value);
    }
  }

  /** Learning the same envelope twice changes nothing the second time. */
  lemma LearnFromTwice(l: Line, cache: map<string, string>)
    ensures LearnFrom(l, LearnFrom(l, cache)) == LearnFrom(l, cache)
  {
  }

  /** Feeding the same line again writes nothing and changes no mark. */
  lemma ProcessTwice(l: Line, chats: map<string, ChatRecord>, cache: map<string, string>,
                     clock: int -> string)
    ensures var cache1 := LearnFrom(l, cache);
      var p := Process(l, chats, cache1, clock);
      var q := Process(l, p.chats, LearnFrom(l, cache1), clock);
      !q.written && q.chats == p.chats
  {
    var cache1 := LearnFrom(l, cache);
    LearnFromTwice(l, cache);
    var p := Process(l, chats, cache1, clock);
    if p.written {
      var m := Decode(l, cache1).value;
      DecodeSpec(l, cache1);
      assert LastTimestamp(p.chats, ChatId(m)) == Some(m.timestamp);
    }
  }

  /** process_line: decode, deduplicate, append the line, raise the mark. */
  method ProcessLine(l: Line, state: SyncState, contacts: ContactsCache, clock: int -> string)
    returns (written: bool, line: Option<string>)
    modifies state, contacts
    ensures contacts.names == LearnFrom(l, old(contacts.names))
    ensures var p := Process(l, old(state.chats), contacts.names, clock);
      written == p.written && state.chats == p.chats && line == p.line
  {
    var msg := ParseEnvelope(l, contacts);
    if msg.None? || msg.value.text == "" {
      return false, None;
    }
    var m := msg.value;
    var chat := ChatId(m);
    var last := LastTimestamp(state.chats, chat);
    if last.Some? && last.value != 0 && m.timestamp <= last.value {
      return false, None;
    }
    line := NoteLine(m, clock(m.timestamp));
    state.Update(chat, m.timestamp, OrElse(m.groupName, m.senderName));
    written := true;
  }
}
