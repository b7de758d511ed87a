/**
 * The Telegram backfill: for each chat it reads the existing note, splits it
 * into the header and the message lines, finds the oldest message already in
 * it and the (timestamp, preview) keys of the lines there, keeps the fetched
 * messages that are older and not yet present, and rewrites the note as
 * header, new messages, then the previous ones. Progress is kept per chat.
 */
module TelegramBackfill {
  import opened Text
  import opened FileNames
  import opened Telegram

  /** Chats whose name contains one of these, ignoring case, are skipped. */
  const SkipChats: seq<string> := ["omnity"]

  /** The number of leading characters of a message compared for duplicates. */
  const PreviewLength: nat := 50

  // ---------------------------------------------------------------------
  // Progress

  datatype ChatProgress = ChatProgress(name: string, offsetId: int, totalFetched: int, done: bool,
                                       updated: string)

  /** is_chat_done: False for an unknown chat. */
  function IsChatDone(chats: map<int, ChatProgress>, chat: int): bool
  {
    chat in chats && chats[chat].done
  }

  /** get_chat_offset: 0 for an unknown chat. */
  function ChatOffset(chats: map<int, ChatProgress>, chat: int): int
  {
    if chat in chats then chats[chat].offsetId else 0
  }

  /**
   * update_chat overwrites the chat's whole record, so both queries answer
   * from it afterwards; reset_chat forgets only that chat, so both fall back
   * to their defaults; no other chat is affected by either.
   */
  lemma ProgressSpec(chats: map<int, ChatProgress>, chat: int, other: int, p: ChatProgress)
    requires other != chat
    ensures IsChatDone(chats[chat := p], chat) == p.done && ChatOffset(chats[chat := p], chat) == p.offsetId
    ensures !IsChatDone(chats - {chat}, chat) && ChatOffset(chats - {chat}, chat) == 0
    ensures IsChatDone(chats[chat := p], other) == IsChatDone(chats, other)
    ensures IsChatDone(chats - {chat}, other) == IsChatDone(chats, other)
    ensures ChatOffset(chats[chat := p], other) == ChatOffset(chats, other)
    ensures ChatOffset(chats - {chat}, other) == ChatOffset(chats, other)
  {
  }

  class BackfillProgress {
    var chats: map<int, ChatProgress>
    var started: Option<string>
    var completed: Option<string>

    constructor (chats: map<int, ChatProgress>)
      ensures this.chats == chats && started.None? && completed.None?
    {
      this.chats := chats;
      started := None;
      completed := None;
    }

    method UpdateChat(chat: int, name: string, offsetId: int, total: int, done: bool, now: string)
      modifies this
      ensures chats == old(chats)[chat := ChatProgress(name, offsetId, total, done, now)]
      ensures started == old(started) && completed == old(completed)
    {
      chats := chats[chat := ChatProgress(name, offsetId, total, done, now)];
    }

    method ResetChat(chat: int)
      modifies this
      ensures chats == old(chats) - {chat}
      ensures started == old(started) && completed == old(completed)
    {
      if chat in chats {
        chats := chats - {chat};
      }
    }

    method MarkStarted(now: string)
      modifies this
      ensures chats == old(chats) && started == Some(now) && completed == old(completed)
    {
      started := Some(now);
    }

    method MarkCompleted(now: string)
      modifies this
      ensures chats == old(chats) && started == old(started) && completed == Some(now)
    {
      completed := Some(now);
    }
  }

  // ---------------------------------------------------------------------
  // Header and message lines of an existing note

  predicate IsSeparator(line: string)
  {
    Strip(line) == "---"
  }

  /** How many lines belong to the header: up to and including the first "---" line. */
  function HeaderLength(lines: seq<string>): (n: nat)
    ensures n <= |lines|
  {
    if lines == [] then 0 else if IsSeparator(lines[0]) then 1 else 1 + HeaderLength(lines[1..])
  }

  /**
   * The header ends at the first separator line; with none, every line is
   * header.
   */
  lemma {:induction false} HeaderLengthSpec(lines: seq<string>)
    ensures var n := HeaderLength(lines);
      && (forall j :: 0 <= j < n - 1 ==> !IsSeparator(lines[j]))
      && (n < |lines| ==> IsSeparator(lines[n - 1]))
      && ((exists j :: 0 <= j < |lines| && IsSeparator(lines[j])) ==> IsSeparator(lines[n - 1]))
  {
    if lines != [] && !IsSeparator(lines[0]) {
      HeaderLengthSpec(lines[1..]);
      if exists j :: 0 <= j < |lines| && IsSeparator(lines[j]) {
        var j :| 0 <= j < |lines| && IsSeparator(lines[j]);
        assert IsSeparator(lines[1..][j - 1]);
      }
    }
  }

  /** A prefix with no separator, followed by one, fixes the header length. */
  lemma {:induction false} HeaderLengthAt(lines: seq<string>, k: nat)
    requires k <= |lines|
    requires forall j :: 0 <= j < k ==> !IsSeparator(lines[j])
    ensures k < |lines| && IsSeparator(lines[k]) ==> HeaderLength(lines) == k + 1
    ensures k == |lines| ==> HeaderLength(lines) == k
  {
    if k > 0 {
      HeaderLengthAt(lines[1..], k - 1);
    }
  }

  predicate IsDigit(c: char)
  {
    '0' <= c <= '9'
  }

  /** What the regex `\d{4}-\d{2}-\d{2} \d{2}:\d{2}:\d{2}` demands at position i. */
  predicate StampCharAt(i: int, c: char)
  {
    if i == 4 || i == 7 then c == '-'
    else if i == 10 then c == ' '
    else if i == 13 || i == 16 then c == ':'
    else IsDigit(c)
  }

  /** A "YYYY-MM-DD HH:MM:SS" stamp, as the regex sees it. */
  predicate StampShape(s: string)
  {
    |s| == 19 && forall i :: 0 <= i < 19 ==> StampCharAt(i, s[i])
  }

  /** The stamp `^\[(...)\]` finds at the start of the trimmed line. */
  function LeadingStamp(line: string): (r: Option<string>)
    ensures r.Some? ==> StampShape(r.value)
  {
    var s := Strip(line);
    if |s| >= 21 && s[0] == '[' && StampShape(s[1..20]) && s[20] == ']' then Some(s[1..20]) else None
  }

  /** The instant of a line's stamp; `instant` is strptime, None where it raises. */
  function LineInstant(line: string, instant: string -> Option<int>): Option<int>
  {
    var st := LeadingStamp(line);
    if st.Some? then instant(st.value) else None
  }

  /** The earliest instant among the lines, scanning them in order. */
  function Oldest(lines: seq<string>, instant: string -> Option<int>): Option<int>
  {
    if lines == [] then None
    else
      var prev := Oldest(lines[..|lines| - 1], instant);
      var t := LineInstant(lines[|lines| - 1], instant);
      if t.None? then prev else if prev.None? || t.value < prev.value then t else prev
  }

  /**
   * The oldest instant is the minimum of the lines' instants: one of them,
   * at most every one of them, and None exactly when no line has one.
   */
  lemma {:induction false} OldestSpec(lines: seq<string>, instant: string -> Option<int>)
    ensures var o := Oldest(lines, instant);
      && (o.None? <==> forall i :: 0 <= i < |lines| ==> LineInstant(lines[i], instant).None?)
      && (o.Some? ==> exists i :: 0 <= i < |lines| && LineInstant(lines[i], instant) == o)
      && (o.Some? ==> forall i :: 0 <= i < |lines| && LineInstant(lines[i], instant).Some?
                        ==> o.value <= LineInstant(lines[i], instant).value)
  {
    if lines != [] {
      var init := lines[..|lines| - 1];
      OldestSpec(init, instant);
      assert forall i :: 0 <= i < |init| ==> init[i] == lines[i];
      var o := Oldest(lines, instant);
      var prev := Oldest(init, instant);
      if o.Some? && o == prev {
        var i :| 0 <= i < |init| && LineInstant(init[i], instant) == o;
        assert LineInstant(lines[i], instant) == o;
      }
    }
  }

  /** The note split into lines, the header text, the message lines. */
  datatype Existing = Existing(header: string, messageLines: seq<string>, oldest: Option<int>)

  /** parse_existing_messages, on the note's content (None for a missing note). */
  function ParsedNote(file: Option<string>, instant: string -> Option<int>): Existing
  {
    if file.None? then Existing("", [], None)
    else
      var lines := SplitOn(file.value, '\n');
      var n := HeaderLength(lines);
      Existing(Join(lines[..n], "\n"), lines[n..], Oldest(lines[n..], instant))
  }

  /** Splitting the note loses nothing: the header's lines and the message lines are the note's lines. */
  lemma ParsedNoteSplits(file: string, instant: string -> Option<int>)
    ensures var e := ParsedNote(Some(file), instant);
      SplitOn(e.header, '\n') + e.messageLines == SplitOn(file, '\n')
  {
    var lines := SplitOn(file, '\n');
    var n := HeaderLength(lines);
    assert n > 0;
    SplitOnPieces(file, '\n');
    SplitJoin(lines[..n]);
    assert lines == lines[..n] + lines[n..];
  }

  /** Splitting a join of lines without newlines gives the lines back. */
  lemma {:induction false} SplitJoin(lines: seq<string>)
    requires |lines| > 0 && forall i :: 0 <= i < |lines| ==> '\n' !in lines[i]
    ensures SplitOn(Join(lines, "\n"), '\n') == lines
  {
    if |lines| == 1 {
      BeforeFirstSpec(lines[0], '\n');
      assert BeforeFirst(lines[0], '\n') == lines[0];
    } else {
      var rest := Join(lines[1..], "\n");
      SplitJoin(lines[1..]);
      var s := lines[0] + "\n" + rest;
      assert Join(lines, "\n") == s;
      BeforeFirstOf(lines[0], '\n', rest);
      assert s[|lines[0]| + 1..] == rest;
    }
  }

  /** The loop that sends lines to the header until a separator has been seen, then to the messages. */
  method SplitHeader(lines: seq<string>) returns (headerLines: seq<string>, messageLines: seq<string>)
    ensures headerLines == lines[..HeaderLength(lines)] && messageLines == lines[HeaderLength(lines)..]
  {
    headerLines := [];
    messageLines := [];
    var found := false;
    var i := 0;
    while i < |lines|
      invariant 0 <= i <= |lines|
      invariant !found ==> headerLines == lines[..i] && messageLines == []
      invariant !found ==> forall j :: 0 <= j < i ==> !IsSeparator(lines[j])
      invariant found ==> 0 < HeaderLength(lines) <= i
      invariant found ==> headerLines == lines[..HeaderLength(lines)]
      invariant found ==> messageLines == lines[HeaderLength(lines)..i]
    {
      if !found {
        assert lines[..i + 1] == lines[..i] + [lines[i]];
        headerLines := headerLines + [lines[i]];
        if IsSeparator(lines[i]) {
          found := true;
          HeaderLengthAt(lines, i);
        }
      } else {
        assert lines[HeaderLength(lines)..i + 1] == lines[HeaderLength(lines)..i] + [lines[i]];
        messageLines := messageLines + [lines[i]];
      }
      i := i + 1;
    }
    assert lines[..|lines|] == lines;
    if !found {
      HeaderLengthAt(lines, |lines|);
    } else {
      assert lines[HeaderLength(lines)..i] == lines[HeaderLength(lines)..];
    }
  }

  /** The loop that keeps the earliest stamp seen on the message lines. */
  method CollectOldest(lines: seq<string>, instant: string -> Option<int>) returns (oldest: Option<int>)
    ensures oldest == Oldest(lines, instant)
  {
    oldest := None;
    var k := 0;
    while k < |lines|
      invariant 0 <= k <= |lines|
      invariant oldest == Oldest(lines[..k], instant)
    {
      var st := LeadingStamp(lines[k]);
      if st.Some? {
        var ts := instant(st.value);
        if ts.Some? && (oldest.None? || ts.value < oldest.value) {
          oldest := ts;
        }
      }
      assert lines[..k + 1][..k] == lines[..k];
      k := k + 1;
    }
    assert lines[..k] == lines;
  }

  /** parse_existing_messages on the note's content (None for a missing note). */
  method ParseExisting(file: Option<string>, instant: string -> Option<int>)
    returns (header: string, messageLines: seq<string>, oldest: Option<int>)
    ensures Existing(header, messageLines, oldest) == ParsedNote(file, instant)
  {
    if file.None? {
      return "", [], None;
    }
    var lines := SplitOn(file.value, '\n');
    var headerLines;
    headerLines, messageLines := SplitHeader(lines);
    header := Join(headerLines, "\n");
    oldest := CollectOldest(messageLines, instant);
  }

  // ---------------------------------------------------------------------
  // Keys of the lines already in the note

  function Preview(s: string): (r: string)
    ensures |r| <= PreviewLength && |r| <= |s| && r == s[..|r|]
  {
    if |s| <= PreviewLength then s else s[..PreviewLength]
  }

  /**
   * The (stamp, preview) a line contributes when it has the form
   * `[stamp] sender: content  `: the sender runs to the first ':' and must be
   * followed by a space, and the content is everything before the final two
   * spaces.
   */
  function KeyOf(line: string): Option<(string, string)>
  {
    if |line| >= 22 && line[0] == '[' && StampShape(line[1..20]) && line[20] == ']' && line[21] == ' ' then
      RestKey(line[1..20], line[22..])
    else None
  }

  /** The part of KeyOf after "[stamp] ". */
  function RestKey(stamp: string, rest: string): Option<(string, string)>
  {
    var sender := BeforeFirst(rest, ':');
    if sender != [] && |sender| + 1 < |rest| && rest[|sender| + 1] == ' ' then
      var tail := rest[|sender| + 2..];
      if |tail| >= 3 && tail[|tail| - 2..] == "  " then Some((stamp, Preview(tail[..|tail| - 2])))
      else None
    else None
  }

  /** get_existing_message_ids on the note's content. */
  function ExistingIds(file: Option<string>): set<(string, string)>
  {
    if file.None? then {}
    else set line | line in SplitOn(file.value, '\n') && KeyOf(line).Some? :: KeyOf(line).value
  }

  /**
   * The key parser reads back what the line format writes: a line built from
   * a well-shaped stamp, a sender without ':' and non-empty content yields
   * the stamp and the content's preview.
   */
  lemma KeyOfLine(stamp: string, sender: string, content: string)
    requires StampShape(stamp) && sender != [] && ':' !in sender && content != []
    ensures KeyOf("[" + stamp + "] " + sender + ": " + content + "  ") == Some((stamp, Preview(content)))
  {
    var rest := sender + ": " + content + "  ";
    assert "[" + stamp + "] " + sender + ": " + content + "  " == "[" + stamp + "] " + rest;
    KeyOfFrame(stamp, rest);
    RestKeyOf(stamp, sender, content);
  }

  lemma KeyOfFrame(stamp: string, rest: string)
    requires StampShape(stamp)
    ensures KeyOf("[" + stamp + "] " + rest) == RestKey(stamp, rest)
  {
    var line := "[" + stamp + "] " + rest;
    assert line[1..20] == stamp;
    assert line[22..] == rest;
  }

  lemma RestKeyOf(stamp: string, sender: string, content: string)
    requires sender != [] && ':' !in sender && content != []
    ensures RestKey(stamp, sender + ": " + content + "  ") == Some((stamp, Preview(content)))
  {
    var rest := sender + ": " + content + "  ";
    BeforeFirstOf(sender, ':', " " + content + "  ");
    assert rest == sender + [':'] + (" " + content + "  ");
    var tail := rest[|sender| + 2..];
    assert tail == content + "  ";
    assert tail[..|tail| - 2] == content;
  }

  /**
   * A note line written by format_message, without its newline, is read back
   * as the stamp and the preview of its whole content, media label included.
   */
  lemma FormattedKey(stamp: string, media: Media, text: string, senderName: string, isOutgoing: bool)
    requires StampShape(stamp)
    requires isOutgoing || (senderName != [] && ':' !in senderName)
    requires media != NoMedia || text != ""
    ensures var r := FormatMessage(stamp, media, text, senderName, isOutgoing);
      KeyOf(r[..|r| - 1]) == Some((stamp, Preview(MessageContent(media, text))))
  {
    MessageContentSpec(media, text);
    var sender := if isOutgoing then "Me" else senderName;
    var content := MessageContent(media, text);
    var r := FormatMessage(stamp, media, text, senderName, isOutgoing);
    assert r == ("[" + stamp + "] " + sender + ": " + content + "  ") + "\n";
    KeyOfLine(stamp, sender, content);
  }

  // ---------------------------------------------------------------------
  // Choosing the messages to add

  /** A message as the client yields it; `stamp` is its date as "%Y-%m-%d %H:%M:%S". */
  datatype Fetched = Fetched(
    isMessage: bool,      // a service message is not
    id: int,
    stamp: string,
    instant: int,         // the date in UTC
    text: string,
    media: Media,
    senderId: int,        // 0 when there is none
    out: bool)

  /** The key the backfill compares against the note: stamp and the text's preview. */
  function DedupKey(m: Fetched): (string, string)
  {
    (m.stamp, Preview(m.text))
  }

  /** The filter of backfill_chat's fetch loop. */
  predicate Wanted(m: Fetched, existing: set<(string, string)>, oldest: Option<int>)
  {
    && m.isMessage
    && (m.text != "" || m.media != NoMedia)
    && DedupKey(m) !in existing
    && !(oldest.Some? && m.instant >= oldest.value)
  }

  function Selected(msgs: seq<Fetched>, existing: set<(string, string)>, oldest: Option<int>): seq<Fetched>
  {
    if msgs == [] then []
    else
      var prev := Selected(msgs[..|msgs| - 1], existing, oldest);
      var m := msgs[|msgs| - 1];
      if Wanted(m, existing, oldest) then prev + [m] else prev
  }

  /** Exactly the wanted messages are selected, so each is older than the note's oldest. */
  lemma {:induction false} SelectedSpec(msgs: seq<Fetched>, existing: set<(string, string)>, oldest: Option<int>)
    ensures var kept := Selected(msgs, existing, oldest);
      && (forall m :: m in kept <==> m in msgs && Wanted(m, existing, oldest))
      && |kept| <= |msgs|
  {
    if msgs != [] {
      var init := msgs[..|msgs| - 1];
      SelectedSpec(init, existing, oldest);
      assert msgs == init + [msgs[|msgs| - 1]];
    }
  }

  /** The fetch loop of backfill_chat: keep the wanted messages in order. */
  method Select(msgs: seq<Fetched>, existing: set<(string, string)>, oldest: Option<int>)
    returns (kept: seq<Fetched>)
    ensures kept == Selected(msgs, existing, oldest)
  {
    kept := [];
    var i := 0;
    while i < |msgs|
      invariant 0 <= i <= |msgs|
      invariant kept == Selected(msgs[..i], existing, oldest)
    {
      var m := msgs[i];
      assert msgs[..i + 1][..i] == msgs[..i];
      if m.isMessage && (m.text != "" || m.media != NoMedia) && (m.stamp, Preview(m.text)) !in existing
         && !(oldest.Some? && m.instant >= oldest.value) {
        kept := kept + [m];
      }
      i := i + 1;
    }
    assert msgs[..i] == msgs;
  }

  /**
   * A text-only message whose line is already in the note is recognised as a
   * duplicate and not selected again.
   */
  lemma TextDuplicateSkipped(m: Fetched, file: string, senderName: string)
    requires m.media == NoMedia && m.text != ""
    requires StampShape(m.stamp) && (m.out || (senderName != [] && ':' !in senderName))
    requires var r := FormatMessage(m.stamp, m.media, m.text, senderName, m.out);
      r[..|r| - 1] in SplitOn(file, '\n')
    ensures !Wanted(m, ExistingIds(Some(file)), None)
  {
    FormattedKey(m.stamp, m.media, m.text, senderName, m.out);
    MessageContentSpec(m.media, m.text);
  }

  /**
   * With media, the key of the line in the note includes the media label, so
   * the comparison on text alone does not match it: such a message is kept
   * out only by the oldest-timestamp test.
   */
  lemma MediaDuplicateKeyDiffers(stamp: string)
    requires StampShape(stamp)
    ensures var m := Fetched(true, 1, stamp, 0, "hi", Photo, 0, true);
      var r := FormatMessage(stamp, Photo, "hi", "", true);
      && KeyOf(r[..|r| - 1]) == Some((stamp, "[Photo] hi"))
      && DedupKey(m) == (stamp, "hi")
      && Wanted(m, {KeyOf(r[..|r| - 1]).value}, None)
  {
    FormattedKey(stamp, Photo, "hi", "", true);
    assert MessageContent(Photo, "hi") == "[Photo] hi";
  }

  /** A line that starts with a bracketed stamp reads back with that stamp. */
  lemma StampedLine(line: string)
    requires |line| >= 21 && line[0] == '[' && StampShape(line[1..20]) && line[20] == ']'
    ensures LeadingStamp(line) == Some(line[1..20])
  {
    assert TrimStart(line) == line;
    TrimEndSpec(line);
    var t := TrimEnd(line);
    assert !IsSpace(line[20]);
    assert |t| > 20;
    assert t[..21] == line[..21];
    assert t[1..20] == line[1..20];
  }

  /** A line the formatter wrote reads back with its own stamp. */
  lemma FormattedStamp(stamp: string, media: Media, text: string, senderName: string, isOutgoing: bool)
    requires StampShape(stamp)
    requires media != NoMedia || text != ""
    ensures var r := FormatMessage(stamp, media, text, senderName, isOutgoing);
      |r| > 0 && LeadingStamp(r[..|r| - 1]) == Some(stamp)
  {
    MessageContentSpec(media, text);
    var sender := if isOutgoing then "Me" else senderName;
    var r := FormatMessage(stamp, media, text, senderName, isOutgoing);
    var line := r[..|r| - 1];
    assert line == "[" + stamp + "] " + sender + ": " + MessageContent(media, text) + "  ";
    assert line[0] == '[' && line[1..20] == stamp && line[20] == ']';
    StampedLine(line);
  }

  /**
   * A message whose line is already among the note's message lines is not
   * selected again, whatever its key: the line carries the message's own
   * stamp, so the message is not older than the note's oldest one. This is
   * what keeps out the media messages the key comparison misses.
   */
  lemma MediaDupKeptOut(m: Fetched, file: string, senderName: string, instant: string -> Option<int>)
    requires StampShape(m.stamp) && instant(m.stamp) == Some(m.instant)
    requires m.media != NoMedia || m.text != ""
    requires var r := FormatMessage(m.stamp, m.media, m.text, senderName, m.out);
      |r| > 0 && r[..|r| - 1] in ParsedNote(Some(file), instant).messageLines
    ensures ParsedNote(Some(file), instant).oldest.Some?
    ensures !Wanted(m, ExistingIds(Some(file)), ParsedNote(Some(file), instant).oldest)
  {
    var r := FormatMessage(m.stamp, m.media, m.text, senderName, m.out);
    FormattedStamp(m.stamp, m.media, m.text, senderName, m.out);
    var lines := ParsedNote(Some(file), instant).messageLines;
    var i :| 0 <= i < |lines| && lines[i] == r[..|r| - 1];
    assert LineInstant(lines[i], instant) == Some(m.instant);
    OldestSpec(lines, instant);
  }

  // ---------------------------------------------------------------------
  // Writing the note

  /** get_sender_name; `lookup` is the client's entity lookup, None where it raises. */
  function SenderName(m: Fetched, lookup: int -> Option<Entity>): (r: string)
    ensures r != ""
  {
    if m.senderId == 0 then "Unknown"
    else if lookup(m.senderId).Some? then EntityName(lookup(m.senderId).value)
    else "User_" + IntToString(m.senderId)
  }

  function FormatAll(kept: seq<Fetched>, lookup: int -> Option<Entity>): seq<string>
  {
    if kept == [] then []
    else
      var prev := FormatAll(kept[..|kept| - 1], lookup);
      var m := kept[|kept| - 1];
      var line := FormatMessage(m.stamp, m.media, m.text, SenderName(m, lookup), m.out);
      if line != "" then prev + [line] else prev
  }

  /** Every selected message has text or media, so each one yields a line. */
  lemma {:induction false} FormatAllCount(kept: seq<Fetched>, lookup: int -> Option<Entity>)
    requires forall m :: m in kept ==> m.text != "" || m.media != NoMedia
    ensures |FormatAll(kept, lookup)| == |kept|
  {
    if kept != [] {
      var m := kept[|kept| - 1];
      FormatAllCount(kept[..|kept| - 1], lookup);
      FormatMessageSpec(m.stamp, m.media, m.text, SenderName(m, lookup), m.out);
    }
  }

  /** The rewritten note: header, a blank line, the new lines, then the previous content. */
  function Assemble(header: string, chatName: string, isGroupChat: bool, formatted: seq<string>,
                    existingLines: seq<string>): string
  {
    var h := if header == "" then Banner(chatName, isGroupChat) else header;
    var added := Join(formatted, "\n");
    var previous := Strip(Join(existingLines, "\n"));
    if previous != "" then h + "\n\n" + added + "\n" + previous else h + "\n\n" + added
  }

  /** The header stays in front and the previous messages stay, trimmed, at the end. */
  lemma AssembleSpec(header: string, chatName: string, isGroupChat: bool, formatted: seq<string>,
                     existingLines: seq<string>)
    ensures var r := Assemble(header, chatName, isGroupChat, formatted, existingLines);
      var h := if header == "" then Banner(chatName, isGroupChat) else header;
      var previous := Strip(Join(existingLines, "\n"));
      && StartsWith(r, h + "\n\n" + Join(formatted, "\n"))
      && EndsWith(r, previous)
  {
    var h := if header == "" then Banner(chatName, isGroupChat) else header;
    var added := Join(formatted, "\n");
    var previous := Strip(Join(existingLines, "\n"));
    var r := Assemble(header, chatName, isGroupChat, formatted, existingLines);
    if previous != "" {
      LeadContentTail(h + "\n\n" + added, "\n", previous);
    } else {
      assert r[..|r|] == r;
    }
  }

  /** Whether a chat's name contains a skip entry, ignoring case. */
  predicate SkippedName(name: string)
  {
    exists i :: 0 <= i < |SkipChats| && Contains(Lower(name), Lower(SkipChats[i]))
  }

  datatype ChatOutcome = SkippedChat | AlreadyDone | NothingNew | Wrote(note: string, count: nat)

  datatype Backfilled = Backfilled(chats: map<int, ChatProgress>, outcome: ChatOutcome)

  /**
   * backfill_chat for one chat, given its note's content, the messages the
   * client yields and the clock reading for the progress record.
   */
  function BackfillStep(chats: map<int, ChatProgress>, force: bool, chatId: int, entity: Entity,
                        file: Option<string>, msgs: seq<Fetched>, lookup: int -> Option<Entity>,
                        instant: string -> Option<int>, now: string): Backfilled
  {
    var name := EntityName(entity);
    if SkippedName(name) then Backfilled(chats, SkippedChat)
    else if IsChatDone(chats, chatId) && !force then Backfilled(chats, AlreadyDone)
    else
      var e := ParsedNote(file, instant);
      var kept := Selected(msgs, ExistingIds(file), e.oldest);
      var formatted := FormatAll(kept, lookup);
      if kept == [] || formatted == [] then
        Backfilled(chats[chatId := ChatProgress(name, 0, 0, true, now)], NothingNew)
      else
        Backfilled(chats[chatId := ChatProgress(name, 0, |formatted|, true, now)],
                   Wrote(Assemble(e.header, name, IsGroup(entity), formatted, e.messageLines), |formatted|))
  }

  /**
   * A skipped or finished chat changes no progress; every other chat ends
   * marked done with offset 0; nothing new means nothing was selected.
   */
  lemma BackfillRecords(chats: map<int, ChatProgress>, force: bool, chatId: int, entity: Entity,
                        file: Option<string>, msgs: seq<Fetched>, lookup: int -> Option<Entity>,
                        instant: string -> Option<int>, now: string)
    ensures var b := BackfillStep(chats, force, chatId, entity, file, msgs, lookup, instant, now);
      && (b.outcome.SkippedChat? || b.outcome.AlreadyDone? ==> b.chats == chats)
      && (b.outcome.NothingNew? || b.outcome.Wrote? ==>
            IsChatDone(b.chats, chatId) && ChatOffset(b.chats, chatId) == 0)
      && (IsChatDone(chats, chatId) && !force ==> b.chats == chats)
      && (b.outcome.NothingNew? ==>
            Selected(msgs, ExistingIds(file), ParsedNote(file, instant).oldest) == [])
  {
    var e := ParsedNote(file, instant);
    var kept := Selected(msgs, ExistingIds(file), e.oldest);
    SelectedSpec(msgs, ExistingIds(file), e.oldest);
    FormatAllCount(kept, lookup);
  }

  /**
   * When the note is rewritten, the count is the number of messages
   * selected; each is older than everything already in the note and not
   * already there by key; and the previous messages stay at the end.
   */
  lemma BackfillWrites(chats: map<int, ChatProgress>, force: bool, chatId: int, entity: Entity,
                       file: Option<string>, msgs: seq<Fetched>, lookup: int -> Option<Entity>,
                       instant: string -> Option<int>, now: string)
    requires BackfillStep(chats, force, chatId, entity, file, msgs, lookup, instant, now).outcome.Wrote?
    ensures var b := BackfillStep(chats, force, chatId, entity, file, msgs, lookup, instant, now);
      var e := ParsedNote(file, instant);
      var kept := Selected(msgs, ExistingIds(file), e.oldest);
      && b.outcome.count == |kept| > 0
      && (forall m :: m in kept ==> DedupKey(m) !in ExistingIds(file))
      && (e.oldest.Some? ==> forall m :: m in kept ==> m.instant < e.oldest.value)
      && EndsWith(b.outcome.note, Strip(Join(e.messageLines, "\n")))
  {
    var e := ParsedNote(file, instant);
    var kept := Selected(msgs, ExistingIds(file), e.oldest);
    SelectedSpec(msgs, ExistingIds(file), e.oldest);
    FormatAllCount(kept, lookup);
    AssembleSpec(e.header, EntityName(entity), IsGroup(entity), FormatAll(kept, lookup), e.messageLines);
  }

  class Backfill {
    const progress: BackfillProgress
    const force: bool

    constructor (progress: BackfillProgress, force: bool)
      ensures this.progress == progress && this.force == force
    {
      this.progress := progress;
      this.force := force;
    }

    /** backfill_chat: skip rules, read the note, select, format, rewrite, record progress. */
    method BackfillChat(chatId: int, entity: Entity, file: Option<string>, msgs: seq<Fetched>,
                        lookup: int -> Option<Entity>, instant: string -> Option<int>, now: string)
      returns (outcome: ChatOutcome)
      modifies progress
      ensures var b := BackfillStep(old(progress.chats), force, chatId, entity, file, msgs, lookup, instant, now);
        progress.chats == b.chats && outcome == b.outcome
      ensures progress.started == old(progress.started) && progress.completed == old(progress.completed)
    {
      var name := EntityName(entity);
      if SkippedName(name) {
        return SkippedChat;
      }
      if IsChatDone(progress.chats, chatId) && !force {
        return AlreadyDone;
      }
      var header, messageLines, oldest := ParseExisting(file, instant);
      var existing := ExistingIds(file);
      var kept := Select(msgs, existing, oldest);
      if kept == [] {
        progress.UpdateChat(chatId, name, 0, 0, true, now);
        return NothingNew;
      }
      var formatted := FormatAll(kept, lookup);
      if formatted == [] {
        progress.UpdateChat(chatId, name, 0, 0, true, now);
        return NothingNew;
      }
      var note := Assemble(header, name, IsGroup(entity), formatted, messageLines);
      progress.UpdateChat(chatId, name, 0, |formatted|, true, now);
      outcome := Wrote(note, |formatted|);
    }
  }
}
