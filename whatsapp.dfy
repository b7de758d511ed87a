/**
 * The WhatsApp adapter: for every chat it lists, it sorts the chat's messages
 * by their timestamp string, drops the ones at or below the chat's stored
 * timestamp, renders the rest under a "## date" heading whenever the date
 * changes, and moves the stored timestamp to the newest message rendered.
 *
 * Timestamps are ISO strings compared as strings, as the adapter does;
 * turning one into a date or a time of day is a parameter (`dateOf`,
 * `timeOf`).
 */
module WhatsAppSync {
  import opened Text
  import opened FileNames

  // ---------------------------------------------------------------------
  // Names

  /** One entry of the contacts dict, which is kept in insertion order. */
  datatype Contact = Contact(jid: string, name: string)

  datatype AddressBook = AddressBook(contacts: seq<Contact>, groups: map<string, string>)

  /** `jid in contacts` and `contacts[jid]` */
  function Lookup(contacts: seq<Contact>, jid: string): (r: Option<string>)
    ensures r.Some? <==> exists i :: 0 <= i < |contacts| && contacts[i].jid == jid
  {
    if contacts == [] then None
    else if contacts[0].jid == jid then Some(contacts[0].name)
    else Lookup(contacts[1..], jid)
  }

  /** The first contact, in insertion order, whose JID starts with `phone`. */
  function FirstPrefixed(contacts: seq<Contact>, phone: string): (r: Option<nat>)
    ensures r.Some? ==> r.value < |contacts| && StartsWith(contacts[r.value].jid, phone)
    ensures r.Some? ==> forall j :: 0 <= j < r.value ==> !StartsWith(contacts[j].jid, phone)
    ensures r.None? ==> forall j :: 0 <= j < |contacts| ==> !StartsWith(contacts[j].jid, phone)
  {
    if contacts == [] then None
    else if StartsWith(contacts[0].jid, phone) then Some(0)
    else
      var r := FirstPrefixed(contacts[1..], phone);
      if r.Some? then Some(r.value + 1) else None
  }

  /** The phone part of a JID: `jid.split("@")[0]`. */
  function Phone(jid: string): string
  {
    BeforeFirst(jid, '@')
  }

  /** What `get_name` answers when no contact matches. */
  function FallbackName(jid: string): string
  {
    var phone := Phone(jid);
    if Contains(jid, "@s.whatsapp.net") then (if |phone| > 8 then "+" + phone else phone)
    else if Contains(jid, "@g.us") then "Group " + jid
    else jid
  }

  /** get_name */
  function NameOf(book: AddressBook, jid: string): string
  {
    if jid == "" then "Unknown"
    else if Contains(jid, "@g.us") && jid in book.groups then book.groups[jid]
    else if Lookup(book.contacts, jid).Some? then Lookup(book.contacts, jid).value
    else
      var k := FirstPrefixed(book.contacts, Phone(jid));
      if k.Some? then book.contacts[k.value].name else FallbackName(jid)
  }

  /**
   * The order of the lookups: a known group's name for a group JID first,
   * then an exact contact, then the first contact sharing the phone prefix,
   * and only then the formatted fallback.
   */
  lemma NameOfOrder(book: AddressBook, jid: string)
    requires jid != ""
    ensures Contains(jid, "@g.us") && jid in book.groups ==> NameOf(book, jid) == book.groups[jid]
    ensures !(Contains(jid, "@g.us") && jid in book.groups) && Lookup(book.contacts, jid).Some?
      ==> NameOf(book, jid) == Lookup(book.contacts, jid).value
    ensures !(Contains(jid, "@g.us") && jid in book.groups) && Lookup(book.contacts, jid).None?
      && (forall i :: 0 <= i < |book.contacts| ==> !StartsWith(book.contacts[i].jid, Phone(jid)))
      ==> NameOf(book, jid) == FallbackName(jid)
    ensures !(Contains(jid, "@g.us") && jid in book.groups) && Lookup(book.contacts, jid).None?
      ==> forall i :: 0 <= i < |book.contacts| && StartsWith(book.contacts[i].jid, Phone(jid))
            && (forall j :: 0 <= j < i ==> !StartsWith(book.contacts[j].jid, Phone(jid)))
            ==> NameOf(book, jid) == book.contacts[i].name
  {
  }

  /** A phone JID falls back to "+phone" when the phone part is longer than eight characters. */
  lemma FallbackPhone(jid: string)
    requires Contains(jid, "@s.whatsapp.net")
    ensures |Phone(jid)| > 8 ==> FallbackName(jid) == "+" + Phone(jid)
    ensures |Phone(jid)| <= 8 ==> FallbackName(jid) == Phone(jid)
  {
  }

  class ContactsCache {
    var contacts: seq<Contact>
    var groups: map<string, string>

    constructor (contacts: seq<Contact>, groups: map<string, string>)
      ensures this.contacts == contacts && this.groups == groups
    {
      this.contacts := contacts;
      this.groups := groups;
    }

    function Book(): AddressBook
      reads this
    {
      AddressBook(contacts, groups)
    }

    /** get_name: groups, exact contact, phone-prefix scan, fallback. */
    method GetName(jid: string) returns (name: string)
      ensures name == NameOf(Book(), jid)
    {
      if jid == "" {
        return "Unknown";
      }
      if Contains(jid, "@g.us") && jid in groups {
        return groups[jid];
      }
      var exact := Lookup(contacts, jid);
      if exact.Some? {
        return exact.value;
      }
      var phone := Phone(jid);
      var i := 0;
      while i < |contacts|
        invariant 0 <= i <= |contacts|
        invariant forall j :: 0 <= j < i ==> !StartsWith(contacts[j].jid, phone)
      {
        if StartsWith(contacts[i].jid, phone) {
          return contacts[i].name;
        }
        i := i + 1;
      }
      name := FallbackName(jid);
    }
  }

  // ---------------------------------------------------------------------
  // Stable sort by timestamp string

  datatype WaMessage = WaMessage(
    timestamp: string,            // "" when missing
    fromMe: bool,
    senderJid: string,
    displayText: Option<string>,
    text: Option<string>,
    mediaType: Option<string>)

  /** Insert before the first message whose timestamp is not smaller. */
  function Insert(m: WaMessage, sorted: seq<WaMessage>): (r: seq<WaMessage>)
    ensures |r| == |sorted| + 1
    ensures r[0] == m || (sorted != [] && r[0] == sorted[0])
  {
    if sorted == [] || !LexLess(sorted[0].timestamp, m.timestamp) then [m] + sorted
    else [sorted[0]] + Insert(m, sorted[1..])
  }

  /** `messages.sort(key=Timestamp)`, which is stable. */
  function SortByStamp(ms: seq<WaMessage>): (r: seq<WaMessage>)
    ensures |r| == |ms|
  {
    if ms == [] then [] else Insert(ms[0], SortByStamp(ms[1..]))
  }

  predicate Sorted(ms: seq<WaMessage>)
  {
    forall i :: 0 <= i < |ms| - 1 ==> LexLessEq(ms[i].timestamp, ms[i + 1].timestamp)
  }

  /** The messages with a given timestamp, in order. */
  function WithStamp(ms: seq<WaMessage>, ts: string): seq<WaMessage>
  {
    if ms == [] then [] else (if ms[0].timestamp == ts then [ms[0]] else []) + WithStamp(ms[1..], ts)
  }

  lemma {:induction false} InsertSorted(m: WaMessage, sorted: seq<WaMessage>)
    requires Sorted(sorted)
    ensures Sorted(Insert(m, sorted))
    ensures multiset(Insert(m, sorted)) == multiset(sorted) + multiset{m}
  {
    if sorted != [] {
      if !LexLess(sorted[0].timestamp, m.timestamp) {
        LexLessTotal(m.timestamp, sorted[0].timestamp);
      } else {
        var rest := sorted[1..];
        InsertSorted(m, rest);
        var r := Insert(m, rest);
        assert sorted == [sorted[0]] + rest;
        if rest != [] && r[0] == rest[0] {
          assert LexLessEq(sorted[0].timestamp, rest[0].timestamp);
        }
        assert Insert(m, sorted) == [sorted[0]] + r;
      }
    }
  }

  /** Insertion puts the message after every other one with its timestamp, before none. */
  lemma {:induction false} InsertStable(m: WaMessage, sorted: seq<WaMessage>, ts: string)
    ensures WithStamp(Insert(m, sorted), ts)
         == (if m.timestamp == ts then [m] else []) + WithStamp(sorted, ts)
  {
    if sorted != [] && LexLess(sorted[0].timestamp, m.timestamp) {
      InsertStable(m, sorted[1..], ts);
      if sorted[0].timestamp == ts {
        LexLessIrreflexive(ts);
      }
      assert [sorted[0]] + Insert(m, sorted[1..]) == Insert(m, sorted);
    }
  }

  /**
   * The sort orders the messages by timestamp, keeps every one of them, and
   * keeps messages with equal timestamps in their original order.
   */
  lemma {:induction false} SortByStampSpec(ms: seq<WaMessage>, ts: string)
    ensures Sorted(SortByStamp(ms))
    ensures multiset(SortByStamp(ms)) == multiset(ms)
    ensures WithStamp(SortByStamp(ms), ts) == WithStamp(ms, ts)
  {
    if ms != [] {
      SortByStampSpec(ms[1..], ts);
      InsertSorted(ms[0], SortByStamp(ms[1..]));
      InsertStable(ms[0], SortByStamp(ms[1..]), ts);
      assert ms == [ms[0]] + ms[1..];
    }
  }

  // ---------------------------------------------------------------------
  // Filtering and rendering

  /** A message the chat's note does not have yet: it has a timestamp above the stored one. */
  predicate IsNew(m: WaMessage, last: Option<string>)
  {
    m.timestamp != "" && !(Truthy(last) && LexLessEq(m.timestamp, last.value))
  }

  function Emitted(ms: seq<WaMessage>, last: Option<string>): seq<WaMessage>
  {
    if ms == [] then []
    else
      var prev := Emitted(ms[..|ms| - 1], last);
      if IsNew(ms[|ms| - 1], last) then prev + [ms[|ms| - 1]] else prev
  }

  /** Exactly the new messages are emitted. */
  lemma {:induction false} EmittedMembers(ms: seq<WaMessage>, last: Option<string>)
    ensures forall m :: m in Emitted(ms, last) <==> m in ms && IsNew(m, last)
  {
    if ms != [] {
      EmittedMembers(ms[..|ms| - 1], last);
      assert ms == ms[..|ms| - 1] + [ms[|ms| - 1]];
    }
  }

  /** The last message emitted sits at some position k, and nothing after k is new. */
  lemma {:induction false} EmittedLast(ms: seq<WaMessage>, last: Option<string>) returns (k: nat)
    requires Emitted(ms, last) != []
    ensures k < |ms| && Emitted(ms, last)[|Emitted(ms, last)| - 1] == ms[k]
    ensures forall j :: k < j < |ms| ==> !IsNew(ms[j], last)
  {
    if IsNew(ms[|ms| - 1], last) {
      k := |ms| - 1;
    } else {
      var init := ms[..|ms| - 1];
      k := EmittedLast(init, last);
    }
  }

  /** Over sorted messages, the last one emitted has the greatest timestamp of all new ones. */
  lemma EmittedMax(ms: seq<WaMessage>, last: Option<string>)
    requires Sorted(ms) && Emitted(ms, last) != []
    ensures var es := Emitted(ms, last);
      forall m :: m in ms && IsNew(m, last) ==> LexLessEq(m.timestamp, es[|es| - 1].timestamp)
  {
    var k := EmittedLast(ms, last);
    var es := Emitted(ms, last);
    forall m | m in ms && IsNew(m, last)
      ensures LexLessEq(m.timestamp, es[|es| - 1].timestamp)
    {
      var j :| 0 <= j < |ms| && ms[j] == m;
      SortedChain(ms, j, k);
    }
  }

  /** In a sorted list, a timestamp is at most every later one. */
  lemma {:induction false} SortedChain(ms: seq<WaMessage>, i: nat, j: nat)
    requires Sorted(ms) && i <= j < |ms|
    ensures LexLessEq(ms[i].timestamp, ms[j].timestamp)
    decreases j - i
  {
    if i < j {
      SortedChain(ms, i + 1, j);
      if LexLess(ms[i].timestamp, ms[i + 1].timestamp) && LexLess(ms[i + 1].timestamp, ms[j].timestamp) {
        LexLessTransitive(ms[i].timestamp, ms[i + 1].timestamp, ms[j].timestamp);
      }
    }
  }

  /** The content line of a message. */
  function Content(m: WaMessage): (r: string)
  {
    var text := OrElse(m.displayText, OrElse(m.text, ""));
    var media := OrElse(m.mediaType, "");
    if media != "" then (if text != "" then Strip("*[" + media + "]* " + text) else "*[" + media + "]*")
    else if text != "" then text
    else "*(empty)*"
  }

  /**
   * A message always shows something: its media tag first when it has
   * media, otherwise its text, otherwise the "(empty)" marker.
   */
  lemma ContentSpec(m: WaMessage)
    ensures Content(m) != ""
    ensures OrElse(m.mediaType, "") != "" ==> StartsWith(Content(m), "*[" + OrElse(m.mediaType, "") + "]*")
    ensures OrElse(m.mediaType, "") == "" && OrElse(m.displayText, OrElse(m.text, "")) == ""
      ==> Content(m) == "*(empty)*"
  {
    var text := OrElse(m.displayText, OrElse(m.text, ""));
    var media := OrElse(m.mediaType, "");
    if media != "" && text != "" {
      var tag := "*[" + media + "]*";
      var s := tag + " " + text;
      assert s == "*[" + media + "]* " + text;
      assert TrimStart(s) == s;
      TrimEndSpec(s);
      var r := TrimEnd(s);
      assert s[|tag| - 1] == '*';
      assert |r| >= |tag|;
      assert r[..|tag|] == s[..|tag|] == tag;
    }
  }

  /** The sender shown for a message. */
  function SenderOf(book: AddressBook, m: WaMessage): string
  {
    if m.fromMe then "Me" else NameOf(book, m.senderJid)
  }

  /** The lines of one message: a heading when its date differs from `prevDate`, then the entry. */
  function Block(book: AddressBook, m: WaMessage, prevDate: string, dateOf: string -> string,
                 timeOf: string -> string): seq<string>
  {
    var d := dateOf(m.timestamp);
    (if d != prevDate then ["\n## " + d + "\n"] else [])
    + ["\n**" + timeOf(m.timestamp) + " - " + SenderOf(book, m) + "**", Content(m), ""]
  }

  /** The date of the message rendered before position i ("" before the first). */
  function PrevDate(es: seq<WaMessage>, i: nat, dateOf: string -> string): string
    requires i <= |es|
  {
    if i == 0 then "" else dateOf(es[i - 1].timestamp)
  }

  /**
   * The rendered lines: message by message, each block headed by its date
   * exactly when that date differs from the previous message's.
   */
  function Render(book: AddressBook, es: seq<WaMessage>, dateOf: string -> string,
                  timeOf: string -> string): seq<string>
  {
    if es == [] then []
    else Render(book, es[..|es| - 1], dateOf, timeOf)
         + Block(book, es[|es| - 1], PrevDate(es, |es| - 1, dateOf), dateOf, timeOf)
  }

  /** Every message's block is at least its three entry lines, so output exists exactly when a message does. */
  lemma {:induction false} RenderSize(book: AddressBook, es: seq<WaMessage>, dateOf: string -> string,
                                      timeOf: string -> string)
    ensures 3 * |es| <= |Render(book, es, dateOf, timeOf)| <= 4 * |es|
  {
    if es != [] {
      RenderSize(book, es[..|es| - 1], dateOf, timeOf);
    }
  }

  /** Messages of one day after the first make no further heading. */
  lemma SameDayNoHeading(book: AddressBook, es: seq<WaMessage>, i: nat, dateOf: string -> string,
                         timeOf: string -> string)
    requires 0 < i < |es| && dateOf(es[i].timestamp) == dateOf(es[i - 1].timestamp)
    ensures |Block(book, es[i], PrevDate(es, i, dateOf), dateOf, timeOf)| == 3
  {
  }

  // ---------------------------------------------------------------------
  // State and the per-chat sync

  datatype ChatState = ChatState(ts: string, name: string)

  /** get_last_ts */
  function LastTs(chats: map<string, ChatState>, jid: string): Option<string>
  {
    if jid in chats then Some(chats[jid].ts) else None
  }

  class SyncState {
    var chats: map<string, ChatState>

    constructor (chats: map<string, ChatState>)
      ensures this.chats == chats
    {
      this.chats := chats;
    }

    method Update(jid: string, ts: string, name: string)
      modifies this
      ensures chats == old(chats)[jid := ChatState(ts, name)]
    {
      chats := chats[jid := ChatState(ts, name)];
    }
  }

  // ---------------------------------------------------------------------
  // Note files

  /** The sub-folder of a chat's note. */
  function Folder(chatType: string): string
  {
    if chatType == "group" then "Groups/" else "DMs/"
  }

  /** The note of a chat, relative to the WhatsApp notes folder. */
  function NotePath(chatType: string, name: string): string
  {
    Folder(chatType) + SanitizeCollapsing(name) + ".md"
  }

  /**
   * A chat's note sits directly in its folder, and its name neither starts
   * with a dot nor holds a character a file name may not carry.
   */
  lemma NotePathSpec(chatType: string, name: string)
    ensures var dir := Folder(chatType);
      var f := NotePath(chatType, name);
      && StartsWith(f, dir) && EndsWith(f, ".md")
      && '/' !in f[|dir|..] && f[|dir|] != '.'
  {
    var n := SanitizeCollapsing(name);
    SanitizeCollapsingSafe(name);
    forall i | 0 <= i < |n| ensures n[i] != '/' {
      assert !Unsafe(n[i]);
    }
    InFolder(Folder(chatType), n, ".md");
    assert NotePath(chatType, name)[|Folder(chatType)|] == n[0];
  }

  /** The front matter and title of a new note; `now` is the sync time. */
  function Header(jid: string, name: string, chatType: string, now: string): string
  {
    "---\ntype: whatsapp-" + chatType + "\njid: " + jid + "\nname: " + name + "\nsynced: " + now
    + "\n---\n\n# " + name + "\n\n"
  }

  /** write_messages on the note's content (None for a missing note). */
  function WriteMessages(file: Option<string>, lines: seq<string>, jid: string, name: string,
                         chatType: string, now: string): (r: string)
  {
    (if file.Some? then file.value else Header(jid, name, chatType, now)) + Join(lines, "\n")
  }

  /**
   * Writing only appends: an existing note is kept in front, a new one gets
   * the header in front, and the joined lines come last.
   */
  lemma WriteMessagesSpec(file: Option<string>, lines: seq<string>, jid: string, name: string,
                          chatType: string, now: string)
    ensures var r := WriteMessages(file, lines, jid, name, chatType, now);
      var front := if file.Some? then file.value else Header(jid, name, chatType, now);
      && StartsWith(r, front)
      && EndsWith(r, Join(lines, "\n"))
      && |r| == |front| + |Join(lines, "\n")|
  {
    var front := if file.Some? then file.value else Header(jid, name, chatType, now);
    LeadContentTail(front, Join(lines, "\n"), "");
    assert front + Join(lines, "\n") + "" == front + Join(lines, "\n");
  }

  /** Two syncs in a row leave the first one's output in place before the second's. */
  lemma WriteTwice(file: Option<string>, first: seq<string>, second: seq<string>, jid: string,
                   name: string, chatType: string, now: string, later: string)
    ensures WriteMessages(Some(WriteMessages(file, first, jid, name, chatType, now)), second, jid, name,
                          chatType, later)
         == WriteMessages(file, first, jid, name, chatType, now) + Join(second, "\n")
  {
  }

  class Vault {
    var notes: map<string, string>

    constructor (notes: map<string, string>)
      ensures this.notes == notes
    {
      this.notes := notes;
    }

    method Write(path: string, lines: seq<string>, jid: string, name: string, chatType: string, now: string)
      modifies this
      ensures notes == old(notes)[path := WriteMessages(if path in old(notes) then Some(old(notes)[path]) else None,
                                                         lines, jid, name, chatType, now)]
    {
      var file := if path in notes then Some(notes[path]) else None;
      notes := notes[path := WriteMessages(file, lines, jid, name, chatType, now)];
    }
  }

  // ---------------------------------------------------------------------
  // The per-chat sync

  datatype Synced = Synced(count: nat, lines: seq<string>, chats: map<string, ChatState>,
                           notes: map<string, string>)

  /**
   * sync_chat after fetching: sort, keep the new messages, render them, and
   * when anything was rendered append it to the chat's note and store the
   * newest timestamp.
   */
  function SyncStep(book: AddressBook, chats: map<string, ChatState>, notes: map<string, string>,
                    jid: string, name: string, chatType: string, ms: seq<WaMessage>, now: string,
                    dateOf: string -> string, timeOf: string -> string): Synced
  {
    var es := Emitted(SortByStamp(ms), LastTs(chats, jid));
    if es == [] then Synced(0, [], chats, notes)
    else
      var lines := Render(book, es, dateOf, timeOf);
      var path := NotePath(chatType, name);
      var file := if path in notes then Some(notes[path]) else None;
      Synced(|es|, lines, chats[jid := ChatState(es[|es| - 1].timestamp, name)],
             notes[path := WriteMessages(file, lines, jid, name, chatType, now)])
  }

  /** Sorting keeps exactly the messages it was given. */
  lemma SortedMembers(ms: seq<WaMessage>)
    ensures forall m :: m in SortByStamp(ms) <==> m in ms
  {
    SortByStampSpec(ms, "");
    assert forall m :: m in ms <==> m in multiset(ms);
    assert forall m :: m in SortByStamp(ms) <==> m in multiset(SortByStamp(ms));
  }

  /** The count is the number of messages above the stored timestamp; with none, nothing changes. */
  lemma SyncStepCount(book: AddressBook, chats: map<string, ChatState>, notes: map<string, string>,
                      jid: string, name: string, chatType: string, ms: seq<WaMessage>, now: string,
                      dateOf: string -> string, timeOf: string -> string)
    ensures var s := SyncStep(book, chats, notes, jid, name, chatType, ms, now, dateOf, timeOf);
      var last := LastTs(chats, jid);
      && s.count == |Emitted(SortByStamp(ms), last)|
      && (s.count == 0 <==> forall m :: m in ms ==> !IsNew(m, last))
      && (s.count == 0 ==> s.chats == chats && s.lines == [] && s.notes == notes)
      && (s.count > 0 ==> s.notes.Keys == notes.Keys + {NotePath(chatType, name)})
      && |s.lines| >= 3 * s.count
  {
    var last := LastTs(chats, jid);
    var es := Emitted(SortByStamp(ms), last);
    SortedMembers(ms);
    EmittedMembers(SortByStamp(ms), last);
    RenderSize(book, es, dateOf, timeOf);
    if es != [] {
      assert es[0] in es;
    }
  }

  /**
   * When something was rendered, the chat's stored timestamp moves to a
   * non-empty timestamp above the old one that no new message exceeds; other
   * chats are untouched either way.
   */
  lemma SyncStepMark(book: AddressBook, chats: map<string, ChatState>, notes: map<string, string>,
                     jid: string, name: string, chatType: string, ms: seq<WaMessage>, now: string,
                     dateOf: string -> string, timeOf: string -> string)
    ensures var s := SyncStep(book, chats, notes, jid, name, chatType, ms, now, dateOf, timeOf);
      var last := LastTs(chats, jid);
      && (s.count > 0 ==>
            && jid in s.chats && s.chats[jid] == ChatState(s.chats[jid].ts, name)
            && s.chats[jid].ts != ""
            && (Truthy(last) ==> LexLess(last.value, s.chats[jid].ts))
            && (forall m :: m in ms && IsNew(m, last) ==> LexLessEq(m.timestamp, s.chats[jid].ts)))
      && (forall j :: j in chats && j != jid ==> j in s.chats && s.chats[j] == chats[j])
  {
    var last := LastTs(chats, jid);
    var sorted := SortByStamp(ms);
    var es := Emitted(sorted, last);
    var s := SyncStep(book, chats, notes, jid, name, chatType, ms, now, dateOf, timeOf);
    if es != [] {
      var t := es[|es| - 1].timestamp;
      assert s.chats == chats[jid := ChatState(t, name)];
      SortByStampSpec(ms, "");
      SortedMembers(ms);
      EmittedMembers(sorted, last);
      EmittedMax(sorted, last);
      assert es[|es| - 1] in es;
      if Truthy(last) {
        LexLessTotal(last.value, t);
      }
    } else {
      assert s.chats == chats;
    }
  }

  /**
   * Syncing the same messages a second time writes nothing: the first sync
   * left the chat's timestamp at or above every one of them.
   */
  lemma SyncStepTwice(book: AddressBook, chats: map<string, ChatState>, notes: map<string, string>,
                      jid: string, name: string, chatType: string, ms: seq<WaMessage>, now: string,
                      later: string, dateOf: string -> string, timeOf: string -> string)
    ensures var s := SyncStep(book, chats, notes, jid, name, chatType, ms, now, dateOf, timeOf);
      var t := SyncStep(book, s.chats, s.notes, jid, name, chatType, ms, later, dateOf, timeOf);
      t.count == 0 && t.lines == [] && t.chats == s.chats && t.notes == s.notes
  {
    var s := SyncStep(book, chats, notes, jid, name, chatType, ms, now, dateOf, timeOf);
    var last := LastTs(chats, jid);
    SyncStepCount(book, chats, notes, jid, name, chatType, ms, now, dateOf, timeOf);
    SyncStepMark(book, chats, notes, jid, name, chatType, ms, now, dateOf, timeOf);
    if s.count > 0 {
      var mark := s.chats[jid].ts;
      assert LastTs(s.chats, jid) == Some(mark);
      forall m | m in ms
        ensures !IsNew(m, Some(mark))
      {
        if !IsNew(m, last) && m.timestamp != "" && m.timestamp != last.value {
          LexLessTransitive(m.timestamp, last.value, mark);
        }
      }
    }
    SyncStepCount(book, s.chats, s.notes, jid, name, chatType, ms, later, dateOf, timeOf);
  }

  lemma EmittedStep(ms: seq<WaMessage>, i: nat, last: Option<string>)
    requires i < |ms|
    ensures IsNew(ms[i], last) ==> Emitted(ms[..i + 1], last) == Emitted(ms[..i], last) + [ms[i]]
    ensures !IsNew(ms[i], last) ==> Emitted(ms[..i + 1], last) == Emitted(ms[..i], last)
  {
    assert ms[..i + 1][..i] == ms[..i];
  }

  /** Adding a message adds its block, headed against the previous message's date. */
  lemma RenderSnoc(book: AddressBook, es: seq<WaMessage>, m: WaMessage, dateOf: string -> string,
                   timeOf: string -> string, lines: seq<string>, block: seq<string>)
    requires lines == Render(book, es, dateOf, timeOf)
    requires block == Block(book, m, PrevDate(es, |es|, dateOf), dateOf, timeOf)
    ensures lines + block == Render(book, es + [m], dateOf, timeOf)
  {
    assert (es + [m])[..|es|] == es;
  }

  /** The loop of sync_chat: skip old messages, head each new date, render and count the rest. */
  method RenderNew(contacts: ContactsCache, sorted: seq<WaMessage>, last: Option<string>,
                   dateOf: string -> string, timeOf: string -> string)
    returns (count: nat, lines: seq<string>, newest: Option<string>, currentDate: string)
    ensures RenderedSoFar(contacts.Book(), sorted, last, count, lines, currentDate, newest, dateOf, timeOf)
  {
    newest := None;
    currentDate := "";
    lines := [];
    count := 0;
    ghost var book := contacts.Book();
    var i := 0;
    while i < |sorted|
      invariant 0 <= i <= |sorted|
      invariant RenderedSoFar(book, sorted[..i], last, count, lines, currentDate, newest, dateOf, timeOf)
    {
      count, lines, currentDate, newest :=
        RenderStep(contacts, book, sorted, i, last, count, lines, currentDate, newest, dateOf, timeOf);
      i := i + 1;
    }
    assert sorted[..i] == sorted;
  }

  /** The loop state after the messages `done`: what has been counted, rendered and remembered. */
  ghost predicate RenderedSoFar(book: AddressBook, done: seq<WaMessage>, last: Option<string>, count: nat,
                                lines: seq<string>, currentDate: string, newest: Option<string>,
                                dateOf: string -> string, timeOf: string -> string)
  {
    var es := Emitted(done, last);
    && count == |es|
    && lines == Render(book, es, dateOf, timeOf)
    && currentDate == PrevDate(es, |es|, dateOf)
    && newest == (if es == [] then None else Some(es[|es| - 1].timestamp))
  }

  /** One turn of the loop of sync_chat. */
  method RenderStep(contacts: ContactsCache, ghost book: AddressBook, sorted: seq<WaMessage>, i: nat,
                    last: Option<string>, count: nat, lines: seq<string>, currentDate: string,
                    newest: Option<string>, dateOf: string -> string, timeOf: string -> string)
    returns (count': nat, lines': seq<string>, currentDate': string, newest': Option<string>)
    requires book == contacts.Book() && i < |sorted|
    requires RenderedSoFar(book, sorted[..i], last, count, lines, currentDate, newest, dateOf, timeOf)
    ensures RenderedSoFar(book, sorted[..i + 1], last, count', lines', currentDate', newest', dateOf, timeOf)
  {
    var m := sorted[i];
    ghost var es := Emitted(sorted[..i], last);
    EmittedStep(sorted, i, last);
    if IsNew(m, last) {
      lines', currentDate' := RenderOne(contacts, book, es, m, lines, currentDate, dateOf, timeOf);
      newest' := Some(m.timestamp);
      count' := count + 1;
      assert (es + [m])[|es|] == m;
    } else {
      count', lines', currentDate', newest' := count, lines, currentDate, newest;
    }
  }

  /** One new message: a heading when its date is not the current one, then its entry. */
  method RenderOne(contacts: ContactsCache, ghost book: AddressBook, ghost es: seq<WaMessage>, m: WaMessage,
                   lines: seq<string>, currentDate: string, dateOf: string -> string, timeOf: string -> string)
    returns (lines': seq<string>, date: string)
    requires book == contacts.Book()
    requires lines == Render(book, es, dateOf, timeOf)
    requires currentDate == PrevDate(es, |es|, dateOf)
    ensures lines' == Render(book, es + [m], dateOf, timeOf)
    ensures date == dateOf(m.timestamp)
  {
    var sender;
    if m.fromMe {
      sender := "Me";
    } else {
      sender := contacts.GetName(m.senderJid);
    }
    date := dateOf(m.timestamp);
    var block := [];
    if date != currentDate {
      block := ["\n## " + date + "\n"];
    }
    block := block + ["\n**" + timeOf(m.timestamp) + " - " + sender + "**", Content(m), ""];
    RenderSnoc(book, es, m, dateOf, timeOf, lines, block);
    lines' := lines + block;
  }

  /**
   * sync_chat on the fetched messages: sort them, render the new ones, and
   * store the newest timestamp when anything was rendered.
   */
  method SyncChat(contacts: ContactsCache, state: SyncState, vault: Vault, jid: string, name: string,
                  chatType: string, ms: seq<WaMessage>, now: string,
                  dateOf: string -> string, timeOf: string -> string)
    returns (count: nat, lines: seq<string>)
    modifies state, vault
    ensures var s := SyncStep(contacts.Book(), old(state.chats), old(vault.notes), jid, name, chatType, ms,
                              now, dateOf, timeOf);
      count == s.count && lines == s.lines && state.chats == s.chats && vault.notes == s.notes
  {
    if ms == [] {
      return 0, [];
    }
    var sorted := SortByStamp(ms);
    var last := LastTs(state.chats, jid);
    var newest;
    var date;
    count, lines, newest, date := RenderNew(contacts, sorted, last, dateOf, timeOf);
    ghost var es := Emitted(sorted, last);
    RenderSize(contacts.Book(), es, dateOf, timeOf);
    if es != [] {
      EmittedMembers(sorted, last);
      assert es[|es| - 1] in es;
    }
    if lines != [] && newest.Some? && newest.value != "" {
      vault.Write(NotePath(chatType, name), lines, jid, name, chatType, now);
      state.Update(jid, newest.value, name);
    }
  }

  // ---------------------------------------------------------------------
  // Which chats are synced

  /** The chat kind `main` assigns, or None for a JID it skips. */
  function ChatKind(jid: string): (r: Option<string>)
    ensures r.None? <==> jid == "" || jid == "status@broadcast" || Contains(jid, "@lid")
    ensures r.Some? ==> (r.value == "group" <==> Contains(jid, "@g.us"))
    ensures r.Some? ==> r.value == "group" || r.value == "dm"
  {
    if jid == "" || jid == "status@broadcast" || Contains(jid, "@lid") then None
    else if Contains(jid, "@g.us") then Some("group")
    else Some("dm")
  }

  /** The name `main` gives a chat: the listed name, else the contacts' name for its JID. */
  function ChatName(listed: Option<string>, book: AddressBook, jid: string): (r: string)
    ensures Truthy(listed) ==> r == listed.value
    ensures !Truthy(listed) ==> r == NameOf(book, jid)
  {
    OrElse(listed, NameOf(book, jid))
  }
}
