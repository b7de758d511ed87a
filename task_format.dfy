/**
 * The markdown record format of the dev-task queues (task_manager.py):
 * `## [Pn] Title` headings followed by `- Field: value` lines.
 *
 * The two regular expressions of the source are modelled character by
 * character: the heading pattern `^## \[(P[0-3])\] (.+?)$` used by re.split
 * (Scan, HeadingAt) and the field pattern
 * `^\s*-?\s*\*?\*?{field}\*?\*?:\s*(.+?)$` searched with MULTILINE and
 * IGNORECASE (FindField, MatchAt). The main theorem, ParseWriteRoundTrip,
 * says that reading back what write_tasks produced gives the same tasks.
 */
module TaskFormat {
  import opened Text

  datatype Priority = P0 | P1 | P2 | P3

  function PriorityDigit(p: Priority): (c: char)
    ensures '0' <= c <= '3'
  {
    match p
    case P0 => '0'
    case P1 => '1'
    case P2 => '2'
    case P3 => '3'
  }

  /** "P0" .. "P3" */
  function PriorityName(p: Priority): (r: string)
    ensures |r| == 2 && r[0] == 'P' && '0' <= r[1] <= '3'
  {
    ['P', PriorityDigit(p)]
  }

  function PriorityOfDigit(c: char): (p: Priority)
    requires '0' <= c <= '3'
    ensures PriorityName(p) == ['P', c]
  {
    if c == '0' then P0 else if c == '1' then P1 else if c == '2' then P2 else P3
  }

  /** The Task record; optional fields are None when absent. */
  datatype Task = Task(
    id: string,
    title: string,
    priority: Priority,
    project: string,
    created: string,
    context: string,
    agentSession: Option<string>,
    startedAt: Option<string>,
    blockedReason: Option<string>,
    completedAt: Option<string>,
    result: Option<string>)

  /** The field names that format_task writes and parse_tasks looks up. */
  datatype Field =
    | FieldId | FieldProject | FieldCreated | FieldStarted | FieldAgent
    | FieldBlocked | FieldCompleted | FieldResult | FieldContext

  function Name(f: Field): string
  {
    match f
    case FieldId => "ID"
    case FieldProject => "Project"
    case FieldCreated => "Created"
    case FieldStarted => "Started"
    case FieldAgent => "Agent"
    case FieldBlocked => "Blocked"
    case FieldCompleted => "Completed"
    case FieldResult => "Result"
    case FieldContext => "Context"
  }

  predicate IsLetter(c: char)
  {
    'a' <= c <= 'z' || 'A' <= c <= 'Z'
  }

  /** A word of at least two ASCII letters, as every field name is. */
  predicate GoodLabel(l: string)
  {
    |l| >= 2 && forall m :: 0 <= m < |l| ==> IsLetter(l[m])
  }

  lemma NameLetters(f: Field)
    ensures GoodLabel(Name(f))
  {
  }

  // ---------------------------------------------------------------------
  // Positions in a string. The patterns are matched at positions of the
  // whole text rather than on its suffixes.
  // ---------------------------------------------------------------------

  /** The position of the first line break at or after `i`, or |s|: where `$` matches. */
  function LineEnd(s: string, i: nat): (j: nat)
    requires i <= |s|
    ensures i <= j <= |s|
    decreases |s| - i
  {
    if i < |s| && s[i] != '\n' then LineEnd(s, i + 1) else i
  }

  lemma {:induction false} LineEndSpec(s: string, i: nat)
    requires i <= |s|
    ensures forall k :: i <= k < LineEnd(s, i) ==> s[k] != '\n'
    ensures LineEnd(s, i) < |s| ==> s[LineEnd(s, i)] == '\n'
    decreases |s| - i
  {
    if i < |s| && s[i] != '\n' {
      LineEndSpec(s, i + 1);
    }
  }

  lemma {:induction false} LineEndAt(s: string, i: nat, j: nat)
    requires i <= j <= |s|
    requires forall k :: i <= k < j ==> s[k] != '\n'
    requires j == |s| || s[j] == '\n'
    ensures LineEnd(s, i) == j
    decreases j - i
  {
    if i < j {
      LineEndAt(s, i + 1, j);
    }
  }

  /** The first position in [i, end] that is `end` or holds no whitespace: where `\s*` stops. */
  function SpaceEnd(s: string, i: nat, end: nat): (j: nat)
    requires i <= end <= |s|
    ensures i <= j <= end
    decreases end - i
  {
    if i < end && IsSpace(s[i]) then SpaceEnd(s, i + 1, end) else i
  }

  // ---------------------------------------------------------------------
  // The field pattern  ^\s*-?\s*\*?\*?{field}\*?\*?:\s*(.+?)$
  // ---------------------------------------------------------------------

  /** Characters the part before the field name can consist of. */
  predicate IsRunChar(c: char)
  {
    IsSpace(c) || c == '-' || c == '*'
  }

  /** The end of the run of blanks, dashes and stars that starts at `i`. */
  function RunEnd(s: string, i: nat): (q: nat)
    requires i <= |s|
    ensures i <= q <= |s|
    decreases |s| - i
  {
    if i < |s| && IsRunChar(s[i]) then RunEnd(s, i + 1) else i
  }

  /** Whether s[i..q] matches `\s*-?\s*\*?\*?` as a whole. */
  predicate PrefixShape(s: string, i: nat, q: nat)
    requires i <= q <= |s|
  {
    var a := SpaceEnd(s, i, q);
    var b := if a < q && s[a] == '-' then SpaceEnd(s, a + 1, q) else a;
    q - b <= 2 && (b < q ==> s[b] == '*') && (b + 1 < q ==> s[b + 1] == '*')
  }

  /** `name` at position `j` of `s`, letters compared without regard to ASCII case. */
  predicate NameAt(s: string, j: nat, name: string)
    decreases |name|
  {
    j + |name| <= |s|
    && (|name| == 0 || (LowerChar(s[j]) == LowerChar(name[0]) && NameAt(s, j + 1, name[1..])))
  }

  /** The length of `\*?\*?:` at position `p`, or 0 when it is not there. */
  function ColonEnd(s: string, p: nat): (k: nat)
    ensures k <= 3 && (k > 0 ==> p + k <= |s| && s[p + k - 1] == ':')
  {
    if p + 1 <= |s| && s[p] == ':' then 1
    else if p + 2 <= |s| && s[p] == '*' && s[p + 1] == ':' then 2
    else if p + 3 <= |s| && s[p] == '*' && s[p + 1] == '*' && s[p + 2] == ':' then 3
    else 0
  }

  predicate NewlinesFrom(s: string, i: nat)
    requires i <= |s|
    decreases |s| - i
  {
    i == |s| || (s[i] == '\n' && NewlinesFrom(s, i + 1))
  }

  /**
   * `\s*(.+?)$` from position `p` (just after the colon), giving the stripped
   * group. `\s*` may cross line breaks; when only whitespace is left it gives
   * back characters until `.` finds one that is not a line break, so the
   * group is blank, and when only line breaks are left there is no match.
   */
  function PostColon(s: string, p: nat): Option<string>
    requires p <= |s|
  {
    var a := SpaceEnd(s, p, |s|);
    if a < |s| then Some(Strip(s[a..LineEnd(s, a)]))
    else if NewlinesFrom(s, p) then None
    else Some("")
  }

  /**
   * The field pattern for `name` tried at position `i` (a line start). The
   * name starts with a letter, so it can only start where the run of
   * blanks, dashes and stars ends.
   */
  function MatchAt(s: string, i: nat, name: string): Option<string>
    requires i <= |s| && GoodLabel(name)
  {
    var q := RunEnd(s, i);
    if PrefixShape(s, i, q) then MatchName(s, q, name) else None
  }

  /** The rest of the field pattern, `{field}\*?\*?:\s*(.+?)$`, from position `q`. */
  function MatchName(s: string, q: nat, name: string): Option<string>
    requires q <= |s|
  {
    if NameAt(s, q, name) then
      var k := ColonEnd(s, q + |name|);
      if k == 0 then None else PostColon(s, q + |name| + k)
    else None
  }

  /** re.search with MULTILINE from position `i`: the first line start where the pattern matches. */
  function FindField(s: string, name: string, i: nat, lineStart: bool): Option<string>
    requires i <= |s| && GoodLabel(name)
    decreases |s| - i
  {
    if lineStart && MatchAt(s, i, name).Some? then MatchAt(s, i, name)
    else if i == |s| then None
    else FindField(s, name, i + 1, s[i] == '\n')
  }

  predicate StartsWithBold(v: string)
  {
    |v| >= 2 && v[0] == '*' && v[1] == '*'
  }

  /** `re.sub(r'^\*\*\s*', '', value)` */
  function RemoveBold(v: string): string
  {
    if StartsWithBold(v) then TrimStart(v[2..]) else v
  }

  /** _extract_field, for one of the field names the source looks up. */
  function ExtractField(body: string, f: Field): Option<string>
  {
    NameLetters(f);
    match FindField(body, Name(f), 0, true)
    case None => None
    case Some(v) => Some(RemoveBold(v))
  }

  /** A value the pattern captures is one stripped line. */
  lemma PostColonValue(s: string, p: nat)
    requires p <= |s| && PostColon(s, p).Some?
    ensures '\n' !in PostColon(s, p).value && Trimmed(PostColon(s, p).value)
  {
    var a := SpaceEnd(s, p, |s|);
    if a < |s| {
      LineEndSpec(s, a);
      var line := s[a..LineEnd(s, a)];
      assert '\n' !in line;
      StripWithin(line);
      StripIsTrimmed(line);
    }
  }

  lemma MatchAtValue(s: string, i: nat, name: string)
    requires i <= |s| && GoodLabel(name) && MatchAt(s, i, name).Some?
    ensures '\n' !in MatchAt(s, i, name).value && Trimmed(MatchAt(s, i, name).value)
  {
    var q := RunEnd(s, i);
    var n := |name|;
    PostColonValue(s, q + n + ColonEnd(s, q + n));
  }

  lemma {:induction false} FindFieldValue(s: string, name: string, i: nat, lineStart: bool)
    requires i <= |s| && GoodLabel(name) && FindField(s, name, i, lineStart).Some?
    ensures '\n' !in FindField(s, name, i, lineStart).value && Trimmed(FindField(s, name, i, lineStart).value)
    decreases |s| - i
  {
    if lineStart && MatchAt(s, i, name).Some? {
      MatchAtValue(s, i, name);
    } else {
      FindFieldValue(s, name, i + 1, s[i] == '\n');
    }
  }

  /** _extract_field gives one line, with no whitespace at its end. */
  lemma ExtractFieldValue(body: string, f: Field)
    requires ExtractField(body, f).Some?
    ensures '\n' !in ExtractField(body, f).value
    ensures var v := ExtractField(body, f).value; v == [] || !IsSpace(v[|v| - 1])
  {
    NameLetters(f);
    FindFieldValue(body, Name(f), 0, true);
    var v := FindField(body, Name(f), 0, true).value;
    if StartsWithBold(v) {
      var w := v[2..];
      assert '\n' !in w;
      TrimStartSpec(w);
    }
  }

  // ---------------------------------------------------------------------
  // The heading pattern  ^## \[(P[0-3])\] (.+?)$  and re.split
  // ---------------------------------------------------------------------

  /** A heading found at a line start: its priority, its title and where its line ends. */
  datatype Heading = Heading(priority: Priority, title: string, end: nat)

  function HeadingText(p: Priority, title: string): string
  {
    "## [" + PriorityName(p) + "] " + title
  }

  /** `## [P` digit `] ` at position `i` */
  predicate HeadingPrefix(s: string, i: nat)
  {
    && i + 8 <= |s| && s[i] == '#' && s[i + 1] == '#' && s[i + 2] == ' ' && s[i + 3] == '['
    && s[i + 4] == 'P' && '0' <= s[i + 5] <= '3' && s[i + 6] == ']' && s[i + 7] == ' '
  }

  /** The heading pattern tried at position `i` (a line start). */
  function HeadingAt(s: string, i: nat): (r: Option<Heading>)
    requires i <= |s|
    ensures r.Some? ==> HeadingPrefix(s, i) && i + 8 < r.value.end <= |s|
  {
    if HeadingPrefix(s, i) && LineEnd(s, i + 8) > i + 8 then
      var e := LineEnd(s, i + 8);
      Some(Heading(PriorityOfDigit(s[i + 5]), s[i + 8..e], e))
    else None
  }

  /** What HeadingAt matched is a heading line of that priority and a one-line, non-empty title. */
  lemma HeadingAtText(s: string, i: nat)
    requires i <= |s| && HeadingAt(s, i).Some?
    ensures var h := HeadingAt(s, i).value;
      && h.end == i + 8 + |h.title| && s[i..h.end] == HeadingText(h.priority, h.title)
      && h.title != [] && '\n' !in h.title
      && (h.end == |s| || s[h.end] == '\n')
  {
    var h := HeadingAt(s, i).value;
    LineEndSpec(s, i + 8);
    assert PriorityName(h.priority) == ['P', s[i + 5]];
    assert s[i..h.end] == s[i..i + 4] + s[i + 4..i + 6] + s[i + 6..i + 8] + s[i + 8..h.end];
  }

  /** The converse: every such line is a heading. */
  lemma HeadingAtComplete(s: string, i: nat, p: Priority, title: string)
    requires title != [] && '\n' !in title
    requires i + 8 + |title| <= |s| && s[i..i + 8 + |title|] == HeadingText(p, title)
    requires i + 8 + |title| == |s| || s[i + 8 + |title|] == '\n'
    ensures HeadingAt(s, i) == Some(Heading(p, title, i + 8 + |title|))
  {
    var e := i + 8 + |title|;
    var name := PriorityName(p);
    var t := s[i..e];
    assert t == "## [" + name + "] " + title;
    assert t[0] == '#' && t[1] == '#' && t[2] == ' ' && t[3] == '[' && t[4] == 'P';
    assert t[5] == name[1] && t[6] == ']' && t[7] == ' ';
    assert forall k :: 0 <= k < 8 ==> s[i + k] == t[k];
    assert PriorityOfDigit(s[i + 5]) == p;
    assert s[i + 8..e] == t[8..] == title;
    assert forall k :: i + 8 <= k < e ==> s[k] == title[k - i - 8];
    LineEndAt(s, i + 8, e);
  }

  /** The text of a queue file cut at its headings, as re.split does. */
  datatype Block = Block(priority: Priority, title: string, body: string)

  function BlockText(b: Block): string
  {
    HeadingText(b.priority, b.title) + b.body
  }

  function Concat(bs: seq<Block>): string
  {
    if bs == [] then "" else BlockText(bs[0]) + Concat(bs[1..])
  }

  /**
   * re.split(pattern, s[i..], flags=re.MULTILINE), grouped: the text before
   * the first heading and, for each heading, its priority, title and the text
   * up to the next heading.
   */
  function Scan(s: string, i: nat, lineStart: bool): (r: (string, seq<Block>))
    requires i <= |s|
    decreases |s| - i
  {
    if i == |s| then ("", [])
    else if lineStart && HeadingAt(s, i).Some? then
      var h := HeadingAt(s, i).value;
      var tail := Scan(s, h.end, false);
      ("", [Block(h.priority, h.title, tail.0)] + tail.1)
    else
      var tail := Scan(s, i + 1, s[i] == '\n');
      ([s[i]] + tail.0, tail.1)
  }

  /** One step of the split where no heading starts. */
  lemma ScanStep(s: string, i: nat, lineStart: bool)
    requires i < |s| && !(lineStart && HeadingAt(s, i).Some?)
    ensures var tail := Scan(s, i + 1, s[i] == '\n'); Scan(s, i, lineStart) == ([s[i]] + tail.0, tail.1)
  {
  }

  /** One step of the split at a heading: a block runs from it to the next heading. */
  lemma ScanHeading(s: string, i: nat)
    requires i < |s| && HeadingAt(s, i).Some?
    ensures var h := HeadingAt(s, i).value; var tail := Scan(s, h.end, false);
      Scan(s, i, true) == ("", [Block(h.priority, h.title, tail.0)] + tail.1)
  {
  }

  lemma ConcatCons(b: Block, bs: seq<Block>)
    ensures Concat([b] + bs) == BlockText(b) + Concat(bs)
  {
    assert ([b] + bs)[1..] == bs;
  }

  /** The split loses nothing: the text before the first heading and the blocks make up the input. */
  lemma {:induction false} ScanLossless(s: string, i: nat, lineStart: bool)
    requires i <= |s|
    ensures var r := Scan(s, i, lineStart); s[i..] == r.0 + Concat(r.1)
    decreases |s| - i
  {
    if i == |s| {
    } else if lineStart && HeadingAt(s, i).Some? {
      var h := HeadingAt(s, i).value;
      HeadingAtText(s, i);
      ScanHeading(s, i);
      ScanLossless(s, h.end, false);
      var tail := Scan(s, h.end, false);
      ConcatCons(Block(h.priority, h.title, tail.0), tail.1);
      SliceSplit(s, i, h.end);
      AppendAssoc(HeadingText(h.priority, h.title), tail.0, Concat(tail.1));
    } else {
      var tail := Scan(s, i + 1, s[i] == '\n');
      ScanStep(s, i, lineStart);
      ScanLossless(s, i + 1, s[i] == '\n');
      SliceSplit(s, i, i + 1);
      AppendAssoc([s[i]], tail.0, Concat(tail.1));
    }
  }

  /** Every block the split gives has a non-empty, one-line title. */
  lemma {:induction false} ScanTitles(s: string, i: nat, lineStart: bool)
    requires i <= |s|
    ensures forall b :: b in Scan(s, i, lineStart).1 ==> b.title != [] && '\n' !in b.title
    decreases |s| - i
  {
    if i == |s| {
    } else if lineStart && HeadingAt(s, i).Some? {
      var h := HeadingAt(s, i).value;
      HeadingAtText(s, i);
      ScanHeading(s, i);
      ScanTitles(s, h.end, false);
    } else {
      ScanStep(s, i, lineStart);
      ScanTitles(s, i + 1, s[i] == '\n');
    }
  }

  // ---------------------------------------------------------------------
  // parse_tasks
  // ---------------------------------------------------------------------

  /** One block read as a task, with the defaults of parse_tasks. */
  function TaskOf(b: Block, newId: string, today: string): Task
  {
    Task(
      id := OrElse(ExtractField(b.body, FieldId), newId),
      title := Strip(b.title),
      priority := b.priority,
      project := OrElse(ExtractField(b.body, FieldProject), "unknown"),
      created := OrElse(ExtractField(b.body, FieldCreated), today),
      context := OrElse(ExtractField(b.body, FieldContext), Strip(b.body)),
      agentSession := ExtractField(b.body, FieldAgent),
      startedAt := ExtractField(b.body, FieldStarted),
      blockedReason := ExtractField(b.body, FieldBlocked),
      completedAt := ExtractField(b.body, FieldCompleted),
      result := ExtractField(b.body, FieldResult))
  }

  /**
   * The tasks read from the blocks `bs` in order, the k-th with the k-th
   * fresh id `newId(k)` and today's date.
   */
  function ParseBlocks(bs: seq<Block>, newId: nat -> string, today: string): (ts: seq<Task>)
    ensures |ts| == |bs|
  {
    if bs == [] then []
    else ParseBlocks(bs[..|bs| - 1], newId, today) + [TaskOf(bs[|bs| - 1], newId(|bs| - 1), today)]
  }

  lemma ParseBlocksAt(bs: seq<Block>, newId: nat -> string, today: string, k: nat)
    requires k < |bs|
    ensures ParseBlocks(bs, newId, today)[k] == TaskOf(bs[k], newId(k), today)
  {
    ParsePrefixAt(bs, newId, today, k, |bs|);
    assert bs[..|bs|] == bs;
  }

  /** The k-th task read from any prefix of the blocks that holds the k-th block. */
  lemma {:induction false} ParsePrefixAt(bs: seq<Block>, newId: nat -> string, today: string, k: nat, m: nat)
    requires k < m <= |bs|
    ensures ParseBlocks(bs[..m], newId, today)[k] == TaskOf(bs[k], newId(k), today)
    decreases m
  {
    ParseBlocksSnoc(bs, newId, today, m - 1);
    var pre := ParseBlocks(bs[..m - 1], newId, today);
    var last := TaskOf(bs[m - 1], newId(m - 1), today);
    assert ParseBlocks(bs[..m], newId, today) == pre + [last];
    SnocAt(pre, last, k);
    if k < m - 1 {
      ParsePrefixAt(bs, newId, today, k, m - 1);
    }
  }

  lemma ParseBlocksSnoc(bs: seq<Block>, newId: nat -> string, today: string, i: nat)
    requires i < |bs|
    ensures ParseBlocks(bs[..i + 1], newId, today) == ParseBlocks(bs[..i], newId, today) + [TaskOf(bs[i], newId(i), today)]
  {
    assert bs[..i + 1][..i] == bs[..i];
  }

  /**
   * parse_tasks on a file's content (None when the file does not exist).
   * `newId(k)` is the fresh 8-character id drawn for the k-th block and
   * `today` the current date, both supplied by the caller.
   */
  function ParseSpec(content: Option<string>, newId: nat -> string, today: string): (ts: seq<Task>)
    ensures content.None? ==> ts == []
    ensures content.Some? ==> |ts| == |Scan(content.value, 0, true).1|
  {
    if content.None? then [] else ParseBlocks(Scan(content.value, 0, true).1, newId, today)
  }

  /** parse_tasks: the loop over the split blocks, appending one task each. */
  method ParseTasks(content: Option<string>, newId: nat -> string, today: string) returns (tasks: seq<Task>)
    ensures tasks == ParseSpec(content, newId, today)
  {
    if content.None? {
      return [];
    }
    var blocks := Scan(content.value, 0, true).1;
    tasks := [];
    var i := 0;
    while i < |blocks|
      invariant 0 <= i <= |blocks|
      invariant tasks == ParseBlocks(blocks[..i], newId, today)
    {
      ParseBlocksSnoc(blocks, newId, today, i);
      var task := TaskOf(blocks[i], newId(i), today);
      tasks := tasks + [task];
      i := i + 1;
    }
    assert blocks[..i] == blocks;
  }

  // ---------------------------------------------------------------------
  // format_task and write_tasks
  // ---------------------------------------------------------------------
  /**
   * One `- Label: value` line of format_task: the field it stands for, the
   * label written for it and the value.
   */
  datatype Entry = Entry(field: Field, name: string, value: string)

  function Line(f: Field, v: string): Entry
  {
    Entry(f, Name(f), v)
  }

  /** The value format_task writes for a field, if it writes one: the optional fields only when set and non-empty. */
  function Written(t: Task, f: Field): Option<string>
  {
    match f
    case FieldId => Some(t.id)
    case FieldProject => Some(t.project)
    case FieldCreated => Some(t.created)
    case FieldStarted => if Truthy(t.startedAt) then t.startedAt else None
    case FieldAgent => if Truthy(t.agentSession) then t.agentSession else None
    case FieldBlocked => if Truthy(t.blockedReason) then t.blockedReason else None
    case FieldCompleted => if Truthy(t.completedAt) then t.completedAt else None
    case FieldResult => if Truthy(t.result) then t.result else None
    case FieldContext => Some(t.context)
  }

  /** The order in which format_task writes the fields. */
  const FieldOrder: seq<Field> :=
    [FieldId, FieldProject, FieldCreated, FieldStarted, FieldAgent,
     FieldBlocked, FieldCompleted, FieldResult, FieldContext]

  /** The entries written for the fields `fs`, in that order. */
  function EntriesOf(t: Task, fs: seq<Field>): seq<Entry>
  {
    if fs == [] then []
    else
      var w := Written(t, fs[0]);
      (if w.Some? then [Line(fs[0], w.value)] else []) + EntriesOf(t, fs[1..])
  }

  /** The entry lines of format_task. */
  function Entries(t: Task): seq<Entry>
  {
    EntriesOf(t, FieldOrder)
  }

  function EntryLine(e: Entry): string
  {
    "- " + e.name + ": " + e.value
  }

  function EntryLines(es: seq<Entry>): (r: seq<string>)
    ensures |r| == |es|
  {
    if es == [] then [] else [EntryLine(es[0])] + EntryLines(es[1..])
  }

  /** format_task */
  function FormatTask(t: Task): string
  {
    Join([HeadingText(t.priority, t.title)] + EntryLines(Entries(t)) + [""], "\n")
  }

  function FormatAll(ts: seq<Task>): (r: seq<string>)
    ensures |r| == |ts|
  {
    if ts == [] then [] else [FormatTask(ts[0])] + FormatAll(ts[1..])
  }

  /** write_tasks: the content written to the file. */
  function WriteTasks(header: string, ts: seq<Task>): string
  {
    (if header != "" then header + "\n\n" else "") + Join(FormatAll(ts), "\n")
  }

  /** Every line followed by a line break. */
  function Terminated(lines: seq<string>): string
  {
    if lines == [] then "" else lines[0] + "\n" + Terminated(lines[1..])
  }

  lemma {:induction false} JoinWithEmptyLast(lines: seq<string>)
    ensures Join(lines + [""], "\n") == Terminated(lines)
  {
    if lines != [] {
      assert (lines + [""])[1..] == lines[1..] + [""];
      JoinWithEmptyLast(lines[1..]);
    }
  }

  function Render(es: seq<Entry>): string
  {
    Terminated(EntryLines(es))
  }

  /** format_task writes the heading line, then every entry line, each ended by a line break. */
  lemma FormatTaskShape(t: Task)
    ensures FormatTask(t) == HeadingText(t.priority, t.title) + "\n" + Render(Entries(t))
  {
    var lines := [HeadingText(t.priority, t.title)] + EntryLines(Entries(t));
    assert [HeadingText(t.priority, t.title)] + EntryLines(Entries(t)) + [""] == lines + [""];
    JoinWithEmptyLast(lines);
    assert lines[1..] == EntryLines(Entries(t));
  }

  lemma {:induction false} EntriesOfAppend(t: Task, fs: seq<Field>, gs: seq<Field>)
    ensures EntriesOf(t, fs + gs) == EntriesOf(t, fs) + EntriesOf(t, gs)
  {
    if fs == [] {
      assert fs + gs == gs;
    } else {
      assert (fs + gs)[1..] == fs[1..] + gs;
      EntriesOfAppend(t, fs[1..], gs);
    }
  }

  /** The optional fields, in the order format_task writes them. */
  const OptionalOrder: seq<Field> := [FieldStarted, FieldAgent, FieldBlocked, FieldCompleted, FieldResult]

  /** The three fixed fields, then the optional ones that are set, then the context. */
  lemma EntriesShape(t: Task)
    ensures Entries(t)
      == [Line(FieldId, t.id), Line(FieldProject, t.project), Line(FieldCreated, t.created)]
         + EntriesOf(t, OptionalOrder) + [Line(FieldContext, t.context)]
  {
    var first := [FieldId, FieldProject, FieldCreated];
    assert FieldOrder == first + (OptionalOrder + [FieldContext]);
    EntriesOfAppend(t, first, OptionalOrder + [FieldContext]);
    EntriesOfAppend(t, OptionalOrder, [FieldContext]);
    assert first[1..] == [FieldProject, FieldCreated] && first[1..][1..] == [FieldCreated];
    assert [FieldCreated][1..] == [] && [FieldContext][1..] == [];
    assert EntriesOf(t, [FieldCreated]) == [Line(FieldCreated, t.created)];
    assert EntriesOf(t, [FieldProject, FieldCreated]) == [Line(FieldProject, t.project), Line(FieldCreated, t.created)];
    assert EntriesOf(t, first) == [Line(FieldId, t.id), Line(FieldProject, t.project), Line(FieldCreated, t.created)];
    assert EntriesOf(t, [FieldContext]) == [Line(FieldContext, t.context)];
  }

  /** format_task always writes ID, Project and Created first and Context last. */
  lemma FormatTaskOrder(t: Task)
    ensures var es := Entries(t);
      && |es| >= 4
      && EntryLine(es[0]) == "- ID: " + t.id
      && EntryLine(es[1]) == "- Project: " + t.project
      && EntryLine(es[2]) == "- Created: " + t.created
      && EntryLine(es[|es| - 1]) == "- Context: " + t.context
  {
    EntriesShape(t);
    var es := Entries(t);
    assert es[0] == Line(FieldId, t.id) && es[1] == Line(FieldProject, t.project);
    assert es[2] == Line(FieldCreated, t.created) && es[|es| - 1] == Line(FieldContext, t.context);
  }

  /** The first entry for a field, as a search from the top finds it. */
  function Lookup(es: seq<Entry>, f: Field): Option<string>
  {
    if es == [] then None else if es[0].field == f then Some(es[0].value) else Lookup(es[1..], f)
  }

  lemma {:induction false} LookupAppend(a: seq<Entry>, b: seq<Entry>, f: Field)
    ensures Lookup(a + b, f) == if Lookup(a, f).Some? then Lookup(a, f) else Lookup(b, f)
  {
    if a != [] {
      assert (a + b)[0] == a[0];
      assert (a + b)[1..] == a[1..] + b;
      LookupAppend(a[1..], b, f);
    } else {
      assert a + b == b;
    }
  }

  /** Looking a field up among the entries written for `fs` finds what format_task writes for it. */
  lemma {:induction false} LookupEntriesOf(t: Task, fs: seq<Field>, f: Field)
    ensures Lookup(EntriesOf(t, fs), f) == if f in fs then Written(t, f) else None
  {
    if fs != [] {
      var w := Written(t, fs[0]);
      var head := if w.Some? then [Line(fs[0], w.value)] else [];
      LookupAppend(head, EntriesOf(t, fs[1..]), f);
      LookupEntriesOf(t, fs[1..], f);
    }
  }

  /** format_task writes a field once, and an optional field only when it is set and non-empty. */
  lemma EntriesLookup(t: Task, f: Field)
    ensures Lookup(Entries(t), f) == Written(t, f)
  {
    LookupEntriesOf(t, FieldOrder, f);
  }

  // ---------------------------------------------------------------------
  // The round trip
  // ---------------------------------------------------------------------

  /** A value that survives being written as `- Field: value` and read back. */
  predicate GoodValue(v: string)
  {
    v != [] && '\n' !in v && Trimmed(v) && !StartsWithBold(v)
  }

  predicate GoodOptional(v: Option<string>)
  {
    v.None? || GoodValue(v.value)
  }

  /** A task whose every field survives write_tasks followed by parse_tasks. */
  predicate WellFormed(t: Task)
  {
    && t.title != [] && '\n' !in t.title && Trimmed(t.title)
    && GoodValue(t.id) && GoodValue(t.project) && GoodValue(t.created) && GoodValue(t.context)
    && GoodOptional(t.agentSession) && GoodOptional(t.startedAt) && GoodOptional(t.blockedReason)
    && GoodOptional(t.completedAt) && GoodOptional(t.result)
  }

  /** No line start in s[i..j] (position i counting as one when `lineStart`) begins "##". */
  predicate NoHeadingBetween(s: string, i: nat, j: nat, lineStart: bool)
    requires i <= j <= |s|
    decreases j - i
  {
    i == j
    || (!(lineStart && i + 1 < |s| && s[i] == '#' && s[i + 1] == '#') && NoHeadingBetween(s, i + 1, j, s[i] == '\n'))
  }

  /** Whether position j is a line start, scanning from i. */
  function LineStartAt(s: string, i: nat, j: nat, lineStart: bool): bool
    requires i <= j <= |s|
  {
    if i == j then lineStart else s[j - 1] == '\n'
  }

  /** A header that write_tasks can put above the tasks without hiding one: no line of it begins "##". */
  predicate HeaderOk(header: string)
  {
    NoHeadingBetween(header, 0, |header|, true)
  }

  lemma {:induction false} NoHeadingJoin(s: string, i: nat, j: nat, k: nat, lineStart: bool)
    requires i <= j <= k <= |s|
    requires NoHeadingBetween(s, i, j, lineStart)
    requires NoHeadingBetween(s, j, k, LineStartAt(s, i, j, lineStart))
    ensures NoHeadingBetween(s, i, k, lineStart)
    decreases j - i
  {
    if i < j {
      assert NoHeadingBetween(s, i + 1, j, s[i] == '\n');
      assert LineStartAt(s, i + 1, j, s[i] == '\n') == LineStartAt(s, i, j, lineStart);
      NoHeadingJoin(s, i + 1, j, k, s[i] == '\n');
      assert NoHeadingBetween(s, i + 1, k, s[i] == '\n');
      assert !(lineStart && i + 1 < |s| && s[i] == '#' && s[i + 1] == '#');
      assert NoHeadingBetween(s, i, k, lineStart)
        == (!(lineStart && i + 1 < |s| && s[i] == '#' && s[i + 1] == '#') && NoHeadingBetween(s, i + 1, k, s[i] == '\n'));
    }
  }

  lemma {:induction false} NoHeadingInLine(s: string, i: nat, j: nat, lineStart: bool)
    requires i <= j <= |s|
    requires forall m :: i <= m < j ==> s[m] != '\n'
    requires lineStart && i < j ==> s[i] != '#'
    ensures NoHeadingBetween(s, i, j, lineStart)
    decreases j - i
  {
    if i < j {
      NoHeadingInLine(s, i + 1, j, false);
    }
  }

  /** A line break is never the start of a heading. */
  lemma NoHeadingNewline(s: string, i: nat, lineStart: bool)
    requires i < |s| && s[i] == '\n'
    ensures NoHeadingBetween(s, i, i + 1, lineStart)
  {
    assert NoHeadingBetween(s, i + 1, i + 1, true);
  }

  /**
   * Text whose lines do not begin "##" keeps that property where it is copied
   * into a longer text, unless what follows the copy completes a "##".
   */
  lemma {:induction false} NoHeadingCopy(b: string, s: string, e: nat, m: nat, lineStart: bool)
    requires e + |b| <= |s| && s[e..e + |b|] == b && m <= |b|
    requires NoHeadingBetween(b, m, |b|, lineStart)
    requires (|b| > 0 && b[|b| - 1] == '\n') || e + |b| == |s| || s[e + |b|] != '#'
    ensures NoHeadingBetween(s, e + m, e + |b|, lineStart)
    decreases |b| - m
  {
    if m < |b| {
      assert s[e + m] == b[m];
      assert m + 1 < |b| ==> s[e + m + 1] == b[m + 1];
      NoHeadingCopy(b, s, e, m + 1, b[m] == '\n');
    }
  }

  /** Text without a heading at a line start is carried into the preceding block. */
  lemma {:induction false} ScanSkip(s: string, i: nat, j: nat, lineStart: bool)
    requires i <= j <= |s| && NoHeadingBetween(s, i, j, lineStart)
    ensures var tail := Scan(s, j, LineStartAt(s, i, j, lineStart));
      Scan(s, i, lineStart) == (s[i..j] + tail.0, tail.1)
    decreases j - i
  {
    if i < j {
      ScanStep(s, i, lineStart);
      ScanSkip(s, i + 1, j, s[i] == '\n');
      assert LineStartAt(s, i + 1, j, s[i] == '\n') == LineStartAt(s, i, j, lineStart);
      var tail := Scan(s, j, LineStartAt(s, i, j, lineStart));
      var step := Scan(s, i + 1, s[i] == '\n');
      assert step == (s[i + 1..j] + tail.0, tail.1);
      assert s[i..j] == [s[i]] + s[i + 1..j];
      AppendAssoc([s[i]], s[i + 1..j], tail.0);
      assert Scan(s, i, lineStart) == ([s[i]] + step.0, step.1);
    } else {
      assert s[i..j] + Scan(s, j, lineStart).0 == Scan(s, j, lineStart).0;
    }
  }

  /** Entries that can be written and read back: good labels and values. */
  predicate GoodEntries(es: seq<Entry>)
  {
    forall k :: 0 <= k < |es| ==> GoodValue(es[k].value) && GoodLabel(es[k].name)
  }

  /** Every entry carries the name of its own field as its label. */
  predicate Labeled(es: seq<Entry>)
  {
    forall k :: 0 <= k < |es| ==> es[k].name == Name(es[k].field)
  }

  lemma GoodEntriesTail(es: seq<Entry>)
    requires GoodEntries(es) && es != []
    ensures GoodEntries(es[1..]) && GoodValue(es[0].value) && GoodLabel(es[0].name)
  {
    forall k | 0 <= k < |es[1..]| ensures GoodValue(es[1..][k].value) && GoodLabel(es[1..][k].name) {
      assert es[1..][k] == es[k + 1];
    }
  }

  lemma LabeledTail(es: seq<Entry>)
    requires Labeled(es) && es != []
    ensures Labeled(es[1..]) && es[0].name == Name(es[0].field)
  {
    forall k | 0 <= k < |es[1..]| ensures es[1..][k].name == Name(es[1..][k].field) {
      assert es[1..][k] == es[k + 1];
    }
  }

  lemma EntryLineShape(e: Entry)
    requires GoodLabel(e.name) && '\n' !in e.value
    ensures var line := EntryLine(e); var n := e.name;
      && |line| == 4 + |n| + |e.value|
      && line[0] == '-' && line[1] == ' '
      && (forall m :: 0 <= m < |n| ==> line[2 + m] == n[m])
      && line[2 + |n|] == ':' && line[3 + |n|] == ' '
      && (forall m :: 0 <= m < |e.value| ==> line[4 + |n| + m] == e.value[m])
      && '\n' !in line
  {
    var n := e.name;
    var line := EntryLine(e);
    assert forall m :: 0 <= m < |n| ==> line[2 + m] == n[m];
    assert forall m :: 0 <= m < |n| ==> n[m] != '\n' by {
      forall m | 0 <= m < |n| ensures n[m] != '\n' {
        assert IsLetter(n[m]);
      }
    }
  }

  /** A suffix made of a line, a line break and more text, taken apart. */
  lemma LineSplit(s: string, j: nat, line: string, r: string, x: string)
    requires j <= |s| && s[j..] == line + "\n" + r + x
    ensures j + |line| < |s| && s[j..j + |line|] == line && s[j + |line|] == '\n'
    ensures s[j + |line| + 1..] == r + x
  {
    SuffixSplit(s, j, line, "\n" + (r + x));
    SuffixSplit(s, j + |line|, "\n", r + x);
  }

  lemma RenderCons(es: seq<Entry>)
    requires es != []
    ensures Render(es) == EntryLine(es[0]) + "\n" + Render(es[1..])
  {
    assert EntryLines(es)[1..] == EntryLines(es[1..]);
  }

  /** Rendered entries at position j: the first line, a line break, then the rest. */
  lemma RenderSplit(s: string, j: nat, es: seq<Entry>, end: nat)
    requires es != [] && end == j + |Render(es)| && end <= |s| && s[j..] == Render(es) + s[end..]
    ensures var line := EntryLine(es[0]); var r := Render(es[1..]);
      && j + |line| < |s| && s[j..j + |line|] == line && s[j + |line|] == '\n'
      && s[j + |line| + 1..] == r + s[end..]
      && end == j + |line| + 1 + |r|
  {
    var line := EntryLine(es[0]);
    var r := Render(es[1..]);
    RenderCons(es);
    LineSplit(s, j, line, r, s[end..]);
  }

  /** A line that does not begin with '#', and its line break, hold no heading. */
  lemma LineNoHeading(s: string, j: nat, line: string)
    requires j + |line| < |s| && s[j..j + |line|] == line && s[j + |line|] == '\n'
    requires '\n' !in line && (line != [] ==> line[0] != '#')
    ensures NoHeadingBetween(s, j, j + |line| + 1, true)
  {
    var k := j + |line|;
    assert forall m :: j <= m < k ==> s[m] == line[m - j];
    NoHeadingInLine(s, j, k, true);
    NoHeadingNewline(s, k, false);
    NoHeadingJoin(s, j, k, k + 1, true);
  }

  /** The first rendered entry line holds no heading; the other entries follow it. */
  lemma RenderHead(s: string, j: nat, es: seq<Entry>, end: nat)
    requires GoodEntries(es) && es != []
    requires end == j + |Render(es)| && end <= |s| && s[j..] == Render(es) + s[end..]
    ensures var k := j + |EntryLine(es[0])| + 1;
      && k <= end && NoHeadingBetween(s, j, k, true) && s[k - 1] == '\n'
      && end == k + |Render(es[1..])| && s[k..] == Render(es[1..]) + s[end..]
  {
    GoodEntriesTail(es);
    var line := EntryLine(es[0]);
    EntryLineSafe(es[0]);
    RenderSplit(s, j, es, end);
    LineNoHeading(s, j, line);
  }

  /** An entry line is one line and does not begin with '#'. */
  lemma EntryLineSafe(e: Entry)
    requires GoodLabel(e.name) && '\n' !in e.value
    ensures var line := EntryLine(e); line != [] && line[0] == '-' && '\n' !in line
  {
    EntryLineShape(e);
  }

  lemma {:induction false} RenderNoHeading(s: string, j: nat, es: seq<Entry>, end: nat)
    requires GoodEntries(es)
    requires end == j + |Render(es)| && end <= |s| && s[j..] == Render(es) + s[end..]
    ensures NoHeadingBetween(s, j, end, true)
    ensures es != [] ==> s[end - 1] == '\n'
    decreases |es|
  {
    if es != [] {
      var k := j + |EntryLine(es[0])| + 1;
      GoodEntriesTail(es);
      RenderHead(s, j, es, end);
      RenderNoHeading(s, k, es[1..], end);
      assert LineStartAt(s, j, k, true);
      NoHeadingJoin(s, j, k, end, true);
    }
  }

  lemma GoodEntriesAppend(a: seq<Entry>, b: seq<Entry>)
    requires GoodEntries(a) && GoodEntries(b) && Labeled(a) && Labeled(b)
    ensures GoodEntries(a + b) && Labeled(a + b)
  {
    forall k | 0 <= k < |a + b|
      ensures GoodValue((a + b)[k].value) && GoodLabel((a + b)[k].name) && (a + b)[k].name == Name((a + b)[k].field)
    {
      if k >= |a| {
        assert (a + b)[k] == b[k - |a|];
      }
    }
  }

  /** Every value a well-formed task has written for it survives the round trip. */
  lemma WrittenGood(t: Task, f: Field)
    requires WellFormed(t) && Written(t, f).Some?
    ensures GoodValue(Written(t, f).value)
  {
  }

  lemma {:induction false} EntriesOfGood(t: Task, fs: seq<Field>)
    requires WellFormed(t)
    ensures GoodEntries(EntriesOf(t, fs)) && Labeled(EntriesOf(t, fs))
  {
    if fs != [] {
      var w := Written(t, fs[0]);
      var head := if w.Some? then [Line(fs[0], w.value)] else [];
      if w.Some? {
        WrittenGood(t, fs[0]);
        NameLetters(fs[0]);
      }
      EntriesOfGood(t, fs[1..]);
      GoodEntriesAppend(head, EntriesOf(t, fs[1..]));
    }
  }

  lemma WellFormedEntries(t: Task)
    requires WellFormed(t)
    ensures GoodEntries(Entries(t)) && Labeled(Entries(t)) && Entries(t) != []
  {
    EntriesOfGood(t, FieldOrder);
    FormatTaskOrder(t);
  }

  /** The body re.split gives back for a written task: its entry lines, and a line break when another task follows. */
  function WrittenBody(t: Task, more: bool): string
  {
    "\n" + Render(Entries(t)) + (if more then "\n" else "")
  }

  /** The blocks the split gives back for what write_tasks joined. */
  function BlocksOf(ts: seq<Task>): (r: seq<Block>)
    ensures |r| == |ts|
  {
    if ts == [] then []
    else [Block(ts[0].priority, ts[0].title, WrittenBody(ts[0], |ts| > 1))] + BlocksOf(ts[1..])
  }

  lemma JoinCons(xs: seq<string>)
    requires xs != []
    ensures Join(xs, "\n") == xs[0] + (if |xs| > 1 then "\n" + Join(xs[1..], "\n") else "")
  {
  }

  lemma FormatAllCons(ts: seq<Task>)
    requires ts != []
    ensures FormatAll(ts)[0] == FormatTask(ts[0]) && FormatAll(ts)[1..] == FormatAll(ts[1..])
  {
  }

  /** A line break, some text and a tail, taken apart. */
  lemma BodyShape(body: string, r: string, nl: string)
    requires body == "\n" + r + nl
    ensures |body| == 1 + |r| + |nl| && body[0] == '\n'
    ensures body[1..] == r + body[1 + |r|..] && body[1 + |r|..] == nl
  {
    assert body[1..] == r + nl;
    SuffixSplit(body, 1, r, nl);
  }

  /** A written body: a line break, the entry lines, and a line break when another task follows. */
  lemma BodyNoHeading(body: string, es: seq<Entry>, more: bool)
    requires GoodEntries(es) && es != []
    requires body == "\n" + Render(es) + (if more then "\n" else "")
    ensures |body| > 1 && NoHeadingBetween(body, 0, |body|, false) && body[|body| - 1] == '\n'
  {
    var r := Render(es);
    var nl := if more then "\n" else "";
    var m := 1 + |r|;
    BodyShape(body, r, nl);
    RenderNoHeading(body, 1, es, m);
    NoHeadingNewline(body, 0, false);
    NoHeadingJoin(body, 0, 1, m, false);
    if more {
      NoHeadingNewline(body, m, LineStartAt(body, 0, m, false));
      NoHeadingJoin(body, 0, m, |body|, false);
    }
  }

  /** A block that re.split gives back unchanged: a one-line title and a body between line breaks, without headings. */
  predicate GoodBlock(b: Block)
  {
    && b.title != [] && '\n' !in b.title
    && |b.body| > 0 && b.body[0] == '\n' && b.body[|b.body| - 1] == '\n'
    && NoHeadingBetween(b.body, 0, |b.body|, false)
  }

  predicate GoodBlocks(bs: seq<Block>)
  {
    bs == [] || (GoodBlock(bs[0]) && GoodBlocks(bs[1..]))
  }

  /** A heading line written at position i is found there. */
  lemma HeadingLayout(s: string, i: nat, p: Priority, title: string, body: string, rest: string)
    requires title != [] && '\n' !in title && |body| > 0 && body[0] == '\n'
    requires i <= |s| && s[i..] == HeadingText(p, title) + (body + rest)
    ensures i + 8 + |title| + |body| <= |s| && s[i + 8 + |title|..] == body + rest
    ensures HeadingAt(s, i) == Some(Heading(p, title, i + 8 + |title|))
  {
    var h := HeadingText(p, title);
    SuffixSplit(s, i, h, body + rest);
    assert |h| == 8 + |title|;
    assert s[i + |h|] == (body + rest)[0];
    HeadingAtComplete(s, i, p, title);
  }

  /** A good block body written at position e holds no heading and ends with a line break. */
  lemma BodyLayout(s: string, e: nat, body: string, rest: string)
    requires |body| > 0 && body[|body| - 1] == '\n' && NoHeadingBetween(body, 0, |body|, false)
    requires e <= |s| && s[e..] == body + rest
    ensures e + |body| <= |s| && s[e..e + |body|] == body && s[e + |body|..] == rest
    ensures NoHeadingBetween(s, e, e + |body|, false) && s[e + |body| - 1] == '\n'
  {
    SuffixSplit(s, e, body, rest);
    NoHeadingCopy(body, s, e, 0, false);
    assert s[e + |body| - 1] == body[|body| - 1];
  }

  lemma ConsFirst(bs: seq<Block>)
    requires bs != []
    ensures [bs[0]] + bs[1..] == bs
  {
  }

  /** Where the text after a block starts. */
  lemma BlockTextSplit(s: string, i: nat, b: Block, x: string)
    requires i <= |s| && s[i..] == BlockText(b) + x
    ensures i + 8 + |b.title| + |b.body| <= |s| && s[i + 8 + |b.title| + |b.body|..] == x
  {
    var h := HeadingText(b.priority, b.title);
    assert |h| == 8 + |b.title|;
    assert s[i..] == h + b.body + x;
    SuffixSplit(s, i, h + b.body, x);
  }

  /** A good block body written at position e is carried whole into the block before it. */
  lemma ScanBody(s: string, e: nat, body: string, x: string, next: nat, rest: seq<Block>)
    requires |body| > 0 && body[|body| - 1] == '\n' && NoHeadingBetween(body, 0, |body|, false)
    requires e <= |s| && s[e..] == body + x
    requires next == e + |body| && next <= |s| && Scan(s, next, true) == ("", rest)
    ensures Scan(s, e, false) == (body, rest)
  {
    BodyLayout(s, e, body, x);
    ScanSkip(s, e, next, false);
    assert LineStartAt(s, e, next, false);
    assert s[e..next] + "" == body;
  }

  /** One good block written at position i, followed by text that splits into `rest`. */
  lemma ScanBlockText(s: string, i: nat, b: Block, x: string, next: nat, rest: seq<Block>)
    requires GoodBlock(b)
    requires i <= |s| && s[i..] == BlockText(b) + x && next == i + 8 + |b.title| + |b.body|
    requires next <= |s| && Scan(s, next, true) == ("", rest)
    ensures Scan(s, i, true) == ("", [b] + rest)
  {
    var e := i + 8 + |b.title|;
    assert s[i..] == HeadingText(b.priority, b.title) + (b.body + x);
    HeadingLayout(s, i, b.priority, b.title, b.body, x);
    assert |b.body| > 0 && b.body[|b.body| - 1] == '\n';
    assert NoHeadingBetween(b.body, 0, |b.body|, false);
    assert e <= |s| && s[e..] == b.body + x;
    ScanBody(s, e, b.body, x, next, rest);
    ScanHeading(s, i);
    var h := HeadingAt(s, i).value;
    assert h == Heading(b.priority, b.title, e);
    assert Scan(s, h.end, false) == (b.body, rest);
    assert Block(h.priority, h.title, b.body) == b;
  }

  /** Splitting the text of good blocks gives the blocks back. */
  lemma {:induction false} ScanBlocks(s: string, i: nat, bs: seq<Block>)
    requires GoodBlocks(bs)
    requires i <= |s| && s[i..] == Concat(bs)
    ensures Scan(s, i, true) == ("", bs)
    decreases |bs|
  {
    if bs == [] {
      assert |s[i..]| == 0;
    } else {
      var b := bs[0];
      var next := i + 8 + |b.title| + |b.body|;
      BlockTextSplit(s, i, b, Concat(bs[1..]));
      ScanBlocks(s, next, bs[1..]);
      ScanBlockText(s, i, b, Concat(bs[1..]), next, bs[1..]);
      ConsFirst(bs);
    }
  }

  lemma Regroup(h: string, r: string, j: string)
    ensures (h + "\n" + r) + "\n" + j == h + ("\n" + r + "\n") + j
    ensures h + "\n" + r == h + ("\n" + r + "") + ""
  {
  }

  /** What write_tasks joins, seen from its first task. */
  lemma JoinFormatted(ts: seq<Task>)
    requires ts != []
    ensures var t := ts[0]; var more := |ts| > 1;
      Join(FormatAll(ts), "\n")
      == HeadingText(t.priority, t.title) + WrittenBody(t, more)
         + (if more then Join(FormatAll(ts[1..]), "\n") else "")
  {
    var t := ts[0];
    JoinCons(FormatAll(ts));
    FormatAllCons(ts);
    FormatTaskShape(t);
    Regroup(HeadingText(t.priority, t.title), Render(Entries(t)), if |ts| > 1 then Join(FormatAll(ts[1..]), "\n") else "");
  }

  /** What write_tasks joins is the text of the blocks it wrote. */
  lemma {:induction false} JoinIsConcat(ts: seq<Task>)
    ensures Join(FormatAll(ts), "\n") == Concat(BlocksOf(ts))
  {
    if ts != [] {
      JoinFormatted(ts);
      JoinIsConcat(ts[1..]);
    }
  }

  /** A written body: between line breaks and without headings. */
  lemma WrittenBodyGood(t: Task, more: bool)
    requires WellFormed(t)
    ensures GoodBlock(Block(t.priority, t.title, WrittenBody(t, more)))
  {
    var body := WrittenBody(t, more);
    WellFormedEntries(t);
    BodyNoHeading(body, Entries(t), more);
  }

  lemma {:induction false} BlocksGood(ts: seq<Task>)
    requires forall t :: t in ts ==> WellFormed(t)
    ensures GoodBlocks(BlocksOf(ts))
  {
    if ts != [] {
      assert ts[0] in ts;
      WrittenBodyGood(ts[0], |ts| > 1);
      assert forall t :: t in ts[1..] ==> t in ts;
      BlocksGood(ts[1..]);
    }
  }

  /** re.search finds nothing in an empty remainder. */
  lemma FindFieldAtEnd(s: string, name: string)
    requires GoodLabel(name)
    ensures FindField(s, name, |s|, true).None?
  {
  }

  /** A line break at a line start changes nothing: the pattern's `\s*` absorbs it. */
  lemma FindFieldNewline(s: string, name: string, i: nat)
    requires i < |s| && s[i] == '\n' && GoodLabel(name)
    ensures FindField(s, name, i, true) == FindField(s, name, i + 1, true)
  {
    PrefixNewline(s, i);
    MatchAtSame(s, i, i + 1, name);
  }

  /** A leading line break is absorbed by the first `\s*` of the pattern. */
  lemma PrefixNewline(s: string, i: nat)
    requires i < |s| && s[i] == '\n'
    ensures RunEnd(s, i) == RunEnd(s, i + 1)
    ensures PrefixShape(s, i, RunEnd(s, i)) == PrefixShape(s, i + 1, RunEnd(s, i + 1))
  {
    var q := RunEnd(s, i);
    assert q == RunEnd(s, i + 1);
    assert SpaceEnd(s, i, q) == SpaceEnd(s, i + 1, q);
  }

  /** The pattern depends on where it starts only through the run before the name. */
  lemma MatchAtSame(s: string, i: nat, j: nat, name: string)
    requires i <= |s| && j <= |s| && GoodLabel(name)
    requires RunEnd(s, i) == RunEnd(s, j) && PrefixShape(s, i, RunEnd(s, i)) == PrefixShape(s, j, RunEnd(s, j))
    ensures MatchAt(s, i, name) == MatchAt(s, j, name)
  {
  }

  /** Within a line no position is a line start. */
  lemma {:induction false} FindFieldSkip(s: string, name: string, i: nat, next: nat)
    requires i < next <= |s| && s[next - 1] == '\n' && GoodLabel(name)
    requires forall m :: i <= m < next - 1 ==> s[m] != '\n'
    ensures FindField(s, name, i, false) == FindField(s, name, next, true)
    decreases next - i
  {
    if i < next - 1 {
      FindFieldSkip(s, name, i + 1, next);
    }
  }

  lemma {:induction false} NameAtCopy(s: string, j: nat, name: string)
    requires j + |name| <= |s|
    requires forall m :: 0 <= m < |name| ==> s[j + m] == name[m]
    ensures NameAt(s, j, name)
    decreases |name|
  {
    if name != [] {
      NameAtCopy(s, j + 1, name[1..]);
    }
  }

  lemma {:induction false} NameAtChars(s: string, j: nat, name: string)
    requires NameAt(s, j, name)
    ensures j + |name| <= |s|
    ensures forall m :: 0 <= m < |name| ==> LowerChar(s[j + m]) == LowerChar(name[m])
    decreases |name|
  {
    if name != [] {
      NameAtChars(s, j + 1, name[1..]);
      assert forall m :: 1 <= m < |name| ==> name[1..][m - 1] == name[m];
    }
  }

  /** Two words equal up to ASCII case. */
  predicate SameWord(a: string, b: string)
  {
    |a| == |b| && forall m :: 0 <= m < |a| ==> LowerChar(a[m]) == LowerChar(b[m])
  }

  /** No two field names are equal when case is ignored. */
  lemma NamesDistinct(g: Field, f: Field)
    requires SameWord(Name(g), Name(f))
    ensures g == f
  {
    NameLetters(f);
    var a := Name(g);
    var b := Name(f);
    assert LowerChar(a[0]) == LowerChar(b[0]);
    assert LowerChar(a[1]) == LowerChar(b[1]);
  }

  lemma LowerLetter(c: char)
    requires IsLetter(c)
    ensures IsLetter(LowerChar(c)) && !IsRunChar(c) && c != ':' && c != '*'
  {
  }

  /** The line `- n: v` followed by a line break at position i. */
  predicate LineAt(s: string, i: nat, n: string, v: string)
  {
    var line := "- " + n + ": " + v;
    i + |line| < |s| && s[i..i + |line|] == line && s[i + |line|] == '\n'
  }

  lemma LineAtChars(s: string, i: nat, n: string, v: string)
    requires LineAt(s, i, n, v)
    ensures i + 4 + |n| + |v| < |s|
    ensures s[i] == '-' && s[i + 1] == ' '
    ensures forall m :: 0 <= m < |n| ==> s[i + 2 + m] == n[m]
    ensures s[i + 2 + |n|] == ':' && s[i + 3 + |n|] == ' '
    ensures forall m :: 0 <= m < |v| ==> s[i + 4 + |n| + m] == v[m]
    ensures s[i + 4 + |n| + |v|] == '\n'
  {
    var line := "- " + n + ": " + v;
    assert forall m :: 0 <= m < |line| ==> s[i + m] == line[m];
    assert forall m :: 0 <= m < |n| ==> line[2 + m] == n[m];
    assert forall m :: 0 <= m < |v| ==> line[4 + |n| + m] == v[m];
  }

  /** The pattern for a name starts matching a `- n: v` line just after the dash and blank. */
  lemma LineAtPrefix(s: string, i: nat, n: string, v: string)
    requires LineAt(s, i, n, v) && GoodLabel(n)
    ensures RunEnd(s, i) == i + 2 && PrefixShape(s, i, i + 2)
  {
    LineAtChars(s, i, n, v);
    LowerLetter(n[0]);
    assert RunEnd(s, i + 2) == i + 2;
    assert SpaceEnd(s, i + 1, i + 2) == i + 2;
  }

  /** The pattern for the label of a `- n: v` line captures v. */
  lemma MatchLineSame(s: string, i: nat, n: string, v: string)
    requires LineAt(s, i, n, v) && GoodLabel(n) && GoodValue(v)
    ensures MatchAt(s, i, n) == Some(v)
  {
    LineAtChars(s, i, n, v);
    LineAtPrefix(s, i, n, v);
    NameAtCopy(s, i + 2, n);
    var p := i + 3 + |n|;
    assert ColonEnd(s, i + 2 + |n|) == 1;
    assert SpaceEnd(s, p + 1, |s|) == p + 1;
    assert SpaceEnd(s, p, |s|) == p + 1;
    var vEnd := p + 1 + |v|;
    forall k | p + 1 <= k < vEnd ensures s[k] != '\n' {
      assert s[k] == v[k - (p + 1)];
    }
    assert s[vEnd] == '\n';
    LineEndAt(s, p + 1, vEnd);
    assert s[p + 1..vEnd] == v;
    StripTrimmed(v);
  }

  /** The pattern for any other word finds nothing on a `- n: v` line. */
  lemma MatchLineOther(s: string, i: nat, n: string, v: string, w: string)
    requires LineAt(s, i, n, v) && GoodLabel(n) && GoodLabel(w) && !SameWord(n, w)
    ensures MatchAt(s, i, w) == None
  {
    LineAtChars(s, i, n, v);
    LineAtPrefix(s, i, n, v);
    if NameAt(s, i + 2, w) {
      NameAtChars(s, i + 2, w);
      if |w| < |n| {
        LowerLetter(n[|w|]);
        assert s[i + 2 + |w|] == n[|w|];
        assert ColonEnd(s, i + 2 + |w|) == 0;
      } else if |w| > |n| {
        LowerLetter(w[|n|]);
        assert false;
      } else {
        assert false;
      }
    }
  }

  /** The field pattern on one written entry line. */
  lemma MatchEntryLine(s: string, i: nat, e: Entry, f: Field)
    requires GoodValue(e.value) && e.name == Name(e.field)
    requires LineAt(s, i, e.name, e.value)
    ensures GoodLabel(Name(f)) && MatchAt(s, i, Name(f)) == if e.field == f then Some(e.value) else None
  {
    NameLetters(f);
    NameLetters(e.field);
    if e.field == f {
      MatchLineSame(s, i, e.name, e.value);
    } else {
      if SameWord(e.name, Name(f)) {
        NamesDistinct(e.field, f);
      }
      MatchLineOther(s, i, e.name, e.value, Name(f));
    }
  }

  /** A `- n: v` line holds no line break. */
  lemma LineAtNoBreak(s: string, i: nat, n: string, v: string)
    requires LineAt(s, i, n, v) && GoodLabel(n) && '\n' !in v
    ensures forall m :: i <= m < i + 4 + |n| + |v| ==> s[m] != '\n'
  {
    LineAtChars(s, i, n, v);
    forall m | i <= m < i + 4 + |n| + |v| ensures s[m] != '\n' {
      if i + 2 <= m < i + 2 + |n| {
        assert s[m] == n[m - i - 2] && IsLetter(n[m - i - 2]);
      } else if i + 4 + |n| <= m {
        assert s[m] == v[m - i - 4 - |n|];
      }
    }
  }

  /** re.search stops at the first line start where the pattern matches. */
  lemma FindFieldHit(s: string, name: string, i: nat)
    requires i <= |s| && GoodLabel(name) && MatchAt(s, i, name).Some?
    ensures FindField(s, name, i, true) == MatchAt(s, i, name)
  {
  }

  /** re.search moves on past a line start where the pattern does not match. */
  lemma FindFieldMiss(s: string, name: string, i: nat)
    requires i < |s| && GoodLabel(name) && MatchAt(s, i, name).None?
    ensures FindField(s, name, i, true) == FindField(s, name, i + 1, s[i] == '\n')
  {
  }

  /** The entry lines of `es`, each ended by a line break, lie in s[j..end]. */
  predicate EntriesAt(s: string, j: nat, es: seq<Entry>, end: nat)
    decreases |es|
  {
    if es == [] then j == end
    else LineAt(s, j, es[0].name, es[0].value) && EntriesAt(s, j + 5 + |es[0].name| + |es[0].value|, es[1..], end)
  }

  lemma EntriesAtCons(s: string, j: nat, es: seq<Entry>, end: nat)
    requires es != [] && EntriesAt(s, j, es, end)
    ensures LineAt(s, j, es[0].name, es[0].value)
    ensures EntriesAt(s, j + 5 + |es[0].name| + |es[0].value|, es[1..], end)
  {
  }

  lemma {:induction false} RenderAt(s: string, j: nat, es: seq<Entry>, end: nat)
    requires end == j + |Render(es)| && end <= |s| && s[j..] == Render(es) + s[end..]
    ensures EntriesAt(s, j, es, end)
    decreases |es|
  {
    if es != [] {
      var e := es[0];
      RenderSplit(s, j, es, end);
      var k := j + 5 + |e.name| + |e.value|;
      assert LineAt(s, j, e.name, e.value);
      RenderAt(s, k, es[1..], end);
    }
  }

  /** re.search on rendered entries finds the first entry for the field. */
  lemma {:induction false} FindFieldEntries(s: string, f: Field, j: nat, es: seq<Entry>, end: nat)
    requires GoodEntries(es) && Labeled(es) && GoodLabel(Name(f))
    requires EntriesAt(s, j, es, end) && end <= |s| && FindField(s, Name(f), end, true).None?
    ensures j <= end && FindField(s, Name(f), j, true) == Lookup(es, f)
    decreases |es|
  {
    if es != [] {
      var e := es[0];
      var name := Name(f);
      var next := j + 5 + |e.name| + |e.value|;
      GoodEntriesTail(es);
      LabeledTail(es);
      EntriesAtCons(s, j, es, end);
      MatchEntryLine(s, j, e, f);
      FindFieldEntries(s, f, next, es[1..], end);
      if e.field == f {
        FindFieldHit(s, name, j);
      } else {
        SkipEntryLine(s, name, j, e.name, e.value, next);
      }
    }
  }

  /** re.search moves past a `- n: v` line on which the pattern does not match. */
  lemma SkipEntryLine(s: string, name: string, j: nat, n: string, v: string, next: nat)
    requires LineAt(s, j, n, v) && GoodLabel(n) && GoodLabel(name) && '\n' !in v
    requires next == j + 5 + |n| + |v| && MatchAt(s, j, name).None?
    ensures FindField(s, name, j, true) == FindField(s, name, next, true)
  {
    LineAtNoBreak(s, j, n, v);
    LineAtChars(s, j, n, v);
    FindFieldMiss(s, name, j);
    assert FindField(s, name, j, true) == FindField(s, name, j + 1, false);
    FindFieldSkip(s, name, j + 1, next);
  }

  lemma {:induction false} LookupGood(es: seq<Entry>, f: Field)
    requires GoodEntries(es) && Lookup(es, f).Some?
    ensures GoodValue(Lookup(es, f).value)
    decreases |es|
  {
    GoodEntriesTail(es);
    if es[0].field != f {
      LookupGood(es[1..], f);
    }
  }

  lemma BodyParts(r: string, x: string)
    ensures var body := "\n" + r + x;
      && |body| == 1 + |r| + |x| && body[0] == '\n' && body[1..] == r + body[1 + |r|..]
      && (x == "\n" ==> body[1 + |r|] == '\n')
  {
    var body := "\n" + r + x;
    assert body[1..] == r + x;
  }

  /** _extract_field on a written body finds what format_task wrote for that field. */
  /** The line breaks around the entry lines of a written body change nothing for re.search. */
  lemma BodySearch(r: string, x: string, name: string)
    requires GoodLabel(name) && (x == "" || x == "\n")
    ensures var body := "\n" + r + x;
      && FindField(body, name, 0, true) == FindField(body, name, 1, true)
      && FindField(body, name, 1 + |r|, true).None?
  {
    var body := "\n" + r + x;
    var end := 1 + |r|;
    BodyParts(r, x);
    FindFieldNewline(body, name, 0);
    FindFieldAtEnd(body, name);
    if x != "" {
      FindFieldNewline(body, name, end);
    }
  }

  lemma ExtractFromBody(es: seq<Entry>, more: bool, f: Field)
    requires GoodEntries(es) && Labeled(es)
    ensures ExtractField("\n" + Render(es) + (if more then "\n" else ""), f) == Lookup(es, f)
  {
    var r := Render(es);
    var x := if more then "\n" else "";
    var body := "\n" + r + x;
    var end := 1 + |r|;
    NameLetters(f);
    BodySearch(r, x, Name(f));
    BodyParts(r, x);
    RenderAt(body, 1, es, end);
    FindFieldEntries(body, f, 1, es, end);
    if Lookup(es, f).Some? {
      LookupGood(es, f);
    }
  }

  /** Reading one written block gives the task back. */
  lemma ParseBlock(t: Task, more: bool, newId: string, today: string)
    requires WellFormed(t)
    ensures TaskOf(Block(t.priority, t.title, WrittenBody(t, more)), newId, today) == t
  {
    var es := Entries(t);
    WellFormedEntries(t);
    forall f: Field ensures ExtractField(WrittenBody(t, more), f) == Written(t, f) {
      ExtractFromBody(es, more, f);
      EntriesLookup(t, f);
    }
    StripTrimmed(t.title);
  }

  lemma {:induction false} BlocksOfAt(ts: seq<Task>, k: nat)
    requires k < |ts|
    ensures BlocksOf(ts)[k] == Block(ts[k].priority, ts[k].title, WrittenBody(ts[k], k < |ts| - 1))
  {
    if k > 0 {
      BlocksOfAt(ts[1..], k - 1);
    }
  }

  /** The split of a written file: the header is skipped and one block per task follows. */
  lemma ScanWritten(header: string, ts: seq<Task>)
    requires HeaderOk(header)
    requires forall t :: t in ts ==> WellFormed(t)
    ensures Scan(WriteTasks(header, ts), 0, true).1 == BlocksOf(ts)
  {
    var tail := Join(FormatAll(ts), "\n");
    var content := WriteTasks(header, ts);
    JoinIsConcat(ts);
    BlocksGood(ts);
    if header != "" {
      var h := |header|;
      assert content == header + ("\n\n" + tail);
      SuffixSplit(content, 0, header, "\n\n" + tail);
      SuffixSplit(content, h, "\n\n", tail);
      NoHeadingCopy(header, content, 0, 0, true);
      NoHeadingNewline(content, h, LineStartAt(content, 0, h, true));
      NoHeadingJoin(content, 0, h, h + 1, true);
      NoHeadingNewline(content, h + 1, true);
      NoHeadingJoin(content, 0, h + 1, h + 2, true);
      ScanSkip(content, 0, h + 2, true);
      ScanBlocks(content, h + 2, BlocksOf(ts));
    } else {
      assert content[0..] == tail;
      ScanBlocks(content, 0, BlocksOf(ts));
    }
  }

  /**
   * Reading back what write_tasks wrote gives the same tasks, in the same
   * order, whatever ids and date the reader would have drawn.
   */
  lemma ParseWriteRoundTrip(header: string, ts: seq<Task>, newId: nat -> string, today: string)
    requires HeaderOk(header)
    requires forall t :: t in ts ==> WellFormed(t)
    ensures ParseSpec(Some(WriteTasks(header, ts)), newId, today) == ts
  {
    var content := WriteTasks(header, ts);
    ScanWritten(header, ts);
    var bs := BlocksOf(ts);
    var parsed := ParseSpec(Some(content), newId, today);
    assert parsed == ParseBlocks(bs, newId, today);
    forall k | 0 <= k < |ts| ensures parsed[k] == ts[k] {
      BlocksOfAt(ts, k);
      ParseBlocksAt(bs, newId, today, k);
      assert ts[k] in ts;
      ParseBlock(ts[k], k < |ts| - 1, newId(k), today);
    }
  }
}
