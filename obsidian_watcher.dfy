/**
 * The note watcher: a change to a markdown note in the vault queues the
 * note, and a later wake reports the most recently changed queued note to
 * the main agent session. Paths of tool and sync folders, temporary files
 * and conflict copies are ignored, and a note the watcher woke the session
 * for is ignored for a cooldown of 60 seconds, so that the agent's own edit
 * does not wake it again.
 *
 * Paths follow the rules of Python's `pathlib.PurePosixPath`. The clock is a
 * parameter (`now`, seconds as a real number); the wake call's outcome is a
 * parameter too.
 */
module ObsidianWatcher {
  import opened Text

  const WatchPath: string := "/projects/Notes"
  const CooldownSeconds: real := 60.0
  const SkipDirs: seq<string> := [".obsidian", ".trash", ".stversions", ".sync"]
  const SkipPatterns: seq<string> := ["sync-conflict", ".tmp", ".swp", ".swo", "~", ".DS_Store"]

  // ---------------------------------------------------------------------
  // Paths

  /** The pieces between slashes that are real components: not empty, not ".". */
  function Components(pieces: seq<string>): (r: seq<string>)
    ensures forall c :: c in r <==> c in pieces && c != "" && c != "."
  {
    if pieces == [] then []
    else (if pieces[0] == "" || pieces[0] == "." then [] else [pieces[0]]) + Components(pieces[1..])
  }

  /** `Path(p).parts`: the root "/" for an absolute path, then the components. */
  function Parts(path: string): seq<string>
  {
    (if StartsWith(path, "/") then ["/"] else []) + Components(SplitOn(path, '/'))
  }

  /** `Path(p).name`: the last component, or "" when there is none. */
  function Name(path: string): string
  {
    var cs := Components(SplitOn(path, '/'));
    if cs == [] then "" else cs[|cs| - 1]
  }

  /** Every part is the root or a component holding no slash; the name is the last of them. */
  lemma PartsSpec(path: string)
    ensures forall p :: p in Parts(path) ==> p == "/" || (p != "" && p != "." && '/' !in p)
    ensures Name(path) == "" || Name(path) in Parts(path)
    ensures '/' !in Name(path) && Name(path) != "."
  {
    var pieces := SplitOn(path, '/');
    SplitOnPieces(path, '/');
    var cs := Components(pieces);
    forall p | p in cs ensures '/' !in p {
      var i :| 0 <= i < |pieces| && pieces[i] == p;
    }
    if cs != [] {
      assert cs[|cs| - 1] in cs;
    }
  }

  /** `s.rfind('.')` */
  function LastDot(s: string): (r: Option<nat>)
    ensures r.Some? ==> r.value < |s| && s[r.value] == '.'
    ensures r.Some? ==> forall j :: r.value < j < |s| ==> s[j] != '.'
    ensures r.None? ==> forall j :: 0 <= j < |s| ==> s[j] != '.'
  {
    if s == [] then None
    else if s[|s| - 1] == '.' then Some(|s| - 1)
    else LastDot(s[..|s| - 1])
  }

  /** `Path(p).suffix` of a name: from its last dot, unless that dot is first or last. */
  function Suffix(name: string): string
  {
    var d := LastDot(name);
    if d.Some? && 0 < d.value < |name| - 1 then name[d.value..] else ""
  }

  /** Lowercasing commutes with taking a suffix. */
  lemma LowerSuffix(s: string, i: nat)
    requires i <= |s|
    ensures Lower(s[i..]) == Lower(s)[i..]
  {
    LowerAt(s);
    LowerAt(s[i..]);
  }

  /** A name has the suffix ".md" in any case exactly when it ends so and has a stem. */
  lemma SuffixMd(name: string)
    ensures Lower(Suffix(name)) == ".md" <==> |name| > 3 && EndsWith(Lower(name), ".md")
  {
    if Lower(Suffix(name)) == ".md" {
      MdSuffixEnds(name);
    }
    if |name| > 3 && EndsWith(Lower(name), ".md") {
      EndsMdSuffix(name);
    }
  }

  lemma MdSuffixEnds(name: string)
    requires Lower(Suffix(name)) == ".md"
    ensures |name| > 3 && EndsWith(Lower(name), ".md")
  {
    var d := LastDot(name);
    assert Suffix(name) != "";
    assert d.Some? && 0 < d.value < |name| - 1 && Suffix(name) == name[d.value..];
    var i := d.value;
    assert |name[i..]| == 3;
    LowerSuffix(name, i);
    assert Lower(name)[|name| - 3..] == ".md";
  }

  lemma LowerDot(c: char)
    ensures LowerChar(c) == '.' <==> c == '.'
  {
  }

  /** In a string that lowercases to ".md" only the first character is a dot. */
  lemma MdDots(tail: string)
    requires Lower(tail) == ".md"
    ensures |tail| == 3 && tail[0] == '.' && tail[1] != '.' && tail[2] != '.'
  {
    LowerAt(tail);
    LowerDot(tail[0]);
    LowerDot(tail[1]);
    LowerDot(tail[2]);
  }

  /** A dot third from the end, followed by two other characters, is the last dot. */
  lemma LastDotThird(s: string)
    requires |s| >= 3 && s[|s| - 3] == '.' && s[|s| - 2] != '.' && s[|s| - 1] != '.'
    ensures LastDot(s) == Some(|s| - 3)
  {
    var a := s[..|s| - 1];
    var b := a[..|a| - 1];
    assert a[|a| - 1] == s[|s| - 2];
    assert b[|b| - 1] == s[|s| - 3];
    assert LastDot(s) == LastDot(a) == LastDot(b);
  }

  lemma EndsMdSuffix(name: string)
    requires |name| > 3 && EndsWith(Lower(name), ".md")
    ensures Lower(Suffix(name)) == ".md"
  {
    var n := |name|;
    var tail := name[n - 3..];
    assert Lower(tail) == ".md" by {
      LowerSuffix(name, n - 3);
    }
    assert name[n - 3] == '.' && name[n - 2] != '.' && name[n - 1] != '.' by {
      MdDots(tail);
      assert tail[0] == name[n - 3] && tail[1] == name[n - 2] && tail[2] == name[n - 1];
    }
    assert LastDot(name) == Some(n - 3) by {
      LastDotThird(name);
    }
  }

  // ---------------------------------------------------------------------
  // Which paths are ignored

  function AnySkipDir(parts: seq<string>): (r: bool)
    ensures r <==> exists p :: p in parts && p in SkipDirs
  {
    if parts == [] then false else parts[0] in SkipDirs || AnySkipDir(parts[1..])
  }

  function AnyPattern(filename: string, patterns: seq<string>): (r: bool)
    ensures r <==> exists i :: 0 <= i < |patterns| && Contains(filename, patterns[i])
  {
    if patterns == [] then false else Contains(filename, patterns[0]) || AnyPattern(filename, patterns[1..])
  }

  /** should_skip_path */
  function ShouldSkip(path: string): bool
  {
    if Lower(Suffix(Name(path))) != ".md" then true
    else if AnySkipDir(Parts(path)) then true
    else AnyPattern(Lower(Name(path)), SkipPatterns)
  }

  /**
   * A path is watched exactly when its name is a markdown note (".md" in any
   * case, after a non-empty stem), no component is a tool or sync folder,
   * and the lowercased name contains none of the temporary-file patterns.
   */
  lemma ShouldSkipSpec(path: string)
    ensures !ShouldSkip(path) <==>
      && |Name(path)| > 3 && EndsWith(Lower(Name(path)), ".md")
      && (forall p :: p in Parts(path) ==> p !in SkipDirs)
      && (forall i :: 0 <= i < |SkipPatterns| ==> !Contains(Lower(Name(path)), SkipPatterns[i]))
  {
    SuffixMd(Name(path));
  }

  /** The ".DS_Store" pattern is tested against a lowercased name, so it never matches. */
  lemma DsStorePatternUnused(name: string)
    ensures !Contains(Lower(name), ".DS_Store")
  {
    LowerAt(name);
    assert ".DS_Store"[1] == 'D';
    forall k | 0 <= k < |Lower(name)| ensures Lower(name)[k] != 'D' {
      assert Lower(name)[k] == LowerChar(name[k]);
    }
    MissingChar(Lower(name), ".DS_Store", 'D');
  }

  /** A string lacking one of the characters of `sub` does not contain `sub`. */
  lemma {:induction false} MissingChar(s: string, sub: string, c: char)
    requires c in sub && c !in s
    ensures !Contains(s, sub)
    decreases |s|
  {
    if |sub| <= |s| {
      var k :| 0 <= k < |sub| && sub[k] == c;
      assert s[..|sub|][k] != c;
    }
    if |s| > 0 {
      assert forall x :: x in s[1..] ==> x in s;
      MissingChar(s[1..], sub, c);
    }
  }

  // ---------------------------------------------------------------------
  // Cooldown

  /** A file woken for less than the cooldown ago. */
  predicate Recent(woken: map<string, real>, filepath: string, now: real)
  {
    filepath in woken && now - woken[filepath] < CooldownSeconds
  }

  /** The cleanup in was_recently_woken: keep the entries younger than the cooldown. */
  function Prune(woken: map<string, real>, now: real): map<string, real>
  {
    map f | f in woken && now - woken[f] < CooldownSeconds :: woken[f]
  }

  /** Pruning keeps exactly the recent entries, unchanged, and asks the same question afterwards. */
  lemma PruneSpec(woken: map<string, real>, now: real)
    ensures forall f :: f in Prune(woken, now) <==> Recent(woken, f, now)
    ensures forall f :: f in Prune(woken, now) ==> Prune(woken, now)[f] == woken[f]
    ensures forall f :: Recent(Prune(woken, now), f, now) <==> Recent(woken, f, now)
  {
  }

  /** Time only moves forward, so a later cleanup forgets at least what an earlier one did. */
  lemma PruneLater(woken: map<string, real>, now: real, later: real)
    requires now <= later
    ensures Prune(Prune(woken, now), later) == Prune(woken, later)
  {
  }

  /** After a file is marked at time t, it is recent exactly until the cooldown has passed. */
  lemma CooldownWindow(woken: map<string, real>, filepath: string, t: real, now: real)
    ensures Recent(woken[filepath := t], filepath, now) <==> now < t + CooldownSeconds
  {
  }

  /** The module-level `recently_woken` dict. */
  class WakeLog {
    var woken: map<string, real>

    constructor ()
      ensures woken == map[]
    {
      woken := map[];
    }

    /** was_recently_woken: drop the old entries, then look the file up. */
    method WasRecentlyWoken(filepath: string, now: real) returns (recent: bool)
      modifies this
      ensures woken == Prune(old(woken), now)
      ensures recent <==> Recent(old(woken), filepath, now)
    {
      woken := Prune(woken, now);
      recent := filepath in woken;
    }

    /** mark_as_woken */
    method MarkAsWoken(filepath: string, now: real)
      modifies this
      ensures woken == old(woken)[filepath := now]
    {
      woken := woken[filepath := now];
    }
  }

  // ---------------------------------------------------------------------
  // Waking the session

  /** How many slashes `lstrip("/")` removes. */
  function LeadingSlashes(s: string): (n: nat)
    ensures n <= |s|
    ensures n < |s| ==> s[n] != '/'
  {
    if s != [] && s[0] == '/' then 1 + LeadingSlashes(s[1..]) else 0
  }

  /** Everything `lstrip("/")` removes is a slash. */
  lemma {:induction false} SlashesDropped(s: string)
    ensures forall j :: 0 <= j < LeadingSlashes(s) ==> s[j] == '/'
  {
    if s != [] && s[0] == '/' {
      SlashesDropped(s[1..]);
      forall j | 1 <= j < LeadingSlashes(s) ensures s[j] == '/' {
        assert s[j] == s[1..][j - 1];
      }
    }
  }

  /** `lstrip("/")` */
  function DropLeadingSlashes(s: string): string
  {
    s[LeadingSlashes(s)..]
  }

  /** The path shown in the wake message. */
  function RelativePath(filepath: string): string
  {
    if StartsWith(filepath, WatchPath) then DropLeadingSlashes(filepath[|WatchPath|..]) else filepath
  }

  /**
   * A path under the watched folder is shown from just after the folder and
   * the slashes that follow it; any other path is shown whole.
   */
  lemma RelativePathSpec(filepath: string)
    ensures var r := RelativePath(filepath);
      && (!StartsWith(filepath, WatchPath) ==> r == filepath)
      && (StartsWith(filepath, WatchPath) ==>
            && |WatchPath| + |r| <= |filepath|
            && r == filepath[|filepath| - |r|..]
            && (forall j :: |WatchPath| <= j < |filepath| - |r| ==> filepath[j] == '/')
            && (r == [] || r[0] != '/'))
  {
    if StartsWith(filepath, WatchPath) {
      AfterPrefix(filepath, |WatchPath|);
    }
  }

  lemma AfterPrefix(filepath: string, k: nat)
    requires k <= |filepath|
    ensures var r := DropLeadingSlashes(filepath[k..]);
      && k + |r| <= |filepath|
      && r == filepath[|filepath| - |r|..]
      && (forall j :: k <= j < |filepath| - |r| ==> filepath[j] == '/')
      && (r == [] || r[0] != '/')
  {
    var rest := filepath[k..];
    var n := LeadingSlashes(rest);
    assert rest[n..] == filepath[k + n..];
    SlashesDropped(rest);
    SlashRun(filepath, k, n);
  }

  lemma SlashRun(s: string, k: nat, m: nat)
    requires k + m <= |s| && forall j :: 0 <= j < m ==> s[k..][j] == '/'
    ensures forall j :: k <= j < k + m ==> s[j] == '/'
  {
    forall j | k <= j < k + m
      ensures s[j] == '/'
    {
      assert s[k..][j - k] == s[j];
    }
  }

  /** A note inside the watched folder is shown by its path relative to it. */
  lemma RelativeInside(rest: string)
    requires rest != [] && rest[0] != '/'
    ensures RelativePath(WatchPath + "/" + rest) == rest
  {
    var p := WatchPath + "/" + rest;
    assert StartsWith(p, WatchPath) by {
      assert p[..|WatchPath|] == WatchPath;
    }
    var t := "/" + rest;
    assert p[|WatchPath|..] == t;
    assert t[1..] == rest;
    assert LeadingSlashes(rest) == 0;
    assert LeadingSlashes(t) == 1;
    assert DropLeadingSlashes(t) == rest;
  }

  function WakeMessage(filepath: string): string
  {
    "\U{1F4DD} Note changed: " + RelativePath(filepath)
    + "\n\nReview the change and update MEMORY.md, TODO.md, or other relevant files if needed."
  }

  /**
   * wake_main_session: `succeeded` is whether the agent call returned 0; only
   * then is the file marked, at time `wokenAt`.
   */
  method WakeMainSession(log: WakeLog, filepath: string, succeeded: bool, wokenAt: real)
    returns (message: string, ok: bool)
    modifies log
    ensures message == WakeMessage(filepath) && ok == succeeded
    ensures log.woken == if succeeded then old(log.woken)[filepath := wokenAt] else old(log.woken)
  {
    message := WakeMessage(filepath);
    if succeeded {
      log.MarkAsWoken(filepath, wokenAt);
    }
    ok := succeeded;
  }

  // ---------------------------------------------------------------------
  // Pending changes

  /** `max(keys, key=times)`: the first key, in order, with the greatest time. */
  function Latest(keys: seq<string>, times: map<string, real>): (r: string)
    requires keys != [] && forall k :: k in keys ==> k in times
    ensures r in keys
  {
    if |keys| == 1 then keys[0]
    else
      var prev := Latest(keys[..|keys| - 1], times);
      if times[keys[|keys| - 1]] > times[prev] then keys[|keys| - 1] else prev
  }

  /** The reported file is pending, no pending file is later, and every earlier one is strictly older. */
  lemma {:induction false} LatestSpec(keys: seq<string>, times: map<string, real>) returns (i: nat)
    requires keys != [] && forall k :: k in keys ==> k in times
    ensures i < |keys| && keys[i] == Latest(keys, times)
    ensures forall k :: k in keys ==> times[k] <= times[Latest(keys, times)]
    ensures forall j :: 0 <= j < i ==> times[keys[j]] < times[keys[i]]
  {
    if |keys| == 1 {
      i := 0;
    } else {
      var init := keys[..|keys| - 1];
      assert forall k :: k in init ==> k in keys;
      i := LatestSpec(init, times);
      var prev := Latest(init, times);
      if times[keys[|keys| - 1]] > times[prev] {
        i := |keys| - 1;
      }
      assert forall k :: k in keys ==> k in init || k == keys[|keys| - 1];
    }
  }

  /** The debounced event handler's `pending_files`, a dict kept in insertion order. */
  class Handler {
    var order: seq<string>
    var pending: map<string, real>

    ghost predicate Valid()
      reads this
    {
      && (forall f :: f in order <==> f in pending)
      && (forall i, j :: 0 <= i < j < |order| ==> order[i] != order[j])
    }

    constructor ()
      ensures Valid() && order == [] && pending == map[]
    {
      order := [];
      pending := map[];
    }

    /**
     * _handle_event: a file event that passes the path filter and the
     * cooldown queues the file with the event time; a file already queued
     * keeps its place.
     */
    method HandleEvent(log: WakeLog, filepath: string, isDirectory: bool, now: real)
      returns (queued: bool)
      requires Valid()
      modifies this, log
      ensures Valid()
      ensures queued <==> !isDirectory && !ShouldSkip(filepath) && !Recent(old(log.woken), filepath, now)
      ensures queued ==> pending == old(pending)[filepath := now]
      ensures queued ==> order == if filepath in old(pending) then old(order) else old(order) + [filepath]
      ensures !queued ==> pending == old(pending) && order == old(order)
      ensures log.woken == if isDirectory || ShouldSkip(filepath) then old(log.woken) else Prune(old(log.woken), now)
    {
      if isDirectory || ShouldSkip(filepath) {
        return false;
      }
      var recent := log.WasRecentlyWoken(filepath, now);
      if recent {
        return false;
      }
      if filepath !in pending {
        order := order + [filepath];
      }
      pending := pending[filepath := now];
      queued := true;
    }

    /** The choice in _trigger_wake: the loop behind `max` over the pending files. */
    method PickLatest() returns (latest: string)
      requires Valid() && order != []
      ensures latest == Latest(order, pending)
    {
      latest := order[0];
      var i := 1;
      while i < |order|
        invariant 1 <= i <= |order|
        invariant latest == Latest(order[..i], pending)
      {
        assert order[..i + 1][..i] == order[..i];
        if pending[order[i]] > pending[latest] {
          latest := order[i];
        }
        i := i + 1;
      }
      assert order[..i] == order;
    }

    /**
     * _trigger_wake: with nothing pending, nothing happens; otherwise the
     * latest pending file is reported, everything pending is dropped, and the
     * file is marked woken when the wake succeeded.
     */
    method TriggerWake(log: WakeLog, succeeded: bool, wokenAt: real)
      returns (reported: Option<string>, count: nat)
      requires Valid()
      modifies this, log
      ensures Valid() && order == [] && pending == map[]
      ensures old(order) == [] ==> reported.None? && count == 0 && log.woken == old(log.woken)
      ensures old(order) != [] ==> reported == Some(Latest(old(order), old(pending))) && count == |old(order)|
      ensures log.woken == if reported.Some? && succeeded then old(log.woken)[reported.value := wokenAt]
                           else old(log.woken)
    {
      if order == [] {
        return None, 0;
      }
      var latest := PickLatest();
      count := |order|;
      order := [];
      pending := map[];
      var message, ok := WakeMainSession(log, latest, succeeded, wokenAt);
      reported := Some(latest);
    }
  }
}
