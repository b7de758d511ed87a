/**
 * The `sanitize_filename` helper the chat adapters use to turn a chat or
 * contact name into a note file name. The Signal and both Telegram adapters
 * share one definition; the WhatsApp adapter also collapses runs of
 * whitespace into one space.
 */
module FileNames {
  import opened Text

  const MaxNameLength: nat := 80
  const Fallback: string := "Unknown"

  /** The regex class `[<>:"/\\|?*\x00-\x1f]`. */
  predicate Unsafe(c: char)
  {
    c == '<' || c == '>' || c == ':' || c == '"' || c == '/' || c == '\\'
    || c == '|' || c == '?' || c == '*' || c <= '\U{1f}'
  }

  predicate NoUnsafe(s: string)
  {
    forall i :: 0 <= i < |s| ==> !Unsafe(s[i])
  }

  /** A name the sanitiser leaves as it is. */
  predicate SafeName(s: string)
  {
    && 0 < |s| <= MaxNameLength
    && NoUnsafe(s)
    && Trimmed(s)
    && s[0] != '.' && s[|s| - 1] != '.'
  }

  /** `re.sub(unsafe, '_', s)` */
  function Replace(s: string): (r: string)
    ensures |r| == |s|
  {
    if s == [] then [] else [if Unsafe(s[0]) then '_' else s[0]] + Replace(s[1..])
  }

  /** `s.lstrip('.')` */
  function DropLeadingDots(s: string): (r: string)
    ensures |r| <= |s|
    ensures r == s[|s| - |r|..]
    ensures r == [] || r[0] != '.'
  {
    if s != [] && s[0] == '.' then DropLeadingDots(s[1..]) else s
  }

  /** `s.rstrip('.')` */
  function DropTrailingDots(s: string): (r: string)
    ensures |r| <= |s|
    ensures r == s[..|r|]
    ensures r == [] || r[|r| - 1] != '.'
  {
    if s != [] && s[|s| - 1] == '.' then DropTrailingDots(s[..|s| - 1]) else s
  }

  /** `s.strip('.')` */
  function StripDots(s: string): (r: string)
  {
    DropTrailingDots(DropLeadingDots(s))
  }

  /** `s[:80] or "Unknown"` */
  function Truncate(s: string): (r: string)
  {
    var t := if |s| <= MaxNameLength then s else s[..MaxNameLength];
    if t == [] then Fallback else t
  }

  /** sanitize_filename of the Signal and Telegram adapters. */
  function Sanitize(name: string): (r: string)
    ensures 0 < |r| <= MaxNameLength
    ensures name == "" ==> r == Fallback
  {
    if name == "" then Fallback else Truncate(StripDots(Strip(Replace(name))))
  }

  /** `re.sub` changes exactly the unsafe characters. */
  lemma {:induction false} ReplaceAt(s: string)
    ensures forall i :: 0 <= i < |s| ==> Replace(s)[i] == if Unsafe(s[i]) then '_' else s[i]
  {
    if s != [] {
      ReplaceAt(s[1..]);
      assert forall i :: 1 <= i < |s| ==> Replace(s)[i] == Replace(s[1..])[i - 1];
    }
  }

  lemma ReplaceSafe(s: string)
    ensures NoUnsafe(Replace(s))
  {
    ReplaceAt(s);
  }

  lemma NoUnsafeSlice(s: string, lo: nat, hi: nat)
    requires lo <= hi <= |s| && NoUnsafe(s)
    ensures NoUnsafe(s[lo..hi])
  {
    var t := s[lo..hi];
    assert forall i :: 0 <= i < |t| ==> t[i] == s[lo + i];
  }

  /** Strip and dot stripping keep a contiguous piece of their input. */
  lemma StripPiece(s: string) returns (lo: nat, hi: nat)
    ensures lo <= hi <= |s| && Strip(s) == s[lo..hi]
  {
    TrimStartSpec(s);
    var a := TrimStart(s);
    TrimEndSpec(a);
    lo := |s| - |a|;
    var r := TrimEnd(a);
    hi := lo + |r|;
    assert a == s[lo..];
    assert r == a[..|r|];
    assert a[..|r|] == s[lo..hi];
  }

  lemma DotsPiece(s: string) returns (lo: nat, hi: nat)
    ensures lo <= hi <= |s| && StripDots(s) == s[lo..hi]
  {
    var a := DropLeadingDots(s);
    lo := |s| - |a|;
    var r := DropTrailingDots(a);
    hi := lo + |r|;
    assert a == s[lo..];
    assert r == a[..|r|];
    assert a[..|r|] == s[lo..hi];
  }

  /** The sanitiser's result before truncation is a piece of the replaced name. */
  lemma TrimmedPiece(p: string) returns (lo: nat, hi: nat)
    ensures lo <= hi <= |p| && StripDots(Strip(p)) == p[lo..hi]
  {
    var lo1, hi1 := StripPiece(p);
    var s := Strip(p);
    var lo2, hi2 := DotsPiece(s);
    lo, hi := lo1 + lo2, lo1 + hi2;
    SliceOfSlice(p, lo1, hi1, lo2, hi2);
  }

  lemma TruncateKeeps(t: string)
    requires NoUnsafe(t) && (t == [] || t[0] != '.')
    ensures NoUnsafe(Truncate(t)) && Truncate(t)[0] != '.'
  {
    if |t| > MaxNameLength {
      NoUnsafeSlice(t, 0, MaxNameLength);
    }
  }

  lemma StripDotsFront(s: string)
    ensures StripDots(s) == [] || StripDots(s)[0] != '.'
  {
    var a := DropLeadingDots(s);
    var t := DropTrailingDots(a);
    if t != [] {
      assert t[0] == a[0];
    }
  }

  /** The sanitised name holds no unsafe character and never starts with a dot. */
  lemma SanitizeSafe(name: string)
    ensures var r := Sanitize(name);
      0 < |r| <= MaxNameLength && NoUnsafe(r) && r[0] != '.'
  {
    if name != "" {
      var p := Replace(name);
      ReplaceSafe(name);
      var lo, hi := TrimmedPiece(p);
      NoUnsafeSlice(p, lo, hi);
      StripDotsFront(Strip(p));
      TruncateKeeps(StripDots(Strip(p)));
    }
  }

  /** A name is left unchanged exactly when it is already a safe name. */
  lemma SanitizeFixed(name: string)
    ensures Sanitize(name) == name <==> SafeName(name)
  {
    if SafeName(name) {
      SafeFixed(name);
    }
    if Sanitize(name) == name {
      SanitizeSafe(name);
      if name != Fallback {
        FixedParts(name);
      }
    }
  }

  lemma SafeFixed(name: string)
    requires SafeName(name)
    ensures Sanitize(name) == name
  {
    ReplaceNothing(name);
    StripTrimmed(name);
    assert DropLeadingDots(name) == name;
    assert DropTrailingDots(name) == name;
  }

  lemma ReplaceNothing(s: string)
    requires NoUnsafe(s)
    ensures Replace(s) == s
  {
    ReplaceAt(s);
  }

  /** When the result is the name itself, no step of the sanitiser removed anything. */
  lemma FixedParts(name: string)
    requires Sanitize(name) == name && name != Fallback
    ensures SafeName(name)
  {
    var p := Replace(name);
    var s := Strip(p);
    var lo1, hi1 := StripPiece(p);
    var lo2, hi2 := DotsPiece(s);
    var t := StripDots(s);
    assert |t| >= |name|;
    assert s == p && t == s && p == name;
    StripIsTrimmed(p);
    var a := DropLeadingDots(s);
    assert a == s;
    ReplaceSafe(name);
  }

  // ---------------------------------------------------------------------
  // The WhatsApp variant: `re.sub(r'\s+', ' ', ...)` before trimming.

  /** A string whose only whitespace is single spaces. */
  predicate Collapsed(s: string)
  {
    && (forall i :: 0 <= i < |s| && IsSpace(s[i]) ==> s[i] == ' ')
    && (forall i :: 0 <= i < |s| - 1 ==> !(s[i] == ' ' && s[i + 1] == ' '))
  }

  /** `re.sub(r'\s+', ' ', s)`: every maximal run of whitespace becomes one space. */
  function Collapse(s: string): (r: string)
    ensures |r| <= |s|
    ensures r != [] <==> s != []
    ensures r != [] ==> (IsSpace(r[0]) <==> IsSpace(s[0]))
    decreases |s|
  {
    if s == [] then []
    else if IsSpace(s[0]) then [' '] + Collapse(TrimStart(s[1..]))
    else [s[0]] + Collapse(s[1..])
  }

  lemma {:induction false} CollapseSpec(s: string)
    ensures Collapsed(Collapse(s))
    ensures forall c :: c in Collapse(s) && c != ' ' ==> c in s
  {
    CollapseCollapsed(s);
    CollapseChars(s);
  }

  /** Putting one character before a collapsed string keeps it collapsed unless it makes a double space. */
  lemma ConsCollapsed(x: char, c: string)
    requires Collapsed(c) && (IsSpace(x) ==> x == ' ')
    requires x == ' ' && c != [] ==> c[0] != ' '
    ensures Collapsed([x] + c)
  {
    var r := [x] + c;
    assert forall i :: 1 <= i < |r| ==> r[i] == c[i - 1];
  }

  lemma {:induction false} CollapseCollapsed(s: string)
    ensures Collapsed(Collapse(s))
    decreases |s|
  {
    if s != [] {
      if IsSpace(s[0]) {
        var t := TrimStart(s[1..]);
        TrimStartSpec(s[1..]);
        CollapseCollapsed(t);
        var c := Collapse(t);
        assert c != [] ==> !IsSpace(c[0]);
        ConsCollapsed(' ', c);
        assert Collapse(s) == [' '] + c;
      } else {
        CollapseCollapsed(s[1..]);
        ConsCollapsed(s[0], Collapse(s[1..]));
      }
    }
  }

  lemma {:induction false} CollapseChars(s: string)
    ensures forall c :: c in Collapse(s) && c != ' ' ==> c in s
    decreases |s|
  {
    if s != [] {
      if IsSpace(s[0]) {
        var t := TrimStart(s[1..]);
        TrimStartSpec(s[1..]);
        CollapseChars(t);
        assert Collapse(s) == [' '] + Collapse(t);
        assert forall c :: c in t ==> c in s[1..];
      } else {
        CollapseChars(s[1..]);
        assert Collapse(s) == [s[0]] + Collapse(s[1..]);
      }
    }
  }

  lemma CollapsedSlice(s: string, lo: nat, hi: nat)
    requires lo <= hi <= |s| && Collapsed(s)
    ensures Collapsed(s[lo..hi])
  {
    var t := s[lo..hi];
    assert forall i :: 0 <= i < |t| ==> t[i] == s[lo + i];
  }

  /** sanitize_filename of the WhatsApp adapter. */
  function SanitizeCollapsing(name: string): (r: string)
    ensures 0 < |r| <= MaxNameLength
    ensures name == "" ==> r == Fallback
  {
    if name == "" then Fallback else Truncate(StripDots(Strip(Collapse(Replace(name)))))
  }

  lemma CollapseKeepsSafe(p: string)
    requires NoUnsafe(p)
    ensures NoUnsafe(Collapse(p))
  {
    var q := Collapse(p);
    CollapseSpec(p);
    forall i | 0 <= i < |q| ensures !Unsafe(q[i]) {
      if q[i] != ' ' {
        assert q[i] in q;
        var k :| 0 <= k < |p| && p[k] == q[i];
      }
    }
  }

  /**
   * The WhatsApp name is safe as the other one is, and its only whitespace
   * is single spaces.
   */
  lemma SanitizeCollapsingSafe(name: string)
    ensures var r := SanitizeCollapsing(name);
      NoUnsafe(r) && r[0] != '.' && Collapsed(r)
  {
    if name != "" {
      var p := Replace(name);
      ReplaceSafe(name);
      var q := Collapse(p);
      CollapseSpec(p);
      CollapseKeepsSafe(p);
      var lo, hi := TrimmedPiece(q);
      var t := StripDots(Strip(q));
      NoUnsafeSlice(q, lo, hi);
      CollapsedSlice(q, lo, hi);
      StripDotsFront(Strip(q));
      TruncateKeeps(t);
      if |t| > MaxNameLength {
        CollapsedSlice(t, 0, MaxNameLength);
      }
    }
  }
}
