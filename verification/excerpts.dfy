/** Bounded excerpts (artifact.go:189-244, supervise.go:99-122). Strings are bytes, one character each; well-formed
UTF-8 is as in section 4 of RFC 3629. Counting tokens is left to a parameter. */
module Excerpts {
  import FileNames

  // ---- UTF-8 ----

  predicate In(c: char, low: int, high: int) { low <= c as int <= high }
  predicate Trail(c: char) { In(c, 0x80, 0xBF) }
  predicate RuneStart(c: char) { !Trail(c) }

  /** The length of the well-formed sequence at the head of `s`, zero if there is none. */
  function Width(s: string): (n: nat)
    ensures n <= |s| && n <= 4
  {
    if s == "" then 0
    else if In(s[0], 0, 0x7F) then 1
    else if |s| >= 2 && In(s[0], 0xC2, 0xDF) && Trail(s[1]) then 2
    else if |s| >= 3 && Second3(s[0], s[1]) && Trail(s[2]) then 3
    else if |s| >= 4 && Second4(s[0], s[1]) && Trail(s[2]) && Trail(s[3]) then 4
    else 0
  }

  predicate Second3(a: char, b: char) {
    || (In(a, 0xE0, 0xE0) && In(b, 0xA0, 0xBF)) || (In(a, 0xE1, 0xEC) && Trail(b))
    || (In(a, 0xED, 0xED) && In(b, 0x80, 0x9F)) || (In(a, 0xEE, 0xEF) && Trail(b))
  }

  predicate Second4(a: char, b: char) {
    (In(a, 0xF0, 0xF0) && In(b, 0x90, 0xBF)) || (In(a, 0xF1, 0xF3) && Trail(b)) || (In(a, 0xF4, 0xF4) && In(b, 0x80, 0x8F))
  }

  predicate Valid(s: string) { s == "" || (Width(s) > 0 && Valid(s[Width(s)..])) }

  /** Every run of bytes that belong to no rune becomes one replacement. */
  function Repair(s: string, replacement: string, within: bool): string {
    if s == "" then ""
    else if Width(s) > 0 then s[..Width(s)] + Repair(s[Width(s)..], replacement, false)
    else (if within then "" else replacement) + Repair(s[1..], replacement, true)
  }

  lemma WidthOf(a: string, b: string)
    requires Width(a) > 0
    ensures Width(a + b) == Width(a)
  {
  }

  lemma {:induction false} ValidConcat(a: string, b: string)
    requires Valid(a) && Valid(b)
    ensures Valid(a + b)
  {
    hide Width;
    if a == "" {
      assert a + b == b;
    } else {
      WidthOf(a, b);
      ValidConcat(a[Width(a)..], b);
      assert (a + b)[Width(a)..] == a[Width(a)..] + b;
    }
  }

  lemma RuneIsValid(s: string)
    requires Width(s) > 0
    ensures Valid(s[..Width(s)])
  {
    var rune := s[..Width(s)];
    assert Width(rune) == Width(s);
    assert rune[Width(rune)..] == "";
  }

  /** Repaired text is well-formed, and well-formed text needs no repair. */
  lemma {:induction false} RepairIsValid(s: string, replacement: string, within: bool)
    requires Valid(replacement)
    ensures Valid(Repair(s, replacement, within))
    ensures Valid(s) ==> Repair(s, replacement, within) == s
  {
    hide Width;
    if s != "" {
      if Width(s) > 0 {
        RepairIsValid(s[Width(s)..], replacement, false);
        RuneIsValid(s);
        ValidConcat(s[..Width(s)], Repair(s[Width(s)..], replacement, false));
        assert s[..Width(s)] + s[Width(s)..] == s;
      } else {
        RepairIsValid(s[1..], replacement, true);
        ValidConcat(if within then "" else replacement, Repair(s[1..], replacement, true));
      }
    }
  }

  lemma {:induction false} RemovalShortens(s: string, within: bool)
    ensures |Repair(s, "", within)| <= |s|
  {
    hide Width;
    if s != "" {
      if Width(s) > 0 { RemovalShortens(s[Width(s)..], false); } else { RemovalShortens(s[1..], true); }
    }
  }

  /** Within a rune only its first byte is a start. */
  lemma InsideIsTrail(s: string, i: nat)
    requires 0 < i < Width(s)
    ensures Trail(s[i])
  {
  }

  predicate Boundary(s: string, i: nat) { i == 0 || i == |s| || (i < |s| && RuneStart(s[i])) }

  /** Well-formed text cut where a rune starts leaves two well-formed texts. */
  lemma {:induction false} CutIsValid(s: string, i: nat)
    requires Valid(s) && i <= |s| && Boundary(s, i)
    ensures Valid(s[..i]) && Valid(s[i..])
  {
    hide Width;
    var n := Width(s);
    if i == 0 {
      assert s[i..] == s && s[..0] == "";
    } else if i < n {
      InsideIsTrail(s, i);
    } else {
      RuneIsValid(s);
      CutIsValid(s[n..], i - n);
      assert s[..i] == s[..n] + s[n..][..i - n] && s[n..][i - n..] == s[i..];
      ValidConcat(s[..n], s[n..][..i - n]);
    }
  }

  // ---- the excerpt ----

  const REPLACEMENT := [0xEF as char, 0xBF as char, 0xBD as char]

  function Repaired(text: string): string { Repair(text, REPLACEMENT, false) }

  /** The last rune boundary at or before `i`, and the first at or after it. */
  function Back(s: string, i: nat): (h: nat)
    ensures h <= i
  {
    if 0 < i < |s| && !RuneStart(s[i]) then Back(s, i - 1) else i
  }

  function Forward(s: string, i: nat): (t: nat)
    requires i <= |s|
    ensures i <= t <= |s|
    decreases |s| - i
  {
    if 0 < i < |s| && !RuneStart(s[i]) then Forward(s, i + 1) else i
  }

  function Half(kept: nat): nat { kept / 2 }

  const GAP := "\n\n"

  function Marker(omitted: nat, path: string): string {
    "\n\n[... " + FileNames.Itoa(omitted) + " bytes omitted ...]" + (if path != "" then "\n\nComplete value: " + path else "")
  }

  /** What an excerpt that keeps `kept` bytes shows of a well-formed text. */
  function Cut(s: string, kept: nat, path: string): string
    requires kept <= |s|
  {
    var head, start := Back(s, Half(kept)), Forward(s, |s| - (kept - Half(kept)));
    s[..head] + Marker(start - head, path) + GAP + s[start..]
  }

  function Excerpt(text: string, kept: int, path: string): string {
    var s := Repaired(text);
    if kept >= |s| then s else Cut(s, if kept < 0 then 0 else kept, path)
  }

  method ExcerptBytes(text: string, kept0: int, path: string) returns (r: string)
    ensures r == Excerpt(text, kept0, path)
  {
    var s, kept := Repaired(text), kept0;
    if kept >= |s| { return s; }
    if kept < 0 { kept := 0; }
    r := CutBytes(s, kept, path);
  }

  method CutBytes(s: string, kept: nat, path: string) returns (r: string)
    requires kept <= |s|
    ensures r == Cut(s, kept, path)
  {
    hide Marker;
    var head := MoveBack(s, kept / 2);
    var startTail := MoveForward(s, |s| - (kept - kept / 2));
    var omitted := |s| - head - (|s| - startTail);
    r := s[..head] + Marker(omitted, path) + GAP + s[startTail..];
  }

  method MoveBack(s: string, from: nat) returns (head: nat)
    ensures head == Back(s, from)
  {
    head := from;
    while head > 0 && head < |s| && !RuneStart(s[head])
      invariant Back(s, head) == Back(s, from)
    {
      head := head - 1;
    }
  }

  method MoveForward(s: string, from: nat) returns (start: nat)
    requires from <= |s|
    ensures start == Forward(s, from)
  {
    start := from;
    while start < |s| && start > 0 && !RuneStart(s[start])
      invariant start <= |s| && Forward(s, start) == Forward(s, from)
    {
      start := start + 1;
    }
  }

  lemma {:induction false} BackIsBoundary(s: string, i: nat)
    requires i <= |s|
    ensures Boundary(s, Back(s, i))
    ensures forall k | Back(s, i) < k <= i :: !Boundary(s, k)
  {
    if 0 < i < |s| && !RuneStart(s[i]) { BackIsBoundary(s, i - 1); }
  }

  lemma {:induction false} ForwardIsBoundary(s: string, i: nat)
    requires i <= |s|
    ensures Boundary(s, Forward(s, i))
    ensures forall k | i <= k < Forward(s, i) :: !Boundary(s, k)
    decreases |s| - i
  {
    if 0 < i < |s| && !RuneStart(s[i]) { ForwardIsBoundary(s, i + 1); }
  }

  /** Head and tail do not overlap, both are well-formed, nothing more could be kept of either, and the marker
  states exactly how many bytes are missing between them. */
  lemma ExcerptIsHonest(text: string, kept: int, path: string) returns (head: nat, start: nat)
    requires 0 <= kept < |Repaired(text)|
    ensures var s := Repaired(text);
            && head <= start <= |s| && Excerpt(text, kept, path) == s[..head] + Marker(start - head, path) + GAP + s[start..]
            && Marker(start - head, path) == "\n\n[... " + FileNames.Itoa(start - head) + " bytes omitted ...]"
                                             + (if path != "" then "\n\nComplete value: " + path else "")
            && GAP == "\n\n" && |s| == head + (start - head) + |s[start..]|
            && Valid(s[..head]) && Valid(s[start..])
            && head <= kept / 2 && (forall k | head < k <= kept / 2 :: !Boundary(s, k))
            && |s| - start <= kept - kept / 2 && (forall k | |s| - (kept - kept / 2) <= k < start :: !Boundary(s, k))
  {
    var s := Repaired(text);
    RepairedIsValid(text);
    head, start := PlacesAreHonest(s, kept, path);
  }

  lemma RepairedIsValid(text: string)
    ensures Valid(Repaired(text))
  {
    ReplacementIsValid();
    RepairIsValid(text, REPLACEMENT, false);
  }

  lemma PlacesAreHonest(s: string, kept: nat, path: string) returns (head: nat, start: nat)
    requires Valid(s) && kept <= |s|
    ensures head <= start <= |s| && Cut(s, kept, path) == s[..head] + Marker(start - head, path) + GAP + s[start..]
    ensures |s| == head + (start - head) + |s[start..]| && Valid(s[..head]) && Valid(s[start..])
    ensures head <= kept / 2 && forall k | head < k <= kept / 2 :: !Boundary(s, k)
    ensures |s| - start <= kept - kept / 2 && forall k | |s| - (kept - kept / 2) <= k < start :: !Boundary(s, k)
  {
    hide Marker, Width, Valid, Boundary;
    var tail := kept - kept / 2;
    head, start := Back(s, kept / 2), Forward(s, |s| - tail);
    BackIsBoundary(s, kept / 2);
    ForwardIsBoundary(s, |s| - tail);
    CutIsValid(s, head);
    CutIsValid(s, start);
  }

  lemma ReplacementIsValid()
    ensures Valid(REPLACEMENT)
  {
    assert Width(REPLACEMENT) == 3 && REPLACEMENT[3..] == "";
  }

  // ---- the search for a budget ----

  predicate Fits(count: string -> nat, text: string, path: string, max: int, kept: int) {
    count(Excerpt(text, kept, path)) <= max
  }

  function Most(text: string, maxBytes: int): int { if |text| < maxBytes then |text| else maxBytes }

  /** `k` bytes fit and one more would not; or nothing fits, or nothing may be kept, and `k` is zero. */
  predicate Best(count: string -> nat, text: string, path: string, max: int, most: int, k: int) {
    || (0 <= k <= most && Fits(count, text, path, max, k) && (k == most || !Fits(count, text, path, max, k + 1)))
    || (k == 0 && (most < 0 || !Fits(count, text, path, max, 0)))
  }

  predicate Holds(r: string, text: string, path: string, k: int) { r == Excerpt(text, k, path) }

  /** Whatever the counts, the result is an excerpt that fits whenever the one that keeps nothing does, while one more
  byte would not fit; when fewer bytes never cost more tokens it is the longest that fits. */
  method FitExcerptBytes(count: string -> nat, text: string, path: string, maxTokens: int,
                         maxBytes: int) returns (r: string)
    ensures exists k :: Holds(r, text, path, k) && Best(count, text, path, maxTokens, Most(text, maxBytes), k)
    ensures Fits(count, text, path, maxTokens, 0) ==> count(r) <= maxTokens
    ensures Monotone(count, text, path, maxTokens, Most(text, maxBytes)) ==>
              forall j | 0 <= j <= Most(text, maxBytes) && Fits(count, text, path, maxTokens, j) ::
                exists k :: j <= k && Holds(r, text, path, k)
  {
    hide Excerpt;
    var low, high := 0, if |text| < maxBytes then |text| else maxBytes;
    ghost var most, k := Most(text, maxBytes), high;
    if high >= 0 {
      var candidate := ExcerptBytes(text, high, path);
      if count(candidate) <= maxTokens {
        assert Holds(candidate, text, path, high);
        return candidate;
      }
      high := high - 1;
    }
    var best := ExcerptBytes(text, 0, path);
    k := 0;
    while low <= high
      invariant 0 <= low && (0 <= most ==> high <= most - 1 && low <= high + 1) && (most < 0 ==> k == 0 && high < low)
      invariant best == Excerpt(text, k, path) && (low == 0 ==> k == 0)
      invariant low > 0 ==> k == low - 1 && Fits(count, text, path, maxTokens, k)
      invariant 0 <= most ==> !Fits(count, text, path, maxTokens, high + 1)
      decreases high - low
    {
      var middle := low + (high - low) / 2;
      var candidate := ExcerptBytes(text, middle, path);
      if count(candidate) <= maxTokens {
        best := candidate;
        k := middle;
        low := middle + 1;
      } else {
        high := middle - 1;
      }
    }
    r := best;
    assert Holds(r, text, path, k) && Best(count, text, path, maxTokens, most, k);
    BestIsMaximal(count, text, path, maxTokens, most, k);
  }

  ghost predicate Monotone(count: string -> nat, text: string, path: string, max: int, most: int) {
    forall i, j | 0 <= i <= j <= most :: Fits(count, text, path, max, j) ==> Fits(count, text, path, max, i)
  }

  lemma BestIsMaximal(count: string -> nat, text: string, path: string, max: int, most: int, k: int)
    requires Best(count, text, path, max, most, k)
    ensures Fits(count, text, path, max, 0) ==> Fits(count, text, path, max, k)
    ensures Monotone(count, text, path, max, most) ==> forall j | 0 <= j <= most && Fits(count, text, path, max, j) :: j <= k
  {
    hide Fits;
    if Monotone(count, text, path, max, most) {
      forall j | 0 <= j <= most && Fits(count, text, path, max, j) ensures j <= k {
        assert k < j ==> Fits(count, text, path, max, k + 1) && Fits(count, text, path, max, 0);
      }
    }
  }

  // ---- clipping ----

  function ClipMarker(omitted: nat): string { " [... " + FileNames.Itoa(omitted) + " bytes omitted]" }

  /** A short text is shown as it is, once repaired. */
  lemma WholeIsShown(text: string, kept: int, path: string)
    requires kept >= |Repaired(text)|
    ensures Excerpt(text, kept, path) == Repaired(text) && (Valid(text) ==> Excerpt(text, kept, path) == text)
  {
    RepairIsValid(text, REPLACEMENT, false);
    ReplacementIsValid();
  }

  lemma ClipMarkerSays(omitted: nat)
    ensures ClipMarker(omitted) == " [... " + FileNames.Itoa(omitted) + " bytes omitted]"
  {
  }

  lemma {:induction false} ItoaGrows(a: nat, b: nat)
    requires a <= b
    ensures |FileNames.Itoa(a)| <= |FileNames.Itoa(b)|
  {
    if b >= 10 && a >= 10 { ItoaGrows(a / 10, b / 10); }
  }

  /** `keep` bytes of the text and the marker that says how many are missing fill the limit exactly. */
  predicate Balanced(text: string, limit: int, keep: nat) {
    keep <= |text| && keep + |ClipMarker(|text| - keep)| == limit
  }

  method ClipText(text: string, limit: int) returns (r: string, ghost keep: nat)
    ensures |r| <= if limit < 0 then 0 else limit
    ensures 0 <= limit && |text| <= limit ==> r == text
    ensures 0 < limit < |text| ==>
              || (Balanced(text, limit, keep) && r == Repair(text[..keep], "", false) + ClipMarker(|text| - keep)
                  && (Valid(text[..keep]) ==> |r| == limit))
              || (|r| == limit && keep <= limit && limit <= |ClipMarker(|text| - keep)| && r == ClipMarker(|text| - keep)[..limit])
  {
    hide ClipMarker, Repair, Valid;
    keep := 0;
    if limit <= 0 { return "", 0; }
    if |text| <= limit { return text, 0; }
    var kept := limit;
    while true
      invariant 0 < kept <= limit
      invariant kept == limit || exists more: nat :: Shrinks(text, limit, more, kept)
      decreases kept
    {
      var marker := ClipMarker(|text| - kept);
      if |marker| >= limit { return marker[..limit], kept; }
      var newKept := limit - |marker|;
      if newKept == kept {
        RemovalShortens(text[..kept], false);
        EmptyIsValid();
        RepairIsValid(text[..kept], "", false);
        return Repair(text[..kept], "", false) + marker, kept;
      }
      if kept < limit {
        var more: nat :| Shrinks(text, limit, more, kept);
        MarkerGrows(|text| - more, |text| - kept);
      }
      assert Shrinks(text, limit, kept, newKept);
      kept := newKept;
    }
  }

  /** The step from one guess to the next. */
  predicate Shrinks(text: string, limit: int, more: nat, kept: nat) {
    kept < more <= limit < |text| && kept == limit - |ClipMarker(|text| - more)|
  }

  lemma MarkerGrows(a: nat, b: nat)
    requires a <= b
    ensures |ClipMarker(a)| <= |ClipMarker(b)|
  {
    ItoaGrows(a, b);
  }

  lemma EmptyIsValid()
    ensures Valid("")
  {
  }
}
