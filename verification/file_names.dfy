/** File names of artifacts (artifact.go:52-77, scope.go:391-405). Strings are bytes here, one character each. A name
becomes base64url without padding (section 5 of RFC 4648) in components of at most 120 bytes; the decoders below
recover the names from the path, so no two values share a file. */
module FileNames {
  import opened Wrappers
  import JsonPointer

  predicate Bytes(s: string) { forall i | 0 <= i < |s| :: s[i] as int < 256 }

  // ---- base64url ----

  function Symbol(v: nat): (c: char)
    requires v < 64
    ensures Digit(c) == Some(v) && c !in {'/', '.'}
  {
    if v < 26 then ('A' as int + v) as char
    else if v < 52 then ('a' as int + v - 26) as char
    else if v < 62 then ('0' as int + v - 52) as char
    else if v == 62 then '-' else '_'
  }

  function Digit(c: char): (v: Option<nat>)
    ensures v.Some? ==> v.value < 64
  {
    if 'A' <= c <= 'Z' then Some(c as int - 'A' as int)
    else if 'a' <= c <= 'z' then Some(c as int - 'a' as int + 26)
    else if '0' <= c <= '9' then Some(c as int - '0' as int + 52)
    else if c == '-' then Some(62)
    else if c == '_' then Some(63) else None
  }

  function Encode(s: string): (e: string)
    requires Bytes(s)
    ensures |e| == (|s| * 4 + 2) / 3
    ensures forall c | c in e :: c !in {'/', '.'}
  {
    if s == "" then ""
    else
      var a := s[0] as int;
      if |s| == 1 then [Symbol(a / 4), Symbol(a % 4 * 16)]
      else
        var b := s[1] as int;
        if |s| == 2 then [Symbol(a / 4), Symbol(a % 4 * 16 + b / 16), Symbol(b % 16 * 4)]
        else
          var c := s[2] as int;
          [Symbol(a / 4), Symbol(a % 4 * 16 + b / 16), Symbol(b % 16 * 4 + c / 64), Symbol(c % 64)] + Encode(s[3..])
  }

  function Decode(e: string): Option<string> {
    if e == "" then Some("")
    else if |e| == 1 || Digit(e[0]).None? || Digit(e[1]).None? then None
    else
      var p, q := Digit(e[0]).value, Digit(e[1]).value;
      var a := (p * 4 + q / 16) as char;
      if |e| == 2 then Some([a])
      else if Digit(e[2]).None? then None
      else
        var r := Digit(e[2]).value;
        var b := (q % 16 * 16 + r / 4) as char;
        if |e| == 3 then Some([a, b])
        else if Digit(e[3]).None? then None
        else
          var c := (r % 4 * 64 + Digit(e[3]).value) as char;
          match Decode(e[4..])
          case None => None
          case Some(rest) => Some([a, b, c] + rest)
  }

  /** Four symbols carry three bytes. */
  lemma DecodeGroup(p: nat, q: nat, r: nat, t: nat, e: string, rest: string)
    requires p < 64 && q < 64 && r < 64 && t < 64 && Decode(e) == Some(rest)
    ensures Decode([Symbol(p), Symbol(q), Symbol(r), Symbol(t)] + e) ==
            Some([(p * 4 + q / 16) as char, (q % 16 * 16 + r / 4) as char, (r % 4 * 64 + t) as char] + rest)
  {
    hide Digit, Symbol;
    var all := [Symbol(p), Symbol(q), Symbol(r), Symbol(t)] + e;
    assert all[4..] == e;
    assert all[0] == Symbol(p) && all[1] == Symbol(q) && all[2] == Symbol(r) && all[3] == Symbol(t);
  }

  lemma DecodeNothing()
    ensures Decode("") == Some("")
  {
  }

  lemma DecodeTwo(p: nat, q: nat)
    requires p < 64 && q < 64
    ensures Decode([Symbol(p), Symbol(q)]) == Some([(p * 4 + q / 16) as char])
  {
    hide Digit, Symbol;
  }

  lemma DecodeThree(p: nat, q: nat, r: nat)
    requires p < 64 && q < 64 && r < 64
    ensures Decode([Symbol(p), Symbol(q), Symbol(r)]) == Some([(p * 4 + q / 16) as char, (q % 16 * 16 + r / 4) as char])
  {
    hide Digit, Symbol;
  }

  /** The bits of three bytes, cut into sixes and put together again. */
  lemma Bits(a: nat, b: nat, c: nat)
    requires a < 256 && b < 256 && c < 256
    ensures a / 4 * 4 + (a % 4 * 16 + b / 16) / 16 == a
    ensures (a % 4 * 16 + b / 16) % 16 * 16 + (b % 16 * 4 + c / 64) / 4 == b
    ensures (b % 16 * 4 + c / 64) % 4 * 64 + c % 64 == c
    ensures a / 4 * 4 + a % 4 * 16 / 16 == a && (a % 4 * 16 + b / 16) % 16 * 16 + b % 16 * 4 / 4 == b
  {
  }

  lemma {:induction false} DecodeEncode(s: string)
    requires Bytes(s)
    ensures Decode(Encode(s)) == Some(s)
  {
    hide Digit, Symbol, Decode;
    if s == "" {
      DecodeNothing();
    } else {
      var a, b, c := s[0] as int, if |s| > 1 then s[1] as int else 0, if |s| > 2 then s[2] as int else 0;
      Bits(a, b, c);
      if |s| == 1 {
        DecodeTwo(a / 4, a % 4 * 16);
        assert s == [a as char];
      } else if |s| == 2 {
        DecodeThree(a / 4, a % 4 * 16 + b / 16, b % 16 * 4);
        assert s == [a as char, b as char];
      } else {
        DecodeEncode(s[3..]);
        DecodeGroup(a / 4, a % 4 * 16 + b / 16, b % 16 * 4 + c / 64, c % 64, Encode(s[3..]), s[3..]);
        assert s == [a as char, b as char, c as char] + s[3..];
      }
    }
  }

  // ---- decimal numbers ----

  predicate AllDigits(d: string) { forall i | 0 <= i < |d| :: '0' <= d[i] <= '9' }

  function Itoa(n: nat): (d: string)
    ensures d != "" && AllDigits(d)
  {
    if n < 10 then [('0' as int + n) as char] else Itoa(n / 10) + [('0' as int + n % 10) as char]
  }

  function Atoi(d: string): nat
    requires AllDigits(d)
  {
    if d == "" then 0 else Atoi(d[..|d| - 1]) * 10 + (d[|d| - 1] as int - '0' as int)
  }

  lemma {:induction false} AtoiItoa(n: nat)
    ensures Atoi(Itoa(n)) == n
  {
    if n >= 10 {
      AtoiItoa(n / 10);
      assert Itoa(n)[..|Itoa(n)| - 1] == Itoa(n / 10);
    }
  }

  function Pow10(k: nat): nat { if k == 0 then 1 else 10 * Pow10(k - 1) }

  lemma {:induction false} ItoaLength(n: nat, k: nat)
    requires 1 <= k && n < Pow10(k)
    ensures |Itoa(n)| <= k
  {
    if n >= 10 { ItoaLength(n / 10, k - 1); }
  }

  // ---- one name ----

  const CHUNK: nat := 118

  /** The encoded name in pieces of at most 118 bytes, each marked. */
  function Chunks(e: string): (parts: seq<string>)
    ensures |parts| == (|e| + CHUNK - 1) / CHUNK
  {
    if e == "" then [] else if |e| <= CHUNK then ["x-" + e] else ["x-" + e[..CHUNK]] + Chunks(e[CHUNK..])
  }

  function Component(name: string): seq<string>
    requires Bytes(name)
  {
    var e := Encode(name);
    if |e| <= CHUNK then ["x-" + e] else ["long-" + Itoa(|e|)] + Chunks(e)
  }

  method EncodedComponent(name: string) returns (parts: seq<string>)
    requires Bytes(name)
    ensures parts == Component(name)
  {
    var encoded := Encode(name);
    if |encoded| <= CHUNK { return ["x-" + encoded]; }
    parts := ["long-" + Itoa(|encoded|)];
    ghost var all := encoded;
    while |encoded| > 0
      invariant parts + Chunks(encoded) == Component(name)
      decreases |encoded|
    {
      var n := if |encoded| < CHUNK then |encoded| else CHUNK;
      ChunksNext(encoded, n);
      parts := parts + ["x-" + encoded[..n]];
      encoded := encoded[n..];
    }
  }

  lemma ChunksNext(e: string, n: nat)
    requires 0 < |e| && n == if |e| < CHUNK then |e| else CHUNK
    ensures Chunks(e) == ["x-" + e[..n]] + Chunks(e[n..])
  {
    if |e| <= CHUNK { assert e[..n] == e && e[n..] == ""; }
  }

  /** Strips the marks of the pieces and joins them. */
  function Unchunk(parts: seq<string>): Option<string> {
    if parts == [] then Some("")
    else if !("x-" <= parts[0]) then None
    else
      match Unchunk(parts[1..])
      case None => None
      case Some(rest) => Some(parts[0][2..] + rest)
  }

  lemma {:induction false} UnchunkChunks(e: string)
    ensures Unchunk(Chunks(e)) == Some(e)
  {
    if e != "" {
      var n := if |e| < CHUNK then |e| else CHUNK;
      ChunksNext(e, n);
      UnchunkChunks(e[n..]);
      Marked(e[..n]);
      assert e == e[..n] + e[n..];
    }
  }

  lemma Marked(e: string)
    ensures "x-" <= "x-" + e && ("x-" + e)[2..] == e && !("long-" <= "x-" + e)
  {
    assert ("x-" + e)[0] == 'x';
  }

  lemma Counted(d: string)
    ensures !("x-" <= "long-" + d) && "long-" <= "long-" + d && ("long-" + d)[5..] == d
  {
    assert ("long-" + d)[0] == 'l';
  }

  /** How many components the name at the head of a path takes. */
  function Span(parts: seq<string>): Option<nat> {
    if parts == [] then None
    else if "x-" <= parts[0] then Some(1)
    else if "long-" <= parts[0] && AllDigits(parts[0][5..]) then
      var n := 1 + (Atoi(parts[0][5..]) + CHUNK - 1) / CHUNK;
      if n <= |parts| then Some(n) else None
    else None
  }

  /** The name at the head of a path, and the rest of the path. */
  function TakeName(parts: seq<string>): Option<(string, seq<string>)> {
    match Span(parts)
    case None => None
    case Some(n) =>
      var e := if "x-" <= parts[0] then Some(parts[0][2..]) else Unchunk(parts[1..n]);
      if e.None? || Decode(e.value).None? then None else Some((Decode(e.value).value, parts[n..]))
  }

  /** A decoder finds the name and where it ends, whatever follows. */
  lemma NameIsRecovered(name: string, more: seq<string>)
    requires Bytes(name)
    ensures TakeName(Component(name) + more) == Some((name, more))
  {
    var e := Encode(name);
    DecodeEncode(name);
    if |e| <= CHUNK { ShortName(e, name, more); } else { LongName(e, name, more); }
  }

  lemma ShortName(e: string, name: string, more: seq<string>)
    requires Decode(e) == Some(name)
    ensures TakeName(["x-" + e] + more) == Some((name, more))
  {
    hide Decode;
    Marked(e);
    var parts := ["x-" + e] + more;
    assert parts[0] == "x-" + e && parts[1..] == more;
  }

  lemma LongName(e: string, name: string, more: seq<string>)
    requires Decode(e) == Some(name)
    ensures TakeName(["long-" + Itoa(|e|)] + Chunks(e) + more) == Some((name, more))
  {
    hide Decode, Unchunk, Chunks, Itoa, Atoi;
    Counted(Itoa(|e|));
    AtoiItoa(|e|);
    UnchunkChunks(e);
    var parts, n := ["long-" + Itoa(|e|)] + Chunks(e) + more, 1 + |Chunks(e)|;
    assert parts[0] == "long-" + Itoa(|e|) && parts[1..n] == Chunks(e) && parts[n..] == more;
    assert Span(parts) == Some(n);
  }

  // ---- a whole path ----

  /** The components of a scope's key, one name after the other. */
  function Names(names: seq<string>): seq<string>
    requires forall n | n in names :: Bytes(n)
  {
    if names == [] then [] else Names(names[..|names| - 1]) + Component(names[|names| - 1])
  }

  function Path(key: string): seq<string>
    requires Bytes(key)
  {
    SplitKeepsBytes(key);
    if key == "" then ["root"] else Names(JsonPointer.Split(key))
  }

  lemma {:induction false} SplitKeepsBytes(s: string)
    requires Bytes(s)
    ensures forall p | p in JsonPointer.Split(s) :: Bytes(p)
  {
    if s != "" {
      SplitKeepsBytes(s[1..]);
      var rest := JsonPointer.Split(s[1..]);
      assert rest[0] in rest;
    }
  }

  method EncodedPath(name: string) returns (parts: seq<string>)
    requires Bytes(name)
    ensures parts == Path(name)
  {
    hide Bytes, Component, Names;
    if name == "" { return ["root"]; }
    SplitKeepsBytes(name);
    NoNames();
    var names := JsonPointer.Split(name);
    parts := [];
    for i := 0 to |names|
      invariant (forall n | n in names[..i] :: Bytes(n)) && parts == Names(names[..i])
    {
      NamesNext(names[..i], names[i]);
      assert names[..i] + [names[i]] == names[..i + 1] && names[i] in names;
      var component := EncodedComponent(names[i]);
      parts := parts + component;
    }
    assert names[..|names|] == names;
  }

  /** All names of a path. */
  function TakeNames(parts: seq<string>): Option<seq<string>>
    decreases |parts|
  {
    if parts == [] then Some([])
    else
      match TakeName(parts)
      case None => None
      case Some((name, rest)) =>
        if |rest| >= |parts| then None
        else
          match TakeNames(rest)
          case None => None
          case Some(names) => Some([name] + names)
  }

  lemma {:induction false} NamesSplit(a: seq<string>, b: seq<string>)
    requires (forall n | n in a :: Bytes(n)) && (forall n | n in b :: Bytes(n))
    ensures (forall n | n in a + b :: Bytes(n)) && Names(a + b) == Names(a) + Names(b)
  {
    hide Bytes, Component, Names;
    assert forall n | n in a + b :: n in a || n in b;
    if b == [] {
      NoNames();
      assert a + b == a;
    } else {
      var init, last := b[..|b| - 1], b[|b| - 1];
      assert forall n | n in init :: n in b;
      NamesSplit(a, init);
      assert last in b && a + b == a + init + [last];
      NamesNext(a + init, last);
      assert b == init + [last];
      NamesNext(init, last);
    }
  }

  lemma NoNames()
    ensures Names([]) == []
  {
  }

  lemma NamesNext(names: seq<string>, name: string)
    requires (forall n | n in names :: Bytes(n)) && Bytes(name)
    ensures (forall n | n in names + [name] :: Bytes(n)) && Names(names + [name]) == Names(names) + Component(name)
  {
    hide Bytes, Component;
    assert (names + [name])[..|names|] == names;
  }

  lemma {:induction false} NamesAreRecovered(names: seq<string>)
    requires forall n | n in names :: Bytes(n)
    ensures TakeNames(Names(names)) == Some(names)
  {
    if names != [] {
      var first, rest := names[0], names[1..];
      assert names == [first] + rest;
      NamesSplit([first], rest);
      assert [first][..0] == [] && Names([first]) == Component(first);
      NameIsRecovered(first, Names(rest));
      NamesAreRecovered(rest);
    }
  }

  /** "root" stands for the empty key and for nothing else. */
  function ScopeKey(parts: seq<string>): Option<string> {
    if parts == ["root"] then Some("")
    else
      match TakeNames(parts)
      case None => None
      case Some(names) => if names == [] then None else Some(Join(names))
  }

  function Join(parts: seq<string>): string
    requires parts != []
  {
    if |parts| == 1 then parts[0] else parts[0] + "/" + Join(parts[1..])
  }

  lemma {:induction false} JoinSplit(s: string)
    ensures Join(JsonPointer.Split(s)) == s
  {
    if s != "" {
      JoinSplit(s[1..]);
      var rest := JsonPointer.Split(s[1..]);
      assert s == [s[0]] + s[1..];
      if s[0] == '/' {
        assert ([""] + rest)[1..] == rest;
      } else {
        JoinPrepend(s[0], rest);
      }
    }
  }

  lemma JoinPrepend(c: char, parts: seq<string>)
    requires parts != []
    ensures Join([[c] + parts[0]] + parts[1..]) == [c] + Join(parts)
  {
    var more := [[c] + parts[0]] + parts[1..];
    if |parts| > 1 {
      assert more[1..] == parts[1..];
      assert [c] + parts[0] + "/" + Join(parts[1..]) == [c] + (parts[0] + "/" + Join(parts[1..]));
    }
  }

  lemma RootIsNoName(names: seq<string>)
    requires names != [] && forall n | n in names :: Bytes(n)
    ensures Names(names) != ["root"]
  {
    NamesAreRecovered(names);
    assert TakeName(["root"]) == None by { assert "root"[0] == 'r'; }
  }

  /** A decoder recovers the scope key from its path. */
  lemma KeyIsRecovered(key: string)
    requires Bytes(key)
    ensures ScopeKey(Path(key)) == Some(key)
  {
    if key != "" {
      SplitKeepsBytes(key);
      RootIsNoName(JsonPointer.Split(key));
      NamesAreRecovered(JsonPointer.Split(key));
      JoinSplit(key);
    }
  }

  // ---- a value's file ----

  datatype Format = JsonFormat | TextFormat

  function Extension(f: Format): string { if f.JsonFormat? then ".json" else ".txt" }

  /** The components of a value's file under "values" (scope.go:405). */
  function ValueFile(scope: string, key: string, f: Format): seq<string>
    requires Bytes(scope) && Bytes(key)
  {
    Path(scope) + WithExtension(Component(key), f)
  }

  function WithExtension(parts: seq<string>, f: Format): seq<string> {
    if parts == [] then [] else parts[..|parts| - 1] + [parts[|parts| - 1] + Extension(f)]
  }

  /** The part of a name before its first dot, and the rest. */
  function Cut(s: string): (string, string) {
    if s == "" then ("", "") else if s[0] == '.' then ("", s) else var (a, b) := Cut(s[1..]); ([s[0]] + a, b)
  }

  lemma {:induction false} CutAt(a: string, b: string)
    requires (forall c | c in a :: c != '.') && (b == "" || b[0] == '.')
    ensures Cut(a + b) == (a, b)
  {
    if a == "" {
      assert a + b == b;
    } else {
      assert (a + b)[1..] == a[1..] + b && a[0] in a;
      assert forall c | c in a[1..] :: c in a;
      CutAt(a[1..], b);
      assert [a[0]] + a[1..] == a;
    }
  }

  /** What the path of a value's file says. */
  function ReadValueFile(parts: seq<string>): Option<(string, string, Format)> {
    if parts == [] then None
    else
      var (stem, extension) := Cut(parts[|parts| - 1]);
      var format := if extension == ".json" then Some(JsonFormat) else if extension == ".txt" then Some(TextFormat) else None;
      var bare := parts[..|parts| - 1] + [stem];
      var root := bare[0] == "root";
      match TakeNames(if root then bare[1..] else bare)
      case None => None
      case Some(names) =>
        if format.None? || names == [] || (root && |names| != 1) || (!root && |names| < 2) then None
        else Some((if root then "" else Join(names[..|names| - 1]), names[|names| - 1], format.value))
  }

  /** No component has a dot or a slash in it, is empty or names a directory, or is longer than 120 bytes. */
  predicate SafePart(part: string) {
    part != "" && (forall c | c in part :: c !in {'.', '/'}) && |part| <= 120
  }

  lemma {:induction false} ChunksAreSafe(e: string)
    requires forall c | c in e :: c !in {'.', '/'}
    ensures forall p | p in Chunks(e) :: SafePart(p)
  {
    if e != "" {
      var n := if |e| < CHUNK then |e| else CHUNK;
      ChunksNext(e, n);
      assert forall c | c in e[..n] :: c in e;
      assert forall c | c in e[n..] :: c in e;
      ChunksAreSafe(e[n..]);
      assert SafePart("x-" + e[..n]);
    }
  }

  /** The length of a Go string fits in 63 bits, which bounds the number in a long name's first component. */
  lemma ComponentIsSafe(name: string)
    requires Bytes(name) && |name| < 0x4000_0000_0000_0000
    ensures Component(name) != [] && forall p | p in Component(name) :: SafePart(p)
  {
    var e := Encode(name);
    ChunksAreSafe(e);
    if |e| <= CHUNK {
      assert SafePart("x-" + e);
    } else {
      assert Pow10(19) == 10_000_000_000_000_000_000 by { Ten19(); }
      ItoaLength(|e|, 19);
      assert SafePart("long-" + Itoa(|e|));
    }
  }

  lemma Ten19()
    ensures Pow10(19) == 10_000_000_000_000_000_000
  {
    assert Pow10(5) == 100_000;
    assert Pow10(10) == 10_000_000_000;
    assert Pow10(15) == 1_000_000_000_000_000;
  }

  lemma {:induction false} NamesAreSafe(names: seq<string>)
    requires forall n | n in names :: Bytes(n) && |n| < 0x4000_0000_0000_0000
    ensures forall p | p in Names(names) :: SafePart(p)
  {
    if names != [] {
      assert names[|names| - 1] in names;
      assert forall n | n in names[..|names| - 1] :: n in names;
      NamesAreSafe(names[..|names| - 1]);
      ComponentIsSafe(names[|names| - 1]);
    }
  }

  /** The path of a value's file determines its scope, its key and its format. */
  lemma ValueFileIsRecovered(scope: string, key: string, f: Format)
    requires Bytes(scope) && Bytes(key)
    requires |key| < 0x4000_0000_0000_0000
    ensures ReadValueFile(ValueFile(scope, key, f)) == Some((scope, key, f))
  {
    hide TakeNames, Join, Bytes, Path, Component;
    var parts, own := ValueFile(scope, key, f), Component(key);
    ComponentIsSafe(key);
    var last := own[|own| - 1];
    assert last in own && SafePart(last);
    CutAt(last, Extension(f));
    var bare := Path(scope) + own;
    assert parts[|parts| - 1] == last + Extension(f) && parts[..|parts| - 1] + [last] == bare;
    BareIsRecovered(scope, key);
  }

  /** The same path without its extension. */
  lemma BareIsRecovered(scope: string, key: string)
    requires Bytes(scope) && Bytes(key)
    ensures var bare := Path(scope) + Component(key);
            && bare != [] && (bare[0] == "root" <==> scope == "")
            && (scope == "" ==> TakeNames(bare[1..]) == Some([key]))
            && (scope != "" ==> TakeNames(bare) == Some(JsonPointer.Split(scope) + [key]))
            && Join(JsonPointer.Split(scope)) == scope
  {
    hide Bytes, Component, TakeNames, Names, JsonPointer.Split, Join;
    JoinSplit(scope);
    OneName(key);
    if scope == "" {
      var bare := ["root"] + Component(key);
      assert bare[0] == "root" && bare[1..] == Component(key);
      NamesAreRecovered([key]);
    } else {
      SplitKeepsBytes(scope);
      var names := JsonPointer.Split(scope);
      NamesSplit(names, [key]);
      NamesAreRecovered(names + [key]);
      FirstIsNotRoot(names, [key]);
    }
  }

  lemma OneName(name: string)
    requires Bytes(name)
    ensures Names([name]) == Component(name)
  {
    NamesNext([], name);
    assert [] + [name] == [name];
  }

  lemma FirstIsNotRoot(names: seq<string>, more: seq<string>)
    requires names != [] && (forall n | n in names :: Bytes(n)) && (forall n | n in more :: Bytes(n))
    ensures Names(names) + Names(more) != [] && (Names(names) + Names(more))[0] != "root"
  {
    var first, rest := names[0], names[1..];
    assert names == [first] + rest;
    NamesSplit([first], rest);
    NamesNext([], first);
    assert [] + [first] == [first];
    FirstLetter(first);
    assert Component(first)[0] == (Names(names) + Names(more))[0];
  }

  lemma FirstLetter(name: string)
    requires Bytes(name)
    ensures Component(name) != [] && Component(name)[0] != "root"
  {
    assert ("x-" + Encode(name))[0] == 'x' && ("long-" + Itoa(|Encode(name)|))[0] == 'l' && "root"[0] == 'r';
  }

  // ---- the path as one string ----

  lemma {:induction false} SplitIsShorter(s: string)
    ensures forall p | p in JsonPointer.Split(s) :: |p| <= |s|
  {
    if s != "" {
      SplitIsShorter(s[1..]);
      var rest := JsonPointer.Split(s[1..]);
      assert rest[0] in rest;
    }
  }

  lemma PathIsSafe(key: string)
    requires Bytes(key) && |key| < 0x4000_0000_0000_0000
    ensures Path(key) != [] && forall p | p in Path(key) :: SafePart(p)
  {
    hide Bytes, SafePart;
    if key == "" {
      RootIsSafe();
    } else {
      SplitKeepsBytes(key);
      SplitIsShorter(key);
      var names := JsonPointer.Split(key);
      NamesAreSafe(names);
      FirstIsNotRoot(names, []);
    }
  }

  lemma RootIsSafe()
    ensures SafePart("root")
  {
  }

  /** Components without slashes can be read off the joined path, so the string says all that the components say. */
  lemma {:induction false} SplitJoin(parts: seq<string>)
    requires parts != [] && forall p | p in parts :: '/' !in p
    ensures JsonPointer.Split(Join(parts)) == parts
  {
    assert parts[0] in parts;
    if |parts| == 1 {
      SplitPlain(parts[0]);
    } else {
      assert forall p | p in parts[1..] :: p in parts;
      SplitJoin(parts[1..]);
      SplitAfter(parts[0], Join(parts[1..]));
    }
  }

  lemma {:induction false} SplitPlain(s: string)
    requires '/' !in s
    ensures JsonPointer.Split(s) == [s]
  {
    if s != "" {
      assert forall c | c in s[1..] :: c in s;
      SplitPlain(s[1..]);
      assert [s[0]] + s[1..] == s && s[0] in s;
    }
  }

  lemma {:induction false} SplitAfter(a: string, b: string)
    requires '/' !in a
    ensures JsonPointer.Split(a + "/" + b) == [a] + JsonPointer.Split(b)
  {
    var s := a + "/" + b;
    if a == "" {
      assert s[0] == '/' && s[1..] == b;
    } else {
      assert s[0] == a[0] && s[1..] == a[1..] + "/" + b && a[0] in a;
      assert forall c | c in a[1..] :: c in a;
      SplitAfter(a[1..], b);
      assert [a[0]] + a[1..] == a;
    }
  }

  // ---- the encoding, letter by letter ----

  /** Three bytes, read as one number, are four digits to the base 64; what is left at the end is padded with zero bits. */
  lemma EncodeExactly(a: char, b: char, c: char, rest: string)
    requires Bytes([a, b, c]) && Bytes(rest)
    ensures Bytes([a, b, c] + rest) && Bytes([a]) && Bytes([a, b])
    ensures var n, e := 65536 * a as int + 256 * b as int + c as int, Encode([a, b, c] + rest);
            && e[4..] == Encode(rest)
            && e[0] == Symbol(n / 262144) && e[1] == Symbol(n / 4096 % 64) && e[2] == Symbol(n / 64 % 64) && e[3] == Symbol(n % 64)
    ensures Encode([a]) == [Symbol(a as int * 16 / 64), Symbol(a as int * 16 % 64)]
    ensures var n := 1024 * a as int + 4 * b as int;
            Encode([a, b]) == [Symbol(n / 4096), Symbol(n / 64 % 64), Symbol(n % 64)]
  {
    hide Symbol;
    BytesJoin([a, b, c], rest);
    FirstThree(a, b, c, rest);
    DigitsOf(a as int, b as int, c as int);
  }

  lemma BytesJoin(x: string, y: string)
    requires Bytes(x) && Bytes(y)
    ensures Bytes(x + y)
  {
  }

  lemma FirstThree(a: char, b: char, c: char, rest: string)
    requires Bytes([a, b, c]) && Bytes([a, b, c] + rest)
    ensures a as int < 256 && b as int < 256 && c as int < 256 && Bytes([a]) && Bytes([a, b]) && Bytes(rest)
    ensures Encode([a, b, c] + rest) ==
            [Symbol(a as int / 4), Symbol(a as int % 4 * 16 + b as int / 16), Symbol(b as int % 16 * 4 + c as int / 64),
             Symbol(c as int % 64)] + Encode(rest)
    ensures Encode([a]) == [Symbol(a as int / 4), Symbol(a as int % 4 * 16)]
    ensures Encode([a, b]) == [Symbol(a as int / 4), Symbol(a as int % 4 * 16 + b as int / 16), Symbol(b as int % 16 * 4)]
  {
    hide Symbol;
    assert [a, b, c][0] == a && [a, b, c][1] == b && [a, b, c][2] == c && [a, b][0] == a && [a, b][1] == b && [a][0] == a;
    assert ([a, b, c] + rest)[3..] == rest;
  }

  lemma Divides(n: nat, q: nat, r: nat, d: nat)
    requires n == q * d + r && r < d
    ensures n / d == q && n % d == r
  {
    Scaled(n / d + 1, q, d);
    Scaled(q + 1, n / d, d);
  }

  lemma Scaled(x: nat, y: nat, d: nat)
    ensures x <= y ==> x * d <= y * d
  {
  }

  lemma DigitsOf(a: nat, b: nat, c: nat)
    requires a < 256 && b < 256 && c < 256
    ensures var n := 65536 * a + 256 * b + c;
            n / 262144 == a / 4 && n / 4096 % 64 == a % 4 * 16 + b / 16 && n / 64 % 64 == b % 16 * 4 + c / 64 && n % 64 == c % 64
    ensures a * 16 / 64 == a / 4 && a * 16 % 64 == a % 4 * 16
    ensures var n := 1024 * a + 4 * b;
            n / 4096 == a / 4 && n / 64 % 64 == a % 4 * 16 + b / 16 && n % 64 == b % 16 * 4
  {
    var p, q, r, t := a / 4, a % 4 * 16 + b / 16, b % 16 * 4 + c / 64, c % 64;
    var n, m := 65536 * a + 256 * b + c, 1024 * a + 4 * b;
    assert n == ((p * 64 + q) * 64 + r) * 64 + t && m == (p * 64 + q) * 64 + b % 16 * 4;
    Divides(n, (p * 64 + q) * 64 + r, t, 64);
    Divides((p * 64 + q) * 64 + r, p * 64 + q, r, 64);
    Divides(p * 64 + q, p, q, 64);
    Divides(n, p * 64 + q, r * 64 + t, 4096);
    Divides(n, p, (q * 64 + r) * 64 + t, 262144);
    Divides(m, p * 64 + q, b % 16 * 4, 64);
    Divides(m, p, q * 64 + b % 16 * 4, 4096);
    Divides(a * 16, p, a % 4 * 16, 64);
  }

  /** A short name is one component; a long one is its length and then its pieces of 118 letters, the last as long as what is
  left. */
  lemma ComponentExactly(name: string)
    requires Bytes(name)
    ensures var e := Encode(name);
            if |e| <= 118 then Component(name) == ["x-" + e]
            else
              && |Component(name)| == 1 + (|e| + 117) / 118 && Component(name)[0] == "long-" + Itoa(|e|)
              && forall i | 1 <= i < |Component(name)| ::
                   Component(name)[i] == "x-" + e[118 * (i - 1)..if 118 * i < |e| then 118 * i else |e|]
  {
    var e := Encode(name);
    if |e| > 118 {
      forall i | 1 <= i < |Component(name)|
        ensures Component(name)[i] == "x-" + e[118 * (i - 1)..if 118 * i < |e| then 118 * i else |e|]
      {
        ChunksAt(e, i - 1);
      }
    }
  }

  lemma {:induction false} ChunksAt(e: string, i: nat)
    requires i < |Chunks(e)|
    ensures 118 * i < |e| && Chunks(e)[i] == "x-" + e[118 * i..if 118 * (i + 1) < |e| then 118 * (i + 1) else |e|]
  {
    if |e| <= CHUNK {
      assert e[0..|e|] == e;
    } else if i > 0 {
      ChunksAt(e[CHUNK..], i - 1);
      var till := if 118 * (i + 1) < |e| then 118 * (i + 1) else |e|;
      assert e[CHUNK..][118 * (i - 1)..till - CHUNK] == e[118 * i..till];
    }
  }

  /** A path is one name after the other; the run's own is "root". */
  lemma PathExactly(key: string)
    requires Bytes(key)
    ensures key == "" ==> Path(key) == ["root"]
    ensures key != "" && '/' !in key ==> Path(key) == Component(key)
  {
    if key != "" && '/' !in key {
      JsonPointer.SplitFirst(key, "");
      assert [key][..0] == [] && Names([]) == [];
    }
  }
}
