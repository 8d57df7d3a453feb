/** JSON trees and URI-fragment JSON Pointers (RFC 6901, sections 3, 4 and 6).

A JSON object is unordered, so its members are a map. A fragment is percent-decoded first and split
afterwards; characters stand for bytes. */
module JsonPointer {
  import opened Wrappers

  datatype Json =
    | Obj(fields: map<string, Json>)
    | Arr(items: seq<Json>)
    | Str(text: string)
    | Scalar(literal: string) // numbers, booleans and null

  function HexValue(c: char): Option<nat> {
    if '0' <= c <= '9' then Some((c - '0') as nat)
    else if 'a' <= c <= 'f' then Some((c - 'a') as nat + 10)
    else if 'A' <= c <= 'F' then Some((c - 'A') as nat + 10)
    else None
  }

  function PercentDecode(s: string): Option<string> {
    if s == "" then Some("")
    else if s[0] != '%' then
      match PercentDecode(s[1..])
      case Some(rest) => Some([s[0]] + rest)
      case None => None
    else if |s| < 3 then None
    else
      match (HexValue(s[1]), HexValue(s[2]), PercentDecode(s[3..]))
      case (Some(h), Some(l), Some(rest)) => Some([(16 * h + l) as char] + rest)
      case _ => None
  }

  function Split(s: string): (parts: seq<string>)
    ensures |parts| >= 1
  {
    if s == "" then [""]
    else
      var rest := Split(s[1..]);
      if s[0] == '/' then [""] + rest else [[s[0]] + rest[0]] + rest[1..]
  }

  /** "~1" stands for "/" and "~0" for "~"; any other "~" is an error. */
  function Unescape(s: string): Option<string> {
    if s == "" then Some("")
    else if s[0] != '~' then
      match Unescape(s[1..])
      case Some(rest) => Some([s[0]] + rest)
      case None => None
    else if |s| >= 2 && s[1] in "01" then
      match Unescape(s[2..])
      case Some(rest) => Some([if s[1] == '1' then '/' else '~'] + rest)
      case None => None
    else None
  }

  function UnescapeAll(parts: seq<string>): Option<seq<string>> {
    if parts == [] then Some([])
    else
      match (Unescape(parts[0]), UnescapeAll(parts[1..]))
      case (Some(t), Some(rest)) => Some([t] + rest)
      case _ => None
  }

  function PointerTokens(pointer: string): Option<seq<string>> {
    if pointer == "" then Some([])
    else if pointer[0] == '/' then UnescapeAll(Split(pointer[1..]))
    else None
  }

  /** The reference tokens of a local reference "#...", or None if it is no JSON Pointer. */
  function RefTokens(ref: string): Option<seq<string>> {
    if ref == "" || ref[0] != '#' then None
    else
      match PercentDecode(ref[1..])
      case Some(pointer) => PointerTokens(pointer)
      case None => None
  }

  /** An array index has no leading zeros. */
  function IndexValue(token: string): Option<nat> {
    if token == "" || (token[0] == '0' && |token| > 1) then None else DigitsValue(token)
  }

  function DigitsValue(token: string): Option<nat> {
    if token == "" then Some(0)
    else
      var last := token[|token| - 1];
      match DigitsValue(token[..|token| - 1])
      case Some(n) => if '0' <= last <= '9' then Some(10 * n + (last - '0') as nat) else None
      case None => None
  }

  function Child(v: Json, token: string): Option<Json> {
    match v
    case Obj(fields) => if token in fields then Some(fields[token]) else None
    case Arr(items) =>
      (match IndexValue(token)
       case Some(i) => if i < |items| then Some(items[i]) else None
       case None => None)
    case _ => None
  }

  function Resolve(v: Json, tokens: seq<string>): Option<Json> {
    if tokens == [] then Some(v)
    else
      match Child(v, tokens[0])
      case Some(next) => Resolve(next, tokens[1..])
      case None => None
  }

  ghost predicate Plain(s: string) {
    forall i | 0 <= i < |s| :: s[i] != '%' && s[i] != '/' && s[i] != '~'
  }

  lemma {:induction false} DecodePrefix(a: string, b: string)
    requires forall i | 0 <= i < |a| :: a[i] != '%'
    ensures PercentDecode(a + b) ==
            match PercentDecode(b) case Some(rest) => Some(a + rest) case None => None
  {
    if a == "" {
      assert a + b == b;
      match PercentDecode(b) { case Some(rest) => assert a + rest == rest; case None => }
    } else {
      DecodePrefix(a[1..], b);
      assert (a + b)[1..] == a[1..] + b && (a + b)[0] == a[0];
      match PercentDecode(b) {
        case Some(rest) => assert [a[0]] + (a[1..] + rest) == a + rest;
        case None =>
      }
    }
  }

  lemma {:induction false} SplitFirst(a: string, b: string)
    requires forall i | 0 <= i < |a| :: a[i] != '/'
    ensures Split(a + "/" + b) == [a] + Split(b)
    ensures Split(a) == [a]
  {
    if a == "" {
      assert a + "/" + b == "/" + b && ("/" + b)[1..] == b;
    } else {
      SplitFirst(a[1..], b);
      assert (a + "/" + b)[1..] == a[1..] + "/" + b && (a + "/" + b)[0] == a[0];
      assert [a[0]] + a[1..] == a;
      assert ([a[1..]] + Split(b))[1..] == Split(b);
    }
  }

  lemma {:induction false} UnescapePlain(a: string)
    requires Plain(a)
    ensures Unescape(a) == Some(a)
  {
    if a != "" {
      UnescapePlain(a[1..]);
      assert [a[0]] + a[1..] == a;
    }
  }

  lemma PrependToken(a: string, d: string)
    requires Plain(a) && (d == "" || d[0] == '/')
    ensures PointerTokens("/" + a + d) ==
            match PointerTokens(d) case Some(t) => Some([a] + t) case None => None
  {
    assert ("/" + a + d)[1..] == a + d;
    UnescapePlain(a);
    if d == "" {
      assert a + d == a;
      SplitFirst(a, "");
      assert [a][1..] == [] && UnescapeAll([a][1..]) == Some([]) && [a] + [] == [a];
      assert "/" + a + d == "/" + a;
      assert UnescapeAll([a]) == Some([a]);
    } else {
      assert a + d == a + "/" + d[1..];
      SplitFirst(a, d[1..]);
      assert ([a] + Split(d[1..]))[1..] == Split(d[1..]);
    }
  }

  /** A plain token put before a pointer becomes the first token of the longer pointer. */
  lemma PrependRef(a: string, rest: string)
    requires Plain(a) && (rest == "" || rest[0] == '/')
    ensures RefTokens("#/" + a + rest) ==
            match RefTokens("#" + rest) case Some(t) => Some([a] + t) case None => None
  {
    assert ("#/" + a + rest)[1..] == ("/" + a) + rest;
    assert ("#" + rest)[1..] == rest;
    DecodePrefix("/" + a, rest);
    match PercentDecode(rest) {
      case None =>
      case Some(d) =>
        if rest != "" {
          match PercentDecode(rest[1..]) { case Some(e) => assert d == ['/'] + e; case None => }
        }
        PrependToken(a, d);
    }
  }
}
