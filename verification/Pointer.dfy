/** JSON Pointer printing and parsing as the change engine does it. */
module Pointer {
  import opened Prelude

  /** `strings.ReplaceAll` for a non-empty pattern: leftmost, non-overlapping. */
  function ReplaceAll(s: string, pattern: string, replacement: string): string
    requires pattern != []
    decreases |s|
  {
    if |s| < |pattern| then s
    else if s[..|pattern|] == pattern then replacement + ReplaceAll(s[|pattern|..], pattern, replacement)
    else [s[0]] + ReplaceAll(s[1..], pattern, replacement)
  }

  function EscapeToken(key: string): string {
    ReplaceAll(ReplaceAll(key, "~", "~0"), "/", "~1")
  }

  function UnescapeToken(part: string): string {
    ReplaceAll(ReplaceAll(part, "~1", "/"), "~0", "~")
  }

  function HexValue(c: char): Option<int> {
    if '0' <= c <= '9' then Some(c as int - '0' as int)
    else if 'a' <= c <= 'f' then Some(c as int - 'a' as int + 10)
    else if 'A' <= c <= 'F' then Some(c as int - 'A' as int + 10)
    else None
  }

  /** `url.PathUnescape`: `%` must be followed by two hexadecimal digits. */
  function PathUnescape(s: string): Option<string>
    decreases |s|
  {
    if s == [] then Some([])
    else if s[0] == '%' then
      if |s| < 3 || HexValue(s[1]).None? || HexValue(s[2]).None? then None
      else
        match PathUnescape(s[3..])
        case None => None
        case Some(rest) => Some([DecodedByte(s[1], s[2])] + rest)
    else
      match PathUnescape(s[1..])
      case None => None
      case Some(rest) => Some([s[0]] + rest)
  }

  function DecodedByte(high: char, low: char): char
    requires HexValue(high).Some? && HexValue(low).Some?
  {
    (HexValue(high).value * 16 + HexValue(low).value) as char
  }

  /** `strings.Split(s, "/")`: always at least one part. */
  function SplitSlash(s: string): (parts: seq<string>)
    ensures parts != []
    decreases |s|
  {
    if s == [] then [[]]
    else
      var rest := SplitSlash(s[1..]);
      if s[0] == '/' then [[]] + rest
      else [[s[0]] + rest[0]] + rest[1..]
  }

  function DecodePart(part: string): Option<string> {
    PathUnescape(UnescapeToken(part))
  }

  function DecodeParts(parts: seq<string>): Option<seq<string>> {
    if parts == [] then Some([])
    else
      match DecodePart(parts[0])
      case None => None
      case Some(key) =>
        match DecodeParts(parts[1..])
        case None => None
        case Some(keys) => Some([key] + keys)
  }

  function After(parts: seq<string>, decoded: Option<seq<string>>): Option<seq<string>> {
    match decoded
    case None => None
    case Some(rest) => Some(parts + rest)
  }

  /** What `splitJSONPointer` computes: None for any of its errors. */
  function ParsePointer(path: string): Option<seq<string>> {
    if path == [] || path[0] != '/' then None
    else DecodeParts(SplitSlash(path[1..]))
  }

  /** `splitJSONPointer`, with its loop. */
  method SplitJSONPointer(path: string) returns (parsed: Option<seq<string>>)
    ensures parsed == ParsePointer(path)
  {
    if path == [] || path[0] != '/' {
      return None;
    }
    var raw := SplitSlash(path[1..]);
    var parts: seq<string> := [];
    var i := 0;
    assert raw[0..] == raw;
    assert DecodeParts(raw).Some? ==> [] + DecodeParts(raw).value == DecodeParts(raw).value;
    while i < |raw|
      invariant 0 <= i <= |raw|
      invariant DecodeParts(raw) == After(parts, DecodeParts(raw[i..]))
    {
      var part := ReplaceAll(ReplaceAll(raw[i], "~1", "/"), "~0", "~");
      var unescaped := PathUnescape(part);
      assert unescaped == DecodePart(raw[i]) && raw[i..][0] == raw[i] && raw[i..][1..] == raw[i + 1..];
      if unescaped.None? {
        return None;
      }
      ghost var rest := DecodeParts(raw[i + 1..]);
      assert rest.Some? ==> parts + ([unescaped.value] + rest.value) == parts + [unescaped.value] + rest.value;
      parts := parts + [unescaped.value];
      i := i + 1;
    }
    assert raw[i..] == [] && parts + [] == parts;
    return Some(parts);
  }

  /** The path `diffJSON` builds for a list of keys. */
  function PrintPointer(keys: seq<string>): string {
    if keys == [] then [] else "/" + EscapeToken(keys[0]) + PrintPointer(keys[1..])
  }

  function EscapeAll(keys: seq<string>): seq<string> {
    if keys == [] then [] else [EscapeToken(keys[0])] + EscapeAll(keys[1..])
  }

  predicate PercentFree(keys: seq<string>) {
    forall k | k in keys :: '%' !in k
  }

  // ---- one token ----

  /** The token of a key, character by character. */
  function Token(key: string): string {
    if key == [] then []
    else (if key[0] == '~' then "~0" else if key[0] == '/' then "~1" else [key[0]]) + Token(key[1..])
  }

  /** Half of the unescaping: slashes restored, tildes still printed as "~0". */
  function HalfToken(key: string): string {
    if key == [] then []
    else (if key[0] == '~' then "~0" else [key[0]]) + HalfToken(key[1..])
  }

  lemma {:induction false} EscapeIsToken(key: string)
    ensures EscapeToken(key) == Token(key)
    ensures ReplaceAll(key, "~", "~0") == HalfToken(key)
  {
    if key != [] {
      EscapeIsToken(key[1..]);
      var half := HalfToken(key[1..]);
      assert key[..1] == "~" <==> key[0] == '~';
      if key[0] == '~' {
        var s := "~0" + half;
        assert s[..1] == "~" && s[1..] == "0" + half;
        assert ("0" + half)[..1] == "0" && ("0" + half)[1..] == half;
        assert ReplaceAll(s, "/", "~1") == "~" + ReplaceAll("0" + half, "/", "~1");
        assert ReplaceAll("0" + half, "/", "~1") == "0" + ReplaceAll(half, "/", "~1");
        assert HalfToken(key) == s;
      } else {
        var s := [key[0]] + half;
        assert s[..1] == "/" <==> key[0] == '/';
        assert s[1..] == half;
        assert HalfToken(key) == s;
      }
    }
  }

  lemma {:induction false} TokenHalves(key: string)
    ensures ReplaceAll(Token(key), "~1", "/") == HalfToken(key)
  {
    if key != [] {
      TokenHalves(key[1..]);
      var rest := Token(key[1..]);
      if key[0] == '~' {
        var s := "~0" + rest;
        assert s[..2] == "~0" && s[1..] == "0" + rest;
        var t := "0" + rest;
        assert t[1..] == rest;
        assert |t| >= 2 ==> t[..2][0] == '0';
        assert rest == [] ==> ReplaceAll(t, "~1", "/") == t;
        assert ReplaceAll(t, "~1", "/") == "0" + ReplaceAll(rest, "~1", "/");
      } else if key[0] == '/' {
        var s := "~1" + rest;
        assert s[..2] == "~1" && s[2..] == rest;
      } else {
        var s := [key[0]] + rest;
        assert s[1..] == rest;
        assert |s| >= 2 ==> s[..2][0] == key[0];
        assert rest == [] ==> ReplaceAll(s, "~1", "/") == s;
      }
    }
  }

  lemma {:induction false} HalfTokenUnescapes(key: string)
    ensures ReplaceAll(HalfToken(key), "~0", "~") == key
  {
    if key != [] {
      HalfTokenUnescapes(key[1..]);
      var rest := HalfToken(key[1..]);
      assert key == [key[0]] + key[1..];
      if key[0] == '~' {
        var s := "~0" + rest;
        assert s[..2] == "~0" && s[2..] == rest;
      } else {
        var s := [key[0]] + rest;
        assert s[1..] == rest;
        assert |s| >= 2 ==> s[..2][0] == key[0];
        assert rest == [] ==> ReplaceAll(s, "~0", "~") == s;
      }
    }
  }

  /** Escaping and unescaping one token undo each other, for keys such as "~01" and "a/~" too. */
  lemma TokenRoundTrip(key: string)
    ensures UnescapeToken(EscapeToken(key)) == key
  {
    EscapeIsToken(key);
    TokenHalves(key);
    HalfTokenUnescapes(key);
  }

  lemma {:induction false} PathUnescapeShrinks(s: string)
    ensures PathUnescape(s).Some? ==> |PathUnescape(s).value| <= |s|
    ensures PathUnescape(s).Some? && |PathUnescape(s).value| == |s| ==> '%' !in s
    ensures '%' !in s ==> PathUnescape(s) == Some(s)
  {
    if s != [] {
      if s[0] == '%' {
        if |s| >= 3 { PathUnescapeShrinks(s[3..]); }
      } else {
        PathUnescapeShrinks(s[1..]);
        assert s == [s[0]] + s[1..];
      }
    }
  }

  lemma DecodePrintedPart(key: string)
    ensures DecodePart(EscapeToken(key)) == Some(key) <==> '%' !in key
  {
    TokenRoundTrip(key);
    PathUnescapeShrinks(key);
  }

  // ---- whole paths ----

  lemma {:induction false} TokenHasNoSlash(key: string)
    ensures '/' !in Token(key)
  {
    if key != [] { TokenHasNoSlash(key[1..]); }
  }

  lemma {:induction false} SplitAtSlash(token: string, rest: string)
    requires '/' !in token
    ensures SplitSlash(token) == [token]
    ensures SplitSlash(token + "/" + rest) == [token] + SplitSlash(rest)
  {
    if token == [] {
      assert token + "/" + rest == "/" + rest;
      assert ("/" + rest)[1..] == rest;
    } else {
      SplitAtSlash(token[1..], rest);
      var s := token + "/" + rest;
      assert s[1..] == token[1..] + "/" + rest;
      assert token == [token[0]] + token[1..];
    }
  }

  lemma {:induction false} SplitPrinted(keys: seq<string>)
    requires keys != []
    ensures SplitSlash(PrintPointer(keys)[1..]) == EscapeAll(keys)
  {
    hide EscapeToken, Token;
    var token := EscapeToken(keys[0]);
    EscapeIsToken(keys[0]);
    TokenHasNoSlash(keys[0]);
    var tail := keys[1..];
    var printed := PrintPointer(keys);
    assert printed[1..] == token + PrintPointer(tail);
    if tail == [] {
      SplitAtSlash(token, []);
      assert printed[1..] == token;
    } else {
      SplitPrinted(tail);
      var more := PrintPointer(tail);
      assert more == "/" + more[1..];
      assert printed[1..] == token + "/" + more[1..];
      SplitAtSlash(token, more[1..]);
    }
  }

  lemma {:induction false} DecodePrintedParts(keys: seq<string>)
    ensures DecodeParts(EscapeAll(keys)) == Some(keys) <==> PercentFree(keys)
  {
    if keys != [] {
      DecodePrintedPart(keys[0]);
      DecodePrintedParts(keys[1..]);
      var parts := EscapeAll(keys);
      assert parts[0] == EscapeToken(keys[0]) && parts[1..] == EscapeAll(keys[1..]);
      assert keys == [keys[0]] + keys[1..];
      assert keys[0] in keys && forall k | k in keys :: k == keys[0] || k in keys[1..];
      assert PercentFree(keys) <==> '%' !in keys[0] && PercentFree(keys[1..]);
      var decoded := DecodeParts(parts);
      if decoded.Some? {
        assert decoded.value[0] == DecodePart(parts[0]).value;
        assert decoded.value[1..] == DecodeParts(parts[1..]).value;
      }
    }
  }

  lemma {:induction false} TokenPercent(key: string)
    ensures '%' in Token(key) <==> '%' in key
  {
    if key != [] { TokenPercent(key[1..]); }
  }

  /** A printed path shows whether one of its keys contains '%'. */
  lemma {:induction false} PrintedPercent(keys: seq<string>)
    ensures '%' in PrintPointer(keys) <==> !PercentFree(keys)
  {
    if keys != [] {
      hide EscapeToken, Token;
      EscapeIsToken(keys[0]);
      TokenPercent(keys[0]);
      PrintedPercent(keys[1..]);
      assert forall k :: k in keys <==> k == keys[0] || k in keys[1..];
    }
  }

  /** Printing and parsing a non-empty key list undo each other exactly when no key contains '%'. */
  lemma PointerRoundTrip(keys: seq<string>)
    requires keys != []
    ensures ParsePointer(PrintPointer(keys)) == Some(keys) <==> PercentFree(keys)
  {
    SplitPrinted(keys);
    DecodePrintedParts(keys);
  }

  lemma PercentTokenIsMisread()
    ensures DecodePart(EscapeToken("%41")) == Some("A")
    ensures DecodePart(EscapeToken("x")) == Some("x")
  {
    var part := "%41";
    TokenRoundTrip(part);
    DecodePrintedPart("x");
    assert UnescapeToken(EscapeToken(part)) == part;
    assert part[3..] == [];
    assert PathUnescape(part) == Some("A") by {
      assert DecodedByte('4', '1') == 'A';
      assert PathUnescape([]) == Some([]);
      assert [DecodedByte('4', '1')] + [] == "A";
    }
  }

  lemma PrintedNotEmpty(keys: seq<string>)
    requires keys != []
    ensures PrintPointer(keys) != [] && PrintPointer(keys)[0] == '/'
  {
  }

  /** The extra percent-decoding makes the pointer of the keys "x" and "%41" name the keys "x" and "A". */
  lemma PercentPathIsMisread()
    ensures ParsePointer(PrintPointer(["x", "%41"])) == Some(["x", "A"])
  {
    hide EscapeToken, DecodePart, SplitSlash;
    var keys := ["x", "%41"];
    PrintedNotEmpty(keys);
    SplitPrinted(keys);
    PercentTokenIsMisread();
    assert keys[1..] == ["%41"] && ["%41"][1..] == [];
    var parts := EscapeAll(keys);
    assert parts == [EscapeToken("x"), EscapeToken("%41")];
    var last := [EscapeToken("%41")];
    assert parts[1..] == last && last[1..] == [];
    assert DecodeParts(last[1..]) == Some([]);
    assert DecodePart(last[0]) == Some("A");
    assert ["A"] + [] == ["A"];
    assert DecodeParts(last) == Some(["A"]);
    assert ["x"] + ["A"] == ["x", "A"];
  }
}
