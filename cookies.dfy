/** `getCookie(name)`: the first `name=value` entry of `document.cookie`,
    percent-decoded. */
module Cookies {
  import opened Wrappers

  /** What `getCookie` yields: `null`, a decoded string, or a URIError thrown
      by `decodeURIComponent`. */
  datatype CookieValue = NoCookie | CookieFound(value: string) | DecodeThrows

  // ---------------------------------------------------------------------------
  // `String.prototype.split(';')`

  /** The pieces between semicolons; there is always at least one. */
  function Split(s: string): (parts: seq<string>)
    ensures |parts| >= 1
    decreases |s|
  {
    if |s| == 0 then [""]
    else
      var rest := Split(s[1..]);
      if s[0] == ';' then [""] + rest else [[s[0]] + rest[0]] + rest[1..]
  }

  /** `Array.prototype.join(';')`. */
  function Join(parts: seq<string>): string
    requires |parts| >= 1
    decreases |parts|
  {
    if |parts| == 1 then parts[0] else parts[0] + ";" + Join(parts[1..])
  }

  /** Splitting loses nothing: joining the pieces gives the cookie string back. */
  lemma {:induction false} SplitJoin(s: string)
    ensures Join(Split(s)) == s
    decreases |s|
  {
    if |s| > 0 {
      SplitJoin(s[1..]);
      var rest := Split(s[1..]);
      if s[0] == ';' {
        assert Split(s)[1..] == rest;
      } else if |rest| == 1 {
        assert Split(s) == [[s[0]] + rest[0]];
      } else {
        assert Split(s)[1..] == rest[1..];
        assert Join(rest) == rest[0] + ";" + Join(rest[1..]);
      }
    }
  }

  /** One step of `Split`, for a string given as its first character and the rest. */
  lemma SplitCons(c: char, t: string)
    ensures Split([c] + t) == if c == ';' then [""] + Split(t) else [[c] + Split(t)[0]] + Split(t)[1..]
  {
    assert ([c] + t)[0] == c;
    assert ([c] + t)[1..] == t;
  }

  /** A semicolon separates: the pieces of `a;b` are those of `a` followed by those of `b`. */
  lemma {:induction false} SplitAppend(a: string, b: string)
    ensures Split(a + ";" + b) == Split(a) + Split(b)
    decreases |a|
  {
    if |a| == 0 {
      assert a + ";" + b == [';'] + b;
      SplitCons(';', b);
    } else {
      SplitAppend(a[1..], b);
      if a[0] == ';' {
        SplitAppendAtSemicolon(a, b);
      } else {
        SplitAppendAtOther(a, b);
      }
    }
  }

  /** The step of `SplitAppend` when `a` starts with a semicolon. */
  lemma SplitAppendAtSemicolon(a: string, b: string)
    requires |a| > 0 && a[0] == ';'
    requires Split(a[1..] + ";" + b) == Split(a[1..]) + Split(b)
    ensures Split(a + ";" + b) == Split(a) + Split(b)
  {
    FirstCharacter(a, b);
    SplitCons(';', a[1..] + ";" + b);
    SplitCons(';', a[1..]);
    PrependEmptyPiece(Split(a[1..]), Split(b));
  }

  /** The step of `SplitAppend` when `a` starts with any other character. */
  lemma SplitAppendAtOther(a: string, b: string)
    requires |a| > 0 && a[0] != ';'
    requires Split(a[1..] + ";" + b) == Split(a[1..]) + Split(b)
    ensures Split(a + ";" + b) == Split(a) + Split(b)
  {
    FirstCharacter(a, b);
    SplitCons(a[0], a[1..] + ";" + b);
    SplitCons(a[0], a[1..]);
    ExtendFirstPiece(a[0], Split(a[1..]), Split(b));
  }

  lemma FirstCharacter(a: string, b: string)
    requires |a| > 0
    ensures a == [a[0]] + a[1..]
    ensures a + ";" + b == [a[0]] + (a[1..] + ";" + b)
  {
  }

  lemma PrependEmptyPiece(head: seq<string>, tail: seq<string>)
    ensures [""] + (head + tail) == ([""] + head) + tail
  {
  }

  /** Prefixing a character to the first piece commutes with appending more pieces. */
  lemma ExtendFirstPiece(c: char, head: seq<string>, tail: seq<string>)
    requires |head| >= 1
    ensures [[c] + (head + tail)[0]] + (head + tail)[1..] == ([[c] + head[0]] + head[1..]) + tail
  {
    assert (head + tail)[0] == head[0];
    assert (head + tail)[1..] == head[1..] + tail;
  }

  // ---------------------------------------------------------------------------
  // `String.prototype.trim()`

  /** The characters JavaScript's `trim` removes: WhiteSpace and LineTerminator. */
  predicate IsJsSpace(c: char)
  {
    c == '\t' || c == '\n' || c == '\U{000B}' || c == '\U{000C}' || c == '\r' || c == ' '
    || c == '\U{00A0}' || c == '\U{1680}' || ('\U{2000}' <= c <= '\U{200A}')
    || c == '\U{2028}' || c == '\U{2029}' || c == '\U{202F}' || c == '\U{205F}'
    || c == '\U{3000}' || c == '\U{FEFF}'
  }

  function TrimStart(s: string): string
    decreases |s|
  {
    if |s| > 0 && IsJsSpace(s[0]) then TrimStart(s[1..]) else s
  }

  function TrimEnd(s: string): string
    decreases |s|
  {
    if |s| > 0 && IsJsSpace(s[|s| - 1]) then TrimEnd(s[..|s| - 1]) else s
  }

  /** `String.prototype.trim()`. */
  function Trim(s: string): string
  {
    TrimEnd(TrimStart(s))
  }

  /** `TrimStart` drops a prefix made only of spaces, and what is left does
      not start with a space. */
  lemma {:induction false} TrimStartCutsSpaces(s: string)
    ensures |TrimStart(s)| <= |s| && TrimStart(s) == s[|s| - |TrimStart(s)|..]
    ensures |TrimStart(s)| > 0 ==> !IsJsSpace(TrimStart(s)[0])
    ensures forall i :: 0 <= i < |s| - |TrimStart(s)| ==> IsJsSpace(s[i])
    decreases |s|
  {
    if |s| > 0 && IsJsSpace(s[0]) {
      TrimStartCutsSpaces(s[1..]);
    }
  }

  /** `TrimEnd` drops a suffix made only of spaces, and what is left does
      not end with a space. */
  lemma {:induction false} TrimEndCutsSpaces(s: string)
    ensures |TrimEnd(s)| <= |s| && TrimEnd(s) == s[..|TrimEnd(s)|]
    ensures |TrimEnd(s)| > 0 ==> !IsJsSpace(TrimEnd(s)[|TrimEnd(s)| - 1])
    ensures forall i :: |TrimEnd(s)| <= i < |s| ==> IsJsSpace(s[i])
    decreases |s|
  {
    if |s| > 0 && IsJsSpace(s[|s| - 1]) {
      TrimEndCutsSpaces(s[..|s| - 1]);
    }
  }

  /** `Trim(s)` is the slice of `s` between its leading and its trailing
      white space: everything cut is a space, and the result neither starts
      nor ends with one. */
  lemma TrimIsMiddle(s: string)
    ensures var lo := |s| - |TrimStart(s)|;
      && 0 <= lo && lo + |Trim(s)| <= |s|
      && Trim(s) == s[lo..lo + |Trim(s)|]
      && (forall i :: 0 <= i < lo ==> IsJsSpace(s[i]))
      && (forall i :: lo + |Trim(s)| <= i < |s| ==> IsJsSpace(s[i]))
      && (|Trim(s)| > 0 ==> !IsJsSpace(Trim(s)[0]) && !IsJsSpace(Trim(s)[|Trim(s)| - 1]))
  {
    var lo := |s| - |TrimStart(s)|;
    TrimStartCutsSpaces(s);
    TrimEndCutsSpaces(TrimStart(s));
    var t := TrimStart(s);
    assert forall i :: |Trim(s)| <= i < |t| ==> t[i] == s[lo + i];
  }

  // ---------------------------------------------------------------------------
  // Looking up one name

  /** `cookie.substring(0, name.length + 1) === name + '='`. */
  predicate Matches(entry: string, name: string)
  {
    |entry| >= |name| + 1 && entry[..|name| + 1] == name + "="
  }

  /** `decodeURIComponent(cookie.substring(name.length + 1))`. */
  function DecodeValue(entry: string, name: string, decode: string -> Option<string>): CookieValue
    requires Matches(entry, name)
  {
    match decode(entry[|name| + 1..])
    case Some(v) => CookieFound(v)
    case None => DecodeThrows
  }

  /** The value of the first entry, after trimming, that starts with `name=`. */
  function FirstMatch(entries: seq<string>, name: string, decode: string -> Option<string>): CookieValue
    decreases |entries|
  {
    if |entries| == 0 then NoCookie
    else if Matches(Trim(entries[0]), name) then DecodeValue(Trim(entries[0]), name, decode)
    else FirstMatch(entries[1..], name, decode)
  }

  /** What `getCookie(name)` returns for the cookie string `cookie`. */
  function CookieOf(cookie: string, name: string, decode: string -> Option<string>): CookieValue
  {
    if cookie == "" then NoCookie else FirstMatch(Split(cookie), name, decode)
  }

  /** `getCookie(name)`: scans the entries in order and stops at the first match. */
  method GetCookie(cookie: string, name: string, decode: string -> Option<string>) returns (v: CookieValue)
    ensures v == CookieOf(cookie, name, decode)
  {
    v := NoCookie;
    if cookie != "" {
      var cookies := Split(cookie);
      var i := 0;
      while i < |cookies|
        invariant 0 <= i <= |cookies|
        invariant FirstMatch(cookies, name, decode) == FirstMatch(cookies[i..], name, decode)
        decreases |cookies| - i
      {
        var entry := Trim(cookies[i]);
        if Matches(entry, name) {
          match decode(entry[|name| + 1..]) {
            case Some(s) => v := CookieFound(s);
            case None => v := DecodeThrows;
          }
          break;
        }
        assert cookies[i..][1..] == cookies[i + 1..];
        i := i + 1;
      }
    }
  }

  // ---------------------------------------------------------------------------
  // Properties

  /** The first matching entry decides; every entry before it is skipped. */
  lemma {:induction false} FirstMatchAt(entries: seq<string>, j: nat, name: string, decode: string -> Option<string>)
    requires j < |entries| && Matches(Trim(entries[j]), name)
    requires forall k :: 0 <= k < j ==> !Matches(Trim(entries[k]), name)
    ensures FirstMatch(entries, name, decode) == DecodeValue(Trim(entries[j]), name, decode)
    decreases j
  {
    if j > 0 {
      assert !Matches(Trim(entries[0]), name);
      assert forall k :: 0 <= k < j - 1 ==> entries[1..][k] == entries[k + 1];
      FirstMatchAt(entries[1..], j - 1, name, decode);
    }
  }

  /** With no matching entry the result is `null`. */
  lemma {:induction false} NoMatchIsNull(entries: seq<string>, name: string, decode: string -> Option<string>)
    requires forall k :: 0 <= k < |entries| ==> !Matches(Trim(entries[k]), name)
    ensures FirstMatch(entries, name, decode) == NoCookie
    decreases |entries|
  {
    if |entries| > 0 {
      assert forall k :: 0 <= k < |entries| - 1 ==> entries[1..][k] == entries[k + 1];
      NoMatchIsNull(entries[1..], name, decode);
    }
  }

  /** Entries after a match are never looked at: in `a;b`, a name set in
      `a` hides the same name in `b`, and otherwise `b` decides. */
  lemma {:induction false} EarlierEntryWins(a: string, b: string, name: string, decode: string -> Option<string>)
    ensures CookieOf(a + ";" + b, name, decode)
      == if FirstMatch(Split(a), name, decode) != NoCookie then FirstMatch(Split(a), name, decode)
         else FirstMatch(Split(b), name, decode)
  {
    assert a + ";" + b != "" by {
      assert (a + ";" + b)[|a|] == ';';
    }
    SplitAppend(a, b);
    FirstMatchAppend(Split(a), Split(b), name, decode);
  }

  lemma {:induction false} FirstMatchAppend(e1: seq<string>, e2: seq<string>, name: string, decode: string -> Option<string>)
    ensures FirstMatch(e1 + e2, name, decode)
      == if FirstMatch(e1, name, decode) != NoCookie then FirstMatch(e1, name, decode) else FirstMatch(e2, name, decode)
    decreases |e1|
  {
    if |e1| == 0 {
      assert e1 + e2 == e2;
    } else {
      assert (e1 + e2)[0] == e1[0];
      assert (e1 + e2)[1..] == e1[1..] + e2;
      FirstMatchAppend(e1[1..], e2, name, decode);
    }
  }

  /** Only an exact name followed by `=` matches: a longer name that merely
      starts with `name` does not. */
  lemma LongerNameDoesNotMatch(entry: string, name: string, c: char)
    requires c != '=' && |entry| > |name| && entry[..|name| + 1] == name + [c]
    ensures !Matches(entry, name)
  {
    assert (name + [c])[|name|] == c;
    assert (name + "=")[|name|] == '=';
  }

  /** The empty-string guard changes nothing: the empty cookie string splits
      into one empty entry, which matches no name. */
  lemma EmptyGuardIsRedundant(cookie: string, name: string, decode: string -> Option<string>)
    ensures CookieOf(cookie, name, decode) == FirstMatch(Split(cookie), name, decode)
  {
    if cookie == "" {
      assert Split(cookie) == [""];
      assert Trim("") == "";
      assert FirstMatch([""][1..], name, decode) == NoCookie;
    }
  }
}
