/** String helpers and validators (frontend/src/utils/helpers.ts). */
module Helpers {
  import opened Common

  // ------------------------------------------------------------ truncateText

  /** Where `String.prototype.slice(0, end)` stops on a string of length
      `len`: a negative end counts back from the end of the string. */
  function SliceEnd(len: nat, end: int): (e: nat)
    ensures e <= len
  {
    if end < 0 then (if len + end < 0 then 0 else len + end)
    else if end > len then len else end
  }

  /** `truncateText`: "" for "", the text when it fits, otherwise the text
      cut at `maxLength` (a negative `maxLength` counts from the end, as
      `slice` does) followed by "...". */
  function TruncateText(text: string, maxLength: int): (r: string)
    ensures text == "" ==> r == ""
    ensures text != "" && |text| <= maxLength ==> r == text
    ensures r != text ==> |r| >= 3 && r[..|r| - 3] <= text && r[|r| - 3..] == "..."
    ensures maxLength >= 0 ==> |r| <= maxLength + 3
    ensures maxLength >= 0 && |text| > maxLength ==> r == text[..maxLength] + "..."
  {
    if text == "" then ""
    else if |text| <= maxLength then text
    else
      var cut := text[..SliceEnd(|text|, maxLength)];
      assert (cut + "...")[..|cut|] == cut;
      cut + "..."
  }

  // ------------------------------------------------------------- getInitials

  /** Index of the first `c` in `s`, or |s| when there is none. */
  function FirstIndexOf(s: string, c: char): (r: nat)
    ensures r <= |s|
    ensures r < |s| ==> s[r] == c
    ensures forall j :: 0 <= j < r ==> s[j] != c
  {
    if s == [] then 0
    else if s[0] == c then 0
    else 1 + FirstIndexOf(s[1..], c)
  }

  /** Index of the last `c` in `s`, or -1 when there is none. */
  function LastIndexOf(s: string, c: char): (r: int)
    ensures -1 <= r < |s|
    ensures r >= 0 ==> s[r] == c
    ensures forall j :: r < j < |s| ==> s[j] != c
  {
    if s == [] then -1
    else
      var rest := LastIndexOf(s[1..], c);
      if rest >= 0 then rest + 1
      else if s[0] == c then 0
      else -1
  }

  /** `String.prototype.split` on a one-character separator. */
  function Split(s: string, sep: char): (parts: seq<string>)
    ensures |parts| >= 1
    decreases |s|
  {
    if s == [] then [""]
    else
      var rest := Split(s[1..], sep);
      if s[0] == sep then [""] + rest
      else [[s[0]] + rest[0]] + rest[1..]
  }

  /** `Array.prototype.join` with a one-character separator. */
  function Join(parts: seq<string>, sep: char): string
    requires |parts| >= 1
  {
    if |parts| == 1 then parts[0] else parts[0] + [sep] + Join(parts[1..], sep)
  }

  /** Joining the pieces of a split gives the string back, and no piece
      holds the separator. */
  lemma {:induction false} SplitJoin(s: string, sep: char)
    ensures Join(Split(s, sep), sep) == s
    ensures forall i :: 0 <= i < |Split(s, sep)| ==> sep !in Split(s, sep)[i]
    decreases |s|
  {
    if s != [] {
      SplitJoin(s[1..], sep);
      var rest := Split(s[1..], sep);
      if s[0] == sep {
        assert ([""] + rest)[1..] == rest;
      } else {
        var parts := [[s[0]] + rest[0]] + rest[1..];
        if |rest| > 1 {
          assert parts[1..] == rest[1..];
          assert rest == [rest[0]] + rest[1..];
        }
      }
    }
  }

  /** A split yields one piece exactly when the separator does not occur. */
  lemma {:induction false} SplitSingle(s: string, sep: char)
    ensures |Split(s, sep)| == 1 <==> sep !in s
    decreases |s|
  {
    if s != [] {
      SplitSingle(s[1..], sep);
      assert s == [s[0]] + s[1..];
    }
  }

  /** The first piece of a split runs up to the first separator. */
  lemma {:induction false} SplitFirst(s: string, sep: char)
    ensures Split(s, sep)[0] == s[..FirstIndexOf(s, sep)]
    decreases |s|
  {
    if s != [] && s[0] != sep {
      SplitFirst(s[1..], sep);
      assert [s[0]] + s[1..][..FirstIndexOf(s[1..], sep)] == s[..FirstIndexOf(s, sep)];
    }
  }

  /** The last piece of a split starts after the last separator. */
  lemma {:induction false} SplitLast(s: string, sep: char)
    ensures Split(s, sep)[|Split(s, sep)| - 1] == s[LastIndexOf(s, sep) + 1..]
    decreases |s|
  {
    if s != [] {
      SplitLast(s[1..], sep);
      SplitLastCons(s, sep);
      if LastIndexOf(s[1..], sep) >= 0 {
        SplitLastLaterSep(s, sep);
      } else {
        SplitLastNoLaterSep(s, sep);
      }
    }
  }

  /** The last piece of a split of a non-empty string, from the split of
      its tail. */
  lemma SplitLastCons(s: string, sep: char)
    requires s != []
    ensures var rest := Split(s[1..], sep);
      var parts := Split(s, sep);
      parts[|parts| - 1] == if s[0] == sep || |rest| > 1 then rest[|rest| - 1] else [s[0]] + rest[0]
  {
  }

  lemma SplitLastLaterSep(s: string, sep: char)
    requires s != [] && LastIndexOf(s[1..], sep) >= 0
    ensures |Split(s[1..], sep)| > 1
    ensures LastIndexOf(s, sep) == LastIndexOf(s[1..], sep) + 1
    ensures s[1..][LastIndexOf(s[1..], sep) + 1..] == s[LastIndexOf(s, sep) + 1..]
  {
    var tail := s[1..];
    SplitSingle(tail, sep);
    assert tail[LastIndexOf(tail, sep)] == sep;
  }

  lemma SplitLastNoLaterSep(s: string, sep: char)
    requires s != [] && LastIndexOf(s[1..], sep) < 0
    ensures |Split(s[1..], sep)| == 1
    ensures s[0] == sep ==> LastIndexOf(s, sep) == 0 && s[1..] == s[LastIndexOf(s, sep) + 1..]
    ensures s[0] != sep ==> LastIndexOf(s, sep) == -1 && [s[0]] + s[1..] == s[LastIndexOf(s, sep) + 1..]
  {
    var tail := s[1..];
    assert sep !in tail;
    SplitSingle(tail, sep);
  }

  /** `getInitials`: "" for "", the upper-cased first character of a name
      without spaces, otherwise the upper-cased first characters of the text
      before the first space and after the last space (either may be
      empty and then contributes nothing). */
  function GetInitials(name: string): (r: string)
    ensures name == "" ==> r == ""
    ensures name != "" && ' ' !in name ==> r == Upper([name[0]])
    ensures ' ' in name ==>
              r == Upper(FirstChar(name[..FirstIndexOf(name, ' ')]) +
                         FirstChar(name[LastIndexOf(name, ' ') + 1..]))
    ensures |r| <= 2
  {
    if name == "" then ""
    else
      var parts := Split(name, ' ');
      SplitPieces(name, ' ');
      if |parts| == 1 then Upper(FirstChar(parts[0]))
      else Upper(FirstChar(parts[0]) + FirstChar(parts[|parts| - 1]))
  }

  /** What `getInitials` reads from a split: one piece, the whole string,
      exactly when the separator is absent; otherwise the pieces before the
      first and after the last separator. */
  lemma SplitPieces(s: string, sep: char)
    ensures var parts := Split(s, sep);
      && (|parts| == 1 <==> sep !in s)
      && (sep !in s ==> parts[0] == s)
      && parts[0] == s[..FirstIndexOf(s, sep)]
      && parts[|parts| - 1] == s[LastIndexOf(s, sep) + 1..]
  {
    SplitSingle(s, sep);
    SplitFirst(s, sep);
    SplitLast(s, sep);
    if sep !in s {
      assert FirstIndexOf(s, sep) == |s|;
    }
  }

  // ------------------------------------------------------------ isValidEmail

  /** `[A-Z0-9._%+-]` under the case-insensitive flag. */
  predicate LocalChar(c: char)
  {
    IsAsciiLetter(c) || IsDigit(c) || c == '.' || c == '_' || c == '%' || c == '+' || c == '-'
  }

  /** `[A-Z0-9.-]` under the case-insensitive flag. */
  predicate DomainChar(c: char)
  {
    IsAsciiLetter(c) || IsDigit(c) || c == '.' || c == '-'
  }

  predicate AllLocal(s: string) { forall i :: 0 <= i < |s| ==> LocalChar(s[i]) }
  predicate AllDomain(s: string) { forall i :: 0 <= i < |s| ==> DomainChar(s[i]) }
  predicate AllLetters(s: string) { forall i :: 0 <= i < |s| ==> IsAsciiLetter(s[i]) }

  /** The language of `/^[A-Z0-9._%+-]+@[A-Z0-9.-]+\.[A-Z]{2,}$/i`: some
      split of the string into a local part, '@', a domain, '.', and a
      final run of at least two letters. */
  ghost predicate MatchesEmailPattern(s: string)
  {
    exists at, dot ::
      && 0 < at && at + 1 < dot && dot + 3 <= |s|
      && s[at] == '@' && s[dot] == '.'
      && AllLocal(s[..at]) && AllDomain(s[at + 1..dot]) && AllLetters(s[dot + 1..])
  }

  /** `isValidEmail`, decided without backtracking: the '@' must be the
      first one and the '.' the last one. */
  function IsValidEmail(email: string): (ok: bool)
    ensures ok <==> MatchesEmailPattern(email)
  {
    var at := FirstIndexOf(email, '@');
    var dot := LastIndexOf(email, '.');
    var ok := && 0 < at && at + 1 < dot && dot + 3 <= |email|
              && AllLocal(email[..at]) && AllDomain(email[at + 1..dot]) && AllLetters(email[dot + 1..]);
    EmailSplitIsForced(email);
    ok
  }

  /** Any split the pattern accepts puts '@' at its first occurrence and
      '.' at its last. */
  lemma EmailSplitIsForced(s: string)
    ensures forall at, dot ::
      && 0 < at && at + 1 < dot && dot + 3 <= |s|
      && s[at] == '@' && s[dot] == '.'
      && AllLocal(s[..at]) && AllDomain(s[at + 1..dot]) && AllLetters(s[dot + 1..])
      ==> at == FirstIndexOf(s, '@') && dot == LastIndexOf(s, '.')
  {
    forall at, dot |
      && 0 < at && at + 1 < dot && dot + 3 <= |s|
      && s[at] == '@' && s[dot] == '.'
      && AllLocal(s[..at]) && AllDomain(s[at + 1..dot]) && AllLetters(s[dot + 1..])
      ensures at == FirstIndexOf(s, '@') && dot == LastIndexOf(s, '.')
    {
      forall j | 0 <= j < at ensures s[j] != '@' {
        assert LocalChar(s[..at][j]);
      }
      FirstIndexOfAt(s, '@', at);
      forall j | dot < j < |s| ensures s[j] != '.' {
        assert IsAsciiLetter(s[dot + 1..][j - dot - 1]);
      }
      LastIndexOfAt(s, '.', dot);
    }
  }

  /** The first occurrence is the one with none before it. */
  lemma FirstIndexOfAt(s: string, c: char, i: nat)
    requires i < |s| && s[i] == c
    requires forall j :: 0 <= j < i ==> s[j] != c
    ensures FirstIndexOf(s, c) == i
  {
  }

  /** The last occurrence is the one with none after it. */
  lemma LastIndexOfAt(s: string, c: char, i: nat)
    requires i < |s| && s[i] == c
    requires forall j :: i < j < |s| ==> s[j] != c
    ensures LastIndexOf(s, c) == i
  {
  }

  // ------------------------------------------------------- generateRandomKey

  const KeyAlphabet := "ABCDEFGHIJKLMNOPQRSTUVWXYZabcdefghijklmnopqrstuvwxyz0123456789"

  /** The character `generateRandomKey` picks for one value `r` of
      `Math.random()`: the one at `Math.floor(r * 62)`, 62 being the
      alphabet's length. */
  function KeyChar(r: real): (c: char)
    requires 0.0 <= r < 1.0
    ensures c in KeyAlphabet
  {
    assert 0.0 <= r * 62.0 < 62.0;
    KeyAlphabet[(r * 62.0).Floor]
  }

  /** `generateRandomKey`: `random[i]` is the i-th value `Math.random()`
      returned, which lies in [0, 1). */
  method GenerateRandomKey(length: int, random: seq<real>) returns (key: string)
    requires forall i :: 0 <= i < |random| ==> 0.0 <= random[i] < 1.0
    requires |random| >= length
    ensures |key| == if length < 0 then 0 else length
    ensures forall i :: 0 <= i < |key| ==> key[i] == KeyChar(random[i]) && key[i] in KeyAlphabet
  {
    key := "";
    var i := 0;
    while i < length
      invariant 0 <= i <= (if length < 0 then 0 else length)
      invariant |key| == i
      invariant forall j :: 0 <= j < i ==> key[j] == KeyChar(random[j])
    {
      key := key + [KeyChar(random[i])];
      i := i + 1;
    }
  }

  // ------------------------------------------------------ extractErrorMessage

  /** A JavaScript value as it arrives in a response body. */
  datatype Json =
    | JNull
    | JBool(b: bool)
    | JNum(n: int)
    | JStr(s: string)
    | JArr(items: seq<Json>)
    | JObj(fields: seq<(string, Json)>)

  predicate JsTruthy(v: Json)
  {
    match v
    case JNull => false
    case JBool(b) => b
    case JNum(n) => n != 0
    case JStr(s) => s != ""
    case JArr(_) => true
    case JObj(_) => true
  }

  /** `v[key]`, with None for undefined. */
  function Property(v: Json, key: string): Option<Json>
  {
    if v.JObj? then Lookup(v.fields, key) else None
  }

  function Lookup(fields: seq<(string, Json)>, key: string): Option<Json>
  {
    if fields == [] then None
    else if fields[0].0 == key then Some(fields[0].1)
    else Lookup(fields[1..], key)
  }

  /** What `for (const field in v)` visits with `v[field]`: an object's own
      properties in enumeration order, an array's indices. */
  function Entries(v: Json): seq<(string, Json)>
  {
    match v
    case JObj(fields) => fields
    case JArr(items) => seq(|items|, i requires 0 <= i < |items| => (NatToString(i), items[i]))
    case _ => []
  }

  /** `String(v)`. */
  function ToStr(v: Json): string
    decreases v
  {
    match v
    case JNull => "null"
    case JBool(b) => if b then "true" else "false"
    case JNum(n) => if n < 0 then "-" + NatToString(-n) else NatToString(n)
    case JStr(s) => s
    case JObj(_) => "[object Object]"
    case JArr(items) =>
      JoinComma(seq(|items|, i requires 0 <= i < |items| =>
        if items[i].JNull? then "" else ToStr(items[i])))
  }

  function JoinComma(parts: seq<string>): string
  {
    if parts == [] then "" else if |parts| == 1 then parts[0] else parts[0] + "," + JoinComma(parts[1..])
  }

  /** `String(a[0])`, where a missing element reads as undefined. */
  function FirstElementText(v: Json): string
  {
    if v.JArr? && |v.items| > 0 then ToStr(v.items[0]) else "undefined"
  }

  /** The index of the first entry whose value is an array, if any. */
  function FirstArrayEntry(entries: seq<(string, Json)>): (r: Option<nat>)
    ensures r.Some? ==> r.value < |entries| && entries[r.value].1.JArr?
    ensures r.Some? ==> forall j :: 0 <= j < r.value ==> !entries[j].1.JArr?
    ensures r.None? ==> forall j :: 0 <= j < |entries| ==> !entries[j].1.JArr?
  {
    if entries == [] then None
    else if entries[0].1.JArr? then Some(0)
    else match FirstArrayEntry(entries[1..])
      case None => None
      case Some(i) => Some(i + 1)
  }

  /** A rejected request as the UI sees it: maybe a response, maybe with a
      body, and the error's message. */
  datatype ErrorResponse = ErrorResponse(data: Option<Json>)
  datatype RequestError = RequestError(response: Option<ErrorResponse>, message: string)

  /** The response body, when there is a response with a truthy body. */
  function ErrorData(error: RequestError): Option<Json>
  {
    if error.response.Some? && error.response.value.data.Some? && JsTruthy(error.response.value.data.value)
    then error.response.value.data
    else None
  }

  /** `extractErrorMessage`: `stringify` stands for `JSON.stringify`. The
      result is a JavaScript value because a non-string `detail` is returned
      as it is. */
  method ExtractErrorMessage(error: RequestError, stringify: Json -> string) returns (msg: Json)
    ensures ErrorData(error).None? ==>
              msg == JStr(if error.message != "" then error.message else "An unknown error occurred")
    ensures ErrorData(error).Some? && ErrorData(error).value.JStr? ==> msg == ErrorData(error).value
    ensures ErrorData(error).Some? && !ErrorData(error).value.JStr? ==>
              var data := ErrorData(error).value;
              var detail := Property(data, "detail");
              var first := FirstArrayEntry(Entries(data));
              if detail.Some? && JsTruthy(detail.value) then msg == detail.value
              else if first.Some? then
                msg == JStr(Entries(data)[first.value].0 + ": " + FirstElementText(Entries(data)[first.value].1))
              else msg == JStr(stringify(data))
  {
    var data := ErrorData(error);
    if data.Some? {
      var d := data.value;
      if d.JStr? {
        return d;
      }
      var detail := Property(d, "detail");
      if detail.Some? && JsTruthy(detail.value) {
        return detail.value;
      }
      var entries := Entries(d);
      var i := 0;
      while i < |entries|
        invariant 0 <= i <= |entries|
        invariant forall j :: 0 <= j < i ==> !entries[j].1.JArr?
      {
        if entries[i].1.JArr? {
          assert FirstArrayEntry(entries) == Some(i) by { FirstArrayEntryAt(entries, i); }
          return JStr(entries[i].0 + ": " + FirstElementText(entries[i].1));
        }
        i := i + 1;
      }
      return JStr(stringify(d));
    }
    if error.message != "" {
      return JStr(error.message);
    }
    return JStr("An unknown error occurred");
  }

  lemma {:induction false} FirstArrayEntryAt(entries: seq<(string, Json)>, i: nat)
    requires i < |entries| && entries[i].1.JArr?
    requires forall j :: 0 <= j < i ==> !entries[j].1.JArr?
    ensures FirstArrayEntry(entries) == Some(i)
    decreases i
  {
    if i > 0 {
      FirstArrayEntryAt(entries[1..], i - 1);
    }
  }
}
