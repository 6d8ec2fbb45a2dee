/** Shared vocabulary of the model: optional values, the JavaScript error
    values the services throw, and the string operations of the JavaScript
    standard library that the consultation pipeline relies on
    (`indexOf`, `lastIndexOf`, `includes`, `split`, `join`, `replace`). */
module Basics {

  datatype Option<+T> = None | Some(value: T) {
    function GetOr(default: T): T {
      match this
      case Some(v) => v
      case None => default
    }
  }

  /** A thrown JavaScript `Error`: whether it is a `TypeError`, its message,
      and the optional `status` and `code` properties the OpenAI client
      attaches to API failures. */
  datatype Thrown = Thrown(isTypeError: bool, message: string, status: Option<int>, code: Option<string>)

  /** `new Error(message)`. */
  function NewError(message: string): (e: Thrown)
    ensures !e.isTypeError && e.status == None && e.code == None && e.message == message
  {
    Thrown(false, message, None, None)
  }

  /** `pat` occurs in `s` starting at index `i`. */
  predicate MatchAt(s: string, pat: string, i: int) {
    0 <= i && i + |pat| <= |s| && s[i..i + |pat|] == pat
  }

  /** `s.indexOf(pat, from)`: the first index at or after `from` where `pat`
      occurs, or -1. */
  function FindFrom(s: string, pat: string, from: nat): (r: int)
    requires from <= |s|
    ensures r == -1 || (from <= r && MatchAt(s, pat, r))
    ensures r == -1 ==> forall j :: from <= j ==> !MatchAt(s, pat, j)
    ensures r >= 0 ==> forall j :: from <= j < r ==> !MatchAt(s, pat, j)
    decreases |s| - from
  {
    if MatchAt(s, pat, from) then from
    else if from == |s| then -1
    else FindFrom(s, pat, from + 1)
  }

  /** `s.indexOf(pat)`. */
  function IndexOf(s: string, pat: string): (r: int)
    ensures r == -1 <==> forall j :: !MatchAt(s, pat, j)
    ensures r >= 0 ==> MatchAt(s, pat, r) && forall j :: 0 <= j < r ==> !MatchAt(s, pat, j)
  {
    FindFrom(s, pat, 0)
  }

  /** `s.includes(pat)`. */
  predicate Contains(s: string, pat: string) {
    IndexOf(s, pat) >= 0
  }

  /** `s.indexOf(c)` for a single character. */
  function IndexOfChar(s: string, c: char): (r: int)
    ensures -1 <= r
    ensures r == -1 <==> c !in s
    ensures r >= 0 ==> r < |s| && s[r] == c && c !in s[..r]
  {
    if |s| == 0 then -1
    else if s[0] == c then 0
    else
      var k := IndexOfChar(s[1..], c);
      assert s == [s[0]] + s[1..];
      if k == -1 then -1 else k + 1
  }

  /** `s.lastIndexOf(c)` for a single character. */
  function LastIndexOfChar(s: string, c: char): (r: int)
    ensures -1 <= r
    ensures r == -1 <==> c !in s
    ensures r >= 0 ==> r < |s| && s[r] == c && c !in s[r + 1..]
  {
    if |s| == 0 then -1
    else if s[|s| - 1] == c then |s| - 1
    else
      assert s == s[..|s| - 1] + [s[|s| - 1]];
      LastIndexOfChar(s[..|s| - 1], c)
  }

  /** `s.split(sep)` for a non-empty separator: the pieces between
      non-overlapping occurrences of `sep`, scanning left to right. */
  function Split(s: string, sep: string): (pieces: seq<string>)
    requires |sep| > 0
    ensures |pieces| >= 1
    decreases |s|
  {
    var i := IndexOf(s, sep);
    if i < 0 then [s] else [s[..i]] + Split(s[i + |sep|..], sep)
  }

  /** `parts.join(sep)`. */
  function Join(parts: seq<string>, sep: string): string {
    if |parts| == 0 then ""
    else if |parts| == 1 then parts[0]
    else parts[0] + sep + Join(parts[1..], sep)
  }

  /** `s.replace(pat, rep)` with a string pattern: only the first occurrence
      is replaced. */
  function ReplaceFirst(s: string, pat: string, rep: string): (r: string)
    ensures pat <= s ==> r == rep + s[|pat|..]
    ensures IndexOf(s, pat) == -1 ==> r == s
  {
    var i := IndexOf(s, pat);
    if i < 0 then s
    else
      assert pat <= s ==> i == 0 by {
        if pat <= s {
          assert MatchAt(s, pat, 0);
        }
      }
      s[..i] + rep + s[i + |pat|..]
  }
}
