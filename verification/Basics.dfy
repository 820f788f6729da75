/**
  Notions several modules share: optional values, and looking into strings.
 */
module Basics {

  datatype Option<+T> = None | Some(value: T)

  predicate StartsWith(s: string, prefix: string) {
    |s| >= |prefix| && s[..|prefix|] == prefix
  }

  predicate EndsWith(s: string, suffix: string) {
    |s| >= |suffix| && s[|s| - |suffix|..] == suffix
  }

  /** `str::split` on a character */
  function Split(s: string, c: char): (r: seq<string>)
    ensures r != []
  {
    if s == "" then [""]
    else
      var rest := Split(s[1..], c);
      if s[0] == c then [""] + rest else [[s[0]] + rest[0]] + rest[1..]
  }

  /** The position of the last slash, or the length. */
  function LastSlash(s: string): (i: nat)
    ensures i <= |s| && (i < |s| ==> s[i] == '/') && ('/' in s ==> i < |s|)
  {
    if s == "" then 0
    else if s[|s| - 1] == '/' then |s| - 1
    else
      var i := LastSlash(s[..|s| - 1]);
      if i < |s| - 1 then i else |s|
  }
}
