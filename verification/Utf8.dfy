/**
  Well-formed UTF-8, as section 3 of RFC 3629 gives it, which is what a Rust
  `str` always holds, and the positions at which it may be sliced. One character
  stands for one byte.
 */
module Utf8 {

  predicate IsAscii(c: char) {
    c as int < 0x80
  }

  /** A byte inside a character. */
  predicate IsTail(c: char) {
    0x80 <= c as int <= 0xBF
  }

  /** Whether `second` may follow the leading byte `first` of a longer character. */
  predicate Follows(first: char, second: char) {
    && IsTail(second)
    && (first as int == 0xE0 ==> second as int >= 0xA0)
    && (first as int == 0xED ==> second as int <= 0x9F)
    && (first as int == 0xF0 ==> second as int >= 0x90)
    && (first as int == 0xF4 ==> second as int <= 0x8F)
  }

  /** The length of the first character, or 0 if there is none. */
  function CharLen(s: string): (n: nat)
    ensures n <= |s|
  {
    if s == "" then 0
    else
      var c := s[0] as int;
      if c < 0x80 then 1
      else if 0xC2 <= c <= 0xDF && |s| >= 2 && IsTail(s[1]) then 2
      else if 0xE0 <= c <= 0xEF && |s| >= 3 && Follows(s[0], s[1]) && IsTail(s[2]) then 3
      else if 0xF0 <= c <= 0xF4 && |s| >= 4 && Follows(s[0], s[1]) && IsTail(s[2]) && IsTail(s[3]) then 4
      else 0
  }

  predicate WellFormed(s: string) {
    s == "" || (CharLen(s) > 0 && WellFormed(s[CharLen(s)..]))
  }

  /** `str::is_char_boundary`, read off the byte at the position. */
  predicate Boundary(s: string, i: nat) {
    i == |s| || (i < |s| && !IsTail(s[i]))
  }

  lemma InsideIsTail(s: string, i: nat)
    requires 0 < i < CharLen(s)
    ensures IsTail(s[i])
  {
  }

  /** A character begins at every byte that is no tail, so the text may be cut there. */
  lemma {:induction false} CutAtHead(s: string, i: nat)
    requires WellFormed(s) && Boundary(s, i)
    ensures WellFormed(s[i..])
    decreases |s|
  {
    if i == 0 {
      assert s[i..] == s;
    } else {
      var n := CharLen(s);
      if i < n { InsideIsTail(s, i); }
      assert Boundary(s[n..], i - n);
      CutAtHead(s[n..], i - n);
      assert s[n..][i - n..] == s[i..];
    }
  }

  lemma StartsClean(s: string)
    requires WellFormed(s)
    ensures Boundary(s, 0)
  {
  }

  /** The position behind an ASCII byte is a boundary. */
  lemma CutBehindAscii(s: string, i: nat)
    requires WellFormed(s) && 0 < i <= |s| && IsAscii(s[i - 1])
    ensures Boundary(s, i) && WellFormed(s[i..])
  {
    CutAtHead(s, i - 1);
    var rest := s[i - 1..];
    assert CharLen(rest) == 1 && rest[1..] == s[i..];
    StartsClean(s[i..]);
    assert i < |s| ==> s[i..][0] == s[i];
  }

  lemma CharLenJoin(a: string, b: string)
    requires CharLen(a) > 0
    ensures CharLen(a + b) == CharLen(a)
  {
    var s := a + b;
    assert s[0] == a[0];
    assert |a| >= 2 ==> s[1] == a[1];
    assert |a| >= 3 ==> s[2] == a[2];
    assert |a| >= 4 ==> s[3] == a[3];
  }

  lemma {:induction false} JoinWellFormed(a: string, b: string)
    requires WellFormed(a) && WellFormed(b)
    ensures WellFormed(a + b)
    decreases |a|
  {
    if a == "" {
      assert a + b == b;
    } else {
      var n := CharLen(a);
      CharLenJoin(a, b);
      assert (a + b)[n..] == a[n..] + b;
      JoinWellFormed(a[n..], b);
    }
  }

  lemma {:induction false} AsciiWellFormed(s: string)
    requires forall i :: 0 <= i < |s| ==> IsAscii(s[i])
    ensures WellFormed(s)
  {
    if s != "" {
      assert CharLen(s) == 1;
      AsciiWellFormed(s[1..]);
    }
  }
}
