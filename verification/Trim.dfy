/** The in-place trimming of strings read from a file. */
module Trim {
  import opened Config

  /** White space of the C locale. */
  predicate IsSpace(c: Byte) {
    c == 0x20 || 0x09 <= c <= 0x0D
  }

  function Leading(s: seq<Byte>): (n: nat)
    ensures n <= |s|
    ensures forall i :: 0 <= i < n ==> IsSpace(s[i])
    ensures n < |s| ==> !IsSpace(s[n])
  {
    SpaceFrom(s, 0)
  }

  /** The first place from i on that is not white space. */
  function SpaceFrom(s: seq<Byte>, i: nat): (n: nat)
    requires i <= |s|
    ensures i <= n <= |s|
    ensures forall k :: i <= k < n ==> IsSpace(s[k])
    ensures n < |s| ==> !IsSpace(s[n])
    decreases |s| - i
  {
    if i == |s| || !IsSpace(s[i]) then i else SpaceFrom(s, i + 1)
  }

  function Trailing(s: seq<Byte>): (n: nat)
    ensures n <= |s|
    ensures forall i :: |s| - n <= i < |s| ==> IsSpace(s[i])
    ensures n < |s| ==> !IsSpace(s[|s| - 1 - n])
  {
    SpaceUpTo(s, 0)
  }

  /** How much white space there is at the end, given that there are n characters of it. */
  function SpaceUpTo(s: seq<Byte>, n: nat): (m: nat)
    requires n <= |s|
    ensures n <= m <= |s|
    ensures forall i :: |s| - m <= i < |s| - n ==> IsSpace(s[i])
    ensures m < |s| ==> !IsSpace(s[|s| - 1 - m])
    decreases |s| - n
  {
    if n == |s| || !IsSpace(s[|s| - 1 - n]) then n else SpaceUpTo(s, n + 1)
  }

  /** What trimming should do. */
  function Trimmed(s: seq<Byte>): seq<Byte> {
    if Leading(s) == |s| then [] else s[Leading(s)..|s| - Trailing(s)]
  }

  datatype Outcome = Rejected(code: int) | Cleaned(text: seq<Byte>)

  /** What the encoder's trimming does. It takes a single character, or one followed by nothing
      but white space, for a string of white space only; and if it removes white space at the
      front but none at the end, it loses the last character. */
  function Sanitized(s: seq<Byte>): Outcome {
    if |s| == 0 then Rejected(-1)
    else if Trailing(s) == |s| - 1 then Rejected(-2)
    else if Leading(s) > 0 && Trailing(s) == 0 then Cleaned(Trimmed(s)[..|Trimmed(s)| - 1])
    else Cleaned(Trimmed(s))
  }

  /** Trimming works exactly for the strings that have at least two characters up to the end of
      the text or none at all, and that either begin with text or end in white space. */
  lemma SanitizedIsTrimmedIff(s: seq<Byte>)
    requires |s| > 0
    ensures Sanitized(s) == Cleaned(Trimmed(s)) <==>
            Trailing(s) != |s| - 1 && (!IsSpace(s[0]) || IsSpace(s[|s| - 1]))
  {
    if Leading(s) == |s| {
      assert IsSpace(s[|s| - 1]);
    }
  }

  /** A trimmed string has text at both ends. */
  lemma TrimmedHasTextAtBothEnds(s: seq<Byte>)
    requires Trimmed(s) != []
    ensures !IsSpace(Trimmed(s)[0]) && !IsSpace(Trimmed(s)[|Trimmed(s)| - 1])
    ensures exists i, j :: 0 <= i < j <= |s| && Trimmed(s) == s[i..j]
              && (forall k :: 0 <= k < |s| && !(i <= k < j) ==> IsSpace(s[k]))
  {
    var i, j := Leading(s), |s| - Trailing(s);
    assert j > i;
    assert forall k :: 0 <= k < |s| && !(i <= k < j) ==> IsSpace(s[k]);
  }

  lemma StrnlenIs(s: seq<Byte>, max: nat, n: nat)
    requires n <= max && n <= |s|
    requires forall i :: 0 <= i < n ==> s[i] != 0
    requires n < max && n < |s| ==> s[n] == 0
    ensures Strnlen(s, max) == n
  {
  }

  /** The byte at an index of a string; index -1 is the byte in front of the buffer. */
  function At(buf: array<Byte>, front: Byte, i: int): Byte
    requires -1 <= i < buf.Length
    reads buf
  {
    if i < 0 then front else buf[i]
  }

  /** Clear trailing white space. The character is tested before the bound, so that the loop reads
      the byte in front of the buffer exactly when the whole string is white space; that byte
      decides nothing. */
  method ClearTrailing(buf: array<Byte>, front: Byte, len: nat) returns (i: nat, ghost lowest: int)
    requires 0 < len <= buf.Length
    modifies buf
    ensures i == 1 + Trailing(old(buf[..len]))
    ensures forall k :: 0 <= k < buf.Length ==>
      buf[k] == if len + 1 - i <= k < len then 0 else old(buf[k])
    ensures lowest == len - i && (lowest < 0 <==> forall k :: 0 <= k < len ==> IsSpace(old(buf[..len])[k]))
  {
    ghost var s := buf[..len];
    i := 1;
    lowest := len - i;
    while IsSpace(At(buf, front, len - i)) && i <= len
      invariant 1 <= i <= len + 1 && lowest == len - i
      invariant forall k :: len + 1 - i <= k < len ==> IsSpace(s[k])
      invariant forall k :: 0 <= k < buf.Length ==>
        buf[k] == if len + 1 - i <= k < len then 0 else old(buf[k])
      decreases len + 1 - i
    {
      buf[len - i] := 0;
      i := i + 1;
      lowest := len - i;
    }
    if i <= len { assert !IsSpace(s[len - i]); }
    TrailingIs(s, i - 1);
  }

  lemma TrailingIs(s: seq<Byte>, n: nat)
    requires n <= |s|
    requires forall i :: |s| - n <= i < |s| ==> IsSpace(s[i])
    requires n < |s| ==> !IsSpace(s[|s| - 1 - n])
    ensures Trailing(s) == n
  {
  }

  /** The end of s has been cleared. */
  ghost predicate EndCleared(b: seq<Byte>, s: seq<Byte>) {
    && |s| <= |b| && 0 !in s
    && forall k :: 0 <= k < |s| ==> b[k] == if |s| - Trailing(s) <= k then 0 else s[k]
  }

  /** The white space in front of a string; none if nothing is left of it. */
  function Front(s: seq<Byte>): nat {
    if Trailing(s) == |s| then 0 else Leading(s)
  }

  /** How much the trimming leaves. */
  function Left(s: seq<Byte>): int {
    if Trailing(s) == |s| then 0
    else |s| - Front(s) - if Front(s) > 0 && Trailing(s) == 0 then 1 else Trailing(s)
  }

  lemma {:induction false} FrontIs(s: seq<Byte>, b: seq<Byte>, off: nat)
    requires 0 < |s| && EndCleared(b, s) && off <= |s| - 1
    requires forall k :: 0 <= k < off ==> IsSpace(b[k])
    requires off < |s| - 1 ==> !IsSpace(b[off])
    ensures off == Front(s)
  {
    if Trailing(s) < |s| {
      var last := |s| - 1 - Trailing(s);
      assert !IsSpace(s[last]) && b[last] == s[last];
      assert off <= last;
    } else {
      assert b[0] == 0;
    }
  }

  method CountLeading(buf: array<Byte>, len: nat, ghost s: seq<Byte>) returns (off: nat)
    requires 0 < len == |s| && EndCleared(buf[..], s)
    ensures off == Front(s) < len
  {
    off := 0;
    while off < len - 1 && IsSpace(buf[off])
      invariant off <= len - 1
      invariant forall k :: 0 <= k < off ==> IsSpace(buf[k])
    {
      off := off + 1;
    }
    FrontIs(s, buf[..], off);
  }

  /** Move the string to the front and end it; the terminator falls on the last character if
      nothing was cleared behind it. */
  method MoveDown(buf: array<Byte>, off: nat, len: nat)
    requires 0 < off < len <= buf.Length && !IsSpace(buf[len - 1])
    modifies buf
    ensures forall k :: 0 <= k < len - off - 1 ==> buf[k] == old(buf[off + k])
    ensures buf[len - off - 1] == 0
    ensures forall k :: len <= k < buf.Length ==> buf[k] == old(buf[k])
  {
    forall k | 0 <= k < len - off { buf[k] := buf[off + k]; }
    if !IsSpace(buf[len - 1]) {
      buf[len - off - 1] := 0;
    }
  }

  lemma {:induction false} AllSpace(s: seq<Byte>)
    ensures Trailing(s) == |s| <==> Leading(s) == |s|
    ensures Leading(s) < |s| ==> Leading(s) + Trailing(s) < |s|
  {
    var f, t := Leading(s), Trailing(s);
    assert f < |s| ==> !IsSpace(s[f]);
    assert t < |s| ==> !IsSpace(s[|s| - 1 - t]);
  }

  /** What the trimming leaves, as a part of the string. */
  lemma {:induction false} CleanedText(s: seq<Byte>)
    requires |s| > 0 && Trailing(s) != |s| - 1
    ensures 0 <= Left(s) && Front(s) + Left(s) <= |s| - Trailing(s)
    ensures Sanitized(s) == Cleaned(s[Front(s)..Front(s) + Left(s)])
  {
    AllSpace(s);
    var f, t := Leading(s), Trailing(s);
    if t == |s| {
      assert Front(s) == 0 && Left(s) == 0 && Trimmed(s) == s[0..0];
    } else if f > 0 && t == 0 {
      assert Front(s) == f && Left(s) == |s| - f - 1;
      PrefixOfSuffix(s, f, |s| - f - 1);
    } else {
      assert Front(s) == f && Left(s) == |s| - f - t;
    }
  }

  lemma {:induction false} PrefixOfSuffix(s: seq<Byte>, f: nat, n: nat)
    requires f + n <= |s|
    ensures s[f..][..n] == s[f..f + n]
  {
  }

  /** Remove leading white space from a string whose end has been cleared. */
  method TrimFront(buf: array<Byte>, ghost s: seq<Byte>, len: nat)
    requires 0 < len == |s| && EndCleared(buf[..], s)
    requires 0 <= Left(s) && Front(s) + Left(s) <= len - Trailing(s)
    modifies buf
    ensures buf[..Left(s)] == s[Front(s)..Front(s) + Left(s)]
    ensures Left(s) < len ==> buf[Left(s)] == 0
    ensures forall k :: len <= k < buf.Length ==> buf[k] == old(buf[k])
  {
    ghost var b := buf[..];
    var off := CountLeading(buf, len, s);
    if off > 0 {
      assert b[len - 1] == if Trailing(s) > 0 then 0 else s[len - 1];
      MoveDown(buf, off, len);
      assert forall k :: 0 <= k < Left(s) ==> buf[k] == b[off + k] == s[off + k];
    }
  }

  /** Trim a string in place and return its new length, or an error. It reads before the buffer
      exactly when the string is not empty and all white space. */
  method Sanitize(buf: array<Byte>, front: Byte, maxLen: nat) returns (ret: int, ghost lowest: int)
    requires maxLen <= buf.Length
    modifies buf
    ensures var s := old(buf[..Strnlen(buf[..], maxLen)]);
            lowest < 0 <==> |s| > 0 && forall k :: 0 <= k < |s| ==> IsSpace(s[k])
    ensures var s := old(buf[..Strnlen(buf[..], maxLen)]);
            match Sanitized(s)
            case Rejected(code) => ret == code
            case Cleaned(text) => ret == |text| == Strnlen(buf[..], maxLen) && buf[..|text|] == text
  {
    var len := Strnlen(buf[..], maxLen);
    ghost var s := buf[..len];
    ret, lowest := 0, 0;
    if len <= 0 {
      ret := -1;
      return;
    }
    var i;
    i, lowest := ClearTrailing(buf, front, len);
    if i == len {
      ret := -2;
      return;
    }
    CleanedText(s);
    TrimFront(buf, s, len);
    ghost var n := Left(s);
    assert forall k :: 0 <= k < n ==> buf[k] == buf[..n][k] != 0;
    StrnlenIs(buf[..], maxLen, n);
    len := Strnlen(buf[..], maxLen);
    ret := len;
  }
}
