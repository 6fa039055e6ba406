/** Dynamic PS: a text from a file scrolls through the programme service name, eight characters
    at a time. */
module DynPs {
  import opened Arithmetic
  import opened Config
  import opened Trim

  const MAX_CHARS := 65

  // ---------- The scrolling as a function of its state ----------

  /** The text of the file, the fixed name, and how much of the text is still to be shown. */
  datatype Scroll = Scroll(text: seq<Byte>, fixed: seq<Byte>, remaining: nat)

  datatype Shown = Nothing | Show(chars: seq<Byte>)

  predicate InRange(d: Scroll) {
    d.text == [] || (d.remaining <= |d.text| <= 64)
  }

  /** n characters of a text from a place on. */
  function Part(s: seq<Byte>, off: nat, n: nat): (p: seq<Byte>)
    requires off + n <= |s|
    ensures |p| == n
    ensures forall i {:trigger p[i]} :: 0 <= i < n ==> p[i] == s[off + i]
  {
    seq(n, i requires 0 <= i < n => s[off + i])
  }

  /** One turn of the consumer. */
  function Turn(d: Scroll): (Shown, Scroll)
    requires InRange(d)
  {
    if d.text == [] then (Nothing, d)
    else if d.remaining == 0 then (Show(d.fixed), d.(remaining := |d.text|))
    else
      var off := |d.text| - d.remaining;
      var n := if d.remaining >= 8 then 8 else d.remaining;
      (Show(Part(d.text, off, n)), d.(remaining := d.remaining - n))
  }

  /** The state after m turns. */
  function Turns(d: Scroll, m: nat): (e: Scroll)
    requires InRange(d)
    ensures InRange(e) && e.text == d.text && e.fixed == d.fixed
  {
    if m == 0 then d else Turn(Turns(d, m - 1)).1
  }

  /** How many chunks of eight a text of n characters has. */
  function ChunkCount(n: nat): nat {
    (n + 7) / 8
  }

  /** Chunk i of a text. */
  function Chunk(text: seq<Byte>, i: nat): seq<Byte>
    requires i < ChunkCount(|text|)
  {
    Part(text, 8 * i, if 8 * i + 8 <= |text| then 8 else |text| - 8 * i)
  }

  function FirstChunks(text: seq<Byte>, i: nat): seq<Byte>
    requires i <= ChunkCount(|text|)
  {
    if i == 0 then [] else FirstChunks(text, i - 1) + Chunk(text, i - 1)
  }

  /** The chunks, put together, are the text. */
  lemma {:induction false} ChunksMakeText(text: seq<Byte>, i: nat)
    requires i <= ChunkCount(|text|)
    ensures FirstChunks(text, i) == text[..if 8 * i <= |text| then 8 * i else |text|]
  {
    if i > 0 {
      ChunksMakeText(text, i - 1);
      var a, b := 8 * (i - 1), if 8 * i <= |text| then 8 * i else |text|;
      assert text[..b] == text[..a] + text[a..b];
    }
  }

  /** The remaining length after the chunks before place p of the cycle. */
  function RemainingAt(n: nat, p: nat): nat {
    if 8 * p <= n then n - 8 * p else 0
  }

  lemma {:induction false} ScrollState(d: Scroll, m: nat)
    requires 0 < |d.text| <= 64 && d.remaining == |d.text|
    ensures Turns(d, m).remaining == RemainingAt(|d.text|, Place(m, ChunkCount(|d.text|) + 1))
  {
    if m > 0 { ScrollState(d, m - 1); }
  }

  /** What a turn shows at place p of the cycle. */
  lemma ShownAt(d: Scroll, p: nat)
    requires 0 < |d.text| <= 64 && p <= ChunkCount(|d.text|) && d.remaining == RemainingAt(|d.text|, p)
    ensures Turn(d).0 == Show(if p < ChunkCount(|d.text|) then Chunk(d.text, p) else d.fixed)
  {
  }

  /** From a file update on, the consumer shows the consecutive chunks of the text, whose
      concatenation is the whole of it, then the fixed name, and starts over: the period is the
      number of chunks plus one. */
  lemma ScrollShows(d: Scroll, m: nat)
    requires 0 < |d.text| <= 64 && d.remaining == |d.text|
    ensures var c := ChunkCount(|d.text|);
            var p := m % (c + 1);
            Turn(Turns(d, m)).0 == Show(if p < c then Chunk(d.text, p) else d.fixed)
    ensures FirstChunks(d.text, ChunkCount(|d.text|)) == d.text
  {
    var c := ChunkCount(|d.text|);
    ScrollState(d, m);
    ShownAt(Turns(d, m), Place(m, c + 1));
    PlaceIsRemainder(m, c + 1);
    ChunksMakeText(d.text, c);
  }

  // ---------- The name on air ----------

  /** The PS after a turn. */
  function NextName(n: Name, shown: Shown, signed: bool): Name {
    match shown
    case Nothing => n
    case Show(chars) => ApplyPs(n, Text(chars), signed)
  }

  /** The PS before each turn of a row of turns. In between the encoder sends the name, which
      moves its index, and no other process sets it. */
  ghost predicate IsScrolled(d: Scroll, names: seq<Name>, signed: bool)
    requires InRange(d)
  {
    forall k :: 0 <= k < |names| - 1 ==> ScrolledAt(d, names, k, signed)
  }

  ghost predicate ScrolledAt(d: Scroll, names: seq<Name>, k: nat, signed: bool)
    requires InRange(d) && k + 1 < |names|
  {
    names[k + 1].text == NextName(names[k], Turn(Turns(d, k)).0, signed).text
  }

  /** What the PS is set to at place p of the cycle. The setter rejects an empty fixed name, and
      the last chunk stays. */
  function OnDisplay(d: Scroll, p: nat): seq<Byte>
    requires d.text != [] && p <= ChunkCount(|d.text|)
  {
    if p < ChunkCount(|d.text|) then Chunk(d.text, p)
    else if d.fixed != [] then d.fixed
    else Chunk(d.text, ChunkCount(|d.text|) - 1)
  }

  lemma SetName(n: Name, chars: seq<Byte>, signed: bool)
    requires |chars| <= 8 && 0 !in chars
    ensures ApplyPs(n, Text(chars), signed).text ==
            if chars == [] then n.text else NameField(chars, |chars|, signed)
  {
    StrnlenIs(chars, 8, |chars|);
  }

  /** Scrolling that a file update has just started. */
  predicate Fresh(d: Scroll) {
    && 0 < |d.text| <= 64 && d.remaining == |d.text| && 0 !in d.text
    && |d.fixed| <= 8 && 0 !in d.fixed
  }

  lemma DisplayedIsShort(d: Scroll, p: nat)
    requires Fresh(d) && p <= ChunkCount(|d.text|)
    ensures 0 < |OnDisplay(d, p)| <= 8 && 0 !in OnDisplay(d, p)
  {
  }

  /** The PS as it is set at place p. */
  function NameAt(d: Scroll, p: nat, signed: bool): Bytes8
    requires Fresh(d) && p <= ChunkCount(|d.text|)
  {
    DisplayedIsShort(d, p);
    NameField(OnDisplay(d, p), |OnDisplay(d, p)|, signed)
  }

  /** One turn at place p, after a turn at the place before. */
  lemma TurnAtPlace(d: Scroll, e: Scroll, p: nat, n: Name, signed: bool)
    requires Fresh(d) && p <= ChunkCount(|d.text|)
    requires e == Scroll(d.text, d.fixed, RemainingAt(|d.text|, p))
    requires p > 0 ==> n.text == NameAt(d, p - 1, signed)
    ensures NextName(n, Turn(e).0, signed).text == NameAt(d, p, signed)
  {
    var shown := if p < ChunkCount(|d.text|) then Chunk(d.text, p) else d.fixed;
    ShownAt(e, p);
    DisplayedIsShort(d, p);
    SetName(n, shown, signed);
  }

  lemma TurnsAtPlace(d: Scroll, m: nat, n: Name, signed: bool)
    requires Fresh(d)
    requires m > 0 ==> n.text == NameAt(d, Place(m - 1, ChunkCount(|d.text|) + 1), signed)
    ensures NextName(n, Turn(Turns(d, m)).0, signed).text ==
            NameAt(d, Place(m, ChunkCount(|d.text|) + 1), signed)
  {
    ScrollState(d, m);
    TurnAtPlace(d, Turns(d, m), Place(m, ChunkCount(|d.text|) + 1), n, signed);
  }

  lemma {:induction false} PsAtPlace(d: Scroll, names: seq<Name>, signed: bool, m: nat)
    requires Fresh(d) && IsScrolled(d, names, signed) && m + 1 < |names|
    ensures names[m + 1].text == NameAt(d, Place(m, ChunkCount(|d.text|) + 1), signed)
  {
    if m > 0 { PsAtPlace(d, names, signed, m - 1); }
    TurnsAtPlace(d, m, names[m], signed);
    assert ScrolledAt(d, names, m, signed);
  }

  /** From a file update on, turn m leaves chunk p of the text in the PS, for p the place of m in
      a cycle of the chunks and one more; the one more is the fixed name, unless that is empty. */
  lemma PsScrolls(d: Scroll, names: seq<Name>, signed: bool, m: nat)
    requires Fresh(d) && IsScrolled(d, names, signed) && m + 1 < |names|
    ensures names[m + 1].text == NameAt(d, m % (ChunkCount(|d.text|) + 1), signed)
  {
    PsAtPlace(d, names, signed, m);
    PlaceIsRemainder(m, ChunkCount(|d.text|) + 1);
  }

  lemma CharsOfField(s: seq<Byte>, signed: bool)
    requires |s| <= 8 && 0 !in s
    ensures NameField(s, |s|, signed) == seq(8, _ => 0) <==> forall i :: 0 <= i < |s| ==> !Kept(s[i], signed)
  {
    var f: seq<Byte> := NameField(s, |s|, signed);
    if forall i :: 0 <= i < |s| ==> !Kept(s[i], signed) {
      assert f == seq(8, _ => 0);
    } else {
      var i :| 0 <= i < |s| && Kept(s[i], signed);
      assert f[i] == s[i] != 0;
      assert f != seq(8, _ => 0);
    }
  }

  /** A name as the setter stores it. */
  ghost predicate Stored(ps: Bytes8, signed: bool) {
    forall i :: 0 <= i < 8 ==> ps[i] == 0 || Kept(ps[i], signed)
  }

  /** The copy of a stored name ends at its first zero. It is the whole name exactly when nothing
      comes after that zero. */
  lemma CopyIsWholeIff(ps: Bytes8, signed: bool)
    requires Stored(ps, signed)
    ensures var k := Strnlen(ps, 8);
            NameField(ps[..k], k, signed) == ps <==> forall i :: k <= i < 8 ==> ps[i] == 0
  {
    var k := Strnlen(ps, 8);
    var f := NameField(ps[..k], k, signed);
    assert forall i :: 0 <= i < k ==> f[i] == ps[i];
    assert forall i :: k <= i < 8 ==> f[i] == 0;
  }

  /** At the last place of the cycle the copy of the fixed name is on air exactly when it is not
      empty, or when the last chunk is as good as empty. */
  lemma FixedNameIsShownIff(d: Scroll, names: seq<Name>, signed: bool, m: nat)
    requires Fresh(d) && IsScrolled(d, names, signed) && m + 1 < |names|
    requires m % (ChunkCount(|d.text|) + 1) == ChunkCount(|d.text|)
    ensures names[m + 1].text == NameField(d.fixed, |d.fixed|, signed) <==>
            || d.fixed != []
            || forall i :: 8 * (ChunkCount(|d.text|) - 1) <= i < |d.text| ==> !Kept(d.text[i], signed)
  {
    PsScrolls(d, names, signed, m);
    if d.fixed == [] {
      var c := ChunkCount(|d.text|) - 1;
      LastIsEmpty(d.text, Chunk(d.text, c), 8 * c, signed);
    }
  }

  lemma LastIsEmpty(text: seq<Byte>, last: seq<Byte>, off: nat, signed: bool)
    requires |last| <= 8 && 0 !in last && off + |last| == |text|
    requires forall i :: 0 <= i < |last| ==> last[i] == text[off + i]
    ensures NameField(last, |last|, signed) == NameField([], 0, signed) <==>
            forall i :: off <= i < |text| ==> !Kept(text[i], signed)
  {
    CharsOfField(last, signed);
    CharsOfField([], signed);
    if forall i :: 0 <= i < |last| ==> !Kept(last[i], signed) {
      forall i | off <= i < |text|
        ensures !Kept(text[i], signed)
      {
        assert last[i - off] == text[off + (i - off)];
      }
    } else {
      var i :| 0 <= i < |last| && Kept(last[i], signed);
      assert Kept(text[off + i], signed);
    }
  }

  /** The station's name comes back. At the last place of the cycle the PS is again the name ps that
      the station had, if that does not begin with a zero, exactly when nothing comes after its
      first zero; if it does, exactly when the last chunk happens to look like it. */
  lemma StationNameReturnsIff(d: Scroll, ps: Bytes8, names: seq<Name>, signed: bool, m: nat)
    requires Fresh(d) && IsScrolled(d, names, signed) && m + 1 < |names|
    requires m % (ChunkCount(|d.text|) + 1) == ChunkCount(|d.text|)
    requires Stored(ps, signed) && d.fixed == ps[..Strnlen(ps, 8)]
    ensures names[m + 1].text == ps <==>
            if ps[0] != 0 then forall i :: Strnlen(ps, 8) <= i < 8 ==> ps[i] == 0
            else LooksLike(d.text, 8 * (ChunkCount(|d.text|) - 1), ps, signed)
  {
    PsScrolls(d, names, signed, m);
    if ps[0] != 0 {
      CopyIsWholeIff(ps, signed);
    } else {
      var c := ChunkCount(|d.text|) - 1;
      assert d.fixed == [];
      LastLooks(d.text, Chunk(d.text, c), 8 * c, ps, signed);
    }
  }

  /** The characters of a text from a place on are those of ps, where they are kept. */
  ghost predicate LooksLike(text: seq<Byte>, off: nat, ps: Bytes8, signed: bool) {
    forall i :: 0 <= i < 8 ==> ps[i] == if off + i < |text| && Kept(text[off + i], signed) then text[off + i] else 0
  }

  lemma LastLooks(text: seq<Byte>, last: seq<Byte>, off: nat, ps: Bytes8, signed: bool)
    requires |last| <= 8 && off + |last| == |text| && forall i :: 0 <= i < |last| ==> last[i] == text[off + i]
    ensures NameField(last, |last|, signed) == ps <==> LooksLike(text, off, ps, signed)
  {
    var f: seq<Byte> := NameField(last, |last|, signed);
    assert forall i :: 0 <= i < 8 ==>
      f[i] == if off + i < |text| && Kept(text[off + i], signed) then text[off + i] else 0;
    if LooksLike(text, off, ps, signed) { assert f == ps; }
  }

  /** In terms of what the PS setter was given: the copy is the whole name exactly when the setter
      kept no character after one that it dropped. */
  lemma GivenNameReturnsIff(n: Name, s: seq<Byte>, signed: bool)
    requires Strnlen(s, 8) > 0
    ensures var ps, len := ApplyPs(n, Text(s), signed).text, Strnlen(s, 8);
            var k := Strnlen(ps, 8);
            && Stored(ps, signed)
            && (NameField(ps[..k], k, signed) == ps <==>
                forall i, j :: 0 <= i < j < len && !Kept(s[i], signed) ==> !Kept(s[j], signed))
  {
    var ps, len := ApplyPs(n, Text(s), signed).text, Strnlen(s, 8);
    assert ps == NameField(s, len, signed);
    CopyIsWholeIff(ps, signed);
    DroppedTail(s, len, signed);
  }

  lemma DroppedTail(s: seq<Byte>, len: nat, signed: bool)
    requires len <= 8 && len <= |s| && forall i :: 0 <= i < len ==> s[i] != 0
    ensures var ps := NameField(s, len, signed);
            (forall i :: Strnlen(ps, 8) <= i < 8 ==> ps[i] == 0) <==>
            forall i, j :: 0 <= i < j < len && !Kept(s[i], signed) ==> !Kept(s[j], signed)
  {
    var ps := NameField(s, len, signed);
    var k := Strnlen(ps, 8);
    assert forall i :: 0 <= i < 8 ==> (ps[i] != 0 <==> i < len && Kept(s[i], signed));
    if (forall i :: k <= i < 8 ==> ps[i] == 0) {
      assert forall i :: 0 <= i < len && !Kept(s[i], signed) ==> k <= i;
    } else {
      var j :| k <= j < 8 && ps[j] != 0;
      assert !Kept(s[k], signed) && Kept(s[j], signed);
    }
  }

  /** The fixed name that is kept of a PS is empty exactly when the setter dropped the first
      character of the name that it was given. */
  lemma FixedNameIsEmptyIff(n: Name, s: seq<Byte>, signed: bool)
    requires Strnlen(s, 8) > 0
    ensures Strnlen(ApplyPs(n, Text(s), signed).text, 8) == 0 <==> !Kept(s[0], signed)
  {
  }

  // ---------- The threads, one atomic step at a time ----------

  /** What fgets makes of the file: an error, or at most 64 characters. */
  datatype Line = ReadError | Line(bytes: seq<Byte>)

  /** A chunk in a zero-filled array of eight is the chunk as a string. */
  lemma PaddedString(n: Name, chars: seq<Byte>, signed: bool)
    requires |chars| <= 8 && 0 !in chars
    ensures var padded := chars + seq(8 - |chars|, _ => 0);
            ApplyPs(n, Text(padded), signed) == ApplyPs(n, Text(chars), signed)
  {
    var padded: seq<Byte> := chars + seq(8 - |chars|, _ => 0);
    StrnlenIs(chars, 8, |chars|);
    StrnlenIs(padded, 8, |chars|);
    assert NameField(padded, |chars|, signed) == NameField(chars, |chars|, signed);
  }

  class DynamicPs {
    const st: EncoderState
    const text: array<Byte>
    const fixedPs: seq<Byte>
    var stringLen: nat
    var remainingLen: nat

    /** In every state, no string or remaining_len <= string_len <= 64. */
    ghost predicate Valid()
      reads this, text
    {
      && st.Valid() && text.Length == MAX_CHARS && text != st.ps && text != st.ptyn && text != st.rt
      && |fixedPs| <= 8 && 0 !in fixedPs
      && (stringLen == 0 || remainingLen <= stringLen <= 64)
      && 0 !in text[..stringLen]
    }

    ghost function Value(): (d: Scroll)
      requires Valid()
      reads this, text
      ensures InRange(d)
    {
      Scroll(text[..stringLen], fixedPs, remainingLen)
    }

    /** The fixed name is the PS of the station at the time, up to its first zero. */
    constructor (st: EncoderState)
      requires st.Valid() && st.psSet
      ensures this.st == st && Valid() && Value() == Scroll([], fixedPs, 0)
      ensures fixedPs == st.ps[..Strnlen(st.ps[..], 8)] && fresh(text)
    {
      this.st := st;
      text := new Byte[65](_ => 0);
      fixedPs := st.ps[..Strnlen(st.ps[..], 8)];
      stringLen, remainingLen := 0, 0;
    }

    /** Set the PS to a chunk of the text, copied into a zero-filled segment. */
    method ShowChunk(off: nat, segmentLen: nat)
      requires Valid() && off + segmentLen <= stringLen && 0 < segmentLen <= 8
      modifies st, st.ps
      ensures st.Value() == Apply(old(st.Value()), Op.SetPs(Text(Part(text[..stringLen], off, segmentLen))), st.signed)
    {
      var chars := text[off..off + segmentLen];
      assert chars == Part(text[..stringLen], off, segmentLen);
      PaddedString(Name(st.ps[..], st.psSet, st.psIdx), chars, st.signed);
      var _ := st.SetPs(Text(chars + seq(8 - segmentLen, _ => 0)));
    }

    /** Set the PS to the fixed name, and start over. */
    method ShowFixed()
      requires Valid() && stringLen > 0 && remainingLen == 0
      modifies `remainingLen, st, st.ps
      ensures Valid() && Value() == old(Value()).(remaining := |old(Value()).text|)
      ensures st.Value() == Apply(old(st.Value()), Op.SetPs(Text(fixedPs)), st.signed)
    {
      var _ := st.SetPs(Text(fixedPs));
      remainingLen := stringLen;
    }

    /** Set the PS to the next chunk. */
    method ShowNext()
      requires Valid() && stringLen > 0 && remainingLen > 0
      modifies `remainingLen, st, st.ps
      ensures Valid() && Value() == Turn(old(Value())).1
      ensures st.Value() == Apply(old(st.Value()), Op.SetPs(Text(Turn(old(Value())).0.chars)), st.signed)
    {
      assert Turn(Value()).0.Show?;
      var off := stringLen - remainingLen;
      var segmentLen := if remainingLen >= 8 then 8 else remainingLen;
      ShowChunk(off, segmentLen);
      if remainingLen >= 8 {
        remainingLen := remainingLen - 8;
      } else {
        remainingLen := 0;
      }
    }

    /** One turn of the consumer: set the PS to the next chunk or to the fixed name. */
    method ConsumerStep()
      requires Valid()
      modifies `remainingLen, st, st.ps
      ensures Valid() && Value() == Turn(old(Value())).1
      ensures st.Value() == match Turn(old(Value())).0
                            case Nothing => old(st.Value())
                            case Show(chars) => Apply(old(st.Value()), Op.SetPs(Text(chars)), st.signed)
    {
      if stringLen == 0 { return; }
      if remainingLen == 0 {
        ShowFixed();
        return;
      }
      ShowNext();
    }

    /** The file has changed: read a line, trim it in place and start over with it. The byte in
        front of the text is whatever the structure has there. */
    method FileUpdate(line: Line, front: Byte)
      requires Valid() && (line.Line? ==> |line.bytes| <= 64)
      modifies this, text
      ensures Valid()
      ensures var s := if line.Line? then line.bytes[..Strnlen(line.bytes, MAX_CHARS)] else [];
              match Sanitized(s)
              case Cleaned(t) =>
                if t == [] then stringLen == 0 else Value() == Scroll(t, fixedPs, |t|)
              case Rejected(_) => stringLen == 0
    {
      forall i | 0 <= i < 65 { text[i] := 0; }
      if line.ReadError? {
        stringLen := 0;
        return;
      }
      var b := line.bytes;
      forall i | 0 <= i < |b| { text[i] := b[i]; }
      LineLength(b, text[..]);
      ghost var s := text[..Strnlen(text[..], MAX_CHARS)];
      assert s == b[..Strnlen(b, MAX_CHARS)];
      var ret, _ := Sanitize(text, front, MAX_CHARS);
      if ret > 0 {
        stringLen := ret;
        remainingLen := ret;
        CleanedIsShort(s);
      } else {
        stringLen := 0;
      }
    }
  }

  lemma LineLength(b: seq<Byte>, t: seq<Byte>)
    requires |b| <= 64 && |t| == MAX_CHARS
    requires forall i :: 0 <= i < 65 ==> t[i] == if i < |b| then b[i] else 0
    ensures Strnlen(t, MAX_CHARS) == Strnlen(b, MAX_CHARS)
  {
    StrnlenIs(t, MAX_CHARS, Strnlen(b, MAX_CHARS));
  }

  lemma CleanedIsShort(s: seq<Byte>)
    requires Sanitized(s).Cleaned? && 0 !in s
    ensures |Sanitized(s).text| <= |s| && 0 !in Sanitized(s).text
  {
    CleanedText(s);
  }

  /** i turns after a file update that left d, with nobody else at work. */
  ghost predicate AfterTurns(dps: DynamicPs, d: Scroll, i: nat)
    requires Fresh(d)
    reads dps, dps.text, dps.st, dps.st.ps, dps.st.ptyn, dps.st.rt
  {
    && dps.Valid() && dps.Value() == Turns(d, i)
    && (i > 0 ==> dps.st.Value().ps.text == NameAt(d, Place(i - 1, ChunkCount(|d.text|) + 1), dps.st.signed))
  }

  method NextTurn(dps: DynamicPs, ghost d: Scroll, ghost i: nat)
    requires Fresh(d) && AfterTurns(dps, d, i)
    modifies dps`remainingLen, dps.st, dps.st.ps
    ensures AfterTurns(dps, d, i + 1)
  {
    TurnsAtPlace(d, i, dps.st.Value().ps, dps.st.signed);
    dps.ConsumerStep();
  }

  lemma NameAfterTurns(dps: DynamicPs, d: Scroll, m: nat)
    requires Fresh(d) && AfterTurns(dps, d, m) && m > 0
    ensures dps.st.Value().ps.text == NameAt(d, (m - 1) % (ChunkCount(|d.text|) + 1), dps.st.signed)
  {
    PlaceIsRemainder(m - 1, ChunkCount(|d.text|) + 1);
  }

  method ManyTurns(dps: DynamicPs, ghost d: Scroll, m: nat)
    requires Fresh(d) && AfterTurns(dps, d, 0)
    modifies dps`remainingLen, dps.st, dps.st.ps
    ensures AfterTurns(dps, d, m)
  {
    for i := 0 to m
      invariant AfterTurns(dps, d, i)
    {
      NextTurn(dps, d, i);
    }
  }

  /** A row of turns of the consumer, from a file update on: after m turns the encoder has the
      name that belongs to the place of the last one in the cycle. */
  method RunConsumer(dps: DynamicPs, m: nat)
    requires dps.Valid() && Fresh(dps.Value()) && m > 0
    modifies dps`remainingLen, dps.st, dps.st.ps
    ensures dps.Valid() && dps.Value() == Turns(old(dps.Value()), m)
    ensures var d := old(dps.Value());
            dps.st.Value().ps.text == NameAt(d, (m - 1) % (ChunkCount(|d.text|) + 1), dps.st.signed)
  {
    ghost var d := dps.Value();
    ManyTurns(dps, d, m);
    NameAfterTurns(dps, d, m);
  }
}
