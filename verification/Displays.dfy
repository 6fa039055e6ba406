/** What the display of a receiver shows: the bounded-delivery theorems for PS and DI, for the
    labels, for PTYN and for RadioText. */
module Displays {
  import opened Bits
  import opened Config
  import opened Receiver
  import opened Scheduler
  import opened Machine
  import opened Delivery

  const BLANK := 0x20

  /** The programme service name on the display. */
  function NameScreen(rx: Rx): seq<nat> {
    seq(8, i requires 0 <= i < 8 => if i / 2 in rx.got then Unpack(rx.got[i / 2].w4)[i % 2] else BLANK)
  }

  /** The decoder identification, collected from its four bits. */
  function DecoderInfo(rx: Rx): seq<bool> {
    seq(4, i requires 0 <= i < 4 => i in rx.got && rx.got[i].w2[13])
  }

  /** A text of four-character segments on a display of the given length. */
  function Screen(rx: Rx, length: nat): seq<nat> {
    seq(length, i requires 0 <= i < length => if i / 4 in rx.got then FourChars(rx.got[i / 4])[i % 4] else BLANK)
  }

  /** The receiver has every segment of a field. */
  ghost predicate HasAll(sv: Service, rx: Rx, st: State) {
    forall a :: 0 <= a < Size(sv, st) ==> Has(sv, rx, st, a)
  }

  lemma CharShown(rx: Rx, st: State, i: nat)
    requires HasAll(PsService, rx, st) && i < 8
    ensures NameScreen(rx)[i] == st.ps.text[i]
  {
    var a := i / 2;
    assert Has(PsService, rx, st, a);
    assert i == 2 * a || i == 2 * a + 1;
  }

  lemma NameShown(rx: Rx, st: State)
    requires HasAll(PsService, rx, st)
    ensures NameScreen(rx) == st.ps.text
    ensures DecoderInfo(rx) == ToBits(st.station.di, 4)
  {
    forall i | 0 <= i < 8
      ensures NameScreen(rx)[i] == st.ps.text[i]
    {
      CharShown(rx, st, i);
    }
    forall i | 0 <= i < 4
      ensures DecoderInfo(rx)[i] == ToBits(st.station.di, 4)[i]
    {
      assert Has(PsService, rx, st, i);
    }
  }

  /** PS and DI: any twelve consecutive groups, not counting clock groups, give the receiver the
      whole name and all four bits of DI, even if the other flags cut the seconds short. */
  lemma PsIsDelivered(h: seq<Encoder>, rx: Rx, signed: bool, n: nat)
    requires Steady(PsService, h, signed) && n < |h| && Others(Calls(h), n) >= 12
    ensures NameScreen(ReceiveRun(PsService, rx, h, n, signed)) == h[0].st.ps.text
    ensures DecoderInfo(ReceiveRun(PsService, rx, h, n, signed)) == ToBits(h[0].st.station.di, 4)
  {
    Delivered(PsService, h, rx, signed, n, 1);
    NameShown(ReceiveRun(PsService, rx, h, n, signed), h[0].st);
  }

  /** ECC and LIC: any 24 such groups give the receiver both labels, if either is set. */
  lemma LabelsAreDelivered(h: seq<Encoder>, rx: Rx, signed: bool, n: nat)
    requires Steady(LabelService, h, signed) && n < |h| && Others(Calls(h), n) >= 24
    ensures var got := ReceiveRun(LabelService, rx, h, n, signed).got;
            && 0 in got && Value(got[0].w3[4..]) == h[0].st.station.ecc
            && 1 in got && Value(got[1].w3[4..]) == h[0].st.station.lic
  {
    var st, now := h[0].st, ReceiveRun(LabelService, rx, h, n, signed);
    Delivered(LabelService, h, rx, signed, n, 2);
    assert Has(LabelService, now, st, 0) && Has(LabelService, now, st, 1);
  }

  lemma TypeNameShown(rx: Rx, st: State)
    requires HasAll(PtynService, rx, st)
    ensures Screen(rx, 8) == st.ptyn.text
  {
    forall i | 0 <= i < 8
      ensures Screen(rx, 8)[i] == st.ptyn.text[i]
    {
      var a := i / 4;
      assert Has(PtynService, rx, st, a);
      assert st.ptyn.text[4 * a..4 * a + 4][i - 4 * a] == st.ptyn.text[i];
    }
  }

  /** PTYN: any twelve such groups give the receiver the programme type name. */
  lemma PtynIsDelivered(h: seq<Encoder>, rx: Rx, signed: bool, n: nat)
    requires Steady(PtynService, h, signed) && n < |h| && Others(Calls(h), n) >= 12
    ensures Screen(ReceiveRun(PtynService, rx, h, n, signed), 8) == h[0].st.ptyn.text
  {
    Delivered(PtynService, h, rx, signed, n, 1);
    TypeNameShown(ReceiveRun(PtynService, rx, h, n, signed), h[0].st);
  }

  /** What is on the display beyond the segments that are sent: under the same A/B flag, what
      was there before. */
  function Residue(rx: Rx, flush: bool, i: nat): nat {
    if rx.flag == Seen(flush) && i / 4 in rx.got then FourChars(rx.got[i / 4])[i % 4] else BLANK
  }

  lemma TextShown(rx: Rx, now: Rx, st: State, i: nat)
    requires HasAll(TextService, now, st) && Leftovers(TextService, st, rx, now) && i < 64
    ensures Screen(now, 64)[i] ==
            if i < 4 * Size(TextService, st) then st.rt.text[i] else Residue(rx, st.rt.flush, i)
  {
    var a := i / 4;
    if a < Size(TextService, st) {
      assert Has(TextService, now, st, a);
      assert st.rt.text[4 * a..4 * a + 4][i - 4 * a] == st.rt.text[i];
    }
  }

  /** RadioText: after any 36 such groups the display shows the segments of the text that the
      encoder sends; beyond them it is blank if the A/B flag has changed, and otherwise shows
      what it showed before. */
  lemma TextIsDelivered(h: seq<Encoder>, rx: Rx, signed: bool, n: nat, i: nat)
    requires Steady(TextService, h, signed) && n < |h| && Others(Calls(h), n) >= 36 && i < 64
    ensures Screen(ReceiveRun(TextService, rx, h, n, signed), 64)[i] ==
            if i < 4 * Size(TextService, h[0].st) then h[0].st.rt.text[i]
            else Residue(rx, h[0].st.rt.flush, i)
  {
    Delivered(TextService, h, rx, signed, n, 3);
    TextShown(rx, ReceiveRun(TextService, rx, h, n, signed), h[0].st, i);
  }

  // ---------- From the setter to the display ----------

  /** The control-character test of the setter spares nothing: it clears exactly the characters
      below the space, which includes negative ones, and 0x7F. */
  lemma ClearedIff(c: Byte, signed: bool)
    ensures Cleared(c, signed) <==> (c < 0x20 || c == 0x7F || (signed && c >= 128))
  {
  }

  /** The text of n characters as it was given to the setter, and blanks after it. */
  function Given(s: seq<Byte>, n: nat): seq<nat>
    requires n <= 64 && n <= |s|
  {
    seq(64, i requires 0 <= i < 64 => if i < n then s[i] else BLANK)
  }

  /** How many characters of a text of n characters the encoder sends. */
  function SentLength(n: nat): nat {
    if n == 64 then 4 else if n > 60 then 60 else PaddedLength(n)
  }

  /** Everything beyond what the encoder can send of a text of n characters is blank anyway. */
  ghost predicate Fits64(s: seq<Byte>, n: nat)
    requires n <= |s|
  {
    || n <= 60
    || (n <= 63 && forall i :: 60 <= i < n ==> s[i] == BLANK)
    || (n == 64 && forall i :: 4 <= i < n ==> s[i] == BLANK)
  }

  /** None of the first n characters is cleared by the setter. */
  ghost predicate Clean(s: seq<Byte>, n: nat, signed: bool)
    requires n <= |s|
  {
    forall i :: 0 <= i < n ==> !Cleared(s[i], signed)
  }

  lemma PaddedSegments(n: nat)
    requires 0 < n <= 64
    ensures 4 * (if PaddedLength(n) / 4 % 16 == 0 then 1 else PaddedLength(n) / 4 % 16) == SentLength(n)
  {
    if n <= 60 { PaddedShort(n); }
  }

  lemma PaddedShort(n: nat)
    requires 0 < n <= 60
    ensures 1 <= PaddedLength(n) / 4 <= 15 && 4 * (PaddedLength(n) / 4) == PaddedLength(n)
  {
  }

  lemma SegmentsOfText(r: RadioText, s: seq<Byte>, flush: bool, signed: bool, st: State)
    requires st.rt == ApplyRt(r, Text(s), flush, signed)
    requires Strnlen(s, 64) > 0
    ensures 4 * Size(TextService, st) == SentLength(Strnlen(s, 64))
  {
    PaddedSegments(Strnlen(s, 64));
  }

  /** A screen with the sent part of a text, and rest beyond it, shows the text as it was given
      exactly when no character of the sent part was cleared and rest is what it should be. */
  lemma ShowsGivenIff(screen: seq<nat>, rest: seq<nat>, s: seq<Byte>, n: nat, signed: bool)
    requires 0 < n <= 64 && n <= |s| && (forall i :: 0 <= i < n ==> s[i] != 0)
    requires |screen| == |rest| == 64
    requires forall i :: 0 <= i < 64 ==>
      screen[i] == if i < SentLength(n) then TextField(s, n, signed)[i] else rest[i]
    ensures screen == Given(s, n) <==>
            && (forall i :: 0 <= i < n && i < SentLength(n) ==> !Cleared(s[i], signed))
            && (forall i :: SentLength(n) <= i < 64 ==> rest[i] == Given(s, n)[i])
  {
    var want := Given(s, n);
    assert forall i :: 0 <= i < n && i < SentLength(n) ==> (screen[i] == want[i] <==> !Cleared(s[i], signed));
    assert forall i :: n <= i < SentLength(n) ==> screen[i] == want[i];
    assert forall i :: SentLength(n) <= i < 64 ==> screen[i] == rest[i];
  }

  /** What a display shows beyond the sent part of a text: what was there before, if the A/B flag
      is the one the receiver saw last, and blanks otherwise. */
  function Residues(rx: Rx, flush: bool): (r: seq<nat>)
    ensures |r| == 64
    ensures rx.flag == Seen(flush) ==> r == Screen(rx, 64)
  {
    seq(64, i requires 0 <= i < 64 => Residue(rx, flush, i))
  }

  /** From the setter to the display, for every receiver: 36 groups after the call the display
      shows the text as it was given to the setter exactly when no character that is sent was
      cleared, and what is left beyond the sent part is what should be there. */
  lemma TextIsShownIff(h: seq<Encoder>, rx: Rx, signed: bool, n: nat, r: RadioText, s: seq<Byte>, flush: bool)
    requires Steady(TextService, h, signed) && n < |h| && Others(Calls(h), n) >= 36
    requires Strnlen(s, 64) > 0 && h[0].st.rt == ApplyRt(r, Text(s), flush, signed)
    ensures var len := Strnlen(s, 64);
            Screen(ReceiveRun(TextService, rx, h, n, signed), 64) == Given(s, len) <==>
            && (forall i :: 0 <= i < len && i < SentLength(len) ==> !Cleared(s[i], signed))
            && (forall i :: SentLength(len) <= i < 64 ==> Residues(rx, h[0].st.rt.flush)[i] == Given(s, len)[i])
  {
    var len, screen := Strnlen(s, 64), Screen(ReceiveRun(TextService, rx, h, n, signed), 64);
    var rest := Residues(rx, h[0].st.rt.flush);
    SegmentsOfText(r, s, flush, signed, h[0].st);
    forall i | 0 <= i < 64
      ensures screen[i] == if i < SentLength(len) then TextField(s, len, signed)[i] else rest[i]
    {
      TextIsDelivered(h, rx, signed, n, i);
    }
    ShowsGivenIff(screen, rest, s, len, signed);
  }

  /** A blank rest is right, and no sent character is cleared, exactly for clean texts that
      fit. */
  lemma BlankRestIff(s: seq<Byte>, n: nat, signed: bool)
    requires 0 < n <= 64 && n <= |s|
    ensures (&& (forall i :: 0 <= i < n && i < SentLength(n) ==> !Cleared(s[i], signed))
             && (forall i :: SentLength(n) <= i < 64 ==> Given(s, n)[i] == BLANK)) <==>
            Fits64(s, n) && Clean(s, n, signed)
  {
    assert n <= 60 ==> n <= SentLength(n);
    if forall i :: SentLength(n) <= i < 64 ==> Given(s, n)[i] == BLANK {
      assert forall i :: SentLength(n) <= i < n ==> Given(s, n)[i] == s[i];
    }
  }

  /** A receiver that sees a new A/B flag shows exactly the text given to the setter, with
      nothing left of any other text, within 36 groups, exactly when the text has at most 60
      characters (or happens to be blank where it is cut off) and none of them is cleared. */
  lemma SetTextIsShownIff(h: seq<Encoder>, rx: Rx, signed: bool, n: nat, r: RadioText, s: seq<Byte>, flush: bool)
    requires Steady(TextService, h, signed) && n < |h| && Others(Calls(h), n) >= 36
    requires Strnlen(s, 64) > 0 && h[0].st.rt == ApplyRt(r, Text(s), flush, signed)
    requires rx.flag != Seen(h[0].st.rt.flush)
    ensures var len := Strnlen(s, 64);
            Screen(ReceiveRun(TextService, rx, h, n, signed), 64) == Given(s, len) <==>
            Fits64(s, len) && Clean(s, len, signed)
  {
    TextIsShownIff(h, rx, signed, n, r, s, flush);
    BlankRestIff(s, Strnlen(s, 64), signed);
  }

  /** Within twelve groups of the call the display shows the name given to the setter, and zeros
      after it, exactly when the setter keeps all its characters. */
  lemma SetPsIsShownIff(h: seq<Encoder>, rx: Rx, signed: bool, n: nat, r: Name, s: seq<Byte>)
    requires Steady(PsService, h, signed) && n < |h| && Others(Calls(h), n) >= 12
    requires Strnlen(s, 8) > 0 && h[0].st.ps.text == ApplyPs(r, Text(s), signed).text
    ensures var len := Strnlen(s, 8);
            NameScreen(ReceiveRun(PsService, rx, h, n, signed)) == s[..len] + seq(8 - len, _ => 0) <==>
            forall i :: 0 <= i < len ==> Kept(s[i], signed)
  {
    var len := Strnlen(s, 8);
    PsIsDelivered(h, rx, signed, n);
    NameKept(s, len, signed);
  }

  lemma NameKept(s: seq<Byte>, n: nat, signed: bool)
    requires n <= 8 && n <= |s| && forall i :: 0 <= i < n ==> s[i] != 0
    ensures NameField(s, n, signed) == s[..n] + seq(8 - n, _ => 0) <==>
            forall i :: 0 <= i < n ==> Kept(s[i], signed)
  {
    var field, want := NameField(s, n, signed), s[..n] + seq(8 - n, _ => 0);
    assert forall i :: 0 <= i < n ==> (field[i] == want[i] <==> Kept(s[i], signed));
    assert forall i :: n <= i < 8 ==> field[i] == want[i];
  }
}
