/** From the configuration to the display, over the air: the receiver works on nothing but the
    samples of the waveform. */
module Air {
  import opened Bits
  import opened BlockCode
  import opened Waveforms
  import opened Modem
  import opened Demodulator
  import opened Config
  import opened Groups
  import opened Scheduler
  import opened Machine
  import opened Delivery
  import opened Displays
  import opened Flush

  /** A group on air. */
  function CodesOf(m: Message): FourCodes {
    Codes(BlocksOf(m))
  }

  function OnAir(ms: seq<Message>): (run: seq<FourCodes>)
    ensures |run| == |ms|
    ensures forall g :: 0 <= g < |ms| ==> run[g] == CodesOf(ms[g])
  {
    seq(|ms|, g requires 0 <= g < |ms| => CodesOf(ms[g]))
  }

  function AddSent(ms: seq<Message>, s: Sent): seq<Message> {
    match s
    case Nothing => ms
    case Sent(m) => ms + [m]
  }

  /** The messages among the first n of what was sent. */
  function Collect(s: seq<Sent>, n: nat): seq<Message>
    requires n <= |s|
  {
    if n == 0 then [] else AddSent(Collect(s, n - 1), s[n - 1])
  }

  /** The messages that the first n calls of a history send. */
  function Messages(h: seq<Encoder>, n: nat, signed: bool): seq<Message>
    requires n <= |h|
  {
    Collect(Broadcast(h, signed), n)
  }

  lemma MessagesStep(h: seq<Encoder>, n: nat, signed: bool)
    requires n < |h|
    ensures Messages(h, n + 1, signed) == AddSent(Messages(h, n, signed), Transmit(h[n], signed).0)
  {
  }

  // ---------- The receiver ----------

  /** The infoword of block j of group g. */
  function ReadWord(bits: seq<bool>, g: nat, j: nat): Word16
    requires j < 4 && 104 * g + 103 <= |bits|
  {
    bits[104 * g + 26 * j..104 * g + 26 * j + 16]
  }

  function ReadMessage(bits: seq<bool>, g: nat): Message
    requires 104 * g + 103 <= |bits|
  {
    Message(ReadWord(bits, g, 0), ReadWord(bits, g, 1), ReadWord(bits, g, 2), ReadWord(bits, g, 3),
            ReadWord(bits, g, 1)[4])
  }

  /** The first n groups of a bit string that lacks its last bit. */
  function ReadMessages(bits: seq<bool>, n: nat): (ms: seq<Message>)
    requires n > 0 ==> 104 * n - 1 <= |bits|
  {
    if n == 0 then [] else ReadMessages(bits, n - 1) + [ReadMessage(bits, n - 1)]
  }

  function ReceiveMessages(sv: Service, rx: Rx, ms: seq<Message>): Rx {
    if |ms| == 0 then rx
    else Receive(sv, ReceiveMessages(sv, rx, ms[..|ms| - 1]), ms[|ms| - 1])
  }

  /** The n groups in a stretch of samples. */
  function ReadSamples(samples: seq<real>, n: nat): seq<Message>
    requires |samples| == 4160 * n
  {
    ReadMessages(Demodulate(samples, 104 * n), n)
  }

  /** A receiver of one service after a stretch of samples. */
  function Listen(sv: Service, rx: Rx, samples: seq<real>, n: nat): Rx
    requires |samples| == 4160 * n
  {
    ReceiveMessages(sv, rx, ReadSamples(samples, n))
  }

  /** A receiver of one service that listens to the first n calls of a history. */
  function ListenTo(sv: Service, rx: Rx, t: Table, w: Word8, h: seq<Encoder>, n: nat, signed: bool): Rx
    requires n <= |h|
  {
    var ms := Messages(h, n, signed);
    Listen(sv, rx, RunSamples(t, w, OnAir(ms)), |ms|)
  }

  // ---------- Block synchronisation ----------

  /** The offset word of block j. */
  function OffsetIndex(m: Message, j: nat): nat {
    if j == 2 && m.versionB then ALT_OFFSET_WORD_C else j
  }

  /** The syndrome of every block on air is the offset word of its place in the group and of no
      other; the third block also shows the version. */
  lemma SyndromeShowsPosition(m: Message, j: nat, k: nat)
    requires j < 4 && k < 5
    ensures Syndrome(CodesOf(m)[j]) == OffsetWord(k) <==> k == OffsetIndex(m, j)
  {
    var b := BlocksOf(m)[j];
    assert CodesOf(m)[j] == Encode(b);
    SyndromeIdentifiesBlock(b, k, OffsetIndex(m, j));
  }

  // ---------- The air is transparent ----------

  /** The version bit of the second word agrees with the offset word of the third. */
  ghost predicate Consistent(m: Message) {
    m.versionB == m.w2[4]
  }

  lemma SentIsConsistent(e: Encoder, signed: bool)
    requires Transmit(e, signed).0.Sent?
    ensures Consistent(Transmit(e, signed).0.msg)
  {
    match CallOf(e).Kind().kind
    case Tuning0B =>
    case Labels1A =>
    case Text2A =>
    case Clock4A =>
    case TypeName10A =>
    case Tuning15B =>
  }

  lemma WordOfCode(m: Message, j: nat)
    requires j < 4
    ensures CodesOf(m)[j][..16] ==
            if j == 0 then m.w1 else if j == 1 then m.w2 else if j == 2 then m.w3 else m.w4
  {
    assert CodesOf(m)[j] == Encode(BlocksOf(m)[j]);
  }

  /** The bits are those of the messages, except for the last one. */
  ghost predicate Heard(bits: seq<bool>, ms: seq<Message>) {
    |ms| > 0 && bits == RunBits(OnAir(ms))[..104 * |ms| - 1]
  }

  lemma HeardWord(bits: seq<bool>, ms: seq<Message>, g: nat, j: nat)
    requires Heard(bits, ms) && g < |ms| && j < 4
    ensures ReadWord(bits, g, j) == CodesOf(ms[g])[j][..16]
  {
    var word, code := ReadWord(bits, g, j), CodesOf(ms[g])[j];
    forall k | 0 <= k < 16
      ensures word[k] == code[k]
    {
      BitInRun(OnAir(ms), g, j, k);
      assert word[k] == bits[104 * g + 26 * j + k];
    }
  }

  lemma HeardMessage(bits: seq<bool>, ms: seq<Message>, g: nat)
    requires Heard(bits, ms) && g < |ms| && Consistent(ms[g])
    ensures ReadMessage(bits, g) == ms[g]
  {
    HeardWord(bits, ms, g, 0); HeardWord(bits, ms, g, 1);
    HeardWord(bits, ms, g, 2); HeardWord(bits, ms, g, 3);
    WordOfCode(ms[g], 0); WordOfCode(ms[g], 1); WordOfCode(ms[g], 2); WordOfCode(ms[g], 3);
  }

  lemma {:induction false} HeardMessages(bits: seq<bool>, ms: seq<Message>, n: nat)
    requires Heard(bits, ms) && n <= |ms|
    requires forall g :: 0 <= g < |ms| ==> Consistent(ms[g])
    ensures ReadMessages(bits, n) == ms[..n]
  {
    if n > 0 {
      HeardMessages(bits, ms, n - 1);
      HeardMessage(bits, ms, n - 1);
      assert ms[..n] == ms[..n - 1] + [ms[n - 1]];
    }
  }

  /** The air is transparent: the receiver reads from the samples exactly the messages of the
      encoder, whatever the modulator's window held before. */
  lemma MessagesFromAir(t: Table, w: Word8, ms: seq<Message>)
    requires Readable(t) && |ms| > 0
    requires forall g :: 0 <= g < |ms| ==> Consistent(ms[g])
    ensures ReadSamples(RunSamples(t, w, OnAir(ms)), |ms|) == ms
  {
    RunDemodulates(t, w, OnAir(ms));
    HeardMessages(Demodulate(RunSamples(t, w, OnAir(ms)), 104 * |ms|), ms, |ms|);
    assert ms[..|ms|] == ms;
  }

  lemma {:induction false} MessagesAreConsistent(h: seq<Encoder>, n: nat, signed: bool)
    requires n <= |h|
    ensures forall g :: 0 <= g < |Messages(h, n, signed)| ==> Consistent(Messages(h, n, signed)[g])
  {
    if n > 0 {
      MessagesAreConsistent(h, n - 1, signed);
      MessagesStep(h, n - 1, signed);
      if Transmit(h[n - 1], signed).0.Sent? { SentIsConsistent(h[n - 1], signed); }
    }
  }

  lemma FoldStep(sv: Service, rx: Rx, ms: seq<Message>, s: Sent)
    ensures ReceiveMessages(sv, rx, AddSent(ms, s)) == ReceiveSent(sv, ReceiveMessages(sv, rx, ms), s)
  {
    if s.Sent? { assert AddSent(ms, s)[..|ms|] == ms; }
  }

  lemma {:induction false} ReceiveIsFold(sv: Service, rx: Rx, s: seq<Sent>, n: nat)
    requires n <= |s|
    ensures ReceiveAll(sv, rx, s, n) == ReceiveMessages(sv, rx, Collect(s, n))
  {
    if n > 0 {
      ReceiveIsFold(sv, rx, s, n - 1);
      FoldStep(sv, rx, Collect(s, n - 1), s[n - 1]);
    }
  }

  /** Listening to the samples of a history is the same as receiving its groups one by one. */
  lemma ListeningIsReceiving(sv: Service, rx: Rx, t: Table, w: Word8, h: seq<Encoder>, n: nat, signed: bool)
    requires Readable(t) && n <= |h| && Messages(h, n, signed) != []
    ensures ListenTo(sv, rx, t, w, h, n, signed) == ReceiveRun(sv, rx, h, n, signed)
  {
    MessagesAreConsistent(h, n, signed);
    MessagesFromAir(t, w, Messages(h, n, signed));
    ReceiveIsFold(sv, rx, Broadcast(h, signed), n);
  }

  lemma OtherIsSent(e: Encoder, signed: bool)
    requires Reachable(e.sched) && !CallOf(e).IsClock()
    ensures Transmit(e, signed).0.Sent?
  {
    CallEffect(CallOf(e));
  }

  /** RadioText, end to end, over a whole run. Call i sends RadioText; then other processes set a
      text with a flush, or an odd number of flushes, and leave it alone while 36 groups go out
      besides clock groups; they reconfigure the rest of the encoder at will. From nothing but
      the samples of the waveform, and from whatever state it was in, the receiver shows exactly
      the text given to the setter if and only if it is clean and fits. The table of the encoder
      is readable (TableIsReadable). */
  lemma TextOverTheAir(t: Table, w: Word8, h: seq<Encoder>, gaps: seq<seq<Op>>, signed: bool, rx: Rx,
                       i: nat, j: nat, m: nat, s: seq<Byte>, n: nat)
    requires Readable(t) && SetBetween(h, gaps, signed, i, j, m, s)
    requires j + n < |h| && Others(Calls(h[j..]), n) >= 36
    requires FlipsBetween(h, gaps, signed, i, j) % 2 == 1
    ensures var len := Strnlen(s, 64);
            Screen(ListenTo(TextService, rx, t, w, h, j + n, signed), 64) == Given(s, len) <==>
            Fits64(s, len) && Clean(s, len, signed)
  {
    SomethingIsSent(h, signed, i, j + n);
    ListeningIsReceiving(TextService, rx, t, w, h, j + n, signed);
    FlushShowsNewText(h, gaps, signed, rx, i, j, m, s, n);
  }

  lemma SomethingIsSent(h: seq<Encoder>, signed: bool, i: nat, n: nat)
    requires i < n <= |h| && CallOf(h[i]).Kind().Picked?
    ensures Messages(h, n, signed) != []
  {
    var s := Broadcast(h, signed);
    PickedIsSent(h[i], signed);
    assert s[i].Sent?;
    MessagesGrow(s, i, n);
  }

  lemma PickedIsSent(e: Encoder, signed: bool)
    requires CallOf(e).Kind().Picked?
    ensures Transmit(e, signed).0.Sent?
  {
  }

  lemma {:induction false} MessagesGrow(s: seq<Sent>, i: nat, n: nat)
    requires i < n <= |s| && s[i].Sent?
    ensures Collect(s, n) != []
  {
    if i < n - 1 { MessagesGrow(s, i, n - 1); }
  }

  /** PS and DI, end to end: a name is given to the setter and left alone while twelve groups go
      out besides clock groups. From nothing but the samples, the receiver has all of DI and shows
      the stored name; it shows exactly the name given to the setter if and only if the setter
      kept all its characters. */
  lemma PsOverTheAir(t: Table, w: Word8, h: seq<Encoder>, rx: Rx, signed: bool, n: nat, r: Name, s: seq<Byte>)
    requires Readable(t) && Steady(PsService, h, signed) && n < |h| && Others(Calls(h), n) >= 12
    requires Strnlen(s, 8) > 0 && h[0].st.ps.text == ApplyPs(r, Text(s), signed).text
    ensures var now, len := ListenTo(PsService, rx, t, w, h, n, signed), Strnlen(s, 8);
            && DecoderInfo(now) == ToBits(h[0].st.station.di, 4) && NameScreen(now) == h[0].st.ps.text
            && (NameScreen(now) == s[..len] + seq(8 - len, _ => 0) <==> forall i :: 0 <= i < len ==> Kept(s[i], signed))
  {
    HistoryIsSent(h, signed, n);
    ListeningIsReceiving(PsService, rx, t, w, h, n, signed);
    PsIsDelivered(h, rx, signed, n);
    SetPsIsShownIff(h, rx, signed, n, r, s);
  }

  lemma HistoryIsSent(h: seq<Encoder>, signed: bool, n: nat)
    requires IsHistory(h, signed) && n <= |h| && Others(Calls(h), n) > 0
    ensures Messages(h, n, signed) != []
  {
    var i := SomeOther(Calls(h), n);
    OtherIsSent(h[i], signed);
    MessagesGrow(Broadcast(h, signed), i, n);
  }

  lemma {:induction false} SomeOther(r: seq<Call>, n: nat) returns (i: nat)
    requires n <= |r| && Others(r, n) > 0
    ensures i < n && !r[i].IsClock()
  {
    if r[n - 1].IsClock() { i := SomeOther(r, n - 1); } else { i := n - 1; }
  }
}
