/** The shared encoder state and the setters that other processes call on it. */
module Config {

  /** A char as it lies in memory. */
  type Byte = c: nat | c < 256

  // Bit-fields of the encoder state: an assignment keeps the low bits.
  type U1 = x: nat | x < 2
  type U2 = x: nat | x < 4
  type U4 = x: nat | x < 16
  type U5 = x: nat | x < 32
  type U12 = x: nat | x < 4096
  type U16 = x: nat | x < 65536

  type Bytes8 = s: seq<Byte> | |s| == 8 witness seq(8, _ => 0)
  type Bytes64 = s: seq<Byte> | |s| == 64 witness seq(64, _ => 0)

  /** A string argument: a null pointer, or the characters up to the end of the array or of
      the string. Anything after a zero byte is ignored by the setters. */
  datatype CString = Null | Text(bytes: seq<Byte>)

  datatype Station = Station(enabled: Byte, pi: U16, ecc: Byte, eccSet: bool, lic: U12, licSet: bool,
                             pty: U5, ta: bool, tp: bool, ms: bool, di: U4)
  datatype Name = Name(text: Bytes8, isSet: bool, idx: U2)
  datatype TypeName = TypeName(text: Bytes8, isSet: bool, idx: U1, flush: bool)
  datatype RadioText = RadioText(text: Bytes64, isSet: bool, idx: U4, segments: U4, flush: bool)
  datatype State = State(station: Station, ps: Name, ptyn: TypeName, rt: RadioText)

  /** The value of a char in an expression; the platform decides whether chars are signed. */
  function Promote(c: Byte, signed: bool): int {
    if signed && c >= 128 then c - 256 else c
  }

  /** strnlen */
  function Strnlen(s: seq<Byte>, max: nat): (n: nat)
    ensures n <= max && n <= |s|
    ensures forall i :: 0 <= i < n ==> s[i] != 0
    ensures n < max && n < |s| ==> s[n] == 0
  {
    ScanFrom(s, max, 0)
  }

  /** The first place from i on where the string ends. */
  function ScanFrom(s: seq<Byte>, max: nat, i: nat): (n: nat)
    requires i <= max && i <= |s|
    ensures i <= n <= max && n <= |s|
    ensures forall k :: i <= k < n ==> s[k] != 0
    ensures n < max && n < |s| ==> s[n] == 0
    decreases |s| - i
  {
    if i == max || i == |s| || s[i] == 0 then i else ScanFrom(s, max, i + 1)
  }

  /** Characters that the PS and PTYN setters keep. */
  predicate Kept(c: Byte, signed: bool) {
    Promote(c, signed) >= 0x20 || Promote(c, signed) == 0x7F
  }

  /** Characters that the RT setter replaces by zero. The four inequalities were meant to spare
      the control characters of RadioText, but one of any two of them always holds. */
  predicate Cleared(c: Byte, signed: bool) {
    var x := Promote(c, signed);
    (x < 0x20 && (x != 0x0D || x != 0x0A || x != 0x0B || x != 0x1F)) || x == 0x7F
  }

  /** The first n characters of s, filtered, in a field of eight. */
  function NameField(s: seq<Byte>, n: nat, signed: bool): Bytes8
    requires n <= 8 && n <= |s|
  {
    seq(8, i requires 0 <= i < 8 => if i < n && Kept(s[i], signed) then s[i] else 0)
  }

  /** Where the padding of a text of n characters stops. */
  function PaddedLength(n: nat): nat {
    if n % 4 == 0 then n else if n <= 60 then n / 4 * 4 + 4 else 63
  }

  /** The first n characters of s, filtered and padded with spaces, in a field of 64. */
  function TextField(s: seq<Byte>, n: nat, signed: bool): Bytes64
    requires n <= 64 && n <= |s|
  {
    seq(64, i requires 0 <= i < 64 =>
      if i < n then if Cleared(s[i], signed) then 0 else s[i]
      else if i < PaddedLength(n) then 0x20
      else 0)
  }

  datatype Op =
    | SetEnabled(on: bool) | SetPi(pi: U16) | SetEcc(ecc: Byte) | SetLic(lic: U16) | SetPty(pty: Byte)
    | SetTa(ta: Byte) | SetTp(tp: Byte) | SetMs(ms: Byte) | SetDi(di: Byte)
    | SetPs(ps: CString) | SetPtyn(ptyn: CString) | SetRt(rt: CString, flushRt: bool)

  function ApplyPs(n: Name, s: CString, signed: bool): Name {
    if s.Null? then n
    else
      var len := Strnlen(s.bytes, 8);
      if len == 0 then n else Name(NameField(s.bytes, len, signed), true, 0)
  }

  function ApplyPtyn(n: TypeName, s: CString, signed: bool): TypeName {
    if s.Null? then n
    else
      var len := Strnlen(s.bytes, 8);
      if len == 0 then n.(isSet := false, text := seq(8, _ => 0))
      else TypeName(NameField(s.bytes, len, signed), true, 0, if n.isSet then !n.flush else n.flush)
  }

  function ApplyRt(r: RadioText, s: CString, flush: bool, signed: bool): RadioText {
    if s.Null? then r
    else
      var len := Strnlen(s.bytes, 64);
      if len == 0 then r.(isSet := false, text := seq(64, _ => 0))
      else
        RadioText(TextField(s.bytes, len, signed), true, 0, PaddedLength(len) / 4 % 16,
                  if flush && r.isSet then !r.flush else r.flush)
  }

  function Apply(st: State, op: Op, signed: bool): State {
    match op
    case SetEnabled(x) => st.(station := st.station.(enabled := if x then 1 else 0))
    case SetPi(x) => st.(station := st.station.(pi := x))
    case SetEcc(x) => st.(station := st.station.(ecc := x, eccSet := x != 0))
    case SetLic(x) => st.(station := st.station.(lic := x % 4096, licSet := x % 4096 != 0))
    case SetPty(x) => if x <= 31 then st.(station := st.station.(pty := x)) else st
    case SetTa(x) => st.(station := st.station.(ta := x % 2 == 1))
    case SetTp(x) => st.(station := st.station.(tp := x % 2 == 1))
    case SetMs(x) => st.(station := st.station.(ms := x % 2 == 1))
    case SetDi(x) => st.(station := st.station.(di := x % 16))
    case SetPs(s) => st.(ps := ApplyPs(st.ps, s, signed))
    case SetPtyn(s) => st.(ptyn := ApplyPtyn(st.ptyn, s, signed))
    case SetRt(s, flush) => st.(rt := ApplyRt(st.rt, s, flush, signed))
  }

  function ApplyAll(st: State, ops: seq<Op>, signed: bool): State {
    if |ops| == 0 then st
    else Apply(ApplyAll(st, ops[..|ops| - 1], signed), ops[|ops| - 1], signed)
  }

  /** The state after the encoder has been initialised. */
  function InitialState(): State {
    State(Station(0, 0, 0, false, 0, false, 0, false, false, true, 0x1 + 0x8),
          Name(seq(8, _ => 0), false, 0),
          TypeName(seq(8, _ => 0), false, 0, false),
          RadioText(seq(64, _ => 0), false, 0, 0, false))
  }

  /** The state in memory, updated in place by the setters. */
  class EncoderState {
    const signed: bool
    var station: Station
    const ps: array<Byte>
    var psSet: bool
    var psIdx: U2
    const ptyn: array<Byte>
    var ptynSet: bool
    var ptynIdx: U1
    var ptynFlush: bool
    const rt: array<Byte>
    var rtSet: bool
    var rtIdx: U4
    var rtSegments: U4
    var rtFlush: bool

    ghost predicate Valid() {
      ps.Length == 8 && ptyn.Length == 8 && rt.Length == 64 && ps != ptyn && ps != rt && ptyn != rt
    }

    ghost function Value(): State
      requires Valid()
      reads this, ps, ptyn, rt
    {
      State(station, Name(ps[..], psSet, psIdx), TypeName(ptyn[..], ptynSet, ptynIdx, ptynFlush),
            RadioText(rt[..], rtSet, rtIdx, rtSegments, rtFlush))
    }

    constructor (signed: bool)
      ensures Valid() && Value() == InitialState() && this.signed == signed
      ensures fresh(ps) && fresh(ptyn) && fresh(rt)
    {
      this.signed := signed;
      station := Station(0, 0, 0, false, 0, false, 0, false, false, true, 0x1 + 0x8);
      ps := new Byte[8](_ => 0);
      psSet, psIdx := false, 0;
      ptyn := new Byte[8](_ => 0);
      ptynSet, ptynIdx, ptynFlush := false, 0, false;
      rt := new Byte[64](_ => 0);
      rtSet, rtIdx, rtSegments, rtFlush := false, 0, 0, false;
    }

    /** The tools write the field directly. */
    method SetEnabled(on: bool)
      requires Valid()
      modifies this
      ensures Value() == Apply(old(Value()), Op.SetEnabled(on), signed)
      ensures station == old(station).(enabled := if on then 1 else 0)
    {
      station := station.(enabled := if on then 1 else 0);
    }

    method SetPi(pi: U16) returns (ret: int)
      requires Valid()
      modifies this
      ensures Value() == Apply(old(Value()), Op.SetPi(pi), signed) && ret == 0
      ensures station == old(station).(pi := pi)
    {
      station := station.(pi := pi);
      ret := 0;
    }

    method SetEcc(ecc: Byte) returns (ret: int)
      requires Valid()
      modifies this
      ensures Value() == Apply(old(Value()), Op.SetEcc(ecc), signed) && ret == 0
      ensures station == old(station).(ecc := ecc, eccSet := ecc != 0)
    {
      station := station.(ecc := ecc);
      if station.ecc == 0 {
        station := station.(eccSet := false);
      } else {
        station := station.(eccSet := true);
      }
      ret := 0;
    }

    method SetLic(lic: U16) returns (ret: int)
      requires Valid()
      modifies this
      ensures Value() == Apply(old(Value()), Op.SetLic(lic), signed) && ret == 0
      ensures station == old(station).(lic := lic % 4096, licSet := lic % 4096 != 0)
    {
      station := station.(lic := lic % 4096);
      if station.lic == 0 {
        station := station.(licSet := false);
      } else {
        station := station.(licSet := true);
      }
      ret := 0;
    }

    method SetPty(pty: Byte) returns (ret: int)
      requires Valid()
      modifies this
      ensures Value() == Apply(old(Value()), Op.SetPty(pty), signed)
      ensures station == if pty <= 31 then old(station).(pty := pty) else old(station)
      ensures ret == if pty <= 31 then 0 else -1
    {
      if pty <= 31 {
        station := station.(pty := pty);
      } else {
        return -1;
      }
      ret := 0;
    }

    method SetTa(ta: Byte) returns (ret: int)
      requires Valid()
      modifies this
      ensures Value() == Apply(old(Value()), Op.SetTa(ta), signed) && ret == 0
      ensures station == old(station).(ta := ta % 2 == 1)
    {
      station := station.(ta := ta % 2 == 1);
      ret := 0;
    }

    method SetTp(tp: Byte) returns (ret: int)
      requires Valid()
      modifies this
      ensures Value() == Apply(old(Value()), Op.SetTp(tp), signed) && ret == 0
      ensures station == old(station).(tp := tp % 2 == 1)
    {
      station := station.(tp := tp % 2 == 1);
      ret := 0;
    }

    method SetMs(ms: Byte) returns (ret: int)
      requires Valid()
      modifies this
      ensures Value() == Apply(old(Value()), Op.SetMs(ms), signed) && ret == 0
      ensures station == old(station).(ms := ms % 2 == 1)
    {
      station := station.(ms := ms % 2 == 1);
      ret := 0;
    }

    method SetDi(di: Byte) returns (ret: int)
      requires Valid()
      modifies this
      ensures Value() == Apply(old(Value()), Op.SetDi(di), signed) && ret == 0
      ensures station == old(station).(di := di % 16)
    {
      station := station.(di := di % 16);
      ret := 0;
    }

    method SetPs(s: CString) returns (ret: int)
      requires Valid()
      modifies this, ps
      ensures Value() == Apply(old(Value()), Op.SetPs(s), signed)
      ensures ret == if s.Null? then -1 else if |s.bytes| == 0 || s.bytes[0] == 0 then -2 else 0
    {
      if s.Null? { return -1; }
      var len := Strnlen(s.bytes, 8);
      if len == 0 || len > 8 { return -2; }
      StoreName(ps, s.bytes, len, signed);
      psSet := true;
      psIdx := 0;
      ret := 0;
    }

    method SetPtyn(s: CString) returns (ret: int)
      requires Valid()
      modifies this, ptyn
      ensures Value() == Apply(old(Value()), Op.SetPtyn(s), signed)
      ensures ret == if s.Null? then -1 else 0
    {
      if s.Null? { return -1; }
      var len := Strnlen(s.bytes, 8);
      if len == 0 {
        ptynSet := false;
        forall i | 0 <= i < 8 { ptyn[i] := 0; }
        return 0;
      }
      if ptynSet { ptynFlush := if ptynFlush then false else true; }
      StoreName(ptyn, s.bytes, len, signed);
      ptynSet := true;
      ptynIdx := 0;
      ret := 0;
    }

    method SetRt(s: CString, flush: bool) returns (ret: int)
      requires Valid()
      modifies this, rt
      ensures Value() == Apply(old(Value()), Op.SetRt(s, flush), signed)
      ensures ret == if s.Null? then -1 else 0
    {
      if s.Null? { return -1; }
      var len := Strnlen(s.bytes, 64);
      if len == 0 {
        rtSet := false;
        forall i | 0 <= i < 64 { rt[i] := 0; }
        return 0;
      }
      if flush && rtSet { rtFlush := if rtFlush then false else true; }
      PutText(s.bytes, len);
      ret := 0;
    }

    /** The setter that another process calls. */
    method Call(op: Op)
      requires Valid()
      modifies this, ps, ptyn, rt
      ensures Value() == Apply(old(Value()), op, signed)
    {
      match op {
        case SetEnabled(on) => SetEnabled(on);
        case SetPi(pi) => var _ := SetPi(pi);
        case SetEcc(ecc) => var _ := SetEcc(ecc);
        case SetLic(lic) => var _ := SetLic(lic);
        case SetPty(pty) => var _ := SetPty(pty);
        case SetTa(ta) => var _ := SetTa(ta);
        case SetTp(tp) => var _ := SetTp(tp);
        case SetMs(ms) => var _ := SetMs(ms);
        case SetDi(di) => var _ := SetDi(di);
        case SetPs(s) => var _ := SetPs(s);
        case SetPtyn(s) => var _ := SetPtyn(s);
        case SetRt(s, flush) => var _ := SetRt(s, flush);
      }
    }

    /** Store a text of len characters, to be sent from its first segment on. */
    method PutText(s: seq<Byte>, len: nat)
      requires Valid() && 0 < len <= 64 && len <= |s|
      modifies `rtSet, `rtIdx, `rtSegments, rt
      ensures RadioText(rt[..], rtSet, rtIdx, rtSegments, rtFlush) ==
              RadioText(TextField(s, len, signed), true, 0, PaddedLength(len) / 4 % 16, rtFlush)
    {
      var end := StoreText(rt, s, len, signed);
      rtSegments := end / 4 % 16;
      rtSet := true;
      rtIdx := 0;
    }
  }

  /** Clear a field of eight characters and fill it with the first n of s, filtered. */
  method StoreName(field: array<Byte>, s: seq<Byte>, n: nat, signed: bool)
    requires field.Length == 8 && n <= 8 && n <= |s|
    modifies field
    ensures field[..] == NameField(s, n, signed)
  {
    forall i | 0 <= i < 8 { field[i] := 0; }
    for i := 0 to n
      invariant forall k :: 0 <= k < i ==> field[k] == if Kept(s[k], signed) then s[k] else 0
      invariant forall k :: i <= k < 8 ==> field[k] == 0
    {
      if Promote(s[i], signed) >= 0x20 || Promote(s[i], signed) == 0x7F {
        field[i] := s[i];
      } else {
        field[i] := 0;
      }
    }
  }

  /** The first n characters of s, filtered, then zeros. */
  ghost predicate Filtered(f: seq<Byte>, s: seq<Byte>, n: nat, signed: bool)
    requires n <= |s|
  {
    && |f| == 64 && n <= 64
    && (forall k :: 0 <= k < n ==> f[k] == if Cleared(s[k], signed) then 0 else s[k])
    && (forall k :: n <= k < 64 ==> f[k] == 0)
  }

  /** Clear a field of 64 characters and fill it with the first n of s, filtered. */
  method FilterText(field: array<Byte>, s: seq<Byte>, n: nat, signed: bool)
    requires field.Length == 64 && n <= 64 && n <= |s|
    modifies field
    ensures Filtered(field[..], s, n, signed)
  {
    forall k | 0 <= k < 64 { field[k] := 0; }
    var i := 0;
    while i < n
      invariant i <= n && Filtered(field[..], s, i, signed)
    {
      var x := Promote(s[i], signed);
      if (x < 0x20 && (x != 0x0D || x != 0x0A || x != 0x0B || x != 0x1F)) || x == 0x7F {
        field[i] := 0;
      } else {
        field[i] := s[i];
      }
      i := i + 1;
    }
  }

  /** Pad with spaces to a whole segment or to the last but one character. */
  method PadText(field: array<Byte>, n: nat) returns (i: nat)
    requires field.Length == 64 && n <= 64 && forall k :: n <= k < 64 ==> field[k] == 0
    modifies field
    ensures i == PaddedLength(n)
    ensures forall k :: 0 <= k < n ==> field[k] == old(field[k])
    ensures forall k :: n <= k < 64 ==> field[k] == if k < i then 0x20 else 0
  {
    i := n;
    while i % 4 != 0 && i < 63
      invariant n <= i <= PaddedLength(n)
      invariant forall k :: 0 <= k < n ==> field[k] == old(field[k])
      invariant forall k :: n <= k < 64 ==> field[k] == if k < i then 0x20 else 0
      decreases 63 - i
    {
      field[i] := 0x20;
      i := i + 1;
    }
  }

  /** Clear a field of 64 characters, fill it with the first n of s, filtered, and pad it with
      spaces to a whole segment or to the last but one character. */
  method StoreText(field: array<Byte>, s: seq<Byte>, n: nat, signed: bool) returns (i: nat)
    requires field.Length == 64 && n <= 64 && n <= |s|
    modifies field
    ensures field[..] == TextField(s, n, signed)
    ensures i == PaddedLength(n)
  {
    FilterText(field, s, n, signed);
    i := PadText(field, n);
  }
}
