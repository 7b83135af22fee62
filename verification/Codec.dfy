/** Text forms of UUIDs, ids and GTIDs.  Text is a sequence of bytes, as in the source. */
module Codec {

  type Byte = x: int | 0 <= x < 256

  type Text = seq<Byte>

  datatype Option<T> = None | Some(value: T)

  const DASH: Byte := 45
  const COLON: Byte := 58
  const UUID_STR_LEN := 36
  const GTID_STR_LEN := 57
  const EINVAL := 22
  const ENOBUFS := 105

  // ---------------------------------------------------------------- hex digits

  predicate IsHex(c: Byte) { 48 <= c <= 57 || 65 <= c <= 70 || 97 <= c <= 102 }

  function HexValue(c: Byte): (v: nat)
    requires IsHex(c)
    ensures v < 16
  {
    if c <= 57 then c - 48 else if c <= 70 then c - 55 else c - 87
  }

  /** Lower case, as "%02x" prints. */
  function HexDigit(v: nat): (c: Byte)
    requires v < 16
    ensures IsHex(c) && HexValue(c) == v && c != DASH && c != COLON && (c <= 57 || c >= 97)
  {
    if v < 10 then 48 + v else 87 + v
  }

  /** The digits in ASCII: 0 to 9, then a to f in either case, and no other. */
  lemma HexDigits(c: Byte, v: nat)
    requires v < 16
    ensures IsHex(c) && HexValue(c) == v <==>
      || c == [48, 49, 50, 51, 52, 53, 54, 55, 56, 57, 97, 98, 99, 100, 101, 102][v]
      || c == [48, 49, 50, 51, 52, 53, 54, 55, 56, 57, 65, 66, 67, 68, 69, 70][v]
  {
  }

  /** The byte of two hex digits. */
  function Pair(high: Byte, low: Byte): Byte
    requires IsHex(high) && IsHex(low)
  {
    HexValue(high) * 16 + HexValue(low)
  }

  // ---------------------------------------------------------------- uuid_scan()

  /** Where a dash is skipped: ((offset >> 1) - 2) <= 3 in unsigned 32-bit arithmetic, ... */
  predicate DashAllowed(offset: nat) { (offset / 2 - 2) % 0x1_0000_0000 <= 3 }

  /** ... that is before bytes 4 to 11. */
  lemma DashPositions(offset: nat)
    requires offset < 16
    ensures DashAllowed(offset) <==> 4 <= offset < 12
  {
  }

  /** The text without its dashes, ... */
  function Strip(t: Text): Text {
    if t == [] then []
    else if t[|t| - 1] == DASH then Strip(t[..|t| - 1])
    else Strip(t[..|t| - 1]) + [t[|t| - 1]]
  }

  predicate AllHex(t: Text) { forall i :: 0 <= i < |t| ==> IsHex(t[i]) }

  /** ... and the bytes that pairs of hex digits stand for. */
  function Decode(digits: Text): (bytes: seq<Byte>)
    requires |digits| % 2 == 0 && AllHex(digits)
    ensures |bytes| == |digits| / 2
  {
    seq(|digits| / 2, i requires 0 <= i < |digits| / 2 => Pair(digits[2 * i], digits[2 * i + 1]))
  }

  /** The scanner as a function of what is left: `pos` characters read, `bytes` scanned. */
  function Scan(t: Text, pos: nat, bytes: seq<Byte>): Option<(nat, seq<Byte>)>
    requires pos <= |t| && |bytes| < 16
    decreases |t| - pos
  {
    if pos + 1 >= |t| then None
    else if DashAllowed(|bytes|) && t[pos] == DASH then Scan(t, pos + 1, bytes)
    else if IsHex(t[pos]) && IsHex(t[pos + 1]) then
      var more := bytes + [Pair(t[pos], t[pos + 1])];
      if |more| == 16 then Some((pos + 2, more)) else Scan(t, pos + 2, more)
    else None
  }

  lemma StripAppend(t: Text, pos: nat)
    requires pos < |t|
    ensures Strip(t[..pos + 1]) == if t[pos] == DASH then Strip(t[..pos]) else Strip(t[..pos]) + [t[pos]]
  {
    assert t[..pos + 1][..pos] == t[..pos];
  }

  lemma DecodeAppend(digits: Text, high: Byte, low: Byte)
    requires |digits| % 2 == 0 && AllHex(digits) && IsHex(high) && IsHex(low)
    ensures AllHex(digits + [high] + [low]) && Decode(digits + [high] + [low]) == Decode(digits) + [Pair(high, low)]
  {
    var all := digits + [high] + [low];
    assert AllHex(all) && |all| % 2 == 0 && |all| / 2 == |digits| / 2 + 1;
    assert forall i :: 0 <= i < |digits| / 2 ==> all[2 * i] == digits[2 * i] && all[2 * i + 1] == digits[2 * i + 1];
  }

  predicate Decodes(t: Text, bytes: seq<Byte>) {
    var digits := Strip(t);
    |digits| % 2 == 0 && AllHex(digits) && Decode(digits) == bytes
  }

  lemma DecodesPair(t: Text, len: nat, bytes: seq<Byte>)
    requires len + 1 < |t| && Decodes(t[..len], bytes) && IsHex(t[len]) && IsHex(t[len + 1])
    ensures Decodes(t[..len + 2], bytes + [Pair(t[len], t[len + 1])])
  {
    StripAppend(t, len);
    StripAppend(t, len + 1);
    DecodeAppend(Strip(t[..len]), t[len], t[len + 1]);
  }

  /** uuid_scan(): a successful scan is the hex decoding of what it has consumed, dashes
      removed; a failed one leaves the nil UUID. */
  method UuidScan(t: Text) returns (ret: int, uuid: seq<Byte>)
    ensures |uuid| == 16
    ensures ret < 0 ==> ret == -EINVAL && uuid == Nil() && Scan(t, 0, []).None?
    ensures ret >= 0 ==> 32 <= ret <= |t| && Decodes(t[..ret], uuid) && Scan(t, 0, []) == Some((ret, uuid))
  {
    var len, bytes: seq<Byte> := 0, [];
    assert t[..0] == [];
    while len + 1 < |t|
      invariant len <= |t| && |bytes| < 16 && 2 * |bytes| <= len
      invariant Decodes(t[..len], bytes)
      invariant Scan(t, 0, []) == Scan(t, len, bytes)
      decreases |t| - len
    {
      if DashAllowed(|bytes|) && t[len] == DASH {
        StripAppend(t, len);
        assert Scan(t, len, bytes) == Scan(t, len + 1, bytes);
        len := len + 1;
        continue;
      }
      if IsHex(t[len]) && IsHex(t[len + 1]) {
        DecodesPair(t, len, bytes);
        bytes := bytes + [Pair(t[len], t[len + 1])];
        len := len + 2;
        if |bytes| == 16 { return len, bytes; }
      } else {
        break;
      }
    }
    return -EINVAL, Nil();
  }

  function Nil(): (uuid: seq<Byte>)
    ensures |uuid| == 16 && forall i :: 0 <= i < 16 ==> uuid[i] == 0
  {
    [0, 0, 0, 0, 0, 0, 0, 0, 0, 0, 0, 0, 0, 0, 0, 0]
  }

  // ---------------------------------------------------------------- what uuid_scan() accepts

  lemma Assoc(a: Text, b: Text, c: Text)
    ensures a + (b + c) == (a + b) + c
  {
  }

  lemma ScanPair(before: Text, high: Byte, low: Byte, after: Text, bytes: seq<Byte>)
    requires |bytes| < 16 && IsHex(high) && IsHex(low)
    ensures var t := before + ([high, low] + after); var pos := |before| + 2;
      Scan(t, |before|, bytes) ==
        if |bytes| == 15 then Some((pos, bytes + [Pair(high, low)])) else Scan(t, pos, bytes + [Pair(high, low)])
  {
    var t := before + ([high, low] + after);
    assert t[|before|] == high && t[|before| + 1] == low;
  }

  lemma ScanDash(before: Text, after: Text, bytes: seq<Byte>)
    requires |bytes| < 16 && DashAllowed(|bytes|) && after != []
    ensures var t := before + ([DASH] + after); Scan(t, |before|, bytes) == Scan(t, |before| + 1, bytes)
  {
    assert (before + ([DASH] + after))[|before|] == DASH;
  }

  /** One byte of a UUID in text: any number of dashes, then two digits. */
  datatype Group = Group(dashes: nat, high: Byte, low: Byte)

  /** The last |gs| of sixteen bytes, with dashes before bytes 4 to 11 only. */
  predicate Form(gs: seq<Group>) {
    |gs| <= 16 &&
    forall j :: 0 <= j < |gs| ==>
      IsHex(gs[j].high) && IsHex(gs[j].low) && (gs[j].dashes > 0 ==> 4 <= 16 - |gs| + j < 12)
  }

  function Dashes(n: nat): (t: Text)
    ensures |t| == n && forall i :: 0 <= i < n ==> t[i] == DASH
  {
    if n == 0 then [] else [DASH] + Dashes(n - 1)
  }

  function Write(gs: seq<Group>): Text {
    if gs == [] then [] else Dashes(gs[0].dashes) + ([gs[0].high, gs[0].low] + Write(gs[1..]))
  }

  function Values(gs: seq<Group>): (bytes: seq<Byte>)
    requires Form(gs)
    ensures |bytes| == |gs|
  {
    if gs == [] then [] else [Pair(gs[0].high, gs[0].low)] + Values(gs[1..])
  }

  lemma {:induction false} ScanDashes(before: Text, n: nat, after: Text, bytes: seq<Byte>)
    requires |bytes| < 16 && (n > 0 ==> DashAllowed(|bytes|)) && after != []
    ensures var t := before + (Dashes(n) + after); Scan(t, |before|, bytes) == Scan(t, |before| + n, bytes)
    decreases n
  {
    if n > 0 {
      Assoc([DASH], Dashes(n - 1), after);
      ScanDash(before, Dashes(n - 1) + after, bytes);
      ScanDashes(before + [DASH], n - 1, after, bytes);
      Assoc(before, [DASH], Dashes(n - 1) + after);
    }
  }

  lemma ScanGroup(before: Text, g: Group, after: Text, bytes: seq<Byte>)
    requires |bytes| < 16 && IsHex(g.high) && IsHex(g.low) && (g.dashes > 0 ==> DashAllowed(|bytes|))
    ensures var t := before + (Dashes(g.dashes) + ([g.high, g.low] + after));
      var pos, more := |before| + g.dashes + 2, bytes + [Pair(g.high, g.low)];
      Scan(t, |before|, bytes) == if |bytes| == 15 then Some((pos, more)) else Scan(t, pos, more)
  {
    var tail := [g.high, g.low] + after;
    ScanDashes(before, g.dashes, tail, bytes);
    Assoc(before, Dashes(g.dashes), tail);
    ScanPair(before + Dashes(g.dashes), g.high, g.low, after, bytes);
  }

  lemma WriteThen(g: Group, rest: Text, after: Text)
    ensures (Dashes(g.dashes) + ([g.high, g.low] + rest)) + after ==
      Dashes(g.dashes) + ([g.high, g.low] + (rest + after))
  {
    Assoc(Dashes(g.dashes), [g.high, g.low] + rest, after);
    Assoc([g.high, g.low], rest, after);
  }

  /** The text up to and with the first group, and what comes after. */
  lemma WriteFirst(before: Text, g: Group, rest: Text)
    ensures before + (Dashes(g.dashes) + ([g.high, g.low] + rest)) ==
      (before + Dashes(g.dashes) + [g.high, g.low]) + rest
  {
    Assoc(before, Dashes(g.dashes), [g.high, g.low] + rest);
    Assoc(before + Dashes(g.dashes), [g.high, g.low], rest);
  }

  /** Every text of that form is accepted, whatever follows it. */
  lemma {:induction false} AcceptsForm(gs: seq<Group>, before: Text, after: Text, bytes: seq<Byte>)
    requires Form(gs) && gs != [] && |bytes| + |gs| == 16
    ensures Scan(before + (Write(gs) + after), |before|, bytes) == Some((|before| + |Write(gs)|, bytes + Values(gs)))
    decreases |gs|, 2
  {
    if |gs| > 1 { AcceptsMore(gs, before, after, bytes); } else { AcceptsLast(gs, before, after, bytes); }
  }

  lemma AcceptsLast(gs: seq<Group>, before: Text, after: Text, bytes: seq<Byte>)
    requires Form(gs) && |gs| == 1 && |bytes| == 15
    ensures Scan(before + (Write(gs) + after), |before|, bytes) == Some((|before| + |Write(gs)|, bytes + Values(gs)))
  {
    ScanGroup(before, gs[0], Write(gs[1..]) + after, bytes);
    WriteThen(gs[0], Write(gs[1..]), after);
    assert Values(gs) == [Pair(gs[0].high, gs[0].low)];
  }

  lemma {:induction false} AcceptsMore(gs: seq<Group>, before: Text, after: Text, bytes: seq<Byte>)
    requires Form(gs) && |gs| > 1 && |bytes| + |gs| == 16
    ensures Scan(before + (Write(gs) + after), |before|, bytes) == Some((|before| + |Write(gs)|, bytes + Values(gs)))
    decreases |gs|, 1
  {
    ScanGroup(before, gs[0], Write(gs[1..]) + after, bytes);
    WriteThen(gs[0], Write(gs[1..]), after);
    AcceptsRest(gs, before, after, bytes);
    assert |Write(gs)| == gs[0].dashes + 2 + |Write(gs[1..])|;
  }

  lemma {:induction false} AcceptsRest(gs: seq<Group>, before: Text, after: Text, bytes: seq<Byte>)
    requires Form(gs) && |gs| > 1 && |bytes| + |gs| == 16
    ensures var g := gs[0]; var t := before + (Dashes(g.dashes) + ([g.high, g.low] + (Write(gs[1..]) + after)));
      Scan(t, |before| + g.dashes + 2, bytes + [Pair(g.high, g.low)]) ==
        Some((|before| + g.dashes + 2 + |Write(gs[1..])|, bytes + Values(gs)))
    decreases |gs|, 0
  {
    var g := gs[0];
    AcceptsForm(gs[1..], before + Dashes(g.dashes) + [g.high, g.low], after, bytes + [Pair(g.high, g.low)]);
    WriteFirst(before, g, Write(gs[1..]) + after);
    Assoc(bytes, [Pair(g.high, g.low)], Values(gs[1..]));
  }

  /** Whatever is accepted has that form. */
  lemma {:induction false} FormOfScan(t: Text, pos: nat, bytes: seq<Byte>) returns (gs: seq<Group>)
    requires pos <= |t| && |bytes| < 16 && Scan(t, pos, bytes).Some?
    ensures var (n, uuid) := Scan(t, pos, bytes).value;
      |bytes| + |gs| == 16 && pos <= n <= |t| && Form(gs) && Write(gs) == t[pos..n] && bytes + Values(gs) == uuid
    decreases |t| - pos
  {
    if DashAllowed(|bytes|) && t[pos] == DASH {
      var later := FormOfScan(t, pos + 1, bytes);
      gs := OneMoreDash(t, pos, later, Scan(t, pos, bytes).value.0);
    } else {
      var more := bytes + [Pair(t[pos], t[pos + 1])];
      var later := [];
      if |more| < 16 { later := FormOfScan(t, pos + 2, more); }
      gs := OneMorePair(t, pos, later, Scan(t, pos, bytes).value.0);
      Assoc(bytes, [Pair(t[pos], t[pos + 1])], Values(later));
    }
  }

  lemma OneMoreDash(t: Text, pos: nat, later: seq<Group>, n: nat) returns (gs: seq<Group>)
    requires pos < n <= |t| && t[pos] == DASH && Form(later) && later != [] && Write(later) == t[pos + 1..n]
    requires DashAllowed(16 - |later|)
    ensures |gs| == |later| && Form(gs) && Write(gs) == t[pos..n] && Values(gs) == Values(later)
  {
    gs := [Group(later[0].dashes + 1, later[0].high, later[0].low)] + later[1..];
    assert gs[1..] == later[1..];
    Assoc([DASH], Dashes(later[0].dashes), [later[0].high, later[0].low] + Write(later[1..]));
    assert t[pos..n] == [DASH] + t[pos + 1..n];
  }

  lemma OneMorePair(t: Text, pos: nat, later: seq<Group>, n: nat) returns (gs: seq<Group>)
    requires pos + 2 <= n <= |t| && IsHex(t[pos]) && IsHex(t[pos + 1]) && |later| < 16 && Form(later)
    requires Write(later) == t[pos + 2..n]
    ensures |gs| == |later| + 1 && Form(gs) && Write(gs) == t[pos..n]
    ensures Values(gs) == [Pair(t[pos], t[pos + 1])] + Values(later)
  {
    gs := [Group(0, t[pos], t[pos + 1])] + later;
    assert gs[1..] == later && Dashes(0) == [];
    assert t[pos..n] == [t[pos], t[pos + 1]] + t[pos + 2..n];
  }

  /** The groups spell the text and the bytes. */
  predicate Spells(gs: seq<Group>, t: Text, uuid: seq<Byte>) {
    |gs| == 16 && Form(gs) && Write(gs) == t && Values(gs) == uuid
  }

  lemma ScanSpells(t: Text, n: nat, uuid: seq<Byte>) returns (gs: seq<Group>)
    requires Scan(t, 0, []) == Some((n, uuid))
    ensures n <= |t| && Spells(gs, t[..n], uuid)
  {
    gs := FormOfScan(t, 0, []);
    assert t[0..n] == t[..n] && [] + Values(gs) == Values(gs);
  }

  lemma SpelledIsScanned(gs: seq<Group>, t: Text, n: nat, uuid: seq<Byte>)
    requires n <= |t| && Spells(gs, t[..n], uuid)
    ensures Scan(t, 0, []) == Some((n, uuid))
  {
    AcceptsForm(gs, [], t[n..], []);
    assert [] + (t[..n] + t[n..]) == t;
    assert [] + Values(gs) == uuid;
  }

  /** uuid_scan() accepts exactly the texts that begin with sixteen pairs of hex digits, with any number
      of dashes before each of bytes 4 to 11 and nowhere else, and consumes exactly that beginning. */
  lemma ScanAcceptsExactly(t: Text, n: nat, uuid: seq<Byte>)
    ensures Scan(t, 0, []) == Some((n, uuid)) <==> n <= |t| && exists gs :: Spells(gs, t[..n], uuid)
  {
    if Scan(t, 0, []) == Some((n, uuid)) {
      var gs := ScanSpells(t, n, uuid);
    } else if n <= |t| {
      forall gs | Spells(gs, t[..n], uuid)
        ensures false
      {
        SpelledIsScanned(gs, t, n, uuid);
      }
    }
  }

  // ---------------------------------------------------------------- the RFC form

  /** The dashes of section 3 of RFC 4122: one each before bytes 4, 6, 8 and 10. */
  function RfcDashes(i: int): nat { if i == 4 || i == 6 || i == 8 || i == 10 then 1 else 0 }

  /** The text of the last `k` of sixteen bytes is in the form of section 3 of RFC 4122. */
  predicate RfcForm(t: Text, k: nat) {
    var d := RfcDashes(16 - k);
    if k == 0 then t == []
    else |t| >= d + 2 && t[..d] == Dashes(d) && IsHex(t[d]) && IsHex(t[d + 1]) && RfcForm(t[d + 2..], k - 1)
  }

  predicate HasRfcDashes(gs: seq<Group>) {
    gs == [] || (gs[0].dashes == RfcDashes(16 - |gs|) && HasRfcDashes(gs[1..]))
  }

  /** An accepted text is in the RFC form exactly if it has the dashes of the RFC. */
  lemma {:induction false} RfcByDashes(gs: seq<Group>)
    requires Form(gs)
    ensures RfcForm(Write(gs), |gs|) <==> HasRfcDashes(gs)
    decreases |gs|
  {
    if gs != [] {
      RfcByDashes(gs[1..]);
      if gs[0].dashes == RfcDashes(16 - |gs|) { RfcFirst(gs); } else { NotRfcFirst(gs); }
    }
  }

  lemma RfcFirst(gs: seq<Group>)
    requires Form(gs) && gs != [] && gs[0].dashes == RfcDashes(16 - |gs|)
    ensures RfcForm(Write(gs), |gs|) == RfcForm(Write(gs[1..]), |gs[1..]|)
  {
    var d, t := gs[0].dashes, Write(gs);
    assert t[..d] == Dashes(d) && t[d + 2..] == Write(gs[1..]);
    assert t[d] == gs[0].high && t[d + 1] == gs[0].low;
  }

  lemma NotRfcFirst(gs: seq<Group>)
    requires Form(gs) && gs != [] && gs[0].dashes != RfcDashes(16 - |gs|)
    ensures !RfcForm(Write(gs), |gs|)
  {
    if gs[0].dashes > RfcDashes(16 - |gs|) { TooManyDashes(gs); } else { TooFewDashes(gs); }
  }

  lemma TooManyDashes(gs: seq<Group>)
    requires Form(gs) && gs != [] && gs[0].dashes > RfcDashes(16 - |gs|)
    ensures !RfcForm(Write(gs), |gs|)
  {
    assert Write(gs)[RfcDashes(16 - |gs|)] == DASH;
  }

  lemma TooFewDashes(gs: seq<Group>)
    requires Form(gs) && gs != [] && gs[0].dashes == 0 && RfcDashes(16 - |gs|) == 1
    ensures !RfcForm(Write(gs), |gs|)
  {
    assert Write(gs)[0] == gs[0].high;
    assert Write(gs)[..1][0] != Dashes(1)[0];
  }

  // ---------------------------------------------------------------- uuid_print()

  /** What uuid_print() prints of the last bytes: groups of 4, 2, 2, 2 and 6 bytes in lower case. */
  function PrintGroups(bytes: seq<Byte>): (gs: seq<Group>)
    requires |bytes| <= 16
    ensures |gs| == |bytes| && Form(gs) && HasRfcDashes(gs)
  {
    if bytes == [] then []
    else
      var g := Group(RfcDashes(16 - |bytes|), HexDigit(bytes[0] / 16), HexDigit(bytes[0] % 16));
      var gs := [g] + PrintGroups(bytes[1..]);
      assert gs[1..] == PrintGroups(bytes[1..]);
      gs
  }

  function UuidPrint(uuid: seq<Byte>): (t: Text)
    requires |uuid| == 16
    ensures |t| == UUID_STR_LEN && COLON !in t && RfcForm(t, |uuid|)
  {
    PrintLength(uuid);
    PrintsNoColon(uuid);
    RfcByDashes(PrintGroups(uuid));
    Write(PrintGroups(uuid))
  }

  lemma PrintNext(bytes: seq<Byte>)
    requires 0 < |bytes| <= 16
    ensures PrintGroups(bytes)[0] == Group(RfcDashes(16 - |bytes|), HexDigit(bytes[0] / 16), HexDigit(bytes[0] % 16))
    ensures PrintGroups(bytes)[1..] == PrintGroups(bytes[1..])
  {
  }

  lemma {:induction false} PrintValues(bytes: seq<Byte>)
    requires |bytes| <= 16
    ensures Values(PrintGroups(bytes)) == bytes
  {
    if bytes != [] {
      PrintNext(bytes);
      PrintValues(bytes[1..]);
      assert bytes == [bytes[0]] + bytes[1..];
    }
  }

  lemma {:induction false} PrintLength(bytes: seq<Byte>)
    requires |bytes| <= 16
    ensures var n := |bytes|;
      |Write(PrintGroups(bytes))| ==
        2 * n + if n >= 12 then 4 else if n >= 10 then 3 else if n >= 8 then 2 else if n >= 6 then 1 else 0
  {
    if bytes != [] {
      PrintNext(bytes);
      PrintLength(bytes[1..]);
    }
  }

  lemma {:induction false} PrintsNoColon(bytes: seq<Byte>)
    requires |bytes| <= 16
    ensures COLON !in Write(PrintGroups(bytes))
  {
    if bytes != [] {
      PrintNext(bytes);
      PrintsNoColon(bytes[1..]);
    }
  }

  /** Scanning a printed UUID gives it back and consumes the whole text. */
  lemma UuidRoundTrip(uuid: seq<Byte>)
    requires |uuid| == 16
    ensures Scan(UuidPrint(uuid), 0, []) == Some((UUID_STR_LEN, uuid))
  {
    var t := UuidPrint(uuid);
    PrintValues(uuid);
    assert t[..|t|] == t;
    SpelledIsScanned(PrintGroups(uuid), t, |t|, uuid);
  }

  /** Sixteen zero bytes with four dashes before byte `i`: 36 characters that uuid_scan() accepts and
      that are a valid id, and not in the RFC form. */
  lemma MisplacedDashesAreAccepted(i: nat) returns (t: Text, k: nat)
    requires 4 <= i < 12
    ensures |t| == UUID_STR_LEN && Scan(t, 0, []).Some? && Scan(t, 0, []).value.0 == UUID_STR_LEN
    ensures ParseId(t).Some? && k == 16 && !RfcForm(t, k)
  {
    var gs := Zeros(i) + ([Group(4, 48, 48)] + Zeros(15 - i));
    t, k := Write(gs), |gs|;
    WriteSplit(Zeros(i), [Group(4, 48, 48)] + Zeros(15 - i));
    ZerosLength(i);
    ZerosLength(15 - i);
    assert ([Group(4, 48, 48)] + Zeros(15 - i))[1..] == Zeros(15 - i);
    assert t[..|t|] == t;
    SpelledIsScanned(gs, t, |t|, Values(gs));
    RfcByDashes(gs);
    FourDashes(gs, i);
  }

  function Zeros(n: nat): (gs: seq<Group>)
    ensures |gs| == n && forall j :: 0 <= j < n ==> gs[j] == Group(0, 48, 48)
  {
    seq(n, j => Group(0, 48, 48))
  }

  lemma {:induction false} ZerosLength(n: nat)
    ensures |Write(Zeros(n))| == 2 * n
  {
    if n > 0 {
      ZerosLength(n - 1);
      assert Zeros(n)[1..] == Zeros(n - 1);
    }
  }

  lemma {:induction false} FourDashes(gs: seq<Group>, at: nat)
    requires at < |gs| && gs[at].dashes == 4
    ensures !HasRfcDashes(gs)
    decreases at
  {
    if at > 0 { FourDashes(gs[1..], at - 1); }
  }

  lemma {:induction false} WriteSplit(a: seq<Group>, b: seq<Group>)
    ensures Write(a + b) == Write(a) + Write(b)
  {
    if a == [] {
      assert a + b == b;
    } else {
      WriteSplit(a[1..], b);
      assert (a + b)[1..] == a[1..] + b;
      WriteThen(a[0], Write(a[1..]), Write(b));
    }
  }

  // ---------------------------------------------------------------- id

  predicate IsAlnum(c: Byte) { 48 <= c <= 57 || 65 <= c <= 90 || 97 <= c <= 122 }

  /** isalnum() and isspace() in the C locale. */
  lemma CharacterClasses(c: Byte)
    ensures IsAlnum(c) <==> IsDigit(c) || (c % 32 != 0 && c % 32 <= 26 && (c / 32 == 2 || c / 32 == 3))
    ensures IsDigit(c) <==> c / 16 == 3 && c % 16 < 10
    ensures IsSpace(c) <==> c in [9, 10, 11, 12, 13, 32]
  {
  }

  /** How many bytes before the first that is not alphanumeric. */
  function AlnumPrefix(t: Text): (n: nat)
    ensures n <= |t| && (forall i :: 0 <= i < n ==> IsAlnum(t[i])) && (n < |t| ==> !IsAlnum(t[n]))
  {
    if t == [] || !IsAlnum(t[0]) then 0 else 1 + AlnumPrefix(t[1..])
  }

  /** is_alphanumeric_string(). */
  predicate IsAlnumString(t: Text) {
    var n := AlnumPrefix(t);
    0 < n < |t| && forall i :: n <= i < |t| ==> t[i] == 0
  }

  /** operator<< of id: a short name as it is, anything else as a UUID. */
  function PrintId(id: seq<Byte>): (t: Text)
    requires |id| == 16
    ensures |t| <= UUID_STR_LEN && COLON !in t
  {
    if IsAlnumString(id) then id[..AlnumPrefix(id)] else UuidPrint(id)
  }

  /** id(const std::string&); None is the exception. */
  function ParseId(t: Text): (id: Option<seq<Byte>>)
    ensures id.Some? ==> |id.value| == 16
    ensures id.None? ==> |t| > 16
  {
    if |t| == UUID_STR_LEN && Scan(t, 0, []).Some? && Scan(t, 0, []).value.0 == UUID_STR_LEN then
      ScanLength(t, 0, []);
      Some(Scan(t, 0, []).value.1)
    else if |t| <= 16 then Some(t + Nil()[|t|..])
    else None
  }

  lemma ScanLength(t: Text, pos: nat, bytes: seq<Byte>)
    requires pos <= |t| && |bytes| < 16
    ensures Scan(t, pos, bytes).Some? ==> |Scan(t, pos, bytes).value.1| == 16
    decreases |t| - pos
  {
  }

  /** Parsing the printed form of any id gives it back. */
  lemma IdRoundTrip(id: seq<Byte>)
    requires |id| == 16
    ensures ParseId(PrintId(id)) == Some(id)
  {
    if IsAlnumString(id) {
      var n := AlnumPrefix(id);
      assert id[..n] + Nil()[n..] == id;
    } else {
      UuidRoundTrip(id);
    }
  }

  /** Letters and digits, then zeros. */
  predicate IsName(id: seq<Byte>, n: nat) {
    0 < n < |id| && (forall i :: 0 <= i < n ==> IsAlnum(id[i])) && forall i :: n <= i < |id| ==> id[i] == 0
  }

  /** An id that is a name prints as it is, ... */
  lemma NamesPrintAsThemselves(id: seq<Byte>, n: nat)
    requires |id| == 16 && IsName(id, n)
    ensures PrintId(id) == id[..n]
  {
    var m := AlnumPrefix(id);
    assert n < m ==> IsAlnum(id[n]);
  }

  /** ... and any other as a UUID. */
  lemma OthersPrintAsUuids(id: seq<Byte>)
    requires |id| == 16 && forall n :: !IsName(id, n)
    ensures |PrintId(id)| == UUID_STR_LEN && RfcForm(PrintId(id), 16)
  {
    assert !IsName(id, AlnumPrefix(id));
  }

  /** Text of up to 16 bytes is taken as it is, filled up with zeros. */
  lemma ShortTextIsAName(t: Text)
    requires |t| <= 16
    ensures ParseId(t).Some?
    ensures forall i :: 0 <= i < 16 ==> ParseId(t).value[i] == if i < |t| then t[i] else 0
  {
  }

  // ---------------------------------------------------------------- seqno

  const INT64_MAX := 9223372036854775807
  const INT64_MIN := -9223372036854775808

  predicate IsDigit(c: Byte) { 48 <= c <= 57 }

  predicate IsSpace(c: Byte) { 9 <= c <= 13 || c == 32 }

  function Decimal(n: nat): (t: Text)
    ensures |t| > 0 && forall i :: 0 <= i < |t| ==> IsDigit(t[i])
    ensures t[0] == 48 ==> n == 0 && |t| == 1
  {
    if n < 10 then [48 + n] else Decimal(n / 10) + [48 + n % 10]
  }

  function DigitValue(c: Byte): nat
    requires IsDigit(c)
  {
    c - 48
  }

  function Value(digits: Text): (n: nat)
    requires forall i :: 0 <= i < |digits| ==> IsDigit(digits[i])
  {
    if digits == [] then 0 else Value(digits[..|digits| - 1]) * 10 + DigitValue(digits[|digits| - 1])
  }

  lemma {:induction false} DecimalRoundTrip(n: nat)
    ensures Value(Decimal(n)) == n
  {
    if n < 10 {
      assert Decimal(n)[..0] == [];
    } else {
      DecimalRoundTrip(n / 10);
      assert Decimal(n)[..|Decimal(n)| - 1] == Decimal(n / 10);
    }
  }

  function Pow10(k: nat): (p: nat)
    ensures p >= 1
  {
    if k == 0 then 1 else 10 * Pow10(k - 1)
  }

  lemma {:induction false} DecimalLength(n: nat, k: nat)
    requires k > 0 && n < Pow10(k)
    ensures |Decimal(n)| <= k
  {
    if n >= 10 {
      assert k > 1;
      DecimalLength(n / 10, k - 1);
    }
  }

  /** Digits without a leading zero, after a minus sign if negative. */
  function PrintSeqno(n: int): (t: Text)
    ensures t != [] && !IsSpace(t[0])
    ensures n >= 0 ==> (forall i :: 0 <= i < |t| ==> 48 <= t[i] <= 57) && (t[0] == 48 ==> t == [48])
    ensures n < 0 ==> |t| > 1 && t[0] == 45 && (forall i :: 1 <= i < |t| ==> 48 <= t[i] <= 57) && t[1] != 48
  {
    if n < 0 then [DASH] + Decimal(-n) else Decimal(n)
  }

  function SkipSpaces(t: Text): (n: nat)
    ensures n <= |t| && (n < |t| ==> !IsSpace(t[n]))
  {
    if t == [] || !IsSpace(t[0]) then 0 else 1 + SkipSpaces(t[1..])
  }

  function DigitRun(t: Text): (n: nat)
    ensures n <= |t| && (forall i :: 0 <= i < n ==> IsDigit(t[i])) && (n < |t| ==> !IsDigit(t[n]))
  {
    if t == [] || !IsDigit(t[0]) then 0 else 1 + DigitRun(t[1..])
  }

  /** Extraction of a 64-bit number from a stream: white space, a sign, digits; the number and
      how much was read. */
  function ParseSeqno(t: Text): (r: Option<(int, nat)>)
    ensures r.Some? ==> r.value.1 <= |t| && INT64_MIN <= r.value.0 <= INT64_MAX
  {
    var spaces := SkipSpaces(t);
    var rest := t[spaces..];
    var sign := if rest != [] && (rest[0] == DASH || rest[0] == 43) then 1 else 0;
    var digits := rest[sign..];
    var n := DigitRun(digits);
    var magnitude: int := Value(digits[..n]);
    var v := if sign == 1 && rest[0] == DASH then -magnitude else magnitude;
    if n == 0 || v < INT64_MIN || v > INT64_MAX then None else Some((v, spaces + sign + n))
  }

  lemma SeqnoRoundTrip(n: int)
    requires INT64_MIN <= n <= INT64_MAX
    ensures ParseSeqno(PrintSeqno(n)) == Some((n, |PrintSeqno(n)|))
  {
    var t := PrintSeqno(n);
    var digits := Decimal(if n < 0 then -n else n);
    DecimalRoundTrip(if n < 0 then -n else n);
    assert SkipSpaces(t) == 0 && t[0..] == t;
    assert n < 0 ==> t[1..] == digits;
    assert DigitRun(digits) == |digits| && digits[..|digits|] == digits;
  }

  // ---------------------------------------------------------------- gtid

  datatype Gtid = Gtid(id: seq<Byte>, seqno: int)

  predicate ValidGtid(g: Gtid) { |g.id| == 16 && INT64_MIN <= g.seqno <= INT64_MAX }

  /** operator<< of gtid. */
  function PrintGtid(g: Gtid): (t: Text)
    requires ValidGtid(g)
  {
    PrintId(g.id) + [COLON] + PrintSeqno(g.seqno)
  }

  /** Up to the first colon. */
  function BeforeColon(t: Text): (n: nat)
    ensures n <= |t| && COLON !in t[..n] && (n < |t| ==> t[n] == COLON)
  {
    if t == [] || t[0] == COLON then 0
    else
      var n := 1 + BeforeColon(t[1..]);
      assert t[..n] == [t[0]] + t[1..][..n - 1];
      n
  }

  /** operator>> of gtid, and how much of the text it reads. */
  function ParseGtid(t: Text): (r: Option<(Gtid, nat)>)
    ensures r.Some? ==> ValidGtid(r.value.0) && r.value.1 <= |t|
  {
    var n := BeforeColon(t);
    if n == |t| then None
    else
      var seqno, id := ParseSeqno(t[n + 1..]), ParseId(t[..n]);
      if seqno.None? || id.None? then None
      else Some((Gtid(id.value, seqno.value.0), n + 1 + seqno.value.1))
  }

  /** A text without a colon is no GTID. */
  lemma NoColonNoGtid(t: Text)
    requires COLON !in t
    ensures ParseGtid(t).None?
  {
  }

  /** print_to_c_str(): the text goes to the front of the buffer, or nothing does. */
  method PrintGtidTo(g: Gtid, buf: array<Byte>) returns (ret: int)
    requires ValidGtid(g)
    modifies buf
    ensures |PrintGtid(g)| > buf.Length ==> ret == -ENOBUFS && buf[..] == old(buf[..])
    ensures |PrintGtid(g)| <= buf.Length ==>
      ret == |PrintGtid(g)| && buf[..ret] == PrintGtid(g) && buf[ret..] == old(buf[ret..])
  {
    var t := PrintGtid(g);
    if |t| > buf.Length { return -ENOBUFS; }
    for i := 0 to |t|
      invariant buf[..i] == t[..i] && buf[i..] == old(buf[i..])
    {
      buf[i] := t[i];
    }
    assert t[..|t|] == t;
    return |t|;
  }

  lemma {:induction false} FirstColon(before: Text, after: Text)
    requires COLON !in before
    ensures BeforeColon(before + [COLON] + after) == |before|
  {
    if before != [] {
      FirstColon(before[1..], after);
      assert (before + [COLON] + after)[1..] == before[1..] + [COLON] + after;
    }
  }

  lemma GtidParts(id: Text, seqno: Text)
    ensures var t := id + [COLON] + seqno; t[..|id|] == id && t[|id| + 1..] == seqno
  {
  }

  /** Parsing the printed form of any GTID gives it back and consumes the whole text. */
  lemma GtidRoundTrip(g: Gtid)
    requires ValidGtid(g)
    ensures ParseGtid(PrintGtid(g)) == Some((g, |PrintGtid(g)|))
  {
    var t, id, seqno := PrintGtid(g), PrintId(g.id), PrintSeqno(g.seqno);
    assert BeforeColon(t) == |id| by { FirstColon(id, seqno); }
    GtidParts(id, seqno);
    IdRoundTrip(g.id);
    SeqnoRoundTrip(g.seqno);
  }

  /** A buffer of 57 bytes always suffices, ... */
  lemma GtidFits(g: Gtid)
    requires ValidGtid(g)
    ensures |PrintGtid(g)| <= GTID_STR_LEN
  {
    var n := if g.seqno < 0 then -g.seqno else g.seqno;
    Pow19();
    DecimalLength(n, 19);
  }

  lemma Pow19()
    ensures Pow10(18) == 1000000000000000000 && Pow10(19) == 10000000000000000000
  {
    assert Pow10(5) == 100000;
    assert Pow10(10) == 10000000000;
    assert Pow10(15) == 1000000000000000;
  }

  /** ... and no shorter one does. */
  lemma GtidBoundIsTight()
    ensures ValidGtid(Gtid(Nil(), INT64_MIN)) && |PrintGtid(Gtid(Nil(), INT64_MIN))| == GTID_STR_LEN
  {
    assert AlnumPrefix(Nil()) == 0;
    Pow19();
    DecimalGrows(9223372036854775808, 19);
    GtidFits(Gtid(Nil(), INT64_MIN));
  }

  lemma {:induction false} DecimalGrows(n: nat, k: nat)
    requires k > 0 && n >= Pow10(k - 1)
    ensures |Decimal(n)| >= k
  {
    if k > 1 {
      assert n >= 10;
      DecimalGrows(n / 10, k - 1);
    }
  }
}
