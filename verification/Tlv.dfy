/** The tag-length-value form of the QR code (crypto/qr.go). Base64 around it is opaque. */
module Tlv {
  import opened Text
  import opened Bytes

  datatype Entry = Entry(tag: byte, value: seq<byte>)

  // ---------------------------------------------------------------- writing

  /** The length field: one byte up to 127, otherwise the marker 0x82 and the two low bytes. */
  function LengthField(n: nat): seq<byte> {
    if n <= 127 then [n] else [0x82, n / 256 % 256, n % 256]
  }

  function Encoded(e: Entry): seq<byte> {
    [e.tag] + LengthField(|e.value|) + e.value
  }

  function EncodeAll(entries: seq<Entry>): seq<byte> {
    if entries == [] then [] else Encoded(entries[0]) + EncodeAll(entries[1..])
  }

  method AppendTLV(buf: seq<byte>, tag: int, value: seq<byte>) returns (r: seq<byte>)
    ensures r == buf + Encoded(Entry(tag % 256, value))
  {
    r := buf + [tag % 256];
    var length := |value|;
    if length <= 127 {
      r := r + [length];
    } else {
      r := r + [0x82, length / 256 % 256, length % 256];
    }
    r := r + value;
  }

  // ---------------------------------------------------------------- reading

  function Long(high: nat, low: nat): nat {
    high * 256 + low
  }

  /** The entry at the start of the data and how long it is. */
  function First(data: seq<byte>): (r: Option<(Entry, nat)>)
    ensures r.Some? ==> 0 < r.value.1 <= |data|
  {
    if |data| < 2 then None
    else if data[1] != 0x82 then
      var n: nat := data[1];
      if 2 + n > |data| then None else Some((Entry(data[0], data[2..2 + n]), 2 + n))
    else if |data| < 4 then None
    else
      var n := Long(data[2], data[3]);
      if 4 + n > |data| then None else Some((Entry(data[0], data[4..4 + n]), 4 + n))
  }

  /** The entries the data is cut into, or nothing when it does not end with an entry. */
  function Entries(data: seq<byte>): Option<seq<Entry>>
    decreases |data|
  {
    if data == [] then Some([])
    else
      match First(data)
      case None => None
      case Some((e, n)) =>
        var rest := Entries(data[n..]);
        if rest.None? then None else Some([e] + rest.value)
  }

  /** The values by tag. A later entry of the same tag wins. */
  function ByTag(entries: seq<Entry>): map<int, seq<byte>> {
    if entries == [] then map[]
    else
      var last := entries[|entries| - 1];
      ByTag(entries[..|entries| - 1])[last.tag := last.value]
  }

  /** The body of the loop: the entry at an offset and the offset after it. */
  method ReadEntry(data: seq<byte>, at: nat) returns (e: Option<Entry>, i: nat)
    requires at < |data|
    ensures e.None? <==> First(data[at..]).None?
    ensures e.Some? ==> at < i <= |data| && First(data[at..]) == Some((e.value, i - at))
  {
    hide First;
    FirstAt(data, at);
    i := at;
    if i + 2 > |data| { return None, i; }
    var tag := data[i];
    i := i + 1;
    var length: nat;
    if data[i] == 0x82 {
      if i + 3 > |data| { return None, i; }
      length := Long(data[i + 1], data[i + 2]);
      i := i + 3;
    } else {
      length := data[i];
      i := i + 1;
    }
    if i + length > |data| { return None, i; }
    var value := data[i..i + length];
    i := i + length;
    return Some(Entry(tag, value)), i;
  }

  /** DecodeTLV: never reads outside the data, and ends on every input. */
  method DecodeTLV(data: seq<byte>) returns (result: Option<map<int, seq<byte>>>)
    ensures result == if Entries(data).Some? then Some(ByTag(Entries(data).value)) else None
  {
    assert ByTag([]) == map[];
    hide Entries, First, Joined, ByTag;
    var values: map<int, seq<byte>> := map[];
    ghost var done: seq<Entry> := [];
    var i := 0;
    assert data[0..] == data;
    NothingTaken(data);
    while i < |data|
      invariant 0 <= i <= |data|
      invariant values == ByTag(done)
      invariant Entries(data) == Joined(done, Entries(data[i..]))
    {
      EntryTaken(data[i..], done);
      var e, next := ReadEntry(data, i);
      if e.None? { return None; }
      DropTwice(data, i, next);
      TagAdded(done, e.value);
      values := values[e.value.tag := e.value.value];
      done := done + [e.value];
      i := next;
    }
    assert data[i..] == [];
    AllTaken(done);
    return Some(values);
  }

  /** The first entry in the terms of the loop: indices of the whole data. */
  lemma FirstAt(data: seq<byte>, i: nat)
    requires i < |data|
    ensures First(data[i..]) ==
      if i + 2 > |data| then None
      else if data[i + 1] != 0x82 then
        var n: nat := data[i + 1];
        if i + 2 + n > |data| then None else Some((Entry(data[i], data[i + 2..i + 2 + n]), 2 + n))
      else if i + 4 > |data| then None
      else
        var n := Long(data[i + 2], data[i + 3]);
        if i + 4 + n > |data| then None else Some((Entry(data[i], data[i + 4..i + 4 + n]), 4 + n))
  {
    hide Long;
    if i + 2 <= |data| && data[i + 1] != 0x82 {
      var n: nat := data[i + 1];
      if i + 2 + n <= |data| { SliceOfRest(data, i, 2, 2 + n); }
    } else if i + 4 <= |data| {
      var n := Long(data[i + 2], data[i + 3]);
      if i + 4 + n <= |data| { SliceOfRest(data, i, 4, 4 + n); }
    }
  }

  lemma SliceOfRest(data: seq<byte>, i: nat, j: nat, k: nat)
    requires j <= k && i + k <= |data|
    ensures data[i..][j..k] == data[i + j..i + k]
  {
  }

  function Joined(done: seq<Entry>, rest: Option<seq<Entry>>): Option<seq<Entry>> {
    if rest.None? then None else Some(done + rest.value)
  }

  lemma DropTwice(data: seq<byte>, i: nat, j: nat)
    requires i <= j <= |data|
    ensures data[i..][j - i..] == data[j..]
  {
  }

  lemma NothingTaken(data: seq<byte>)
    ensures Joined([], Entries(data)) == Entries(data)
  {
    if Entries(data).Some? { assert [] + Entries(data).value == Entries(data).value; }
  }

  lemma AllTaken(done: seq<Entry>)
    ensures Joined(done, Entries([])) == Some(done)
  {
    assert done + [] == done;
  }

  lemma TagAdded(done: seq<Entry>, e: Entry)
    ensures ByTag(done + [e]) == ByTag(done)[e.tag := e.value]
  {
    assert (done + [e])[..|done|] == done;
  }

  lemma EntriesStep(data: seq<byte>)
    requires data != []
    ensures First(data).None? ==> Entries(data) == None
    ensures First(data).Some? ==>
      Entries(data) == Joined([First(data).value.0], Entries(data[First(data).value.1..]))
  {
    hide First;
  }

  lemma EntryTaken(data: seq<byte>, done: seq<Entry>)
    requires data != []
    ensures First(data).None? ==> Joined(done, Entries(data)) == None
    ensures First(data).Some? ==>
      var (e, n) := First(data).value;
      Joined(done, Entries(data)) == Joined(done + [e], Entries(data[n..]))
  {
    EntriesStep(data);
    hide Entries, First;
    if First(data).Some? {
      var (e, n) := First(data).value;
      var rest := Entries(data[n..]);
      if rest.Some? {
        assert done + ([e] + rest.value) == done + [e] + rest.value;
      }
    }
  }

  // ---------------------------------------------------------------- round trip

  /** The header of an entry: two bytes with the length up to 127, and otherwise four with the marker and the length, of
      which the two bytes keep what they can hold. The value follows as it is. */
  lemma EntryHeader(e: Entry)
    ensures var (data, n) := (Encoded(e), |e.value|);
      && (n < 128 <==> |data| == 2 + n) && (n >= 128 <==> |data| == 4 + n)
      && data[0] == e.tag && data[|data| - n..] == e.value
      && (if n < 128 then data[1] == n
          else
            var (high: int, low: int) := (data[2], data[3]);
            data[1] == 0x82 && high * 0x100 + low == n % 0x1_0000)
  {
    var (data, n) := (Encoded(e), |e.value|);
    assert data[|data| - n..] == e.value;
    if n >= 128 { LowBytes(n); }
  }

  lemma LowBytes(n: nat)
    ensures n / 256 % 256 * 256 + n % 256 == n % 0x1_0000
  {
    var q := n / 256;
    assert n == q * 256 + n % 256 && q == q / 256 * 256 + q % 256;
    assert n == q / 256 * 0x1_0000 + (q % 256 * 256 + n % 256);
  }

  /** One entry is read back, and the rest is left, if and only if its value has at most 65535 bytes. */
  lemma FirstOfEncoded(e: Entry, rest: seq<byte>)
    ensures First(Encoded(e) + rest) == Some((e, |Encoded(e)|)) <==> |e.value| <= 0xFFFF
  {
    var data, n := Encoded(e) + rest, |e.value|;
    assert data[0] == e.tag;
    if n <= 127 {
      assert data[1] == n && data[2..2 + n] == e.value;
    } else {
      assert data[1] == 0x82 && data[2] == n / 256 % 256 && data[3] == n % 256;
      if n <= 0xFFFF {
        assert data[4..4 + n] == e.value;
      }
    }
  }

  lemma {:induction false} EntriesOfEncoded(entries: seq<Entry>)
    requires forall i | 0 <= i < |entries| :: |entries[i].value| <= 0xFFFF
    ensures Entries(EncodeAll(entries)) == Some(entries)
  {
    if entries != [] {
      var data, head := EncodeAll(entries), Encoded(entries[0]);
      EntriesOfEncoded(entries[1..]);
      FirstOfEncoded(entries[0], EncodeAll(entries[1..]));
      assert data[|head|..] == EncodeAll(entries[1..]);
      assert [entries[0]] + entries[1..] == entries;
    }
  }

  lemma {:induction false} ByTagOfDistinct(entries: seq<Entry>, i: nat)
    requires i < |entries| && forall j, k | 0 <= j < k < |entries| :: entries[j].tag != entries[k].tag
    ensures entries[i].tag in ByTag(entries) && ByTag(entries)[entries[i].tag] == entries[i].value
  {
    if i < |entries| - 1 {
      ByTagOfDistinct(entries[..|entries| - 1], i);
    }
  }

  lemma {:induction false} ByTagHoldsOnly(entries: seq<Entry>, tag: int)
    ensures tag in ByTag(entries) <==> exists i :: 0 <= i < |entries| && entries[i].tag == tag
  {
    if entries != [] {
      var front := entries[..|entries| - 1];
      ByTagHoldsOnly(front, tag);
      if tag in ByTag(front) {
        var i :| 0 <= i < |front| && front[i].tag == tag;
        assert entries[i].tag == tag;
      }
      if i :| 0 <= i < |front| && entries[i].tag == tag {
        assert front[i].tag == tag;
      }
    }
  }

  /** Main result: reading the concatenation of entries with distinct tags gives exactly their values, as long as every
      value has at most 65535 bytes. */
  lemma DecodeInvertsEncode(entries: seq<Entry>)
    requires forall i | 0 <= i < |entries| :: |entries[i].value| <= 0xFFFF
    requires forall j, k | 0 <= j < k < |entries| :: entries[j].tag != entries[k].tag
    ensures Entries(EncodeAll(entries)) == Some(entries)
    ensures ByTag(entries).Keys == set i | 0 <= i < |entries| :: entries[i].tag
    ensures forall i | 0 <= i < |entries| :: ByTag(entries)[entries[i].tag] == entries[i].value
  {
    EntriesOfEncoded(entries);
    forall tag
      ensures tag in ByTag(entries) <==> exists i :: 0 <= i < |entries| && entries[i].tag == tag
    {
      ByTagHoldsOnly(entries, tag);
    }
    forall i | 0 <= i < |entries|
      ensures ByTag(entries)[entries[i].tag] == entries[i].value
    {
      ByTagOfDistinct(entries, i);
    }
  }

  /** The bound is exact: a longer value is never read back. */
  lemma LongerValuesAreLost(e: Entry)
    requires |e.value| > 0xFFFF
    ensures Entries(Encoded(e)) != Some([e])
  {
    FirstOfEncoded(e, []);
    assert Encoded(e) + [] == Encoded(e);
  }

  // ---------------------------------------------------------------- the QR code

  datatype QRData = QRData(
    sellerName: seq<byte>,
    vatNumber: seq<byte>,
    timestamp: seq<byte>,
    total: seq<byte>,
    vatAmount: seq<byte>,
    hash: seq<byte>,
    signature: seq<byte>,
    publicKey: seq<byte>,
    certHash: seq<byte>)

  function Unless(tag: byte, value: seq<byte>): seq<Entry> {
    if value == [] then [] else [Entry(tag, value)]
  }

  function Required(q: QRData): seq<Entry> {
    [Entry(1, q.sellerName)] + [Entry(2, q.vatNumber)] + [Entry(3, q.timestamp)] + [Entry(4, q.total)]
    + [Entry(5, q.vatAmount)]
  }

  /** Tags 1 to 5 are always there, 6 to 9 only with a value. */
  function Fields(q: QRData): seq<Entry> {
    Required(q) + Unless(6, q.hash) + Unless(7, q.signature) + Unless(8, q.publicKey) + Unless(9, q.certHash)
  }

  lemma {:induction false} EncodeAllOfAppend(entries: seq<Entry>, e: Entry)
    ensures EncodeAll(entries + [e]) == EncodeAll(entries) + Encoded(e)
  {
    if entries == [] {
      assert [e][1..] == [];
    } else {
      EncodeAllOfAppend(entries[1..], e);
      assert (entries + [e])[1..] == entries[1..] + [e] && (entries + [e])[0] == entries[0];
      hide Encoded;
    }
  }

  method GenerateQR(q: QRData) returns (r: Option<seq<byte>>)
    ensures r == if q.sellerName == [] || q.vatNumber == [] then None else Some(EncodeAll(Fields(q)))
  {
    if q.sellerName == [] || q.vatNumber == [] { return None; }
    hide EncodeAll, Encoded, Unless;
    var tlv: seq<byte> := AppendTLV([], 1, q.sellerName);
    ghost var done := [Entry(1, q.sellerName)];
    FirstEncoded(done[0]);
    tlv, done := AppendField(tlv, 2, q.vatNumber, done);
    tlv, done := AppendField(tlv, 3, q.timestamp, done);
    tlv, done := AppendField(tlv, 4, q.total, done);
    tlv, done := AppendField(tlv, 5, q.vatAmount, done);
    tlv, done := AppendUnlessEmpty(tlv, 6, q.hash, done);
    tlv, done := AppendUnlessEmpty(tlv, 7, q.signature, done);
    tlv, done := AppendUnlessEmpty(tlv, 8, q.publicKey, done);
    tlv, done := AppendUnlessEmpty(tlv, 9, q.certHash, done);
    return Some(tlv);
  }

  lemma FirstEncoded(e: Entry)
    ensures EncodeAll([e]) == [] + Encoded(e)
  {
    assert [e][1..] == [];
  }

  /** One more field after the fields written so far. */
  method AppendField(buf: seq<byte>, tag: byte, value: seq<byte>, ghost before: seq<Entry>)
    returns (r: seq<byte>, ghost done: seq<Entry>)
    requires buf == EncodeAll(before)
    ensures done == before + [Entry(tag, value)] && r == EncodeAll(done)
  {
    EncodeAllOfAppend(before, Entry(tag, value));
    r := AppendTLV(buf, tag, value);
    done := before + [Entry(tag, value)];
  }

  /** A field that is left out when it has no value. */
  method AppendUnlessEmpty(buf: seq<byte>, tag: byte, value: seq<byte>, ghost before: seq<Entry>)
    returns (r: seq<byte>, ghost done: seq<Entry>)
    requires buf == EncodeAll(before)
    ensures done == before + Unless(tag, value) && r == EncodeAll(done)
  {
    r, done := buf, before;
    if |value| > 0 {
      r, done := AppendField(buf, tag, value, before);
    }
  }

  lemma FieldsAreDistinct(q: QRData)
    ensures forall j, k | 0 <= j < k < |Fields(q)| :: Fields(q)[j].tag < Fields(q)[k].tag
    ensures forall e :: e in Fields(q) <==>
      e in {Entry(1, q.sellerName), Entry(2, q.vatNumber), Entry(3, q.timestamp), Entry(4, q.total),
            Entry(5, q.vatAmount)}
      || (e.value != [] && e in {Entry(6, q.hash), Entry(7, q.signature), Entry(8, q.publicKey), Entry(9, q.certHash)})
  {
  }

  /** A QR code whose fields have at most 65535 bytes decodes to exactly its fields. */
  lemma QrIsReadBack(q: QRData, e: Entry)
    requires forall i | 0 <= i < |Fields(q)| :: |Fields(q)[i].value| <= 0xFFFF
    ensures Entries(EncodeAll(Fields(q))) == Some(Fields(q))
    ensures e in Fields(q) <==> e.tag in ByTag(Fields(q)) && ByTag(Fields(q))[e.tag] == e.value
  {
    hide EncodeAll, ByTag, Entries;
    FieldsAreDistinct(q);
    hide Fields;
    DecodeInvertsEncode(Fields(q));
    if e.tag in ByTag(Fields(q)) && ByTag(Fields(q))[e.tag] == e.value {
      var i :| 0 <= i < |Fields(q)| && Fields(q)[i].tag == e.tag;
      assert Fields(q)[i] == e;
    }
  }
}
