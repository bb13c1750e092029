/** The TLV codec of a noffer (src/clink/nip19_offer.ts; 'Shareable identifiers with extra
    metadata' of NIP-19). Text and hex are the bytes they stand for. */
module Noffer {
  import opened Wrappers

  type Byte = b: int | 0 <= b < 256

  type Bytes = seq<Byte>

  datatype Pointer = Pointer(pubkey: Bytes, relay: Bytes, offer: Bytes, priceType: nat, price: Option<int>)

  datatype Entry = Entry(tag: Byte, value: Bytes)

  // ---- integers ---------------------------------------------------------------------------

  /** Four bytes, highest first, of an integer taken modulo 2^32. */
  function IntegerToBytes(n: int): (r: Bytes)
    ensures |r| == 4
  {
    var m := n % 0x1_0000_0000;
    [m / 0x100_0000, m / 0x1_0000 % 256, m / 256 % 256, m % 256]
  }

  function BigEndian(bytes: Bytes): (n: nat) {
    if bytes == [] then 0 else BigEndian(bytes[..|bytes| - 1]) * 256 + bytes[|bytes| - 1]
  }

  /** Reading back gives the integer exactly when it fits in 32 bits. */
  lemma PriceInverts(n: int)
    ensures BigEndian(IntegerToBytes(n)) == n % 0x1_0000_0000
    ensures BigEndian(IntegerToBytes(n)) == n <==> 0 <= n < 0x1_0000_0000
  {
    var m := n % 0x1_0000_0000;
    var b := IntegerToBytes(n);
    assert b[..3][..2] == b[..2] && b[..2][..1] == b[..1] && b[..1][..0] == [];
    var b0: int, b1: int, b2: int, b3: int := b[0], b[1], b[2], b[3];
    assert BigEndian(b[..1]) == b0;
    assert BigEndian(b[..2]) == b0 * 256 + b1;
    assert BigEndian(b[..3]) == (b0 * 256 + b1) * 256 + b2;
    assert BigEndian(b) == ((b0 * 256 + b1) * 256 + b2) * 256 + b3;
    assert m == m / 256 * 256 + m % 256;
    assert m / 256 == m / 256 / 256 * 256 + m / 256 % 256 && m / 256 / 256 == m / 0x1_0000;
    assert m / 0x1_0000 == m / 0x1_0000 / 256 * 256 + m / 0x1_0000 % 256 && m / 0x1_0000 / 256 == m / 0x100_0000;
  }

  // ---- encoding ------------------------------------------------------------------------------

  /** A length is one byte: what does not fit wraps. */
  function EncodeEntry(e: Entry): (r: Bytes)
    ensures |r| == |e.value| + 2
  {
    [e.tag, |e.value| % 256] + e.value
  }

  function EncodeTlv(entries: seq<Entry>): Bytes {
    if entries == [] then [] else EncodeTlv(entries[..|entries| - 1]) + EncodeEntry(entries[|entries| - 1])
  }

  /** The entries of a pointer in wire order, higher tags first; a price of zero is no price. */
  function Entries(p: Pointer): (r: seq<Entry>) {
    (if p.price.Some? && p.price.value != 0 then [Entry(4, IntegerToBytes(p.price.value))] else [])
    + [Entry(3, [p.priceType % 256]), Entry(2, p.offer), Entry(1, p.relay), Entry(0, p.pubkey)]
  }

  /** The buffer is sized first and filled entry by entry. */
  method EncodeTLV(entries: seq<Entry>) returns (out: Bytes)
    ensures out == EncodeTlv(entries)
  {
    var total := 0;
    for i := 0 to |entries|
      invariant total == |EncodeTlv(entries[..i])|
    {
      assert entries[..i + 1][..i] == entries[..i];
      total := total + |entries[i].value| + 2;
    }
    assert entries[..|entries|] == entries;
    var buffer := new Byte[total](_ => 0);
    var off := 0;
    for i := 0 to |entries|
      invariant off == |EncodeTlv(entries[..i])| <= total && buffer[..off] == EncodeTlv(entries[..i])
      invariant |EncodeTlv(entries)| == total
    {
      assert entries[..i + 1][..i] == entries[..i];
      PrefixFits(entries, i + 1);
      var e := EncodeEntry(entries[i]);
      SetBytes(buffer, off, e);
      off := off + |e|;
    }
    assert entries[..|entries|] == entries;
    out := buffer[..];
  }

  /** Copies bytes into a buffer at an offset. */
  method SetBytes(buffer: array<Byte>, off: nat, e: Bytes)
    requires off + |e| <= buffer.Length
    modifies buffer
    ensures buffer[..off + |e|] == old(buffer[..off]) + e
    ensures buffer[off + |e|..] == old(buffer[off + |e|..])
  {
    ghost var before := buffer[..];
    for k := 0 to |e|
      invariant forall j :: 0 <= j < off ==> buffer[j] == before[j]
      invariant forall j :: 0 <= j < k ==> buffer[off + j] == e[j]
      invariant forall j :: off + |e| <= j < buffer.Length ==> buffer[j] == before[j]
    {
      buffer[off + k] := e[k];
    }
    assert buffer[..off] == before[..off] && buffer[off..off + |e|] == e;
    assert buffer[..off + |e|] == buffer[..off] + buffer[off..off + |e|];
  }

  lemma {:induction false} PrefixFits(entries: seq<Entry>, n: nat)
    requires n <= |entries|
    ensures |EncodeTlv(entries[..n])| <= |EncodeTlv(entries)|
    decreases |entries| - n
  {
    if n < |entries| {
      PrefixFits(entries, n + 1);
      assert entries[..n + 1][..n] == entries[..n];
    } else {
      assert entries[..n] == entries;
    }
  }

  // ---- parsing -------------------------------------------------------------------------------

  datatype Parse = Parsed(entries: seq<Entry>) | Truncated(tag: Byte) | NeverEnds

  /** The specification of ParseTLV. A lone type byte is never consumed: its length is
      missing, nothing is sliced off, and the loop goes round forever. */
  function ParseTlv(data: Bytes): Parse
    decreases |data|
  {
    if data == [] then Parsed([])
    else if |data| == 1 then NeverEnds
    else
      var l := data[1];
      if |data| - 2 < l then Truncated(data[0])
      else
        match ParseTlv(data[2 + l..])
        case Parsed(rest) => Parsed([Entry(data[0], data[2..2 + l])] + rest)
        case other => other
  }

  method ParseTLV(data: Bytes) returns (r: Parse)
    ensures r == ParseTlv(data)
  {
    var entries: seq<Entry> := [];
    var rest := data;
    while rest != []
      invariant ParseTlv(data) == Prepend(entries, ParseTlv(rest))
      decreases |rest|
    {
      if |rest| == 1 {
        return NeverEnds;
      }
      var l := rest[1];
      if |rest| - 2 < l {
        return Truncated(rest[0]);
      }
      entries := entries + [Entry(rest[0], rest[2..2 + l])];
      rest := rest[2 + l..];
    }
    r := Parsed(entries);
  }

  function Prepend(entries: seq<Entry>, p: Parse): Parse {
    match p
    case Parsed(rest) => Parsed(entries + rest)
    case other => other
  }

  ghost predicate Short(entries: seq<Entry>) {
    forall i :: 0 <= i < |entries| ==> |entries[i].value| <= 255
  }

  lemma OneEntry(e: Entry, more: Bytes)
    requires |e.value| <= 255
    ensures ParseTlv(EncodeEntry(e) + more) == Prepend([e], ParseTlv(more))
  {
    var data := EncodeEntry(e) + more;
    assert data[0] == e.tag && data[1] == |e.value|;
    assert data[2 + |e.value|..] == more && data[2..2 + |e.value|] == e.value;
  }

  lemma PrependBoth(a: seq<Entry>, b: seq<Entry>, p: Parse)
    ensures Prepend(a, Prepend(b, p)) == Prepend(a + b, p)
  {
    if p.Parsed? {
      assert a + (b + p.entries) == a + b + p.entries;
    }
  }

  /** Entries whose values fit a length byte come back, each one, in order, with nothing left
      over. */
  lemma {:induction false} ParseInvertsEncode(entries: seq<Entry>, more: Bytes)
    requires Short(entries)
    ensures ParseTlv(EncodeTlv(entries) + more) == Prepend(entries, ParseTlv(more))
    decreases |entries|
  {
    hide ParseTlv, EncodeEntry, Prepend;
    if entries == [] {
      assert EncodeTlv(entries) + more == more;
      PrependNothing(ParseTlv(more));
    } else {
      var rest, e := entries[..|entries| - 1], entries[|entries| - 1];
      var tail := EncodeEntry(e) + more;
      ParseInvertsEncode(rest, tail);
      assert EncodeTlv(entries) + more == EncodeTlv(rest) + tail;
      OneEntry(e, more);
      PrependBoth(rest, [e], ParseTlv(more));
      assert entries == rest + [e];
    }
  }

  lemma PrependNothing(p: Parse)
    ensures Prepend([], p) == p
  {
  }

  // ---- pointers ------------------------------------------------------------------------------

  function FirstOf(entries: seq<Entry>, tag: int): Option<Bytes> {
    if entries == [] then None
    else if entries[0].tag == tag then Some(entries[0].value)
    else FirstOf(entries[1..], tag)
  }

  datatype DecodeError = BadFraming(p: Parse) | BadPubkey | NoRelay | NoOffer

  datatype PriceRead = NoPrice | NotANumber | Price(n: nat)

  datatype Decoded = Decoded(pubkey: Bytes, relay: Bytes, offer: Bytes, priceType: nat, price: PriceRead)

  const SPONTANEOUS: nat := 2

  function DecodeTlv(data: Bytes): Result<Decoded, DecodeError> {
    match ParseTlv(data)
    case Parsed(es) =>
      if FirstOf(es, 0).None? || |FirstOf(es, 0).value| != 32 then Failure(BadPubkey)
      else if FirstOf(es, 1).None? then Failure(NoRelay)
      else if FirstOf(es, 2).None? then Failure(NoOffer)
      else
        var kind := FirstOf(es, 3);
        var price := FirstOf(es, 4);
        Success(Decoded(FirstOf(es, 0).value, FirstOf(es, 1).value, FirstOf(es, 2).value,
                        if kind.Some? && kind.value != [] then kind.value[0] else SPONTANEOUS,
                        if price.None? then NoPrice else if price.value == [] then NotANumber else Price(BigEndian(price.value))))
    case other => Failure(BadFraming(other))
  }

  /** What a decoder has to return for a pointer. */
  predicate Same(p: Pointer, d: Decoded) {
    && d.pubkey == p.pubkey && d.relay == p.relay && d.offer == p.offer && d.priceType == p.priceType
    && (match p.price
        case None => d.price == NoPrice
        case Some(n) => n >= 0 && d.price == Price(n))
  }

  predicate Encodable(p: Pointer) {
    && |p.pubkey| == 32 && |p.relay| <= 255 && |p.offer| <= 255 && p.priceType <= 255
    && (p.price.Some? ==> 0 < p.price.value < 0x1_0000_0000)
  }

  lemma {:induction false} ParsedAreShort(data: Bytes)
    ensures ParseTlv(data).Parsed? ==> Short(ParseTlv(data).entries)
    decreases |data|
  {
    if |data| >= 2 && |data| - 2 >= data[1] {
      ParsedAreShort(data[2 + data[1]..]);
    }
  }

  lemma {:induction false} FirstIsShort(entries: seq<Entry>, tag: int)
    requires Short(entries)
    ensures FirstOf(entries, tag).Some? ==> |FirstOf(entries, tag).value| <= 255
  {
    if entries != [] {
      FirstIsShort(entries[1..], tag);
    }
  }

  lemma EntriesFound(p: Pointer)
    ensures FirstOf(Entries(p), 0) == Some(p.pubkey) && FirstOf(Entries(p), 1) == Some(p.relay) && FirstOf(Entries(p), 2) == Some(p.offer)
    ensures FirstOf(Entries(p), 3) == Some([p.priceType % 256])
    ensures FirstOf(Entries(p), 4) == if p.price.Some? && p.price.value != 0 then Some(IntegerToBytes(p.price.value)) else None
  {
    var base := [Entry(3, [p.priceType % 256]), Entry(2, p.offer), Entry(1, p.relay), Entry(0, p.pubkey)];
    FoundInOrder(base[0], base[1], base[2], base[3]);
    if p.price.Some? && p.price.value != 0 {
      assert Entries(p)[1..] == base;
    } else {
      assert Entries(p) == base;
    }
  }

  lemma FoundInOrder(a: Entry, b: Entry, c: Entry, d: Entry)
    requires a.tag == 3 && b.tag == 2 && c.tag == 1 && d.tag == 0
    ensures FirstOf([a, b, c, d], 3) == Some(a.value) && FirstOf([a, b, c, d], 2) == Some(b.value)
    ensures FirstOf([a, b, c, d], 1) == Some(c.value) && FirstOf([a, b, c, d], 0) == Some(d.value) && FirstOf([a, b, c, d], 4) == None
  {
    assert [a, b, c, d][1..] == [b, c, d] && [b, c, d][1..] == [c, d] && [c, d][1..] == [d] && [d][1..] == [];
    assert forall t: int :: FirstOf([d], t) == if t == 0 then Some(d.value) else FirstOf([], t);
    assert forall t: int :: FirstOf([c, d], t) == if t == 1 then Some(c.value) else FirstOf([d], t);
    assert forall t: int :: FirstOf([b, c, d], t) == if t == 2 then Some(b.value) else FirstOf([c, d], t);
  }

  /** What decoding gives when the lengths fit. */
  lemma FramedDecode(p: Pointer)
    requires |p.pubkey| == 32 && |p.relay| <= 255 && |p.offer| <= 255
    ensures DecodeTlv(EncodeTlv(Entries(p))) == Success(Decoded(p.pubkey, p.relay, p.offer, p.priceType % 256,
      if p.price.Some? && p.price.value != 0 then Price(p.price.value % 0x1_0000_0000) else NoPrice))
  {
    var data := EncodeTlv(Entries(p));
    ParseInvertsEncode(Entries(p), []);
    assert data + [] == data && Entries(p) + [] == Entries(p);
    EntriesFound(p);
    if p.price.Some? {
      PriceInverts(p.price.value);
    }
    hide EncodeTlv, Entries, FirstOf, BigEndian;
  }

  /** A pointer survives the round trip exactly when its values fit: a 32-byte key, a relay and
      an offer of at most 255 bytes, and a price that is absent or from 1 to 2^32 - 1. A price
      of zero is lost. */
  lemma RoundTripExactlyWhen(p: Pointer)
    ensures (DecodeTlv(EncodeTlv(Entries(p))).Success? && Same(p, DecodeTlv(EncodeTlv(Entries(p))).value)) <==> Encodable(p)
  {
    var data := EncodeTlv(Entries(p));
    if |p.pubkey| == 32 && |p.relay| <= 255 && |p.offer| <= 255 {
      FramedDecode(p);
    } else {
      ParsedAreShort(data);
      if DecodeTlv(data).Success? {
        FirstIsShort(ParseTlv(data).entries, 1);
        FirstIsShort(ParseTlv(data).entries, 2);
      }
    }
  }

  /** The parser fails to end exactly on well-framed entries followed by a lone type byte. */
  lemma {:induction false} NeverEndsExactlyWhen(data: Bytes)
    ensures ParseTlv(data) == NeverEnds <==> exists entries, b: Byte :: Short(entries) && data == EncodeTlv(entries) + [b]
    decreases |data|
  {
    if entries, b: Byte :| Short(entries) && data == EncodeTlv(entries) + [b] {
      ParseInvertsEncode(entries, [b]);
    }
    if ParseTlv(data) == NeverEnds {
      var _, _ := Framing(data);
    }
  }

  lemma {:induction false} Framing(data: Bytes) returns (entries: seq<Entry>, b: Byte)
    requires ParseTlv(data) == NeverEnds
    ensures Short(entries) && data == EncodeTlv(entries) + [b]
    decreases |data|
  {
    if |data| == 1 {
      entries, b := [], data[0];
    } else {
      var l := data[1];
      var rest: seq<Entry>;
      rest, b := Framing(data[2 + l..]);
      var e := Entry(data[0], data[2..2 + l]);
      entries := [e] + rest;
      EncodeFirst(e, rest);
      assert data == EncodeEntry(e) + data[2 + l..];
      hide EncodeTlv, EncodeEntry, ParseTlv;
      assert EncodeEntry(e) + (EncodeTlv(rest) + [b]) == EncodeEntry(e) + EncodeTlv(rest) + [b];
    }
  }

  lemma {:induction false} EncodeFirst(e: Entry, rest: seq<Entry>)
    ensures EncodeTlv([e] + rest) == EncodeEntry(e) + EncodeTlv(rest)
    decreases |rest|
  {
    hide EncodeEntry;
    if rest == [] {
      assert [e] + rest == [e] && [e][..0] == [];
    } else {
      var (init, last) := (rest[..|rest| - 1], rest[|rest| - 1]);
      assert ([e] + rest)[..|rest|] == [e] + init && ([e] + rest)[|rest|] == last;
      EncodeFirst(e, init);
      assert EncodeTlv([e] + rest) == EncodeTlv([e] + init) + EncodeEntry(last);
      assert EncodeTlv(rest) == EncodeTlv(init) + EncodeEntry(last);
    }
  }
}
