/** The dateTimeNumber of section 4.2 of ICC.1:2010: six big-endian 16-bit numbers, stored as read. */
module DateTimes {
  import opened Wrappers
  import opened JavaNum
  import opened Streams

  /** A `DateTimeNumber`: its fields are private and never reassigned, so the object is a value. */
  datatype DateTimeNumber = DateTimeNumber(year: int, month: int, day: int, hour: int, minute: int, second: int)

  /** The six fields decoded from twelve bytes, two bytes each, in the order year, month, day, hour, minute, second. */
  function Decode(b: seq<byte>): (r: DateTimeNumber)
    requires |b| == 12
  {
    DateTimeNumber(BE(b[0..2]), BE(b[2..4]), BE(b[4..6]), BE(b[6..8]), BE(b[8..10]), BE(b[10..12]))
  }

  /** The two big-endian bytes of a 16-bit number. */
  function U16Bytes(v: int): (r: seq<byte>)
    requires 0 <= v < 0x1_0000
    ensures |r| == 2
  {
    [v / 256, v % 256]
  }

  /** Every field of a decoded date lies in the unsigned 16-bit range; nothing else is checked. */
  predicate InRange(d: DateTimeNumber)
  {
    0 <= d.year < 0x1_0000 && 0 <= d.month < 0x1_0000 && 0 <= d.day < 0x1_0000 &&
    0 <= d.hour < 0x1_0000 && 0 <= d.minute < 0x1_0000 && 0 <= d.second < 0x1_0000
  }

  /** The twelve bytes that encode a date. */
  function Encode(d: DateTimeNumber): (r: seq<byte>)
    requires InRange(d)
    ensures |r| == 12
  {
    U16Bytes(d.year) + U16Bytes(d.month) + U16Bytes(d.day) + U16Bytes(d.hour) + U16Bytes(d.minute) + U16Bytes(d.second)
  }

  /** Two bytes decode back to the number they encode. */
  lemma U16RoundTrip(v: int)
    requires 0 <= v < 0x1_0000
    ensures BE(U16Bytes(v)) == v
  {
    assert U16Bytes(v)[..1] == [v / 256];
    assert BE([v / 256]) == BE([]) * 256 + v / 256;
  }

  /** Every decoded field is an unsigned 16-bit number. */
  lemma DecodeInRange(b: seq<byte>)
    requires |b| == 12
    ensures InRange(Decode(b))
  {
    assert Pow256(2) == 0x1_0000;
  }

  /** Decoding the encoding gives back every field unchanged, whatever its value: no range is checked, so a month
      of 13 or an hour of 99 is kept as it is. */
  lemma DecodeEncode(d: DateTimeNumber)
    requires InRange(d)
    ensures Decode(Encode(d)) == d
  {
    var b := Encode(d);
    assert b[0..2] == U16Bytes(d.year);
    assert b[2..4] == U16Bytes(d.month);
    assert b[4..6] == U16Bytes(d.day);
    assert b[6..8] == U16Bytes(d.hour);
    assert b[8..10] == U16Bytes(d.minute);
    assert b[10..12] == U16Bytes(d.second);
    U16RoundTrip(d.year);
    U16RoundTrip(d.month);
    U16RoundTrip(d.day);
    U16RoundTrip(d.hour);
    U16RoundTrip(d.minute);
    U16RoundTrip(d.second);
  }

  /** `read(InputStream)`: six `readShortBE` calls; the stream fails when fewer than twelve bytes are left. */
  method Read(input: ByteStream) returns (r: Result<DateTimeNumber>)
    modifies input
    ensures r.Ok? <==> old(input.CanRead(12))
    ensures r.Ok? ==> r.value == Decode(old(input.Next(12))) && input.pos == old(input.pos) + 12
  {
    ghost var p := input.pos;
    var year :- input.ReadU16BE();
    var month :- input.ReadU16BE();
    var day :- input.ReadU16BE();
    var hour :- input.ReadU16BE();
    var minute :- input.ReadU16BE();
    var second :- input.ReadU16BE();
    DecodeAt(input.data, p);
    return Ok(DateTimeNumber(year, month, day, hour, minute, second));
  }

  /** Decoding twelve bytes in place: field k comes from bytes 2k and 2k + 1 after p. */
  lemma DecodeAt(d: seq<byte>, p: int)
    requires 0 <= p && p + 12 <= |d|
    ensures Decode(d[p..p + 12]) == DateTimeNumber(BE(d[p..p + 2]), BE(d[p + 2..p + 4]), BE(d[p + 4..p + 6]),
                                                   BE(d[p + 6..p + 8]), BE(d[p + 8..p + 10]), BE(d[p + 10..p + 12]))
  {
    var b := d[p..p + 12];
    PairAt(b, 0); PairAt(d, p);
    PairAt(b, 2); PairAt(d, p + 2);
    PairAt(b, 4); PairAt(d, p + 4);
    PairAt(b, 6); PairAt(d, p + 6);
    PairAt(b, 8); PairAt(d, p + 8);
    PairAt(b, 10); PairAt(d, p + 10);
  }

  /** The two bytes at q. */
  lemma PairAt(d: seq<byte>, q: int)
    requires 0 <= q && q + 2 <= |d|
    ensures d[q..q + 2] == [d[q], d[q + 1]]
  {
  }
}
