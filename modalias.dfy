// Decoding of a modalias string "<source>:v<VVVV>p<PPPP>d<DDDD>", which the adapter and the
// device both carry and both decode the same way, on every read of a derived id.
//
// The string is taken as its UTF-8 bytes: the decoder slices it at byte offsets. Every way the
// decoder can panic (no ':', a segment too short, a slice off a character boundary, a group
// that is not hexadecimal) is the None case here.

const Colon: uint8 := 0x3A
const LetterV: uint8 := 0x76
const LetterP: uint8 := 0x70
const LetterD: uint8 := 0x64

/** The decoded modalias: the source text and the three 16-bit ids. */
datatype Modalias = Modalias(source: Utf8, vendor: uint32, product: uint32, device: uint32)

// ---------------------------------------------------------------------------------------------
// Splitting on a separator

/** The pieces of `s` around every occurrence of `sep`, in order, as `str::split` yields them:
    there is always at least one piece, and empty pieces are kept. */
function Split(s: Utf8, sep: uint8): (parts: seq<Utf8>)
  ensures |parts| >= 1
  ensures forall i :: 0 <= i < |parts| ==> sep !in parts[i]
  ensures parts[0] <= s
  ensures |parts| >= 2 ==> |parts[0]| < |s| && s[|parts[0]|] == sep
{
  if |s| == 0 then [[]]
  else
    var rest := Split(s[1..], sep);
    if s[0] == sep then [[]] + rest
    else [[s[0]] + rest[0]] + rest[1..]
}

/** The pieces glued back together with `sep` between neighbours. */
function Join(parts: seq<Utf8>, sep: uint8): Utf8
  requires |parts| >= 1
{
  if |parts| == 1 then parts[0] else parts[0] + [sep] + Join(parts[1..], sep)
}

/** Splitting loses nothing: joining the pieces gives back the string. */
lemma {:induction false} JoinSplit(s: Utf8, sep: uint8)
  ensures Join(Split(s, sep), sep) == s
{
  if |s| > 0 {
    var rest := Split(s[1..], sep);
    JoinSplit(s[1..], sep);
    if s[0] == sep {
      assert Split(s, sep)[1..] == rest;
    } else if |rest| > 1 {
      assert Split(s, sep)[1..] == rest[1..];
      assert s == [s[0]] + s[1..];
    } else {
      assert s == [s[0]] + s[1..];
    }
  }
}

/** A string without the separator is a single piece. */
lemma {:induction false} SplitNoSeparator(p: Utf8, sep: uint8)
  requires sep !in p
  ensures Split(p, sep) == [p]
{
  if |p| > 0 {
    SplitNoSeparator(p[1..], sep);
    assert p == [p[0]] + p[1..];
  }
}

/** The first piece runs up to the first separator; the rest is the split of what follows it. */
lemma {:induction false} SplitAtFirst(p: Utf8, t: Utf8, sep: uint8)
  requires sep !in p
  ensures Split(p + [sep] + t, sep) == [p] + Split(t, sep)
{
  if |p| == 0 {
    assert p + [sep] + t == [sep] + t;
    assert ([sep] + t)[1..] == t;
  } else {
    SplitAtFirst(p[1..], t, sep);
    assert (p + [sep] + t)[1..] == p[1..] + [sep] + t;
    assert p == [p[0]] + p[1..];
  }
}

/** Joining pieces that hold no separator and splitting again gives back the pieces. */
lemma {:induction false} SplitJoin(parts: seq<Utf8>, sep: uint8)
  requires |parts| >= 1
  requires forall i :: 0 <= i < |parts| ==> sep !in parts[i]
  ensures Split(Join(parts, sep), sep) == parts
{
  if |parts| == 1 {
    SplitNoSeparator(parts[0], sep);
  } else {
    SplitJoin(parts[1..], sep);
    SplitAtFirst(parts[0], Join(parts[1..], sep), sep);
    assert parts == [parts[0]] + parts[1..];
  }
}

// ---------------------------------------------------------------------------------------------
// Hexadecimal digits

/** The ASCII digits 0-9, a-f and A-F. */
predicate IsHexDigit(b: uint8) {
  || 0x30 <= b <= 0x39  // '0'..'9'
  || 0x61 <= b <= 0x66  // 'a'..'f'
  || 0x41 <= b <= 0x46  // 'A'..'F'
}

function HexDigitValue(b: uint8): (v: nat)
  requires IsHexDigit(b)
  ensures v < 16
{
  if b <= 0x39 then b - 0x30
  else if b >= 0x61 then b - 0x61 + 10
  else b - 0x41 + 10
}

/** The lower-case digit for a value below 16. */
function LowerHexDigit(v: nat): (b: uint8)
  requires v < 16
  ensures IsHexDigit(b) && HexDigitValue(b) == v
{
  if v < 10 then 0x30 + v else 0x61 + v - 10
}

/** `from_hex` of rustc_serialize, for input without whitespace: every two digits give one
    byte, high digit first; an odd length or any other character is an error. */
function FromHex(s: Utf8): (r: Option<seq<uint8>>)
  ensures r.Some? <==> |s| % 2 == 0 && forall i :: 0 <= i < |s| ==> IsHexDigit(s[i])
  ensures r.Some? ==> |r.value| == |s| / 2
  ensures r.Some? ==> forall k :: 0 <= k < |r.value| ==>
    r.value[k] == 16 * HexDigitValue(s[2 * k]) + HexDigitValue(s[2 * k + 1])
{
  if |s| == 0 then Some([])
  else if |s| == 1 || !IsHexDigit(s[0]) || !IsHexDigit(s[1]) then None
  else
    match FromHex(s[2..])
    case None => None
    case Some(rest) => Some([16 * HexDigitValue(s[0]) + HexDigitValue(s[1])] + rest)
}

/** Lower-case hexadecimal text of a byte sequence, two digits per byte. */
function ToHex(bytes: seq<uint8>): (s: Utf8)
  ensures |s| == 2 * |bytes|
  ensures forall i :: 0 <= i < |s| ==> IsHexDigit(s[i])
{
  if |bytes| == 0 then []
  else [LowerHexDigit(bytes[0] / 16), LowerHexDigit(bytes[0] % 16)] + ToHex(bytes[1..])
}

/** `from_hex` reads back what the hexadecimal text of the bytes says. */
lemma {:induction false} FromHexToHex(bytes: seq<uint8>)
  ensures FromHex(ToHex(bytes)) == Some(bytes)
{
  if |bytes| > 0 {
    var b := bytes[0];
    var s := ToHex(bytes);
    assert s[0] == LowerHexDigit(b / 16) && s[1] == LowerHexDigit(b % 16);
    assert s[2..] == ToHex(bytes[1..]);
    FromHexToHex(bytes[1..]);
    assert 16 * HexDigitValue(s[0]) + HexDigitValue(s[1]) == b;
    assert bytes == [b] + bytes[1..];
  }
}

// ---------------------------------------------------------------------------------------------
// The modalias decoder

/** One id: the four hex digits at `seg[k..k + 4]`, decoded by `from_hex` into two bytes and
    combined as high * 256 + low. */
function HexGroup(seg: Utf8, k: nat): (r: Option<uint32>)
  requires k + 4 <= |seg|
  ensures r.Some? ==> r.value < 0x1_0000
{
  match FromHex(seg[k..k + 4])
  case None => None
  case Some(b) => Some(b[0] as int * 256 + b[1] as int)
}

/** The decoder of `get_modalias`: the source is the text before the first ':'; the ids sit at
    byte offsets 1..5, 6..10 and 11..15 of the text between the first and the second ':'.
    The bytes at offsets 0, 5 and 10 are not looked at. */
function DecodeModalias(m: Utf8): (r: Option<Modalias>)
  ensures r.Some? ==> Colon !in r.value.source && r.value.source <= m
  ensures r.Some? ==> |r.value.source| < |m| && m[|r.value.source|] == Colon
  ensures r.Some? ==> r.value.vendor < 0x1_0000 && r.value.product < 0x1_0000 && r.value.device < 0x1_0000
{
  var ids := Split(m, Colon);
  if |ids| < 2 || |ids[1]| < 15 then None
  else
    match (HexGroup(ids[1], 1), HexGroup(ids[1], 6), HexGroup(ids[1], 11))
    case (Some(vendor), Some(product), Some(device)) => Some(Modalias(ids[0], vendor, product, device))
    case _ => None
}

// ---------------------------------------------------------------------------------------------
// What the decoder accepts and what it returns, stated digit by digit

/** Four hex digits start at offset `k` of `seg`. */
predicate HexGroupAt(seg: Utf8, k: nat) {
  k + 4 <= |seg| && forall i :: k <= i < k + 4 ==> IsHexDigit(seg[i])
}

/** The value of the four hex digits at offset `k`, most significant first. */
function Nibbles(seg: Utf8, k: nat): nat
  requires HexGroupAt(seg, k)
{
  4096 * HexDigitValue(seg[k]) + 256 * HexDigitValue(seg[k + 1])
  + 16 * HexDigitValue(seg[k + 2]) + HexDigitValue(seg[k + 3])
}

/** A segment the decoder accepts: 15 bytes or more, hex digits at 1..5, 6..10 and 11..15. */
predicate WellFormedSegment(seg: Utf8) {
  |seg| >= 15 && HexGroupAt(seg, 1) && HexGroupAt(seg, 6) && HexGroupAt(seg, 11)
}

/** A segment and a possibly empty rest that starts at the second ':'. */
predicate SegmentEnds(seg: Utf8, rest: Utf8) {
  Colon !in seg && (rest == [] || rest[0] == Colon)
}

/** `HexGroup` succeeds exactly on four hex digits, and gives their value. */
lemma HexGroupValue(seg: Utf8, k: nat)
  requires k + 4 <= |seg|
  ensures HexGroup(seg, k).Some? <==> HexGroupAt(seg, k)
  ensures HexGroup(seg, k).Some? ==> HexGroup(seg, k).value == Nibbles(seg, k)
{
  var g := seg[k..k + 4];
  assert forall i :: 0 <= i < 4 ==> g[i] == seg[k + i];
  if HexGroupAt(seg, k) {
    assert forall i :: 0 <= i < 4 ==> IsHexDigit(g[i]);
    var b := FromHex(g).value;
    assert b[0] == 16 * HexDigitValue(g[0]) + HexDigitValue(g[1]);
    assert b[1] == 16 * HexDigitValue(g[2]) + HexDigitValue(g[3]);
  } else {
    var i :| k <= i < k + 4 && !IsHexDigit(seg[i]);
    assert !IsHexDigit(g[i - k]);
  }
}

/** The text between the first and the second ':' is the second piece of the split. */
lemma SecondPiece(src: Utf8, seg: Utf8, rest: Utf8)
  requires Colon !in src && SegmentEnds(seg, rest)
  ensures |Split(src + [Colon] + seg + rest, Colon)| >= 2
  ensures Split(src + [Colon] + seg + rest, Colon)[0] == src
  ensures Split(src + [Colon] + seg + rest, Colon)[1] == seg
{
  assert src + [Colon] + seg + rest == src + [Colon] + (seg + rest);
  SplitAtFirst(src, seg + rest, Colon);
  if rest == [] {
    assert seg + rest == seg;
    SplitNoSeparator(seg, Colon);
  } else {
    assert seg + rest == seg + [Colon] + rest[1..];
    SplitAtFirst(seg, rest[1..], Colon);
  }
}

/** On a string with a ':', a well-formed segment decodes to the text before the ':' and the
    values of its digits. */
lemma DecodeAccepts(src: Utf8, seg: Utf8, rest: Utf8)
  requires Colon !in src && SegmentEnds(seg, rest)
  requires WellFormedSegment(seg)
  ensures DecodeModalias(src + [Colon] + seg + rest) == Some(Modalias(src, Nibbles(seg, 1), Nibbles(seg, 6), Nibbles(seg, 11)))
{
  SecondPiece(src, seg, rest);
  HexGroupValue(seg, 1);
  HexGroupValue(seg, 6);
  HexGroupValue(seg, 11);
}

/** On a string with a ':', any other segment makes the decoder fail. */
lemma DecodeRejects(src: Utf8, seg: Utf8, rest: Utf8)
  requires Colon !in src && SegmentEnds(seg, rest)
  requires !WellFormedSegment(seg)
  ensures DecodeModalias(src + [Colon] + seg + rest) == None
{
  SecondPiece(src, seg, rest);
  if |seg| >= 15 {
    HexGroupValue(seg, 1);
    HexGroupValue(seg, 6);
    HexGroupValue(seg, 11);
  }
}

/** The decoder, completely: on a string with a ':' it succeeds exactly when the segment after
    the first ':' is well formed, and then returns the text before the ':' and the digit values.
    Together with `NoColonFails` this covers every string. */
lemma DecodeShape(src: Utf8, seg: Utf8, rest: Utf8)
  requires Colon !in src && SegmentEnds(seg, rest)
  ensures DecodeModalias(src + [Colon] + seg + rest) ==
    if WellFormedSegment(seg) then Some(Modalias(src, Nibbles(seg, 1), Nibbles(seg, 6), Nibbles(seg, 11)))
    else None
{
  if WellFormedSegment(seg) {
    DecodeAccepts(src, seg, rest);
  } else {
    DecodeRejects(src, seg, rest);
  }
}

/** Without a ':' the decoder fails (the source indexes a missing second piece). */
lemma NoColonFails(m: Utf8)
  requires Colon !in m
  ensures DecodeModalias(m) == None
{
  SplitNoSeparator(m, Colon);
}

/** The same two ids-segments agree at the twelve digit offsets (and on being long enough). */
predicate SameIdDigits(seg: Utf8, seg': Utf8) {
  && (|seg| >= 15 <==> |seg'| >= 15)
  && (|seg| >= 15 && |seg'| >= 15 ==>
        forall i :: 1 <= i < 15 && i != 5 && i != 10 ==> seg[i] == seg'[i])
}

/** Two segments that agree on four bytes agree on the hex group there. */
lemma SameGroup(seg: Utf8, seg': Utf8, k: nat)
  requires k + 4 <= |seg| && k + 4 <= |seg'|
  requires forall i :: k <= i < k + 4 ==> seg[i] == seg'[i]
  ensures HexGroupAt(seg, k) == HexGroupAt(seg', k)
  ensures HexGroupAt(seg, k) ==> Nibbles(seg, k) == Nibbles(seg', k)
{
  assert seg[k] == seg'[k] && seg[k + 1] == seg'[k + 1];
  assert seg[k + 2] == seg'[k + 2] && seg[k + 3] == seg'[k + 3];
}

/** Only the twelve digit offsets of the segment matter: the letters at offsets 0, 5 and 10,
    anything past offset 15 and anything after the second ':' never change the result. */
lemma OnlyIdDigitsMatter(src: Utf8, seg: Utf8, rest: Utf8, seg': Utf8, rest': Utf8)
  requires Colon !in src && SegmentEnds(seg, rest) && SegmentEnds(seg', rest')
  requires SameIdDigits(seg, seg')
  ensures DecodeModalias(src + [Colon] + seg + rest) == DecodeModalias(src + [Colon] + seg' + rest')
{
  DecodeShape(src, seg, rest);
  DecodeShape(src, seg', rest');
  if |seg| >= 15 {
    SameGroup(seg, seg', 1);
    SameGroup(seg, seg', 6);
    SameGroup(seg, seg', 11);
  }
}

// ---------------------------------------------------------------------------------------------
// The format itself, and that decoding inverts it

/** The four lower-case hex digits of a 16-bit value. */
function Hex4(v: nat): (s: Utf8)
  requires v < 0x1_0000
  ensures |s| == 4
{
  ToHex([v / 256, v % 256])
}

/** The modalias text "<source>:v<VVVV>p<PPPP>d<DDDD>" for a source without ':' and 16-bit ids. */
function EncodeModalias(d: Modalias): (m: Utf8)
  requires Colon !in d.source
  requires d.vendor < 0x1_0000 && d.product < 0x1_0000 && d.device < 0x1_0000
  ensures |m| == |d.source| + 16
{
  d.source + [Colon] + [LetterV] + Hex4(d.vendor) + [LetterP] + Hex4(d.product) + [LetterD] + Hex4(d.device)
}

/** The id of a four-digit hex group is the 16-bit value written there. */
lemma HexGroupOfHex4(seg: Utf8, k: nat, v: nat)
  requires v < 0x1_0000 && k + 4 <= |seg| && seg[k..k + 4] == Hex4(v)
  ensures HexGroup(seg, k) == Some(v)
{
  FromHexToHex([v / 256, v % 256]);
}

/** Decoding the text of a modalias gives it back. */
lemma EncodeDecode(d: Modalias)
  requires Colon !in d.source
  requires d.vendor < 0x1_0000 && d.product < 0x1_0000 && d.device < 0x1_0000
  ensures DecodeModalias(EncodeModalias(d)) == Some(d)
{
  var seg := [LetterV] + Hex4(d.vendor) + [LetterP] + Hex4(d.product) + [LetterD] + Hex4(d.device);
  assert EncodeModalias(d) == d.source + [Colon] + seg + [];
  assert Colon !in seg by {
    forall i | 0 <= i < |seg| ensures seg[i] != Colon {
      if i != 0 && i != 5 && i != 10 {
        assert seg[i] in Hex4(d.vendor) + Hex4(d.product) + Hex4(d.device);
      }
    }
  }
  SecondPiece(d.source, seg, []);
  HexGroupOfHex4(seg, 1, d.vendor);
  HexGroupOfHex4(seg, 6, d.product);
  HexGroupOfHex4(seg, 11, d.device);
}

/** "bluetooth" */
const ExampleSource: Utf8 := [0x62, 0x6C, 0x75, 0x65, 0x74, 0x6F, 0x6F, 0x74, 0x68]
/** "v1234p5678d9ABC" */
const ExampleSegment: Utf8 := [0x76, 0x31, 0x32, 0x33, 0x34, 0x70, 0x35, 0x36, 0x37, 0x38, 0x64, 0x39, 0x41, 0x42, 0x43]

/** A worked case: "bluetooth:v1234p5678d9ABC" has source "bluetooth", vendor 0x1234,
    product 0x5678 and device 0x9ABC (upper-case digits are accepted). */
lemma BluetoothExample()
  ensures DecodeModalias(ExampleSource + [Colon] + ExampleSegment) == Some(Modalias(ExampleSource, 4660, 22136, 39612))
{
  var seg := ExampleSegment;
  assert WellFormedSegment(seg) by {
    assert HexGroupAt(seg, 1) && HexGroupAt(seg, 6) && HexGroupAt(seg, 11);
  }
  assert Nibbles(seg, 1) == 4660 && Nibbles(seg, 6) == 22136 && Nibbles(seg, 11) == 39612;
  assert ExampleSource + [Colon] + seg == ExampleSource + [Colon] + seg + [];
  DecodeAccepts(ExampleSource, seg, []);
}

/** A worked case: "bluetoothv1234p5678d9ABC", without a ':', does not decode. */
lemma MissingColonExample()
  ensures DecodeModalias(ExampleSource + ExampleSegment) == None
{
  assert Colon !in ExampleSource + ExampleSegment;
  NoColonFails(ExampleSource + ExampleSegment);
}
