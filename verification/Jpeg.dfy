/** Marker structure of a JPEG (ITU-T T.81, section B.1.1), followed byte by byte
    to keep the image and drop what was attached to it. */
module Jpeg {
  import opened Provider

  type byte = x: int | 0 <= x < 256

  const TEM: byte := 0x01
  const RST0: byte := 0xd0
  const RST7: byte := 0xd7
  const SOI: byte := 0xd8
  const EOI: byte := 0xd9
  const SOS: byte := 0xda
  const APP0: byte := 0xe0
  const APP2: byte := 0xe2
  const APP14: byte := 0xee
  const APP15: byte := 0xef
  const COM: byte := 0xfe

  /** "ICC_PROFILE" and its terminating zero. */
  const ICC: seq<byte> := [0x49, 0x43, 0x43, 0x5f, 0x50, 0x52, 0x4f, 0x46, 0x49, 0x4c, 0x45, 0x00]

  /** `data` is the whole segment, from its 0xff on. */
  datatype Segment = Segment(marker: byte, data: seq<byte>) {
    function Payload(): seq<byte> {
      if |data| < 4 then [] else data[4..]
    }

    /** What decoding depends on: JFIF, Adobe and the colour profile. */
    predicate Keep() {
      if marker == COM then false
      else if marker == APP0 || marker == APP14 then true
      else if marker == APP2 then ICC <= Payload()
      else !(APP0 <= marker <= APP15)
    }
  }

  /** Where a marker's 0xff is, the marker, and what comes next. */
  datatype Marker = Marker(start: nat, code: byte, next: nat)

  datatype Header = Header(segments: seq<Segment>, scan: nat)

  predicate Standalone(marker: byte) {
    marker == TEM || RST0 <= marker <= RST7
  }

  // ----- What is read, as functions of the bytes -----

  /** The first offset from `i` on that holds no 0xff. */
  function FillEnd(data: seq<byte>, i: nat): (end: nat)
    requires i <= |data|
    ensures i <= end <= |data|
    decreases |data| - i
  {
    if i < |data| && data[i] == 0xff then FillEnd(data, i + 1) else i
  }

  function NextMarker(data: seq<byte>, i: nat): (m: Option<Marker>)
    ensures m.Some? ==> i <= m.value.start == m.value.next - 2 && m.value.next <= |data|
  {
    if i >= |data| || data[i] != 0xff then None
    else
      var end := FillEnd(data, i);
      if end >= |data| then None else Some(Marker(end - 1, data[end], end + 1))
  }

  function SegmentEnd(data: seq<byte>, i: nat): (end: Option<nat>)
    ensures end.Some? ==> i + 2 <= end.value <= |data|
  {
    if i + 2 > |data| then None
    else
      var n := data[i] as int * 256 + data[i + 1] as int;
      if n < 2 || i + n > |data| then None else Some(i + n)
  }

  /** The segment a marker begins, and where it ends. */
  datatype Piece = Piece(segment: Segment, end: nat)

  function Cut(data: seq<byte>, m: Marker): (piece: Option<Piece>)
    requires m.start <= m.next <= |data|
    ensures piece.Some? ==> m.next <= piece.value.end <= |data|
  {
    if Standalone(m.code) then Some(Piece(Segment(m.code, data[m.start..m.next]), m.next))
    else if m.code == SOI || m.code == EOI then None
    else
      var end := SegmentEnd(data, m.next);
      if end.None? then None else Some(Piece(Segment(m.code, data[m.start..end.value]), end.value))
  }

  function HeaderFrom(data: seq<byte>, i: nat): (h: Option<Header>)
    decreases |data| - i
  {
    var m := NextMarker(data, i);
    if m.None? then None
    else
      var piece := Cut(data, m.value);
      if piece.None? then None
      else if m.value.code == SOS then Some(Header([], m.value.start))
      else Before(piece.value.segment, HeaderFrom(data, piece.value.end))
  }

  function Before(s: Segment, h: Option<Header>): Option<Header> {
    if h.None? then None else Some(Header([s] + h.value.segments, h.value.scan))
  }

  /** The segments before the first scan, and where that scan begins. */
  function HeaderOf(data: seq<byte>): Option<Header> {
    if |data| < 4 || data[0] != 0xff || data[1] != SOI then None else HeaderFrom(data, 2)
  }

  /** What the parser returns once it has `out` and `h` is what follows. */
  ghost function After(out: seq<Segment>, h: Option<Header>): Option<Header> {
    if h.None? then None else Some(Header(out + h.value.segments, h.value.scan))
  }

  lemma AfterNothing(h: Option<Header>)
    ensures After([], h) == h
  {
    if h.Some? { assert [] + h.value.segments == h.value.segments; }
  }

  lemma AfterLast(out: seq<Segment>, scan: nat)
    ensures After(out, Some(Header([], scan))) == Some(Header(out, scan))
  {
    assert out + [] == out;
  }

  lemma AfterOne(out: seq<Segment>, s: Segment, h: Option<Header>)
    ensures After(out, Before(s, h)) == After(out + [s], h)
  {
    if h.Some? { assert out + ([s] + h.value.segments) == out + [s] + h.value.segments; }
  }

  /** Inside a scan 0xff is data when a zero, a restart marker or more fill follows. */
  predicate EndsEntropy(data: seq<byte>, i: nat) {
    i + 1 < |data| && data[i] == 0xff
    && data[i + 1] != 0x00 && !(RST0 <= data[i + 1] <= RST7) && data[i + 1] != 0xff
  }

  /** The first marker from `i` on that ends a scan's data. */
  function EntropyEnd(data: seq<byte>, i: nat): (end: nat)
    requires i <= |data|
    ensures i <= end <= |data|
    decreases |data| - i
  {
    if i == |data| || EndsEntropy(data, i) then i else EntropyEnd(data, i + 1)
  }

  /** The step over a marker, over its segment, and over the scan data after one. */
  function Past(data: seq<byte>, m: Marker): (after: Option<nat>)
    requires m.next <= |data|
    ensures after.Some? ==> m.next <= after.value <= |data|
  {
    if Standalone(m.code) then Some(m.next)
    else
      var end := SegmentEnd(data, m.next);
      if end.Some? && m.code == SOS then Some(EntropyEnd(data, end.value)) else end
  }

  /** The offset just past the end-of-image marker that closes the scan at `i`. */
  function EndFrom(data: seq<byte>, i: nat): (end: Option<nat>)
    ensures end.Some? ==> i + 2 <= end.value <= |data|
    decreases |data| - i
  {
    var m := NextMarker(data, i);
    if m.None? then None
    else if m.value.code == EOI then Some(m.value.next)
    else
      var after := Past(data, m.value);
      if after.None? then None else EndFrom(data, after.value)
  }

  function KeptBytes(segments: seq<Segment>): seq<byte> {
    if segments == [] then []
    else if segments[0].Keep() then segments[0].data + KeptBytes(segments[1..])
    else KeptBytes(segments[1..])
  }

  /** An image by its parts: header segments, first scan, and where it ends. */
  datatype Picture = Picture(segments: seq<Segment>, scan: nat, end: nat)

  function Parsed(data: seq<byte>): (image: Option<Picture>)
    ensures image.Some? ==> image.value.scan < image.value.end <= |data|
  {
    var h := HeaderOf(data);
    if h.None? then None
    else
      var end := EndFrom(data, h.value.scan);
      if end.None? then None else Some(Picture(h.value.segments, h.value.scan, end.value))
  }

  function Stripped(data: seq<byte>): Option<seq<byte>> {
    var image := Parsed(data);
    if image.None? then None
    else Some([0xff, SOI] + KeptBytes(image.value.segments) + data[image.value.scan..image.value.end])
  }

  /** The markers that stand alone (ITU-T T.81, table B.1). */
  lemma StandaloneCodes(code: byte)
    ensures Standalone(code) <==> code == 0x01 || 0xd0 <= code <= 0xd7
  {
  }

  /** The length of any other segment is read back: two bytes, the high one first,
      that count themselves and the payload. */
  lemma LengthReadBack(before: seq<byte>, hi: byte, lo: byte, payload: seq<byte>, after: seq<byte>)
    requires |payload| + 2 == 0x100 * hi as int + lo as int
    ensures SegmentEnd(before + [hi, lo] + payload + after, |before|) == Some(|before| + 2 + |payload|)
  {
    var data := before + [hi, lo] + payload + after;
    assert data[|before|] == hi && data[|before| + 1] == lo;
  }

  lemma {:induction false} FillEndIsFirst(data: seq<byte>, i: nat)
    requires i <= |data|
    ensures FillEnd(data, i) < |data| ==> data[FillEnd(data, i)] != 0xff
    ensures forall k :: i <= k < FillEnd(data, i) ==> data[k] == 0xff
    decreases |data| - i
  {
    if i < |data| && data[i] == 0xff { FillEndIsFirst(data, i + 1); }
  }

  /** A marker is the last of a row of 0xff bytes and the first byte after them. */
  lemma MarkerIsThere(data: seq<byte>, i: nat)
    requires NextMarker(data, i).Some?
    ensures var m := NextMarker(data, i).value;
      && data[m.start] == 0xff && data[m.start + 1] == m.code && m.code != 0xff
      && forall k :: i <= k <= m.start ==> data[k] == 0xff
  {
    FillEndIsFirst(data, i);
  }

  /** A scan's data ends at its first marker, or with the file. */
  lemma {:induction false} EntropyEndIsFirst(data: seq<byte>, i: nat)
    requires i <= |data|
    ensures EntropyEnd(data, i) < |data| ==> EndsEntropy(data, EntropyEnd(data, i))
    ensures forall k :: i <= k < EntropyEnd(data, i) ==> !EndsEntropy(data, k)
    decreases |data| - i
  {
    if i < |data| && !EndsEntropy(data, i) { EntropyEndIsFirst(data, i + 1); }
  }

  // ----- How it is read -----

  method ReadMarker(data: seq<byte>, at: nat) returns (m: Option<Marker>)
    ensures m == NextMarker(data, at)
  {
    var i := at;
    if i >= |data| || data[i] != 0xff { return None; }
    while i < |data| && data[i] == 0xff
      invariant at <= i <= |data| && FillEnd(data, i) == FillEnd(data, at)
    {
      i := i + 1;
    }
    if i >= |data| { return None; }
    return Some(Marker(i - 1, data[i], i + 1));
  }

  method ReadHeader(data: seq<byte>) returns (h: Option<Header>)
    ensures h == HeaderOf(data)
  {
    if |data| < 4 || data[0] != 0xff || data[1] != SOI { return None; }
    var i, out := 2, [];
    hide NextMarker, SegmentEnd, Standalone, After, Before;
    AfterNothing(HeaderFrom(data, 2));
    while true
      invariant i <= |data| && HeaderOf(data) == After(out, HeaderFrom(data, i))
      decreases |data| - i
    {
      var m := ReadMarker(data, i);
      if m.None? { return None; }
      var next := m.value.next;
      if Standalone(m.value.code) {
        AfterOne(out, Segment(m.value.code, data[m.value.start..next]), HeaderFrom(data, next));
        out := out + [Segment(m.value.code, data[m.value.start..next])];
        i := next;
        continue;
      }
      if m.value.code == SOI || m.value.code == EOI { return None; }
      var end := SegmentEnd(data, next);
      if end.None? { return None; }
      if m.value.code == SOS {
        AfterLast(out, m.value.start);
        return Some(Header(out, m.value.start));
      }
      AfterOne(out, Segment(m.value.code, data[m.value.start..end.value]), HeaderFrom(data, end.value));
      out := out + [Segment(m.value.code, data[m.value.start..end.value])];
      i := end.value;
    }
  }

  /** Steps over stuffed bytes and restart markers two at a time. */
  method SkipEntropy(data: seq<byte>, at: nat) returns (end: nat)
    requires at <= |data|
    ensures end == EntropyEnd(data, at)
  {
    var i := at;
    while i + 1 < |data|
      invariant at <= i <= |data| && EntropyEnd(data, i) == EntropyEnd(data, at)
    {
      if data[i] != 0xff {
        i := i + 1;
      } else if data[i + 1] == 0x00 || RST0 <= data[i + 1] <= RST7 {
        assert !EndsEntropy(data, i) && !EndsEntropy(data, i + 1);
        i := i + 2;
      } else if data[i + 1] == 0xff {
        i := i + 1;
      } else {
        return i;
      }
    }
    return |data|;
  }

  method ReadEnd(data: seq<byte>, scan: nat) returns (end: Option<nat>)
    ensures end == EndFrom(data, scan)
  {
    var i := scan;
    hide NextMarker, SegmentEnd, EntropyEnd, Standalone;
    while true
      invariant scan <= i && EndFrom(data, i) == EndFrom(data, scan)
      decreases |data| - i
    {
      var m := ReadMarker(data, i);
      if m.None? { return None; }
      if m.value.code == EOI { return Some(m.value.next); }
      if Standalone(m.value.code) {
        i := m.value.next;
        continue;
      }
      var segment := SegmentEnd(data, m.value.next);
      if segment.None? { return None; }
      i := segment.value;
      if m.value.code == SOS {
        i := SkipEntropy(data, i);
      }
    }
  }

  method Strip(data: seq<byte>) returns (out: Option<seq<byte>>)
    ensures out == Stripped(data)
  {
    var h := ReadHeader(data);
    if h.None? { return None; }
    var end := ReadEnd(data, h.value.scan);
    if end.None? { return None; }
    hide HeaderOf, EndFrom;
    var kept, i := [0xff, SOI], 0;
    while i < |h.value.segments|
      invariant i <= |h.value.segments|
      invariant [0xff, SOI] + KeptBytes(h.value.segments) == kept + KeptBytes(h.value.segments[i..])
    {
      var s := h.value.segments[i];
      if s.Keep() {
        kept := kept + s.data;
      }
      assert h.value.segments[i..][1..] == h.value.segments[i + 1..];
      i := i + 1;
    }
    assert kept + KeptBytes(h.value.segments[i..]) == kept;
    return Some(kept + data[h.value.scan..end.value]);
  }

  // ----- What is read depends only on the bytes read -----

  /** `there` holds, `d` bytes further on, what `here` holds from `i` up to `to`. */
  ghost predicate Agree(here: seq<byte>, i: nat, to: nat, there: seq<byte>, d: int) {
    i <= to <= |here| && 0 <= i + d && to + d <= |there|
    && forall k :: i <= k < to ==> here[k] == there[k + d]
  }

  lemma AgreeWithin(here: seq<byte>, i: nat, to: nat, there: seq<byte>, d: int, i': nat, to': nat)
    requires Agree(here, i, to, there, d) && i <= i' <= to' <= to
    ensures Agree(here, i', to', there, d)
  {
  }

  lemma AgreeAt(here: seq<byte>, i: nat, to: nat, there: seq<byte>, d: int, k: nat)
    requires Agree(here, i, to, there, d) && i <= k < to
    ensures here[k] == there[k + d]
  {
  }

  lemma {:induction false} FillEndLocal(here: seq<byte>, i: nat, there: seq<byte>, d: int)
    requires i <= |here| && FillEnd(here, i) < |here| && Agree(here, i, FillEnd(here, i) + 1, there, d)
    ensures FillEnd(there, i + d) == FillEnd(here, i) + d
    decreases |here| - i
  {
    var to := FillEnd(here, i) + 1;
    AgreeAt(here, i, to, there, d, i);
    if here[i] == 0xff {
      AgreeWithin(here, i, to, there, d, i + 1, to);
      FillEndLocal(here, i + 1, there, d);
    }
  }

  lemma NextMarkerLocal(here: seq<byte>, i: nat, there: seq<byte>, d: int)
    requires NextMarker(here, i).Some? && Agree(here, i, NextMarker(here, i).value.next, there, d)
    ensures var m := NextMarker(here, i).value;
      NextMarker(there, i + d) == Some(Marker(m.start + d, m.code, m.next + d))
  {
    var end := FillEnd(here, i);
    FillEndLocal(here, i, there, d);
    AgreeAt(here, i, end + 1, there, d, i);
    AgreeAt(here, i, end + 1, there, d, end);
  }

  lemma SegmentEndLocal(here: seq<byte>, i: nat, there: seq<byte>, d: int)
    requires SegmentEnd(here, i).Some? && Agree(here, i, SegmentEnd(here, i).value, there, d)
    ensures SegmentEnd(there, i + d) == Some(SegmentEnd(here, i).value + d)
  {
    var to := SegmentEnd(here, i).value;
    AgreeAt(here, i, to, there, d, i);
    AgreeAt(here, i, to, there, d, i + 1);
  }

  lemma {:induction false} EntropyEndLocal(here: seq<byte>, i: nat, there: seq<byte>, d: int)
    requires i <= |here| && EntropyEnd(here, i) + 2 <= |here| && Agree(here, i, EntropyEnd(here, i) + 2, there, d)
    ensures EntropyEnd(there, i + d) == EntropyEnd(here, i) + d
    decreases |here| - i
  {
    var to := EntropyEnd(here, i) + 2;
    AgreeAt(here, i, to, there, d, i);
    AgreeAt(here, i, to, there, d, i + 1);
    if !EndsEntropy(here, i) {
      AgreeWithin(here, i, to, there, d, i + 1, to);
      EntropyEndLocal(here, i + 1, there, d);
    }
  }

  lemma NextMarkerBounds(data: seq<byte>, i: nat)
    requires EndFrom(data, i).Some?
    ensures NextMarker(data, i).Some? && i + 2 <= NextMarker(data, i).value.next <= EndFrom(data, i).value
  {
    hide NextMarker, Past;
  }

  lemma EndFromGoesOn(data: seq<byte>, i: nat, m: Marker, after: nat)
    requires NextMarker(data, i) == Some(m) && m.code != EOI && Past(data, m) == Some(after)
    ensures EndFrom(data, i) == EndFrom(data, after)
  {
    hide NextMarker, Past;
  }

  lemma EndFromStops(data: seq<byte>, i: nat, m: Marker)
    requires NextMarker(data, i) == Some(m) && m.code == EOI
    ensures EndFrom(data, i) == Some(m.next)
  {
    hide NextMarker, Past;
  }

  /** An end that exists beyond another marker is reached past that marker. */
  lemma EndFromPast(data: seq<byte>, i: nat, m: Marker)
    requires NextMarker(data, i) == Some(m) && m.code != EOI && EndFrom(data, i).Some?
    ensures Past(data, m).Some? && EndFrom(data, Past(data, m).value) == EndFrom(data, i)
  {
    hide NextMarker, Past;
  }

  lemma PastLocal(here: seq<byte>, there: seq<byte>, d: int, m: Marker)
    requires m.next <= |here| && 0 <= m.start + d && 0 <= m.next + d <= |there| && Past(here, m).Some?
    requires Past(here, m).value + 2 <= |here| && Agree(here, m.next, Past(here, m).value + 2, there, d)
    ensures Past(there, Marker(m.start + d, m.code, m.next + d)) == Some(Past(here, m).value + d)
  {
    hide SegmentEnd, EntropyEnd, Agree;
    if !Standalone(m.code) {
      var to, end := Past(here, m).value + 2, SegmentEnd(here, m.next).value;
      AgreeWithin(here, m.next, to, there, d, m.next, end);
      SegmentEndLocal(here, m.next, there, d);
      if m.code == SOS {
        AgreeWithin(here, m.next, to, there, d, end, to);
        EntropyEndLocal(here, end, there, d);
      }
    }
  }

  function Moved(m: Marker, d: int): Marker
    requires 0 <= m.start + d && 0 <= m.next + d
  {
    Marker(m.start + d, m.code, m.next + d)
  }

  /** One marker on the way to the end, and what it leaves to be read. */
  lemma MarkerLocal(here: seq<byte>, i: nat, to: nat, there: seq<byte>, d: int)
    requires EndFrom(here, i) == Some(to) && Agree(here, i, to, there, d)
    ensures NextMarker(here, i).Some? && i <= NextMarker(here, i).value.start
    ensures var m := NextMarker(here, i).value;
      && NextMarker(there, i + d) == Some(Moved(m, d)) && m.next + d <= |there|
      && (m.code == EOI ==> to == m.next)
      && (m.code != EOI ==>
            && Past(here, m).Some? && EndFrom(here, Past(here, m).value) == Some(to)
            && Past(there, Moved(m, d)) == Some(Past(here, m).value + d)
            && Agree(here, Past(here, m).value, to, there, d))
  {
    NextMarkerBounds(here, i);
    var m := NextMarker(here, i).value;
    assert 0 <= i + d && to + d <= |there|;
    hide NextMarker, Past, Agree, EndFrom;
    AgreeWithin(here, i, to, there, d, i, m.next);
    NextMarkerLocal(here, i, there, d);
    if m.code == EOI {
      EndFromStops(here, i, m);
    } else {
      EndFromPast(here, i, m);
      PastWithin(here, i, m, to, there, d);
    }
  }

  lemma PastWithin(here: seq<byte>, i: nat, m: Marker, to: nat, there: seq<byte>, d: int)
    requires Agree(here, i, to, there, d) && i <= m.start && i <= m.next <= to && 0 <= m.next + d <= |there|
    requires 0 <= m.start + d && Past(here, m).Some? && EndFrom(here, Past(here, m).value) == Some(to)
    ensures Past(there, Moved(m, d)) == Some(Past(here, m).value + d)
    ensures Agree(here, Past(here, m).value, to, there, d)
  {
    var after := Past(here, m).value;
    NextMarkerBounds(here, after);
    hide Past, Agree, EndFrom, NextMarker;
    AgreeWithin(here, i, to, there, d, m.next, after + 2);
    PastLocal(here, there, d, m);
    AgreeWithin(here, i, to, there, d, after, to);
  }

  lemma {:induction false} EndFromLocal(here: seq<byte>, i: nat, there: seq<byte>, d: int)
    requires EndFrom(here, i).Some? && Agree(here, i, EndFrom(here, i).value, there, d)
    ensures EndFrom(there, i + d) == Some(EndFrom(here, i).value + d)
    decreases |here| - i
  {
    var to := EndFrom(here, i).value;
    hide NextMarker, Past, Agree, EndFrom, Standalone, SegmentEnd, EntropyEnd;
    MarkerLocal(here, i, to, there, d);
    var m := NextMarker(here, i).value;
    if m.code == EOI {
      EndFromStops(there, i + d, Moved(m, d));
    } else {
      var after := Past(here, m).value;
      assert i < after <= |here| && EndFrom(here, after) == Some(to);
      EndFromLocal(here, after, there, d);
      EndFromGoesOn(there, i + d, Moved(m, d), after + d);
    }
  }

  // ----- The header -----

  /** A segment as the header parser cuts them out. */
  ghost predicate Proper(s: Segment) {
    && 2 <= |s.data| && s.data[0] == 0xff && s.data[1] == s.marker && s.marker != 0xff
    && if Standalone(s.marker) then |s.data| == 2
       else s.marker !in {SOI, EOI, SOS} && SegmentEnd(s.data, 2) == Some(|s.data|)
  }

  /** A scan, from its marker's 0xff on. */
  ghost predicate Scan(data: seq<byte>, i: nat) {
    NextMarker(data, i) == Some(Marker(i, SOS, i + 2)) && SegmentEnd(data, i + 2).Some?
  }

  lemma CutIsProper(data: seq<byte>, i: nat)
    requires NextMarker(data, i).Some?
    ensures var m := NextMarker(data, i).value; m.code != SOS && Cut(data, m).Some? ==> Proper(Cut(data, m).value.segment)
  {
    MarkerIsThere(data, i);
    hide NextMarker;
    CutAtIsProper(data, NextMarker(data, i).value);
  }

  lemma CutAtIsProper(data: seq<byte>, m: Marker)
    requires m.start + 2 == m.next <= |data| && data[m.start] == 0xff && data[m.start + 1] == m.code && m.code != 0xff
    ensures m.code != SOS && Cut(data, m).Some? ==> Proper(Cut(data, m).value.segment)
  {
    if !Standalone(m.code) && m.code != SOS && Cut(data, m).Some? {
      var end := Cut(data, m).value.end;
      SegmentEndLocal(data, m.next, data[m.start..end], -(m.start as int));
      hide SegmentEnd;
    }
  }

  lemma StartIsNextMarker(data: seq<byte>, i: nat)
    requires NextMarker(data, i).Some?
    ensures var m := NextMarker(data, i).value; NextMarker(data, m.start) == Some(m)
  {
    MarkerIsThere(data, i);
    var m := NextMarker(data, i).value;
    assert FillEnd(data, m.start) == FillEnd(data, m.start + 1) == m.start + 1;
  }

  lemma HeaderGoesOn(data: seq<byte>, i: nat, m: Marker, piece: Piece)
    requires NextMarker(data, i) == Some(m) && m.code != SOS && Cut(data, m) == Some(piece)
    ensures HeaderFrom(data, i) == Before(piece.segment, HeaderFrom(data, piece.end))
  {
    hide NextMarker, Cut, Before;
  }

  lemma HeaderStops(data: seq<byte>, i: nat, m: Marker)
    requires NextMarker(data, i) == Some(m) && m.code == SOS && Cut(data, m).Some?
    ensures HeaderFrom(data, i) == Some(Header([], m.start))
  {
    hide NextMarker, Cut, Before;
  }

  lemma HeaderCuts(data: seq<byte>, i: nat)
    requires HeaderFrom(data, i).Some?
    ensures NextMarker(data, i).Some? && Cut(data, NextMarker(data, i).value).Some?
  {
    hide NextMarker, Cut, Before;
  }

  lemma {:induction false} HeaderIsProper(data: seq<byte>, i: nat)
    requires HeaderFrom(data, i).Some?
    ensures var h := HeaderFrom(data, i).value;
      i <= h.scan && Scan(data, h.scan) && AllProper(h.segments)
    decreases |data| - i
  {
    HeaderCuts(data, i);
    var m := NextMarker(data, i).value;
    if m.code == SOS {
      StartIsNextMarker(data, i);
    } else {
      CutIsProper(data, i);
      hide NextMarker, Cut, Proper, Scan;
      HeaderIsProper(data, Cut(data, m).value.end);
    }
  }

  lemma CutLocal(here: seq<byte>, m: Marker, to: nat, there: seq<byte>)
    requires m.start <= m.next <= |here| && Cut(here, m).Some? && Cut(here, m).value.end <= to
    requires Agree(here, 0, to, there, 0)
    ensures m.next <= |there| && Cut(there, m) == Cut(here, m)
  {
    var end := Cut(here, m).value.end;
    assert here[m.start..end] == there[m.start..end];
    if !Standalone(m.code) { SegmentEndLocal(here, m.next, there, 0); }
  }

  /** The header reads nothing past its first scan's own segment. */
  lemma {:induction false} HeaderLocal(here: seq<byte>, i: nat, to: nat, there: seq<byte>)
    requires HeaderFrom(here, i).Some? && i <= to && Agree(here, 0, to, there, 0)
    requires var scan := HeaderFrom(here, i).value.scan; Scan(here, scan) && SegmentEnd(here, scan + 2).value <= to
    ensures HeaderFrom(there, i) == HeaderFrom(here, i)
    decreases |here| - i
  {
    SamePiece(here, i, to, there);
    var m := NextMarker(here, i).value;
    var piece := Cut(here, m).value;
    hide HeaderFrom, Before, NextMarker, Cut, SegmentEnd, Agree, Scan;
    if m.code == SOS {
      HeaderStops(here, i, m);
      HeaderStops(there, i, m);
    } else {
      HeaderLocal(here, piece.end, to, there);
      HeaderGoesOn(here, i, m, piece);
      HeaderGoesOn(there, i, m, piece);
    }
  }

  lemma CutEnds(data: seq<byte>, i: nat)
    requires NextMarker(data, i).Some? && Cut(data, NextMarker(data, i).value).Some?
    ensures var m := NextMarker(data, i).value; i <= m.start && i < m.next <= Cut(data, m).value.end <= |data|
  {
    hide NextMarker;
  }

  lemma AgreeSpans(here: seq<byte>, i: nat, to: nat, there: seq<byte>, d: int)
    requires Agree(here, i, to, there, d)
    ensures i <= to <= |here| && 0 <= i + d && to + d <= |there|
  {
  }

  /** One segment on the way to the scan, and what it leaves to be read. */
  lemma SamePiece(here: seq<byte>, i: nat, to: nat, there: seq<byte>)
    requires HeaderFrom(here, i).Some? && i <= to && Agree(here, 0, to, there, 0)
    requires var scan := HeaderFrom(here, i).value.scan; Scan(here, scan) && SegmentEnd(here, scan + 2).value <= to
    ensures NextMarker(here, i).Some? && NextMarker(there, i) == NextMarker(here, i)
    ensures var m := NextMarker(here, i).value;
      && Cut(here, m).Some? && Cut(there, m) == Cut(here, m) && i < Cut(here, m).value.end <= to <= |here|
      && (m.code != SOS ==>
            var rest := HeaderFrom(here, Cut(here, m).value.end);
            rest.Some? && rest.value.scan == HeaderFrom(here, i).value.scan)
  {
    hide HeaderFrom, Before, NextMarker, Cut, SegmentEnd, Agree, Scan;
    HeaderCuts(here, i);
    HeaderReads(here, i, to);
    var m := NextMarker(here, i).value;
    CutEnds(here, i);
    AgreeSpans(here, 0, to, there, 0);
    AgreeWithin(here, 0, to, there, 0, i, m.next);
    NextMarkerLocal(here, i, there, 0);
    CutLocal(here, m, to, there);
    if m.code != SOS {
      HeaderGoesOn(here, i, m, Cut(here, m).value);
      BeforeScan(Cut(here, m).value.segment, HeaderFrom(here, Cut(here, m).value.end));
    }
  }

  lemma BeforeScan(s: Segment, h: Option<Header>)
    ensures Before(s, h).Some? ==> h.Some? && h.value.scan == Before(s, h).value.scan
  {
  }

  lemma HeaderReads(data: seq<byte>, i: nat, to: nat)
    requires HeaderFrom(data, i).Some?
    requires var scan := HeaderFrom(data, i).value.scan; Scan(data, scan) && SegmentEnd(data, scan + 2).value <= to
    ensures Cut(data, NextMarker(data, i).value).Some? && Cut(data, NextMarker(data, i).value).value.end <= to
  {
    HeaderCuts(data, i);
    var m := NextMarker(data, i).value;
    if m.code != SOS { HeaderIsProper(data, Cut(data, m).value.end); }
  }

  function Bytes(segments: seq<Segment>): seq<byte> {
    if segments == [] then [] else segments[0].data + Bytes(segments[1..])
  }

  ghost predicate Holds(data: seq<byte>, i: nat, bytes: seq<byte>) {
    i + |bytes| <= |data| && data[i..i + |bytes|] == bytes
  }

  /** Written one after the other before a scan, segments are read back as they are. */
  lemma {:induction false} SegmentsReadBack(data: seq<byte>, i: nat, segments: seq<Segment>)
    requires AllProper(segments) && Holds(data, i, Bytes(segments)) && Scan(data, i + |Bytes(segments)|)
    ensures HeaderFrom(data, i) == Some(Header(segments, i + |Bytes(segments)|))
    decreases |segments|
  {
    hide AllProper, Holds, Bytes, Scan, Proper, NextMarker, Cut, HeaderFrom, Before;
    if segments == [] {
      NoBytes();
      ScanReadBack(data, i);
    } else {
      FirstProper(segments);
      FirstBytes(data, i, segments);
      var end := i + |segments[0].data|;
      SegmentsReadBack(data, end, segments[1..]);
      SegmentPrepended(data, i, segments, end + |Bytes(segments[1..])|);
    }
  }

  lemma NoBytes()
    ensures Bytes([]) == []
  {
  }

  lemma SegmentPrepended(data: seq<byte>, i: nat, segments: seq<Segment>, scan: nat)
    requires segments != [] && Proper(segments[0])
    requires Holds(data, i, segments[0].data)
    requires HeaderFrom(data, i + |segments[0].data|) == Some(Header(segments[1..], scan))
    ensures HeaderFrom(data, i) == Some(Header(segments, scan))
  {
    hide Holds, Proper, NextMarker, Cut, HeaderFrom, Before;
    var s := segments[0];
    SegmentReadBack(data, i, s);
    HeaderGoesOn(data, i, Marker(i, s.marker, i + 2), Piece(s, i + |s.data|));
    BeforeRest(segments, scan);
  }

  lemma BeforeRest(segments: seq<Segment>, scan: nat)
    requires segments != []
    ensures Before(segments[0], Some(Header(segments[1..], scan))) == Some(Header(segments, scan))
  {
    assert [segments[0]] + segments[1..] == segments;
  }

  ghost predicate AllProper(segments: seq<Segment>) {
    forall s :: s in segments ==> Proper(s)
  }

  lemma FirstProper(segments: seq<Segment>)
    requires segments != [] && AllProper(segments)
    ensures Proper(segments[0]) && AllProper(segments[1..])
  {
  }

  lemma ScanReadBack(data: seq<byte>, i: nat)
    requires Scan(data, i)
    ensures HeaderFrom(data, i) == Some(Header([], i))
  {
    HeaderStops(data, i, Marker(i, SOS, i + 2));
  }

  lemma FirstBytes(data: seq<byte>, i: nat, segments: seq<Segment>)
    requires segments != [] && Holds(data, i, Bytes(segments))
    ensures var end := i + |segments[0].data|;
      && i + |Bytes(segments)| == end + |Bytes(segments[1..])|
      && end <= |data| && Holds(data, i, segments[0].data) && Holds(data, end, Bytes(segments[1..]))
  {
    var n := |segments[0].data|;
    assert data[i..i + n] == Bytes(segments)[..n];
    assert data[i + n..i + |Bytes(segments)|] == Bytes(segments)[n..];
  }

  lemma SegmentReadBack(data: seq<byte>, i: nat, s: Segment)
    requires Proper(s) && Holds(data, i, s.data)
    ensures i + 2 <= |data| && NextMarker(data, i) == Some(Marker(i, s.marker, i + 2)) && s.marker != SOS
    ensures Cut(data, Marker(i, s.marker, i + 2)) == Some(Piece(s, i + |s.data|))
  {
    forall k | 0 <= k < |s.data| ensures s.data[k] == data[k + i] {
      assert data[i..i + |s.data|][k] == data[k + i];
    }
    assert FillEnd(data, i) == FillEnd(data, i + 1) == i + 1;
    if !Standalone(s.marker) { SegmentEndLocal(s.data, 2, data, i); }
  }

  function Kept(segments: seq<Segment>): (kept: seq<Segment>)
    ensures forall s :: s in kept ==> s in segments && s.Keep()
    ensures (forall s :: s in segments ==> s.Keep()) ==> kept == segments
  {
    if segments == [] then []
    else if segments[0].Keep() then [segments[0]] + Kept(segments[1..])
    else Kept(segments[1..])
  }

  lemma {:induction false} KeptBytesAreKept(segments: seq<Segment>)
    ensures KeptBytes(segments) == Bytes(Kept(segments))
  {
    if segments != [] {
      KeptBytesAreKept(segments[1..]);
      if segments[0].Keep() {
        assert Kept(segments)[1..] == Kept(segments[1..]);
      }
    }
  }

  // ----- Stripping -----

  /** What the parsers find in a stripped image: the kept segments in their order,
      the scan's own bytes, and nothing after its end. */
  lemma StrippedReparses(data: seq<byte>)
    requires Parsed(data).Some?
    ensures var image := Parsed(data).value; var out := Stripped(data).value;
            var scan := |out| - (image.end - image.scan);
      && Parsed(out) == Some(Picture(Kept(image.segments), scan, |out|))
      && out[scan..] == data[image.scan..image.end]
  {
    PartsParsed(data);
    StrippedParts(data);
    HeaderIsProper(data, 2);
    assert AllProper(Kept(Parsed(data).value.segments));
    hide HeaderFrom, EndFrom, NextMarker, SegmentEnd, KeptBytes, Bytes, Kept, Scan, AllProper;
    var image, out := Parsed(data).value, Stripped(data).value;
    KeptBytesAreKept(image.segments);
    var scan := 2 + |Bytes(Kept(image.segments))|;
    OutParts(KeptBytes(image.segments), data[image.scan..image.end]);
    assert Holds(out, 2, Bytes(Kept(image.segments))) && out[scan..] == data[image.scan..image.end];
    hide Holds, Stripped, HeaderOf;
    SameScan(data, image.scan, image.end, out, scan);
    SegmentsReadBack(out, 2, Kept(image.segments));
  }

  lemma OutParts(kept: seq<byte>, scan: seq<byte>)
    requires |scan| >= 2
    ensures var out := [0xff, SOI] + kept + scan;
      && out[2..2 + |kept|] == kept && out[2 + |kept|..] == scan && |out| == 2 + |kept| + |scan|
      && HeaderOf(out) == HeaderFrom(out, 2)
  {
    hide HeaderFrom;
  }

  /** A scan that ends an image is the same scan wherever it stands. */
  lemma SameScan(data: seq<byte>, i: nat, to: nat, out: seq<byte>, j: nat)
    requires Scan(data, i) && EndFrom(data, i) == Some(to) && j <= |out| && out[j..] == data[i..to]
    ensures Scan(out, j) && EndFrom(out, j) == Some(|out|)
  {
    hide Scan, EndFrom, Agree;
    SameBytesAgree(data, i, to, out, j);
    EndFromLocal(data, i, out, j - i);
    ScanMoves(data, i, to, out, j - i);
  }

  lemma SameBytesAgree(data: seq<byte>, i: nat, to: nat, out: seq<byte>, j: nat)
    requires i <= to <= |data| && j <= |out| && out[j..] == data[i..to]
    ensures Agree(data, i, to, out, j - i) && |out| == to + (j - i)
  {
    forall k | i <= k < to ensures data[k] == out[k + (j - i)] {
      assert out[j..][k - i] == data[i..to][k - i];
    }
  }

  lemma ScanMoves(here: seq<byte>, i: nat, to: nat, there: seq<byte>, d: int)
    requires Scan(here, i) && EndFrom(here, i) == Some(to) && Agree(here, i, to, there, d)
    ensures Scan(there, i + d) && SegmentEnd(here, i + 2).value <= to
  {
    NextMarkerBounds(here, i);
    AgreeWithin(here, i, to, there, d, i, i + 2);
    AgreeWithin(here, i, to, there, d, i + 2, SegmentEnd(here, i + 2).value);
    NextMarkerLocal(here, i, there, d);
    SegmentEndLocal(here, i + 2, there, d);
  }

  /** What decoding depends on, by marker code: neither a comment nor application
      data, but for JFIF's, Adobe's and a colour profile. */
  ghost predicate DecodingNeeds(s: Segment) {
    && s.marker != 0xfe
    && (0xe0 <= s.marker <= 0xef ==>
          || s.marker == 0xe0 || s.marker == 0xee
          || (s.marker == 0xe2 && |s.data| >= 16
              && s.data[4..16] == [0x49, 0x43, 0x43, 0x5f, 0x50, 0x52, 0x4f, 0x46, 0x49, 0x4c, 0x45, 0x00]))
  }

  lemma KeepIsNeeded(s: Segment)
    ensures s.Keep() <==> DecodingNeeds(s)
  {
    if |s.data| >= 16 { assert s.data[4..16] == s.data[4..][..12]; }
  }

  /** `kept` are the segments at these places, in their order, and these are all
      the places of segments decoding needs. */
  ghost predicate KeptFrom(segments: seq<Segment>, kept: seq<Segment>, at: seq<nat>) {
    && |at| == |kept| && (forall i, j :: 0 <= i < j < |at| ==> at[i] < at[j])
    && (forall i :: 0 <= i < |at| ==> at[i] < |segments| && kept[i] == segments[at[i]])
    && (forall k :: 0 <= k < |segments| ==> (k in at <==> DecodingNeeds(segments[k])))
  }

  lemma {:induction false} KeptOfLast(segments: seq<Segment>, s: Segment)
    ensures Kept(segments + [s]) == Kept(segments) + if s.Keep() then [s] else []
  {
    if segments == [] {
      assert ([s])[1..] == [] && [] + [s] == [s];
    } else {
      assert (segments + [s])[1..] == segments[1..] + [s];
      KeptOfLast(segments[1..], s);
    }
  }

  lemma {:induction false} KeptAt(segments: seq<Segment>) returns (at: seq<nat>)
    ensures KeptFrom(segments, Kept(segments), at)
  {
    if segments == [] { return []; }
    hide Kept, DecodingNeeds;
    var n := |segments| - 1;
    assert segments == segments[..n] + [segments[n]];
    at := KeptAt(segments[..n]);
    KeptOfLast(segments[..n], segments[n]);
    KeepIsNeeded(segments[n]);
    OneMore(segments[..n], segments[n], Kept(segments[..n]), at);
    if segments[n].Keep() { at := at + [n]; }
  }

  lemma OneMore(segments: seq<Segment>, s: Segment, kept: seq<Segment>, at: seq<nat>)
    requires KeptFrom(segments, kept, at)
    ensures DecodingNeeds(s) ==> KeptFrom(segments + [s], kept + [s], at + [|segments|])
    ensures !DecodingNeeds(s) ==> KeptFrom(segments + [s], kept, at)
  {
    hide DecodingNeeds;
    var n := |segments|;
    assert n !in at;
    assert forall k :: k in at + [n] <==> k in at || k == n;
  }

  /** Nothing attached survives, and everything decoding depends on does: the
      segments of a stripped image are exactly those, each once and in order. */
  lemma StrippedKeepsNoMetadata(data: seq<byte>)
    requires Parsed(data).Some?
    ensures Parsed(Stripped(data).value).Some?
    ensures exists at :: KeptFrom(Parsed(data).value.segments, Parsed(Stripped(data).value).value.segments, at)
    ensures forall s :: s in Parsed(Stripped(data).value).value.segments ==> DecodingNeeds(s)
  {
    hide Parsed, Stripped, HeaderOf, EndFrom, KeptBytes, Kept, DecodingNeeds;
    StrippedParts(data);
    StrippedReparses(data);
    var at := KeptAt(Parsed(data).value.segments);
    var kept := Parsed(Stripped(data).value).value.segments;
    forall s | s in kept ensures DecodingNeeds(s) {
      var i :| 0 <= i < |kept| && kept[i] == s;
      assert at[i] in at;
    }
  }

  lemma KeptBytesTwice(segments: seq<Segment>)
    ensures KeptBytes(Kept(segments)) == KeptBytes(segments)
  {
    KeptBytesAreKept(segments);
    KeptBytesAreKept(Kept(segments));
  }

  lemma StripIsIdempotent(data: seq<byte>)
    requires Parsed(data).Some?
    ensures Stripped(Stripped(data).value) == Stripped(data)
  {
    StrippedParts(data);
    hide Parsed, Stripped, KeptBytes, Kept;
    var image, out := Parsed(data).value, Stripped(data).value;
    StrippedReparses(data);
    KeptBytesTwice(image.segments);
    StrippedParts(out);
    assert out[|out| - (image.end - image.scan)..|out|] == out[|out| - (image.end - image.scan)..];
  }

  lemma StrippedParts(data: seq<byte>)
    ensures Stripped(data).Some? <==> Parsed(data).Some?
    ensures Parsed(data).Some? ==>
      var image := Parsed(data).value;
      Stripped(data) == Some([0xff, SOI] + KeptBytes(image.segments) + data[image.scan..image.end])
  {
  }

  lemma PrefixAgrees(data: seq<byte>, to: nat, rest: seq<byte>)
    requires to <= |data|
    ensures Agree(data, 0, to, data[..to] + rest, 0)
  {
  }

  lemma SameSlice(here: seq<byte>, to: nat, there: seq<byte>, i: nat, j: nat)
    requires Agree(here, 0, to, there, 0) && i <= j <= to
    ensures here[i..j] == there[i..j]
  {
  }

  /** Whatever replaces the bytes after the end-of-image marker. */
  lemma ParseIgnoresWhatFollows(data: seq<byte>, rest: seq<byte>)
    requires Parsed(data).Some?
    ensures Parsed(data[..Parsed(data).value.end] + rest) == Parsed(data)
  {
    var image := Parsed(data).value;
    PrefixAgrees(data, image.end, rest);
    HeaderOfPrefix(data, image.end, rest);
    ParsedLocal(data, data[..image.end] + rest);
  }

  lemma ParsedIs(data: seq<byte>, h: Header, end: nat)
    requires HeaderOf(data) == Some(h) && EndFrom(data, h.scan) == Some(end)
    ensures Parsed(data) == Some(Picture(h.segments, h.scan, end))
  {
    hide HeaderOf, EndFrom;
  }

  lemma PartsParsed(data: seq<byte>)
    requires Parsed(data).Some?
    ensures var image := Parsed(data).value;
      && HeaderOf(data) == HeaderFrom(data, 2) == Some(Header(image.segments, image.scan))
      && EndFrom(data, image.scan) == Some(image.end)
  {
    hide HeaderFrom, EndFrom;
  }

  lemma ParsedLocal(data: seq<byte>, other: seq<byte>)
    requires Parsed(data).Some? && Agree(data, 0, Parsed(data).value.end, other, 0)
    requires HeaderOf(other) == HeaderFrom(other, 2)
    ensures Parsed(other) == Parsed(data)
  {
    hide Parsed, HeaderOf, HeaderFrom, EndFrom, NextMarker, SegmentEnd, Scan, Agree, AllProper;
    var image := Parsed(data).value;
    PartsParsed(data);
    HeaderIsProper(data, 2);
    AgreeWithin(data, 0, image.end, other, 0, image.scan, image.end);
    EndFromLocal(data, image.scan, other, 0);
    ScanMoves(data, image.scan, image.end, other, 0);
    HeaderLocal(data, 2, image.end, other);
    ParsedIs(other, Header(image.segments, image.scan), image.end);
  }

  lemma HeaderOfPrefix(data: seq<byte>, to: nat, rest: seq<byte>)
    requires HeaderOf(data).Some? && 4 <= to <= |data|
    ensures HeaderOf(data[..to] + rest) == HeaderFrom(data[..to] + rest, 2)
  {
    hide HeaderFrom;
  }

  lemma StripIgnoresWhatFollows(data: seq<byte>, rest: seq<byte>)
    requires Parsed(data).Some?
    ensures Stripped(data[..Parsed(data).value.end] + rest) == Stripped(data)
  {
    var image := Parsed(data).value;
    ParseIgnoresWhatFollows(data, rest);
    PrefixAgrees(data, image.end, rest);
    hide Parsed, KeptBytes;
    SameSlice(data, image.end, data[..image.end] + rest, image.scan, image.end);
  }
}
