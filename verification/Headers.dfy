/** Values carried in headers, and the base64 form (RFC 4648, section 4) of those
    a header cannot carry. A byte is written as the character of its code. */
module Headers {
  import opened Provider

  predicate Octet(c: char) {
    c as int < 256
  }

  predicate Octets(s: string) {
    forall k :: 0 <= k < |s| ==> Octet(s[k])
  }

  // ----- Base64 -----

  /** The alphabet: A to Z, a to z, 0 to 9, plus and slash. */
  function Letter(v: int): (c: char)
    requires 0 <= v < 64
    ensures Digit(c) == Some(v)
  {
    if v < 26 then (65 + v) as char
    else if v < 52 then (97 + v - 26) as char
    else if v < 62 then (48 + v - 52) as char
    else if v == 62 then '+'
    else '/'
  }

  function Digit(c: char): Option<int> {
    if 'A' <= c <= 'Z' then Some(c as int - 65)
    else if 'a' <= c <= 'z' then Some(c as int - 97 + 26)
    else if '0' <= c <= '9' then Some(c as int - 48 + 52)
    else if c == '+' then Some(62)
    else if c == '/' then Some(63)
    else None
  }

  /** The alphabet of RFC 4648, table 1: capitals, small letters, digits, two signs. */
  lemma AlphabetIs(v: int)
    requires 0 <= v < 63
    ensures Letter(0) == 'A' && Letter(25) == 'Z' && Letter(26) == 'a' && Letter(51) == 'z'
    ensures Letter(52) == '0' && Letter(61) == '9' && Letter(62) == '+' && Letter(63) == '/'
    ensures v !in {25, 51, 61, 62} ==> Letter(v + 1) as int == Letter(v) as int + 1
  {
  }

  function Byte(s: string, i: nat): (b: int)
    requires Octets(s) && i < |s|
    ensures 0 <= b < 256
  {
    s[i] as int
  }

  function Encoded(s: string): string
    requires Octets(s)
  {
    if s == "" then ""
    else if |s| == 1 then
      var a := Byte(s, 0);
      [Letter(a / 4), Letter(a % 4 * 16), '=', '=']
    else if |s| == 2 then
      var a, b := Byte(s, 0), Byte(s, 1);
      [Letter(a / 4), Letter(a % 4 * 16 + b / 16), Letter(b % 16 * 4), '=']
    else Group(Byte(s, 0), Byte(s, 1), Byte(s, 2)) + Encoded(s[3..])
  }

  /** Three bytes as four letters of six bits each. */
  function Group(a: int, b: int, c: int): (letters: string)
    requires 0 <= a < 256 && 0 <= b < 256 && 0 <= c < 256
    ensures |letters| == 4
  {
    [Letter(a / 4), Letter(a % 4 * 16 + b / 16), Letter(b % 16 * 4 + c / 64), Letter(c % 64)]
  }

  /** Groups of four letters; the last may end in padding over zero bits. */
  function Decoded(t: string): Option<string> {
    if t == "" then Some("")
    else if |t| < 4 || Digit(t[0]).None? || Digit(t[1]).None? then None
    else
      var u, v := Digit(t[0]).value, Digit(t[1]).value;
      if t[2..] == "==" then
        if v % 16 == 0 then Some([(u * 4 + v / 16) as char]) else None
      else if Digit(t[2]).None? then None
      else
        var w := Digit(t[2]).value;
        if t[3..] == "=" then
          if w % 4 == 0 then Some([(u * 4 + v / 16) as char, (v % 16 * 16 + w / 4) as char]) else None
        else
          var x, rest := Digit(t[3]), Decoded(t[4..]);
          if x.None? || rest.None? then None
          else Some([(u * 4 + v / 16) as char, (v % 16 * 16 + w / 4) as char, (w % 4 * 64 + x.value) as char] + rest.value)
  }

  /** Three bytes and four letters hold the same bits. */
  lemma BitsKept(a: int, b: int, c: int)
    requires 0 <= a < 256 && 0 <= b < 256 && 0 <= c < 256
    ensures a / 4 * 4 + (a % 4 * 16 + b / 16) / 16 == a
    ensures (a % 4 * 16 + b / 16) % 16 * 16 + (b % 16 * 4 + c / 64) / 4 == b
    ensures (b % 16 * 4 + c / 64) % 4 * 64 + c % 64 == c
    ensures 0 <= a / 4 < 64 && 0 <= a % 4 * 16 + b / 16 < 64 && 0 <= b % 16 * 4 + c / 64 < 64 && 0 <= c % 64 < 64
  {
  }

  /** The four letters' values are the digits, the highest first, of the number the
      three bytes are, the highest first; what one or two bytes lack is zero. */
  lemma LettersAreDigits(a: int, b: int, c: int)
    requires 0 <= a < 256 && 0 <= b < 256 && 0 <= c < 256
    ensures forall k :: 0 <= k < 4 ==> Digit(Group(a, b, c)[k]).Some?
    ensures a * 65536 + b * 256 + c
      == Digit(Group(a, b, c)[0]).value * 262144 + Digit(Group(a, b, c)[1]).value * 4096
         + Digit(Group(a, b, c)[2]).value * 64 + Digit(Group(a, b, c)[3]).value
    ensures Octet(a as char) && Encoded([a as char]) == Group(a, 0, 0)[..2] + "=="
    ensures Octet(b as char) && Encoded([a as char, b as char]) == Group(a, b, 0)[..3] + "="
  {
    hide Letter, Digit;
    BitsKept(a, b, c);
  }

  lemma OneByteBack(a: int)
    requires 0 <= a < 256
    ensures Decoded([Letter(a / 4), Letter(a % 4 * 16), '=', '=']) == Some([a as char])
  {
    BitsKept(a, 0, 0);
    var t := [Letter(a / 4), Letter(a % 4 * 16), '=', '='];
    assert t[2..] == "==";
  }

  lemma TwoBytesBack(a: int, b: int)
    requires 0 <= a < 256 && 0 <= b < 256
    ensures Decoded([Letter(a / 4), Letter(a % 4 * 16 + b / 16), Letter(b % 16 * 4), '=']) == Some([a as char, b as char])
  {
    BitsKept(a, b, 0);
    var t := [Letter(a / 4), Letter(a % 4 * 16 + b / 16), Letter(b % 16 * 4), '='];
    assert t[2..][0] != '=' && t[3..] == "=";
  }

  lemma ThreeBytesBack(a: int, b: int, c: int, rest: string)
    requires 0 <= a < 256 && 0 <= b < 256 && 0 <= c < 256 && Decoded(rest).Some?
    ensures Decoded(Group(a, b, c) + rest) == Some([a as char, b as char, c as char] + Decoded(rest).value)
  {
    BitsKept(a, b, c);
    var t := Group(a, b, c) + rest;
    assert t[0] == Letter(a / 4) && t[1] == Letter(a % 4 * 16 + b / 16) && t[2] == Letter(b % 16 * 4 + c / 64) && t[3] == Letter(c % 64);
    hide Group, Letter;
    GroupDecoded(t, a / 4, a % 4 * 16 + b / 16, b % 16 * 4 + c / 64, c % 64);
    assert t[4..] == rest;
  }

  /** A group of four letters is three bytes, and the rest follows. */
  lemma GroupDecoded(t: string, u: int, v: int, w: int, x: int)
    requires |t| >= 4 && Digit(t[0]) == Some(u) && Digit(t[1]) == Some(v) && Digit(t[2]) == Some(w) && Digit(t[3]) == Some(x)
    requires 0 <= u < 64 && 0 <= v < 64 && 0 <= w < 64 && 0 <= x < 64 && Decoded(t[4..]).Some?
    ensures Decoded(t) == Some([(u * 4 + v / 16) as char, (v % 16 * 16 + w / 4) as char, (w % 4 * 64 + x) as char] + Decoded(t[4..]).value)
  {
    assert Digit('=').None?;
    hide Digit;
    assert t[2..][0] == t[2] && t[3..][0] == t[3];
  }

  lemma FirstThreeBack(s: string)
    requires Octets(s) && |s| > 2 && Decoded(Encoded(s[3..])) == Some(s[3..])
    ensures Decoded(Encoded(s)) == Some(s)
  {
    hide Decoded, Group;
    ThreeBytesBack(Byte(s, 0), Byte(s, 1), Byte(s, 2), Encoded(s[3..]));
    assert s == [s[0], s[1], s[2]] + s[3..];
  }

  lemma {:induction false} DecodedEncoded(s: string)
    requires Octets(s)
    ensures Decoded(Encoded(s)) == Some(s)
  {
    if |s| == 1 {
      OneByteBack(Byte(s, 0));
      assert s == [s[0]];
      hide Decoded, Letter;
    } else if |s| == 2 {
      TwoBytesBack(Byte(s, 0), Byte(s, 1));
      assert s == [s[0], s[1]];
      hide Decoded, Letter;
    } else if |s| > 2 {
      hide Decoded, Encoded;
      DecodedEncoded(s[3..]);
      FirstThreeBack(s);
    }
  }

  function Count(s: string, c: char): nat {
    if s == "" then 0 else (if s[0] == c then 1 else 0) + Count(s[1..], c)
  }

  /** The size of what base64 text holds, from its length and its padding. */
  function DecodedLen(text: string): int {
    |text| / 4 * 3 - Count(text[Max(0, |text| - 2)..], '=')
  }

  lemma {:induction false} EncodedShape(s: string)
    requires Octets(s)
    ensures forall k :: 0 <= k < |Encoded(s)| ==> Encoded(s)[k] == '=' || Digit(Encoded(s)[k]).Some?
  {
    if |s| > 2 {
      EncodedShape(s[3..]);
      GroupShape(Byte(s, 0), Byte(s, 1), Byte(s, 2));
      hide Digit, Group;
    }
  }

  lemma GroupShape(a: int, b: int, c: int)
    requires 0 <= a < 256 && 0 <= b < 256 && 0 <= c < 256
    ensures forall k :: 0 <= k < 4 ==> Digit(Group(a, b, c)[k]).Some? && Group(a, b, c)[k] != '='
  {
  }

  lemma {:induction false} EncodedLength(s: string)
    requires Octets(s)
    ensures |Encoded(s)| == (|s| + 2) / 3 * 4
  {
    hide Group, Letter;
    if |s| > 2 { EncodedLength(s[3..]); }
  }

  lemma {:induction false} EncodedEnd(s: string)
    requires Octets(s) && s != ""
    ensures |Encoded(s)| >= 4
    ensures Encoded(s)[|Encoded(s)| - 1] == '=' <==> |s| % 3 != 0
    ensures Encoded(s)[|Encoded(s)| - 2] == '=' <==> |s| % 3 == 1
  {
    hide Encoded, Group, Letter, Byte;
    if |s| > 3 {
      EncodedEnd(s[3..]);
      EncodedBehind(s);
      var group, rest := Group(Byte(s, 0), Byte(s, 1), Byte(s, 2)), Encoded(s[3..]);
      assert (group + rest)[|group + rest| - 1] == rest[|rest| - 1] && (group + rest)[|group + rest| - 2] == rest[|rest| - 2];
    } else if |s| == 3 {
      EncodedBehind(s);
      NothingEncoded(s[3..]);
      GroupShape(Byte(s, 0), Byte(s, 1), Byte(s, 2));
    } else {
      ShortEnd(s);
    }
  }

  lemma NothingEncoded(s: string)
    requires s == ""
    ensures Encoded(s) == ""
  {
  }

  lemma ShortEnd(s: string)
    requires Octets(s) && 1 <= |s| <= 2
    ensures |Encoded(s)| == 4 && Encoded(s)[3] == '=' && (Encoded(s)[2] == '=' <==> |s| == 1)
  {
    hide Letter;
  }

  lemma EncodedBehind(s: string)
    requires Octets(s) && |s| >= 3
    ensures Encoded(s) == Group(Byte(s, 0), Byte(s, 1), Byte(s, 2)) + Encoded(s[3..])
  {
    hide Group, Letter, Byte;
  }

  /** Of an encoding it is the number of bytes that were encoded. */
  lemma DecodedLenIsLength(s: string)
    requires Octets(s)
    ensures DecodedLen(Encoded(s)) == |s|
  {
    EncodedLength(s);
    if s == "" {
      assert DecodedLen("") == 0;
    } else {
      EncodedEnd(s);
      hide Encoded, DecodedLen;
      PaddingCounted(Encoded(s), |s|);
    }
  }

  lemma PaddingCounted(t: string, n: nat)
    requires |t| == (n + 2) / 3 * 4 && |t| >= 4
    requires (t[|t| - 1] == '=' <==> n % 3 != 0) && (t[|t| - 2] == '=' <==> n % 3 == 1)
    ensures DecodedLen(t) == n
  {
    assert t[|t| - 2..] == [t[|t| - 2], t[|t| - 1]];
    CountOfTwo(t[|t| - 2], t[|t| - 1]);
    hide Count;
    PaddingFills(n);
  }

  lemma CountOfTwo(a: char, b: char)
    ensures Count([a, b], '=') == (if a == '=' then 1 else 0) + if b == '=' then 1 else 0
  {
    assert [b][1..] == "";
    assert Count([b], '=') == if b == '=' then 1 else 0;
    assert [a, b][1..] == [b];
  }

  lemma PaddingFills(n: nat)
    ensures (n + 2) / 3 * 4 / 4 * 3 - (if n % 3 == 0 then 0 else 3 - n % 3) == n
  {
  }

  // ----- Header values -----

  const PREFIX := "=?base64?"
  const SUFFIX := "?="

  predicate Space(c: char) {
    c == ' ' || c == '\t' || c == '\n' || c == '\r' || c as int == 11 || c as int == 12
  }

  function TrimmedLeft(s: string): string {
    if s != "" && Space(s[0]) then TrimmedLeft(s[1..]) else s
  }

  function TrimmedRight(s: string): string {
    if s != "" && Space(s[|s| - 1]) then TrimmedRight(s[..|s| - 1]) else s
  }

  function Trimmed(s: string): string {
    TrimmedRight(TrimmedLeft(s))
  }

  predicate Visible(c: char) {
    0x20 <= c as int <= 0x7e || c == '\t'
  }

  predicate PlainHeaderValue(v: string) {
    v == "" || (v == Trimmed(v) && forall k :: 0 <= k < |v| ==> Visible(v[k]))
  }

  predicate SentinelForm(v: string) {
    PREFIX <= v && |v| >= 2 && v[|v| - 2..] == SUFFIX
  }

  function HeaderValue(v: string): string
    requires Octets(v)
  {
    if PlainHeaderValue(v) && !SentinelForm(v) then v else PREFIX + Encoded(v) + SUFFIX
  }

  /** What a receiver reads a header value as. */
  function HeaderText(h: string): Option<string> {
    if !SentinelForm(h) then Some(h)
    else if |h| < |PREFIX| + |SUFFIX| then None
    else Decoded(h[|PREFIX|..|h| - |SUFFIX|])
  }

  lemma {:induction false} TrimmedLeftShrinks(s: string)
    ensures if s == "" || !Space(s[0]) then TrimmedLeft(s) == s else |TrimmedLeft(s)| < |s|
  {
    if s != "" && Space(s[0]) { TrimmedLeftShrinks(s[1..]); }
  }

  lemma {:induction false} TrimmedRightShrinks(s: string)
    ensures if s == "" || !Space(s[|s| - 1]) then TrimmedRight(s) == s else |TrimmedRight(s)| < |s|
  {
    if s != "" && Space(s[|s| - 1]) { TrimmedRightShrinks(s[..|s| - 1]); }
  }

  predicate Blank(c: char) {
    c == ' ' || c == '\t'
  }

  /** What can travel as it is: visible characters, spaces and tabs, and neither
      of the two at an end. */
  lemma PlainIff(v: string)
    requires v != ""
    ensures PlainHeaderValue(v) <==>
      && v[0] as int != 0x20 && v[0] as int != 0x09 && v[|v| - 1] as int != 0x20 && v[|v| - 1] as int != 0x09
      && forall k :: 0 <= k < |v| ==> 0x20 <= v[k] as int < 0x7f || v[k] as int == 0x09
  {
    TrimmedLeftShrinks(v);
    TrimmedRightShrinks(TrimmedLeft(v));
    if forall k :: 0 <= k < |v| ==> Visible(v[k]) {
      assert Visible(v[0]) && Visible(v[|v| - 1]);
      assert Space(v[0]) == Blank(v[0]) && Space(v[|v| - 1]) == Blank(v[|v| - 1]);
    }
  }

  lemma SentinelParts(v: string)
    requires Octets(v)
    ensures var h := PREFIX + Encoded(v) + SUFFIX;
      && SentinelForm(h) && h[|PREFIX|..|h| - |SUFFIX|] == Encoded(v)
      && h[0] == '=' && h[|h| - 1] == '='
  {
  }

  lemma LetterVisible(c: char)
    requires c == '=' || Digit(c).Some?
    ensures Visible(c)
  {
  }

  /** Whatever the value, the header can travel. */
  lemma HeaderValueIsPlain(v: string)
    requires Octets(v)
    ensures PlainHeaderValue(HeaderValue(v))
  {
    hide PlainHeaderValue, SentinelForm;
    if !(PlainHeaderValue(v) && !SentinelForm(v)) { SentinelIsPlain(v); }
  }

  lemma SentinelIsPlain(v: string)
    requires Octets(v)
    ensures PlainHeaderValue(PREFIX + Encoded(v) + SUFFIX)
  {
    hide Encoded, SentinelForm, PlainHeaderValue, Digit, Visible, PREFIX, SUFFIX;
    var h := PREFIX + Encoded(v) + SUFFIX;
    SentinelParts(v);
    EncodedShape(v);
    FrameVisible();
    forall k | 0 <= k < |h| ensures Visible(h[k]) {
      if |PREFIX| <= k < |h| - |SUFFIX| {
        assert h[k] == Encoded(v)[k - |PREFIX|];
        LetterVisible(h[k]);
      } else if k < |PREFIX| {
        assert h[k] == PREFIX[k];
      } else {
        assert h[k] == SUFFIX[k - |PREFIX| - |Encoded(v)|];
      }
    }
    VisibleIs(h);
    PlainIff(h);
  }

  lemma FrameVisible()
    ensures forall k :: 0 <= k < |PREFIX| ==> Visible(PREFIX[k])
    ensures forall k :: 0 <= k < |SUFFIX| ==> Visible(SUFFIX[k])
  {
  }

  lemma VisibleIs(h: string)
    requires forall k :: 0 <= k < |h| ==> Visible(h[k])
    ensures forall k :: 0 <= k < |h| ==> 0x20 <= h[k] as int < 0x7f || h[k] as int == 0x09
  {
  }

  /** A receiver reads back the value itself: plain and sentinel forms never
      collide, and decoding a sentinel returns the original bytes. */
  lemma HeaderReadsBack(v: string)
    requires Octets(v)
    ensures HeaderText(HeaderValue(v)) == Some(v)
    ensures SentinelForm(HeaderValue(v)) <==> !(PlainHeaderValue(v) && !SentinelForm(v))
  {
    SentinelParts(v);
    DecodedEncoded(v);
  }

  lemma HeaderValueInjective(v: string, w: string)
    requires Octets(v) && Octets(w) && HeaderValue(v) == HeaderValue(w)
    ensures v == w
  {
    HeaderReadsBack(v);
    HeaderReadsBack(w);
  }
}
