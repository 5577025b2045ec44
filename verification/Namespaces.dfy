/** Namespace ids as path segments. Strings are byte strings: a Go string holds any
    bytes, and an id with anything but plain ASCII characters is encoded. */
module Namespaces {
  import opened Basics
  import opened Text

  type ByteString = s: string | forall i | 0 <= i < |s| :: s[i] as int < 256

  // ------------------------- base64url without padding, section 5 of RFC 4648

  predicate Alphanumeric(c: char) {
    'A' <= c <= 'Z' || 'a' <= c <= 'z' || '0' <= c <= '9'
  }

  function Digit(i: int): (c: char)
    requires 0 <= i < 64
    ensures c as int < 128
  {
    if i < 26 then 'A' + i as char
    else if i < 52 then 'a' + (i - 26) as char
    else if i < 62 then '0' + (i - 52) as char
    else if i == 62 then '-' else '_'
  }

  function Undigit(c: char): Option<int> {
    if 'A' <= c <= 'Z' then Some(c as int - 'A' as int)
    else if 'a' <= c <= 'z' then Some(c as int - 'a' as int + 26)
    else if '0' <= c <= '9' then Some(c as int - '0' as int + 52)
    else if c == '-' then Some(62)
    else if c == '_' then Some(63)
    else None
  }

  lemma DigitBack(i: int)
    requires 0 <= i < 64
    ensures Undigit(Digit(i)) == Some(i) && (Alphanumeric(Digit(i)) || Digit(i) == '-' || Digit(i) == '_')
  {
  }

  const ALPHABET := LETTERS + "-_"

  lemma DigitExact(i: int)
    requires 0 <= i < 64
    ensures |ALPHABET| == 64 && Digit(i) == ALPHABET[i]
  {
    LetterAt(if i < 62 then i else 0);
  }

  datatype Sextets = Sextets(p: int, q: int, r: int, t: int) {
    predicate Valid() { 0 <= p < 64 && 0 <= q < 64 && 0 <= r < 64 && 0 <= t < 64 }
  }

  datatype Octets = Octets(x: int, y: int, z: int) {
    predicate Valid() { 0 <= x < 256 && 0 <= y < 256 && 0 <= z < 256 }
  }

  /** Three bytes as four digits, and back. */
  function Split(o: Octets): (s: Sextets)
    requires o.Valid()
    ensures s.Valid()
  {
    Sextets(o.x / 4, o.x % 4 * 16 + o.y / 16, o.y % 16 * 4 + o.z / 64, o.z % 64)
  }

  function Unsplit(s: Sextets): (o: Octets)
    requires s.Valid()
    ensures o.Valid()
  {
    Octets(s.p * 4 + s.q / 16, s.q % 16 * 16 + s.r / 4, s.r % 4 * 64 + s.t)
  }

  /** Three bytes are four digits of one number. */
  lemma SplitExact(o: Octets)
    requires o.Valid()
    ensures var s := Split(o);
            o.x * 0x1_0000 + o.y * 0x100 + o.z == s.p * 0x4_0000 + s.q * 0x1000 + s.r * 0x40 + s.t
  {
  }

  lemma SplitBack(o: Octets)
    requires o.Valid()
    ensures Unsplit(Split(o)) == o
    ensures o.z == 0 ==> Split(o).t == 0
    ensures o.y == 0 && o.z == 0 ==> Split(o).r == 0
  {
  }

  /** The bytes at the front of s, with zeros for those that are not there. */
  function Front(s: ByteString): (o: Octets)
    requires s != ""
    ensures o.Valid()
  {
    Octets(s[0] as int, if |s| > 1 then s[1] as int else 0, if |s| > 2 then s[2] as int else 0)
  }

  function Quad(d: Sextets): (r: ByteString)
    requires d.Valid()
    ensures |r| == 4
  {
    [Digit(d.p), Digit(d.q), Digit(d.r), Digit(d.t)]
  }

  function Short(d: Sextets, n: nat): ByteString
    requires d.Valid()
  {
    if n == 1 then [Digit(d.p), Digit(d.q)] else [Digit(d.p), Digit(d.q), Digit(d.r)]
  }

  function Encode(s: ByteString): ByteString {
    if s == "" then ""
    else
      var d := Split(Front(s));
      if |s| < 3 then Short(d, |s|) else Quad(d) + Encode(s[3..])
  }

  /** The digits at the front of t, with zeros for those that are not there. */
  function FrontDigits(t: string): (s: Option<Sextets>)
    requires |t| > 1
    ensures s.Some? ==> s.value.Valid()
  {
    var p, q := Undigit(t[0]), Undigit(t[1]);
    var r := if |t| > 2 then Undigit(t[2]) else Some(0);
    var d := if |t| > 3 then Undigit(t[3]) else Some(0);
    if p.Some? && q.Some? && r.Some? && d.Some? then Some(Sextets(p.value, q.value, r.value, d.value)) else None
  }

  /** Strict decoding of what is left of a text without its line breaks, which the
      decoder skips: the bits no byte uses are zero. */
  function Decode(t: string): Option<ByteString> {
    if t == "" then Some("")
    else if |t| == 1 || FrontDigits(t).None? then None
    else
      var o := Unsplit(FrontDigits(t).value);
      if |t| == 2 then if o.y == 0 then Some([o.x as char]) else None
      else if |t| == 3 then if o.z == 0 then Some([o.x as char, o.y as char]) else None
      else
        var rest := Decode(t[4..]);
        if rest.None? then None else Some([o.x as char, o.y as char, o.z as char] + rest.value)
  }

  function SkipLineBreaks(t: string): string {
    if t == "" then ""
    else if t[0] == '\r' || t[0] == '\n' then SkipLineBreaks(t[1..])
    else [t[0]] + SkipLineBreaks(t[1..])
  }

  predicate Base64(t: string) {
    forall i | 0 <= i < |t| :: Undigit(t[i]).Some?
  }

  lemma {:induction false} NoLineBreaks(t: string)
    requires Base64(t)
    ensures SkipLineBreaks(t) == t
  {
    if t != "" { NoLineBreaks(t[1..]); }
  }

  lemma DigitsBack(s: Sextets, rest: string)
    requires s.Valid()
    ensures FrontDigits(Quad(s) + rest) == Some(s)
    ensures s.t == 0 ==> FrontDigits([Digit(s.p), Digit(s.q), Digit(s.r)]) == Some(s)
    ensures s.r == 0 && s.t == 0 ==> FrontDigits([Digit(s.p), Digit(s.q)]) == Some(s)
    ensures Base64(Quad(s))
  {
    DigitBack(s.p);
    DigitBack(s.q);
    DigitBack(s.r);
    DigitBack(s.t);
  }

  /** The bytes o stands for when only n of them are there. */
  function Take(o: Octets, n: nat): ByteString
    requires o.Valid() && 1 <= n <= 2
  {
    if n == 1 then [o.x as char] else [o.x as char, o.y as char]
  }

  lemma ShortDecodes(d: Sextets, o: Octets, n: nat)
    requires d.Valid() && o.Valid() && Unsplit(d) == o && 1 <= n <= 2
    requires o.z == 0 && d.t == 0 && (n == 1 ==> o.y == 0 && d.r == 0)
    ensures Base64(Short(d, n)) && Decode(Short(d, n)) == Some(Take(o, n))
  {
    DigitsBack(d, "");
  }

  lemma ShortBack(s: ByteString)
    requires 1 <= |s| <= 2
    ensures Base64(Encode(s)) && Decode(Encode(s)) == Some(s)
  {
    var o := Front(s);
    SplitBack(o);
    ShortDecodes(Split(o), o, |s|);
    ShortIs(s);
  }

  lemma ShortIs(s: ByteString)
    requires 1 <= |s| <= 2
    ensures s == Take(Front(s), |s|) && Encode(s) == Short(Split(Front(s)), |s|)
  {
  }

  lemma QuadBack(o: Octets, rest: string)
    requires o.Valid() && Decode(rest).Some?
    ensures Decode(Quad(Split(o)) + rest) == Some([o.x as char, o.y as char, o.z as char] + Decode(rest).value)
  {
    var d := Split(o);
    var t := Quad(d) + rest;
    SplitBack(o);
    DigitsBack(d, rest);
    assert FrontDigits(t) == Some(d) && t[4..] == rest;
  }

  lemma FrontBack(s: ByteString, rest: string)
    requires |s| >= 3 && Base64(rest) && Decode(rest) == Some(s[3..])
    ensures Base64(Quad(Split(Front(s))) + rest) && Decode(Quad(Split(Front(s))) + rest) == Some(s)
  {
    var o := Front(s);
    QuadBack(o, rest);
    DigitsBack(Split(o), rest);
    assert s == [o.x as char, o.y as char, o.z as char] + s[3..];
  }

  lemma {:induction false} DecodeEncode(s: ByteString)
    ensures Base64(Encode(s)) && Decode(Encode(s)) == Some(s)
  {
    if 1 <= |s| <= 2 {
      ShortBack(s);
    } else if s != "" {
      DecodeEncode(s[3..]);
      FrontBack(s, Encode(s[3..]));
    }
  }

  // ---------------------------------------------------------------- segments

  const PLAIN := LETTERS + "_-."

  lemma PlainExact(c: char)
    ensures PlainChar(c) <==> c in PLAIN
  {
    LetterExact(c);
  }

  predicate PlainChar(c: char) {
    Alphanumeric(c) || c == '_' || c == '-' || c == '.'
  }

  function Upper(c: char): char {
    if 'a' <= c <= 'z' then c - 'a' + 'A' else c
  }

  function UpperAll(s: string): string {
    seq(|s|, i requires 0 <= i < |s| => Upper(s[i]))
  }

  /** Names Windows keeps for devices, even with an extension. */
  predicate Reserved(base: string) {
    || base == "CON" || base == "PRN" || base == "AUX" || base == "NUL"
    || (|base| == 4 && (base[..3] == "COM" || base[..3] == "LPT") && '1' <= base[3] <= '9')
  }

  predicate Plain(id: string) {
    && id != "" && id[|id| - 1] != '.'
    && (forall i | 0 <= i < |id| :: PlainChar(id[i]))
    && !Reserved(BaseOf(UpperAll(id)))
  }

  /** The part before the first dot. */
  function BaseOf(s: string): string {
    var cut := Cut(s, '.');
    if cut.Some? then cut.value.0 else s
  }

  function Segment(id: ByteString): ByteString {
    if Plain(id) then id else Tilde(Encode(id))
  }

  function Tilde(e: ByteString): ByteString {
    "~" + e
  }

  function NamespaceID(segment: ByteString): Option<ByteString> {
    if |segment| > 0 && segment[0] == '~' then
      var data := Decode(SkipLineBreaks(segment[1..]));
      if data.Some? && Segment(data.value) == segment then data else None
    else Some(segment)
  }

  /** The namespace of a reference's segment: only the segment its id encodes to. */
  function RefNamespace(segment: ByteString): Option<ByteString> {
    var id := NamespaceID(segment);
    if id.Some? && Segment(id.value) == segment then id else None
  }

  lemma TildeBack(id: ByteString, e: string)
    requires Base64(e) && Decode(e) == Some(id) && Segment(id) == "~" + e
    ensures NamespaceID(Segment(id)) == Some(id)
  {
    NoLineBreaks(e);
    assert ("~" + e)[1..] == e;
  }

  lemma SegmentBack(id: ByteString)
    ensures NamespaceID(Segment(id)) == Some(id)
  {
    if Plain(id) {
      assert PlainChar(id[0]);
    } else {
      DecodeEncode(id);
      TildeBack(id, Encode(id));
    }
  }

  lemma SegmentsDiffer(a: ByteString, b: ByteString)
    requires Segment(a) == Segment(b)
    ensures a == b
  {
    SegmentBack(a);
    SegmentBack(b);
  }

  /** A segment is one path element, and not a special one. */
  lemma SegmentIsSafe(id: ByteString)
    ensures SafeSegment(Segment(id))
  {
    if Plain(id) { PlainIsSafe(id); } else { EncodedIsSafe(id); }
  }

  /** One path element, which is not a special one, and which is no device's name,
      with or without an extension. */
  predicate SafeSegment(s: string) {
    && s != "" && s != "." && s != ".." && '/' !in s
    && !Reserved(UpperAll(s)) && !Reserved(BaseOf(UpperAll(s)))
  }

  lemma EncodedIsSafe(id: ByteString)
    ensures SafeSegment(Tilde(Encode(id)))
  {
    DecodeEncode(id);
    TildeIsSafe(Encode(id));
  }

  lemma TildeIsSafe(e: ByteString)
    requires Base64(e)
    ensures SafeSegment(Tilde(e))
  {
    var s := "~" + e;
    forall i | 0 <= i < |e| ensures e[i] != '/' { assert Undigit(e[i]).Some?; }
    TildeIsNotReserved(UpperAll(s));
    TildeStays(UpperAll(s));
    TildeIsNotReserved(BaseOf(UpperAll(s)));
    assert s[0] == '~';
  }

  lemma TildeStays(s: string)
    requires s != "" && s[0] == '~'
    ensures BaseOf(s) != "" && BaseOf(s)[0] == '~'
  {
    var cut := Cut(s, '.');
    if cut.Some? {
      assert s == cut.value.0 + ['.'] + cut.value.1;
    }
  }

  lemma TildeIsNotReserved(base: string)
    ensures base != "" && base[0] == '~' ==> !Reserved(base)
  {
    if |base| == 4 { assert base[..3][0] == base[0]; }
  }

  lemma PlainIsSafe(id: ByteString)
    requires Plain(id)
    ensures SafeSegment(id)
  {
    if Reserved(UpperAll(id)) { ReservedHasNoDot(UpperAll(id)); }
  }

  lemma ReservedHasNoDot(base: string)
    requires Reserved(base)
    ensures '.' !in base
  {
    if |base| == 4 { assert base == base[..3] + [base[3]]; }
  }

  /** Reading a segment back: every segment without the tilde is taken as it is, but
      with it only what some id encodes to. */
  lemma NamespaceIDExact(segment: ByteString, id: ByteString)
    ensures NamespaceID(segment) == Some(id) <==>
              segment == Segment(id) || (segment == id && (segment == "" || segment[0] != '~'))
  {
    SegmentBack(id);
  }

  /** So two segments can stand for one id: "CON" does, besides the segment it
      encodes to. References do not take the first. */
  lemma NamespaceIDIsNotInjective()
    ensures NamespaceID("CON") == Some("CON") && NamespaceID(Segment("CON")) == Some("CON") && Segment("CON") != "CON"
    ensures RefNamespace("CON") == None
  {
    var up := UpperAll("CON");
    assert up == "CON";
    assert Cut("CON", '.').None?;
    assert !Plain("CON");
    SegmentBack("CON");
  }

  lemma RefNamespaceExact(segment: ByteString, id: ByteString)
    ensures RefNamespace(segment) == Some(id) <==> segment == Segment(id)
  {
    SegmentBack(id);
  }
}
