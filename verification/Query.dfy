/** Percent-encoding (section 2.1 of RFC 3986) and the canonical query string that
    requests are signed over. */
module Query {
  import opened Basics
  import opened Text
  import opened Namespaces

  // -------------------------------------------------------- percent-encoding

  predicate Unreserved(c: char) {
    Alphanumeric(c) || c == '-' || c == '_' || c == '.' || c == '~'
  }

  function Hex(i: int): char
    requires 0 <= i < 16
  {
    if i < 10 then '0' + i as char else 'A' + (i - 10) as char
  }

  function Unhex(c: char): int {
    if '0' <= c <= '9' then c as int - '0' as int
    else if 'A' <= c <= 'F' then c as int - 'A' as int + 10
    else 0
  }

  function EncodeChar(c: char, encodeSlash: bool): string
    requires c as int < 256
  {
    if Unreserved(c) || (c == '/' && !encodeSlash) then [c]
    else ['%', Hex(c as int / 16), Hex(c as int % 16)]
  }

  function Escaped(s: ByteString, encodeSlash: bool): string {
    if s == "" then "" else Escaped(s[..|s| - 1], encodeSlash) + EncodeChar(s[|s| - 1], encodeSlash)
  }

  method UriEncode(s: ByteString, encodeSlash: bool) returns (r: string)
    ensures r == Escaped(s, encodeSlash)
  {
    r := "";
    for i := 0 to |s|
      invariant r == Escaped(s[..i], encodeSlash)
    {
      var c := s[i];
      if Unreserved(c) {
        r := r + [c];
      } else if c == '/' {
        r := r + if encodeSlash then "%2F" else "/";
      } else {
        r := r + "%" + [Hex(c as int / 16)] + [Hex(c as int % 16)];
      }
      assert s[..i + 1][..i] == s[..i];
    }
    assert s[..|s|] == s;
  }

  /** What percent-decoding reads back. */
  function Unescape(t: string): string {
    if t == "" then ""
    else if t[0] == '%' && |t| >= 3 then [((Unhex(t[1]) * 16 + Unhex(t[2])) % 256) as char] + Unescape(t[3..])
    else [t[0]] + Unescape(t[1..])
  }

  lemma EncodeCharBack(c: char, encodeSlash: bool, rest: string)
    requires c as int < 256
    ensures Unescape(EncodeChar(c, encodeSlash) + rest) == [c] + Unescape(rest)
  {
    var e := EncodeChar(c, encodeSlash);
    if |e| == 1 {
      assert (e + rest)[1..] == rest;
    } else {
      assert (e + rest)[3..] == rest && (e + rest)[0] == '%';
      assert Unhex(Hex(c as int / 16)) == c as int / 16 && Unhex(Hex(c as int % 16)) == c as int % 16;
    }
  }

  lemma Regroup(a: string, b: string, c: string)
    ensures (a + b) + c == a + (b + c)
  {
  }

  lemma {:induction false} EscapedBackBefore(s: ByteString, encodeSlash: bool, rest: string)
    ensures Unescape(Escaped(s, encodeSlash) + rest) == s + Unescape(rest)
  {
    if s == "" {
      assert "" + rest == rest;
    } else {
      var k := |s| - 1;
      var e := EncodeChar(s[k], encodeSlash);
      EscapedBackBefore(s[..k], encodeSlash, e + rest);
      EncodeCharBack(s[k], encodeSlash, rest);
      Regroup(Escaped(s[..k], encodeSlash), e, rest);
      Regroup(s[..k], [s[k]], Unescape(rest));
      assert s == s[..k] + [s[k]];
    }
  }

  /** Nothing is lost: decoding undoes the encoding, so it is injective. */
  lemma EscapedBack(s: ByteString, encodeSlash: bool)
    ensures Unescape(Escaped(s, encodeSlash)) == s
  {
    EscapedBackBefore(s, encodeSlash, "");
    assert Escaped(s, encodeSlash) + "" == Escaped(s, encodeSlash);
  }

  predicate Delimited(t: string) {
    '&' !in t && '=' !in t
  }

  lemma {:induction false} EscapedDelimited(s: ByteString, encodeSlash: bool)
    ensures Delimited(Escaped(s, encodeSlash))
    ensures encodeSlash ==> '/' !in Escaped(s, encodeSlash)
  {
    if s != "" { EscapedDelimited(s[..|s| - 1], encodeSlash); }
  }

  // The characters, letter by letter.

  const UNRESERVED := LETTERS + "-._~"
  const HEX_DIGITS := "0123456789ABCDEF"

  lemma UnreservedExact(c: char)
    ensures Unreserved(c) <==> c in UNRESERVED
  {
    LetterExact(c);
  }

  lemma HexExact(i: int)
    requires 0 <= i < 16
    ensures Hex(i) == HEX_DIGITS[i]
  {
  }

  /** A byte is left as it is, or becomes a percent sign and its two digits. */
  lemma EncodeCharExact(c: char, encodeSlash: bool)
    requires c as int < 256
    ensures EncodeChar(c, encodeSlash) ==
              if c in UNRESERVED || (c == '/' && !encodeSlash) then [c]
              else ['%', HEX_DIGITS[c as int / 16], HEX_DIGITS[c as int % 16]]
  {
    UnreservedExact(c);
    HexExact(c as int / 16);
    HexExact(c as int % 16);
  }

  /** And bytes are encoded one by one, in their order. */
  lemma {:induction false} EscapedJoins(s: ByteString, t: ByteString, encodeSlash: bool)
    ensures Escaped(s + t, encodeSlash) == Escaped(s, encodeSlash) + Escaped(t, encodeSlash)
  {
    if t == "" {
      assert s + t == s;
    } else {
      var k := |t| - 1;
      assert (s + t)[..|s + t| - 1] == s + t[..k];
      EscapedJoins(s, t[..k], encodeSlash);
    }
  }

  // ------------------------------------------------------------------ sorting

  datatype Pair = Pair(k: string, v: string)

  /** Byte order of strings. */
  predicate AtMost(a: string, b: string) {
    a == "" || (b != "" && (a[0] < b[0] || (a[0] == b[0] && AtMost(a[1..], b[1..]))))
  }

  /** The order, without a recursion: a starts b, or has the smaller byte where they
      first differ. */
  predicate InOrderAt(a: string, b: string, n: nat) {
    && n <= |a| && n <= |b| && a[..n] == b[..n]
    && (n == |a| || (n < |b| && a[n] < b[n]))
  }

  predicate InOrder(a: string, b: string) {
    exists n: nat | n <= |a| :: InOrderAt(a, b, n)
  }

  lemma {:induction false} AtMostInOrder(a: string, b: string) returns (n: nat)
    requires AtMost(a, b)
    ensures InOrderAt(a, b, n)
  {
    if a == "" || a[0] != b[0] {
      n := 0;
    } else {
      var k := AtMostInOrder(a[1..], b[1..]);
      n := k + 1;
      assert a[..n] == [a[0]] + a[1..][..k] && b[..n] == [b[0]] + b[1..][..k];
    }
  }

  lemma {:induction false} AtMostTotal(a: string, b: string)
    ensures AtMost(a, b) || AtMost(b, a)
    ensures AtMost(a, b) && AtMost(b, a) ==> a == b
    ensures AtMost(a, a)
  {
    if a != "" { AtMostTotal(a[1..], a[1..]); }
    if a != "" && b != "" {
      AtMostTotal(a[1..], b[1..]);
      assert a == [a[0]] + a[1..] && b == [b[0]] + b[1..];
    }
  }

  lemma {:induction false} AtMostTrans(a: string, b: string, c: string)
    requires AtMost(a, b) && AtMost(b, c)
    ensures AtMost(a, c)
  {
    if a != "" && a[0] == b[0] && b[0] == c[0] { AtMostTrans(a[1..], b[1..], c[1..]); }
  }

  /** By key, then by value. */
  predicate Before(a: Pair, b: Pair) {
    if a.k != b.k then AtMost(a.k, b.k) else AtMost(a.v, b.v)
  }

  lemma BeforeTotal(a: Pair, b: Pair)
    ensures Before(a, b) || Before(b, a)
    ensures Before(a, b) && Before(b, a) ==> a == b
  {
    AtMostTotal(a.k, b.k);
    AtMostTotal(a.v, b.v);
  }

  lemma BeforeTrans(a: Pair, b: Pair, c: Pair)
    requires Before(a, b) && Before(b, c)
    ensures Before(a, c)
  {
    AtMostTotal(a.k, b.k);
    AtMostTotal(b.k, c.k);
    if a.k != b.k && b.k != c.k {
      AtMostTrans(a.k, b.k, c.k);
    } else if a.k == b.k == c.k {
      AtMostTrans(a.v, b.v, c.v);
    }
  }

  predicate Sorted(s: seq<Pair>) {
    forall i, j | 0 <= i < j < |s| :: Before(s[i], s[j])
  }

  function Insert(p: Pair, s: seq<Pair>): seq<Pair> {
    if s == [] || Before(p, s[0]) then [p] + s else [s[0]] + Insert(p, s[1..])
  }

  function Sort(s: seq<Pair>): seq<Pair> {
    if s == [] then [] else Insert(s[0], Sort(s[1..]))
  }

  lemma {:induction false} InsertSorts(p: Pair, s: seq<Pair>)
    requires Sorted(s)
    ensures Sorted(Insert(p, s)) && multiset(Insert(p, s)) == multiset(s) + multiset{p}
  {
    if s == [] {
    } else if Before(p, s[0]) {
      forall j | 0 <= j < |s| ensures Before(p, s[j]) {
        if j > 0 { BeforeTrans(p, s[0], s[j]); }
      }
    } else {
      BeforeTotal(p, s[0]);
      InsertSorts(p, s[1..]);
      var t := Insert(p, s[1..]);
      assert s == [s[0]] + s[1..];
      forall j | 0 <= j < |t| ensures Before(s[0], t[j]) {
        assert t[j] in multiset(t);
        assert t[j] == p || t[j] in s[1..];
      }
    }
  }

  lemma {:induction false} SortSorts(s: seq<Pair>)
    ensures Sorted(Sort(s)) && multiset(Sort(s)) == multiset(s)
  {
    if s != [] {
      SortSorts(s[1..]);
      InsertSorts(s[0], Sort(s[1..]));
      assert s == [s[0]] + s[1..];
    }
  }

  /** Sorting leaves no choice: so it does not matter how the list is sorted. */
  lemma {:induction false} SortedIsUnique(a: seq<Pair>, b: seq<Pair>)
    requires Sorted(a) && Sorted(b) && multiset(a) == multiset(b)
    ensures a == b
  {
    assert |a| == |multiset(a)| == |multiset(b)| == |b|;
    if a != [] {
      FirstIsLeast(a, b);
      FirstIsLeast(b, a);
      BeforeTotal(a[0], b[0]);
      assert a == [a[0]] + a[1..] && b == [b[0]] + b[1..];
      assert multiset(a[1..]) == multiset(a) - multiset{a[0]};
      assert multiset(b[1..]) == multiset(b) - multiset{b[0]};
      SortedIsUnique(a[1..], b[1..]);
    }
  }

  lemma FirstIsLeast(a: seq<Pair>, b: seq<Pair>)
    requires Sorted(a) && multiset(a) == multiset(b) && a != [] && b != []
    ensures Before(a[0], b[0])
  {
    assert b[0] in multiset(b);
    assert b[0] in multiset(a);
    var i :| 0 <= i < |a| && a[i] == b[0];
    BeforeTotal(a[0], a[0]);
  }

  // --------------------------------------------------------------- the query

  function Item(p: Pair): string { p.k + "=" + p.v }

  function Join(ps: seq<Pair>): string {
    if ps == [] then ""
    else if |ps| == 1 then Item(ps[0])
    else Item(ps[0]) + "&" + Join(ps[1..])
  }

  predicate AllDelimited(ps: seq<Pair>) {
    forall i | 0 <= i < |ps| :: Delimited(ps[i].k) && Delimited(ps[i].v)
  }

  lemma ItemBack(p: Pair)
    requires Delimited(p.k) && Delimited(p.v)
    ensures Cut(Item(p), '=') == Some((p.k, p.v)) && '&' !in Item(p) && Item(p) != ""
  {
    CutAt(p.k, '=', p.v);
    assert Item(p) == p.k + ['='] + p.v;
    assert Item(p)[|p.k|] == '=';
  }

  lemma ItemIsInjective(p: Pair, q: Pair)
    requires Delimited(p.k) && Delimited(p.v) && Delimited(q.k) && Delimited(q.v)
    ensures Item(p) == Item(q) ==> p == q
  {
    ItemBack(p);
    ItemBack(q);
  }

  lemma JoinEmpty(ps: seq<Pair>)
    requires AllDelimited(ps)
    ensures Join(ps) == "" <==> ps == []
  {
    if ps != [] { ItemBack(ps[0]); }
  }

  /** Where the first item of a query ends. */
  lemma JoinCut(ps: seq<Pair>)
    requires ps != [] && AllDelimited(ps)
    ensures Cut(Join(ps), '&') == if |ps| == 1 then None else Some((Item(ps[0]), Join(ps[1..])))
  {
    ItemBack(ps[0]);
    if |ps| > 1 {
      CutAt(Item(ps[0]), '&', Join(ps[1..]));
      assert Join(ps) == Item(ps[0]) + ['&'] + Join(ps[1..]);
    }
  }

  /** The text can be read in one way only. */
  lemma {:induction false} JoinIsInjective(a: seq<Pair>, b: seq<Pair>)
    requires AllDelimited(a) && AllDelimited(b) && Join(a) == Join(b)
    ensures a == b
  {
    JoinEmpty(a);
    JoinEmpty(b);
    if a != [] {
      JoinCut(a);
      JoinCut(b);
      ItemIsInjective(a[0], b[0]);
      if |a| > 1 { JoinIsInjective(a[1..], b[1..]); }
      assert a == [a[0]] + a[1..] && b == [b[0]] + b[1..];
    }
  }

  datatype Entry = Entry(k: ByteString, v: ByteString)

  function EncodeEntry(e: Entry): Pair { Pair(Escaped(e.k, true), Escaped(e.v, true)) }

  function EncodeAll(es: seq<Entry>): seq<Pair> {
    seq(|es|, i requires 0 <= i < |es| => EncodeEntry(es[i]))
  }

  lemma EncodeAllDelimited(es: seq<Entry>)
    ensures AllDelimited(EncodeAll(es))
  {
    forall i | 0 <= i < |es| ensures Delimited(EncodeAll(es)[i].k) && Delimited(EncodeAll(es)[i].v) {
      EscapedDelimited(es[i].k, true);
      EscapedDelimited(es[i].v, true);
    }
  }

  lemma EncodeEntryBack(a: Entry, b: Entry)
    ensures EncodeEntry(a) == EncodeEntry(b) <==> a == b
  {
    EscapedBack(a.k, true);
    EscapedBack(b.k, true);
    EscapedBack(a.v, true);
    EscapedBack(b.v, true);
  }

  lemma CountLast<T>(s: seq<T>, last: T, x: T)
    ensures multiset(s + [last])[x] == multiset(s)[x] + (if last == x then 1 else 0)
  {
  }

  /** Encoding keeps how often each entry occurs. */
  lemma {:induction false} EncodeAllCounts(es: seq<Entry>, e: Entry)
    ensures multiset(EncodeAll(es))[EncodeEntry(e)] == multiset(es)[e]
  {
    if es != [] {
      var k := |es| - 1;
      EncodeAllCounts(es[..k], e);
      EncodeLastCounts(es, es[..k], es[k], e);
    }
  }

  lemma EncodeLastCounts(es: seq<Entry>, init: seq<Entry>, last: Entry, e: Entry)
    requires es == init + [last] && multiset(EncodeAll(init))[EncodeEntry(e)] == multiset(init)[e]
    ensures multiset(EncodeAll(es))[EncodeEntry(e)] == multiset(es)[e]
  {
    EncodeEntryBack(e, last);
    assert EncodeAll(es) == EncodeAll(init) + [EncodeEntry(last)];
    CountLast(init, last, e);
    CountLast(EncodeAll(init), EncodeEntry(last), EncodeEntry(e));
  }

  /** The canonical query of a list of entries. */
  function Canonical(es: seq<Entry>): string { Join(Sort(EncodeAll(es))) }

  lemma {:induction false} SameEntries(a: seq<Entry>, b: seq<Entry>)
    ensures multiset(EncodeAll(a)) == multiset(EncodeAll(b)) <==> multiset(a) == multiset(b)
  {
    if multiset(EncodeAll(a)) == multiset(EncodeAll(b)) {
      forall e: Entry ensures multiset(a)[e] == multiset(b)[e] {
        EncodeAllCounts(a, e);
        EncodeAllCounts(b, e);
      }
    }
    if multiset(a) == multiset(b) {
      forall p: Pair ensures multiset(EncodeAll(a))[p] == multiset(EncodeAll(b))[p] {
        SamePair(a, b, p);
      }
    }
  }

  lemma SamePair(a: seq<Entry>, b: seq<Entry>, p: Pair)
    requires multiset(a) == multiset(b)
    ensures multiset(EncodeAll(a))[p] == multiset(EncodeAll(b))[p]
  {
    if i :| 0 <= i < |a| && EncodeEntry(a[i]) == p {
      EncodeAllCounts(a, a[i]);
      EncodeAllCounts(b, a[i]);
    } else if i :| 0 <= i < |b| && EncodeEntry(b[i]) == p {
      EncodeAllCounts(a, b[i]);
      EncodeAllCounts(b, b[i]);
    } else {
      assert p !in EncodeAll(a) && p !in EncodeAll(b);
    }
  }

  /** Two queries read the same if and only if they have the same entries, in
      whatever order each was listed. */
  lemma CanonicalIff(a: seq<Entry>, b: seq<Entry>)
    ensures Canonical(a) == Canonical(b) <==> multiset(a) == multiset(b)
  {
    var x, y := EncodeAll(a), EncodeAll(b);
    SortSorts(x);
    SortSorts(y);
    SameEntries(a, b);
    if Canonical(a) == Canonical(b) {
      EncodeAllDelimited(a);
      EncodeAllDelimited(b);
      SortDelimited(x);
      SortDelimited(y);
      JoinIsInjective(Sort(x), Sort(y));
    }
    if multiset(a) == multiset(b) {
      SortedIsUnique(Sort(x), Sort(y));
    }
  }

  lemma SortDelimited(s: seq<Pair>)
    requires AllDelimited(s)
    ensures AllDelimited(Sort(s))
  {
    SortSorts(s);
    var t := Sort(s);
    forall i | 0 <= i < |t| ensures Delimited(t[i].k) && Delimited(t[i].v) {
      assert t[i] in multiset(s);
    }
  }

  // -------------------------------------------------------- reading it back

  /** The pairs a query text is made of, cut at its ampersands and equal signs. */
  function Parse(text: string): seq<Pair>
    decreases |text|
  {
    if text == "" then []
    else
      var cut := Cut(text, '&');
      if cut.None? then [ParseItem(text)] else [ParseItem(cut.value.0)] + Parse(cut.value.1)
  }

  function ParseItem(item: string): Pair {
    var cut := Cut(item, '=');
    if cut.None? then Pair(item, "") else Pair(cut.value.0, cut.value.1)
  }

  lemma {:induction false} ParseJoin(ps: seq<Pair>)
    requires AllDelimited(ps)
    ensures Parse(Join(ps)) == ps
  {
    JoinEmpty(ps);
    if ps != [] {
      JoinCut(ps);
      ItemBack(ps[0]);
      if |ps| > 1 { ParseJoin(ps[1..]); }
      assert ps == [ps[0]] + ps[1..];
    }
  }

  /** What a canonical query is: its pairs ascend, by the bytes of their keys and for
      equal keys by those of their values, and are the encoded entries, each as often
      as the query has it. */
  ghost predicate IsCanonical(q: map<ByteString, seq<ByteString>>, text: string) {
    var ps := Parse(text);
    && (forall i, j | 0 <= i < j < |ps| :: Ascending(ps[i], ps[j]))
    && (forall e: Entry :: multiset(ps)[EncodeEntry(e)] == Count(q, e))
    && (forall p <- ps :: exists e: Entry :: p == EncodeEntry(e))
  }

  predicate Ascending(p: Pair, p': Pair) {
    if p.k != p'.k then InOrder(p.k, p'.k) else InOrder(p.v, p'.v)
  }

  lemma BeforeAscends(p: Pair, p': Pair)
    requires Before(p, p')
    ensures Ascending(p, p')
  {
    if p.k != p'.k {
      var n := AtMostInOrder(p.k, p'.k);
    } else {
      var n := AtMostInOrder(p.v, p'.v);
    }
  }

  lemma CanonicalIs(q: map<ByteString, seq<ByteString>>, es: seq<Entry>)
    requires Lists(q, es)
    ensures IsCanonical(q, Canonical(es))
  {
    var ps := Sort(EncodeAll(es));
    SortSorts(EncodeAll(es));
    EncodeAllDelimited(es);
    SortDelimited(EncodeAll(es));
    ParseJoin(ps);
    forall i, j | 0 <= i < j < |ps| ensures Ascending(ps[i], ps[j]) { BeforeAscends(ps[i], ps[j]); }
    forall e: Entry ensures multiset(ps)[EncodeEntry(e)] == Count(q, e) {
      EncodeAllCounts(es, e);
    }
    forall p <- ps ensures exists e: Entry :: p == EncodeEntry(e) {
      assert p in multiset(ps);
      var i :| 0 <= i < |es| && EncodeAll(es)[i] == p;
      assert p == EncodeEntry(es[i]);
    }
  }

  /** A query maps a key to its values; es lists all of it. */
  ghost predicate Lists(q: map<ByteString, seq<ByteString>>, es: seq<Entry>) {
    forall e: Entry :: multiset(es)[e] == Count(q, e)
  }

  function Count(q: map<ByteString, seq<ByteString>>, e: Entry): nat {
    if e.k in q then multiset(q[e.k])[e.v] else 0
  }

  /** Go over the keys in any order, and each key's values in theirs; encode, sort,
      and write the pairs out. */
  method CanonicalQuery(q: map<ByteString, seq<ByteString>>) returns (r: string, ghost es: seq<Entry>)
    ensures Lists(q, es) && r == Canonical(es)
    ensures IsCanonical(q, r)
  {
    var pairs := [];
    es := [];
    var todo := q.Keys;
    while todo != {}
      invariant todo <= q.Keys && pairs == EncodeAll(es)
      invariant forall e: Entry :: multiset(es)[e] == if e.k in todo then 0 else Count(q, e)
    {
      var k: ByteString :| k in todo;
      pairs := AddKey(pairs, es, k, q[k]);
      EntriesAdd(k, q[k]);
      es := es + Entries(k, q[k]);
      todo := todo - {k};
    }
    r := Write(Sort(pairs));
    CanonicalIs(q, es);
  }

  method AddKey(pairs: seq<Pair>, ghost es: seq<Entry>, k: ByteString, vs: seq<ByteString>) returns (all: seq<Pair>)
    requires pairs == EncodeAll(es)
    ensures all == EncodeAll(es + Entries(k, vs))
  {
    all := pairs;
    assert es + Entries(k, vs[..0]) == es;
    for i := 0 to |vs|
      invariant all == EncodeAll(es + Entries(k, vs[..i]))
    {
      var ek := UriEncode(k, true);
      var ev := UriEncode(vs[i], true);
      all := all + [Pair(ek, ev)];
      assert es + Entries(k, vs[..i + 1]) == (es + Entries(k, vs[..i])) + [Entry(k, vs[i])];
    }
    assert vs[..|vs|] == vs;
  }

  /** The entries of one key. */
  function Entries(k: ByteString, vs: seq<ByteString>): seq<Entry> {
    seq(|vs|, i requires 0 <= i < |vs| => Entry(k, vs[i]))
  }

  ghost predicate Adds(added: seq<Entry>, k: ByteString, vs: seq<ByteString>) {
    forall e: Entry :: multiset(added)[e] == if e.k == k then multiset(vs)[e.v] else 0
  }

  lemma EntriesAdd(k: ByteString, vs: seq<ByteString>)
    ensures Adds(Entries(k, vs), k, vs)
  {
    forall e: Entry ensures multiset(Entries(k, vs))[e] == if e.k == k then multiset(vs)[e.v] else 0 {
      EntriesCount(k, vs, e);
    }
  }

  lemma {:induction false} EntriesCount(k: ByteString, vs: seq<ByteString>, e: Entry)
    ensures multiset(Entries(k, vs))[e] == if e.k == k then multiset(vs)[e.v] else 0
  {
    if vs != [] {
      var n := |vs| - 1;
      EntriesCount(k, vs[..n], e);
      assert vs == vs[..n] + [vs[n]];
      assert Entries(k, vs) == Entries(k, vs[..n]) + [Entry(k, vs[n])];
    }
  }

  method Write(pairs: seq<Pair>) returns (r: string)
    ensures r == Join(pairs)
  {
    r := "";
    for i := 0 to |pairs|
      invariant r == Join(pairs[..i])
    {
      JoinSnoc(pairs[..i], pairs[i]);
      assert pairs[..i + 1] == pairs[..i] + [pairs[i]];
      if i > 0 { r := r + "&"; }
      r := r + pairs[i].k + "=" + pairs[i].v;
    }
    assert pairs[..|pairs|] == pairs;
  }

  lemma {:induction false} JoinSnoc(ps: seq<Pair>, p: Pair)
    ensures Join(ps + [p]) == Join(ps) + (if ps == [] then "" else "&") + Item(p)
  {
    if ps == [] {
      assert ps + [p] == [p];
    } else if |ps| > 1 {
      JoinSnoc(ps[1..], p);
      assert (ps + [p])[1..] == ps[1..] + [p];
    } else {
      assert (ps + [p])[1..] == [p];
    }
  }

  /** Signing sees the entries and nothing else: not the order a map is gone over
      in, not how the list is sorted. */
  lemma QueryIff(q: map<ByteString, seq<ByteString>>, q': map<ByteString, seq<ByteString>>,
                 es: seq<Entry>, es': seq<Entry>)
    requires Lists(q, es) && Lists(q', es')
    ensures Canonical(es) == Canonical(es') <==> forall e: Entry :: Count(q, e) == Count(q', e)
  {
    CanonicalIff(es, es');
    if forall e: Entry :: Count(q, e) == Count(q', e) {
      assert forall e: Entry :: multiset(es)[e] == multiset(es')[e];
      assert multiset(es) == multiset(es');
    } else {
      var e: Entry :| Count(q, e) != Count(q', e);
      assert multiset(es)[e] != multiset(es')[e];
    }
  }
}
