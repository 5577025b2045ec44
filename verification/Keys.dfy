/** The bucket's keys: blob/, trash/ and refs/ under the configured prefix, and
    reading digests and namespaces back out of them. */
module Keys {
  import opened Basics
  import opened Hashing
  import opened Text
  import opened Namespaces

  datatype Ref = Ref(digest: Digest, id: ByteString)

  /** A digest as the end of a key. */
  function DigestPath(d: Digest): ByteString
    requires ValidDigest(d)
  {
    ValidDigestBytes(d);
    d[..6] + ['/'] + d[7..]
  }

  lemma ValidDigestBytes(d: Digest)
    requires ValidDigest(d)
    ensures forall i | 0 <= i < |d| :: d[i] as int < 256 && d[i] != '/' && (d[i] == ':' ==> i == 6)
  {
    forall i | 0 <= i < |d| ensures d[i] as int < 256 && d[i] != '/' && (d[i] == ':' ==> i == 6) {
      if i < 6 { assert d[i] == d[..6][i]; }
      if i > 6 { assert d[i] == d[7..][i - 7]; }
    }
  }

  /** The digest that two path elements name. */
  function PathDigest(algorithm: string, encoded: string): Option<Digest> {
    var d := algorithm + ":" + encoded;
    if ValidDigest(d) then Some(d) else None
  }

  /** Only the two halves of a valid digest name it. */
  lemma PathDigestExact(algorithm: string, encoded: string, d: Digest)
    ensures PathDigest(algorithm, encoded) == Some(d) <==> ValidDigest(d) && algorithm == d[..6] && encoded == d[7..]
  {
    var p := algorithm + ":" + encoded;
    if ValidDigest(p) {
      ValidDigestBytes(p);
      assert p[|algorithm|] == ':';
      assert |algorithm| == 6;
      assert p[..6] == algorithm && p[7..] == encoded;
    }
    if ValidDigest(d) && algorithm == d[..6] && encoded == d[7..] {
      assert d == p;
    }
  }

  function Append(a: ByteString, b: ByteString): ByteString { a + b }

  // ---------------------------------------------------------- blob/ and trash/

  /** The key of a digest under "blob/" or "trash/". */
  function KeyUnder(prefix: ByteString, under: ByteString, d: Digest): ByteString
    requires ValidDigest(d)
  {
    prefix + under + DigestPath(d)
  }

  function ParseKey(prefix: ByteString, under: ByteString, key: ByteString): Option<Digest> {
    var rest := DropPrefix(key, prefix + under);
    if rest.None? then None
    else
      var parts := Cut(rest.value, '/');
      if parts.None? then None else PathDigest(parts.value.0, parts.value.1)
  }

  lemma ParseKeyExact(prefix: ByteString, under: ByteString, key: ByteString, d: Digest)
    ensures ParseKey(prefix, under, key) == Some(d) <==> ValidDigest(d) && key == KeyUnder(prefix, under, d)
  {
    var rest := DropPrefix(key, prefix + under);
    if rest.Some? && Cut(rest.value, '/').Some? {
      var parts := Cut(rest.value, '/').value;
      PathDigestExact(parts.0, parts.1, d);
    }
    if ValidDigest(d) && key == KeyUnder(prefix, under, d) {
      assert key == (prefix + under) + DigestPath(d);
      ValidDigestBytes(d);
      CutAt(d[..6], '/', d[7..]);
      PathDigestExact(d[..6], d[7..], d);
    }
  }

  // -------------------------------------------------------------------- refs/

  function RefKey(prefix: ByteString, r: Ref): ByteString
    requires ValidDigest(r.digest)
  {
    Append(Append(prefix, "refs/"), Append(Append(Segment(r.id), ['/']), DigestPath(r.digest)))
  }

  /** Three path elements, no more and no fewer. */
  function ThreeParts(s: string): (r: Option<(string, string, string)>)
    ensures r.Some? ==> r.value.0 <= s
  {
    var a := Cut(s, '/');
    if a.None? then None
    else
      var b := Cut(a.value.1, '/');
      if b.None? || '/' in b.value.1 then None
      else Some((a.value.0, b.value.0, b.value.1))
  }

  lemma ThreePartsExact(s: string, a: string, b: string, c: string)
    ensures ThreeParts(s) == Some((a, b, c)) <==>
              s == a + ['/'] + (b + ['/'] + c) && '/' !in a && '/' !in b && '/' !in c
  {
    if s == a + ['/'] + (b + ['/'] + c) && '/' !in a && '/' !in b && '/' !in c {
      CutAt(a, '/', b + ['/'] + c);
      CutAt(b, '/', c);
    }
  }

  function ParseRefKey(prefix: ByteString, key: ByteString): Option<Ref> {
    var rest := DropPrefix(key, prefix + "refs/");
    if rest.None? then None
    else
      var parts := ThreeParts(rest.value);
      if parts.None? then None
      else
        assert forall i | 0 <= i < |parts.value.0| :: parts.value.0[i] == key[|prefix + "refs/"| + i];
        var id := RefNamespace(parts.value.0);
        var d := PathDigest(parts.value.1, parts.value.2);
        if id.None? || d.None? then None else Some(Ref(d.value, id.value))
  }

  /** Listing references finds exactly what was written: a key parses if and only
      if it is the key of the reference it parses to. */
  lemma ParseRefKeyExact(prefix: ByteString, key: ByteString, r: Ref)
    ensures ParseRefKey(prefix, key) == Some(r) <==> ValidDigest(r.digest) && key == RefKey(prefix, r)
  {
    if ParseRefKey(prefix, key) == Some(r) {
      RefKeyParsed(prefix, key, r);
    }
    if ValidDigest(r.digest) && key == RefKey(prefix, r) {
      RefKeyParses(prefix, r);
    }
  }

  lemma RefKeyParsed(prefix: ByteString, key: ByteString, r: Ref)
    requires ParseRefKey(prefix, key) == Some(r)
    ensures ValidDigest(r.digest) && key == RefKey(prefix, r)
  {
    var rest := DropPrefix(key, prefix + "refs/").value;
    var parts := ThreeParts(rest).value;
    ThreePartsExact(rest, parts.0, parts.1, parts.2);
    RefNamespaceExact(parts.0, r.id);
    PathDigestExact(parts.1, parts.2, r.digest);
  }

  lemma RefKeyParses(prefix: ByteString, r: Ref)
    requires ValidDigest(r.digest)
    ensures ParseRefKey(prefix, RefKey(prefix, r)) == Some(r)
  {
    var d := r.digest;
    var segment := Segment(r.id);
    SegmentIsSafe(r.id);
    ValidDigestBytes(d);
    RefNamespaceExact(segment, r.id);
    PathDigestExact(d[..6], d[7..], d);
    ThreePartsExact(segment + ['/'] + DigestPath(d), segment, d[..6], d[7..]);
  }

  /** Different references, and different blobs, never share a key. */
  lemma KeysDiffer(prefix: ByteString, under: ByteString, a: Ref, b: Ref)
    requires ValidDigest(a.digest) && ValidDigest(b.digest)
    ensures RefKey(prefix, a) == RefKey(prefix, b) <==> a == b
    ensures KeyUnder(prefix, under, a.digest) == KeyUnder(prefix, under, b.digest) <==> a.digest == b.digest
  {
    RefKeyParses(prefix, a);
    RefKeyParses(prefix, b);
    ParseKeyExact(prefix, under, KeyUnder(prefix, under, a.digest), a.digest);
    ParseKeyExact(prefix, under, KeyUnder(prefix, under, b.digest), b.digest);
  }
}
