/** Cutting and comparing strings. */
module Text {
  import opened Basics

  /** The part before the first c, and the part after it. */
  function Cut(s: string, c: char): (r: Option<(string, string)>)
    ensures r.Some? ==> s == r.value.0 + [c] + r.value.1 && c !in r.value.0
    ensures r.None? <==> c !in s
  {
    if s == "" then None
    else if s[0] == c then
      assert s == "" + [c] + s[1..];
      Some(("", s[1..]))
    else match Cut(s[1..], c)
      case None => None
      case Some(p) =>
        assert s == ([s[0]] + p.0) + [c] + p.1;
        Some(([s[0]] + p.0, p.1))
  }

  lemma {:induction false} CutAt(before: string, c: char, after: string)
    requires c !in before
    ensures Cut(before + [c] + after, c) == Some((before, after))
  {
    var s := before + [c] + after;
    if before == "" {
      assert s[1..] == after;
    } else {
      assert s[1..] == before[1..] + [c] + after;
      CutAt(before[1..], c, after);
      assert before == [before[0]] + before[1..];
    }
  }

  function DropPrefix(s: string, prefix: string): (r: Option<string>)
    ensures forall rest: string :: r == Some(rest) <==> s == prefix + rest
  {
    if prefix <= s then
      assert s == prefix + s[|prefix|..];
      Some(s[|prefix|..])
    else
      None
  }

  // ------------------------------------------------- letters, one by one

  const UPPER := "ABCDEFGHIJKLMNOPQRSTUVWXYZ"
  const LOWER := "abcdefghijklmnopqrstuvwxyz"
  const NUMBERS := "0123456789"

  lemma UpperAt(i: int)
    requires 0 <= i < 26
    ensures |UPPER| == 26 && UPPER[i] == 'A' + i as char
  {
    assert UPPER[0] == 'A' && UPPER[1] == 'B' && UPPER[2] == 'C' && UPPER[3] == 'D' && UPPER[4] == 'E';
    assert UPPER[5] == 'F' && UPPER[6] == 'G' && UPPER[7] == 'H' && UPPER[8] == 'I' && UPPER[9] == 'J';
    assert UPPER[10] == 'K' && UPPER[11] == 'L' && UPPER[12] == 'M' && UPPER[13] == 'N' && UPPER[14] == 'O';
    assert UPPER[15] == 'P' && UPPER[16] == 'Q' && UPPER[17] == 'R' && UPPER[18] == 'S' && UPPER[19] == 'T';
    assert UPPER[20] == 'U' && UPPER[21] == 'V' && UPPER[22] == 'W' && UPPER[23] == 'X' && UPPER[24] == 'Y';
    assert UPPER[25] == 'Z';
    assert || i == 0 || i == 1 || i == 2 || i == 3 || i == 4 || i == 5 || i == 6 || i == 7 || i == 8 || i == 9
           || i == 10 || i == 11 || i == 12 || i == 13 || i == 14 || i == 15 || i == 16 || i == 17 || i == 18
           || i == 19 || i == 20 || i == 21 || i == 22 || i == 23 || i == 24 || i == 25;
  }

  lemma LowerAt(i: int)
    requires 0 <= i < 26
    ensures |LOWER| == 26 && LOWER[i] == 'a' + i as char
  {
    assert LOWER[0] == 'a' && LOWER[1] == 'b' && LOWER[2] == 'c' && LOWER[3] == 'd' && LOWER[4] == 'e';
    assert LOWER[5] == 'f' && LOWER[6] == 'g' && LOWER[7] == 'h' && LOWER[8] == 'i' && LOWER[9] == 'j';
    assert LOWER[10] == 'k' && LOWER[11] == 'l' && LOWER[12] == 'm' && LOWER[13] == 'n' && LOWER[14] == 'o';
    assert LOWER[15] == 'p' && LOWER[16] == 'q' && LOWER[17] == 'r' && LOWER[18] == 's' && LOWER[19] == 't';
    assert LOWER[20] == 'u' && LOWER[21] == 'v' && LOWER[22] == 'w' && LOWER[23] == 'x' && LOWER[24] == 'y';
    assert LOWER[25] == 'z';
    assert || i == 0 || i == 1 || i == 2 || i == 3 || i == 4 || i == 5 || i == 6 || i == 7 || i == 8 || i == 9
           || i == 10 || i == 11 || i == 12 || i == 13 || i == 14 || i == 15 || i == 16 || i == 17 || i == 18
           || i == 19 || i == 20 || i == 21 || i == 22 || i == 23 || i == 24 || i == 25;
  }

  lemma NumberAt(i: int)
    requires 0 <= i < 10
    ensures |NUMBERS| == 10 && NUMBERS[i] == '0' + i as char
  {
    assert NUMBERS[0] == '0' && NUMBERS[1] == '1' && NUMBERS[2] == '2' && NUMBERS[3] == '3';
    assert NUMBERS[4] == '4' && NUMBERS[5] == '5' && NUMBERS[6] == '6' && NUMBERS[7] == '7';
    assert NUMBERS[8] == '8' && NUMBERS[9] == '9';
    assert || i == 0 || i == 1 || i == 2 || i == 3 || i == 4 || i == 5 || i == 6 || i == 7 || i == 8 || i == 9;
  }

  const LETTERS := UPPER + LOWER + NUMBERS

  lemma LetterAt(i: int)
    requires 0 <= i < 62
    ensures |LETTERS| == 62
    ensures LETTERS[i] ==
              if i < 26 then 'A' + i as char else if i < 52 then 'a' + (i - 26) as char else '0' + (i - 52) as char
  {
    if i < 26 { UpperAt(i); } else if i < 52 { LowerAt(i - 26); } else { NumberAt(i - 52); }
    UpperAt(0);
    LowerAt(0);
    NumberAt(0);
  }

  /** The letters and digits, and no others. */
  lemma LetterExact(c: char)
    ensures c in LETTERS <==> 'A' <= c <= 'Z' || 'a' <= c <= 'z' || '0' <= c <= '9'
  {
    LetterAt(0);
    if 'A' <= c <= 'Z' { LetterAt(c as int - 'A' as int); }
    if 'a' <= c <= 'z' { LetterAt(26 + (c as int - 'a' as int)); }
    if '0' <= c <= '9' { LetterAt(52 + (c as int - '0' as int)); }
    if c in LETTERS {
      var i :| 0 <= i < |LETTERS| && LETTERS[i] == c;
      LetterAt(i);
    }
  }
}
