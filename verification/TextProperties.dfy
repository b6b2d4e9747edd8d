/** What the string operations do, said of the text itself. */
module TextProperties {
  import opened Text

  /** Every character is one of Python's ten ASCII white-space characters. */
  predicate Blank(s: string) {
    forall i :: 0 <= i < |s| ==>
      s[i] in [' ', '\t', '\n', '\U{0B}', '\U{0C}', '\r', '\U{1C}', '\U{1D}', '\U{1E}', '\U{1F}']
  }

  lemma SpaceIsBlank(c: char)
    ensures IsSpace(c) <==> Blank([c])
  {
    if IsSpace(c) && c != ' ' {
      assert '\t' <= c <= '\r' || '\U{1C}' <= c <= '\U{1F}';
      assert [c][0] == c;
    }
    if Blank([c]) {
      assert [c][0] == c;
    }
  }

  /** `m` is what is left of `s` between blank ends, and has none itself. */
  ghost predicate Trimmed(s: string, m: string) {
    && (exists i, j :: 0 <= i <= j <= |s| && Cut(s, i, j, m))
    && (m != "" ==> !Blank([m[0]]) && !Blank([m[|m| - 1]]))
  }

  ghost predicate Cut(s: string, i: nat, j: nat, m: string)
    requires i <= j <= |s|
  {
    s[i..j] == m && Blank(s[..i]) && Blank(s[j..])
  }

  lemma {:induction false} LeftIsBlank(s: string) returns (i: nat)
    ensures i <= |s| && Blank(s[..i]) && StripLeft(s) == s[i..]
  {
    i := 0;
    if s != "" && IsSpace(s[0]) {
      i := LeftIsBlank(s[1..]);
      SpaceIsBlank(s[0]);
      assert [s[0]][0] == s[0];
      assert s[..i + 1] == [s[0]] + s[1..][..i];
      assert s[1..][i..] == s[i + 1..];
      i := i + 1;
    }
  }

  lemma {:induction false} RightIsBlank(s: string) returns (j: nat)
    ensures j <= |s| && Blank(s[j..]) && StripRight(s) == s[..j]
  {
    j := |s|;
    if s != "" && IsSpace(s[|s| - 1]) {
      var t, c := s[..|s| - 1], s[|s| - 1];
      j := RightIsBlank(t);
      SpaceIsBlank(c);
      assert [c][0] == c;
      assert s[j..] == t[j..] + [c];
      assert s[..j] == t[..j];
    }
  }

  lemma {:induction false} LeftEnd(s: string)
    ensures var r := StripLeft(s); r != "" ==> !Blank([r[0]])
  {
    if s != "" {
      SpaceIsBlank(s[0]);
      LeftEnd(s[1..]);
    }
  }

  lemma {:induction false} RightEnd(s: string)
    ensures var r := StripRight(s); r != "" ==> !Blank([r[|r| - 1]])
  {
    if s != "" {
      SpaceIsBlank(s[|s| - 1]);
      RightEnd(s[..|s| - 1]);
    }
  }

  /** `strip` takes the blanks off both ends, all of them and nothing else. */
  lemma StripTrims(s: string)
    ensures Trimmed(s, Strip(s))
  {
    hide Blank;
    var i := LeftIsBlank(s);
    var t := StripLeft(s);
    var j := RightIsBlank(t);
    LeftEnd(s);
    RightEnd(t);
    assert t[..j] == s[i..i + j] && t[j..] == s[i + j..];
    assert Cut(s, i, i + j, Strip(s));
    if Strip(s) != "" {
      assert Strip(s)[0] == t[0];
    }
  }

  lemma BlankParts(s: string, i: nat)
    requires i < |s| && Blank(s)
    ensures Blank([s[i]])
  {
    assert [s[i]][0] == s[i];
  }

  /** A text has one trimmed form. */
  lemma TrimmedOnce(s: string, m: string, n: string)
    requires Trimmed(s, m) && Trimmed(s, n)
    ensures m == n
  {
    hide Blank;
    var i, j :| 0 <= i <= j <= |s| && Cut(s, i, j, m);
    var k, l :| 0 <= k <= l <= |s| && Cut(s, k, l, n);
    if m != "" && n != "" {
      StartsTogether(s, i, j, k, l, m, n);
      StartsTogether(s, k, l, i, j, n, m);
    } else if m != "" {
      NotWhollyBlank(s, i, j, k, l, m);
    } else if n != "" {
      NotWhollyBlank(s, k, l, i, j, n);
    }
  }

  lemma StartsTogether(s: string, i: nat, j: nat, k: nat, l: nat, m: string, n: string)
    requires i <= j <= |s| && k <= l <= |s| && Cut(s, i, j, m) && Cut(s, k, l, n) && m != "" && n != ""
    requires !Blank([m[0]]) && !Blank([m[|m| - 1]])
    ensures k <= i && j <= l
  {
    hide Blank;
    assert m[0] == s[i] && m[|m| - 1] == s[j - 1];
    if i < k {
      BlankParts(s[..k], i);
    }
    if l < j {
      BlankParts(s[l..], j - 1 - l);
    }
  }

  lemma NotWhollyBlank(s: string, i: nat, j: nat, k: nat, l: nat, m: string)
    requires i <= j <= |s| && k <= l <= |s| && Cut(s, i, j, m) && Cut(s, k, l, "") && m != ""
    ensures Blank([m[0]])
  {
    hide Blank;
    assert m[0] == s[i] && k == l;
    if i < k {
      BlankParts(s[..k], i);
    } else {
      BlankParts(s[l..], i - l);
    }
  }

  lemma StripIsTheTrimmed(s: string, m: string)
    ensures Strip(s) == m <==> Trimmed(s, m)
  {
    StripTrims(s);
    if Trimmed(s, m) {
      TrimmedOnce(s, m, Strip(s));
    }
  }

  const UPPER := "ABCDEFGHIJKLMNOPQRSTUVWXYZ"
  const LOWER := "abcdefghijklmnopqrstuvwxyz"

  /** Letter by letter: a capital becomes the small letter at its place in the alphabet, every other
      character stays. */
  lemma LowerByLetter(s: string, i: nat)
    requires i < |s|
    ensures forall k :: 0 <= k < 26 && s[i] == UPPER[k] ==> Lower(s)[i] == LOWER[k]
    ensures s[i] !in UPPER ==> Lower(s)[i] == s[i]
  {
    Alphabet();
    if 'A' <= s[i] <= 'Z' {
      assert UPPER[s[i] as int - 'A' as int] == s[i];
    }
  }

  lemma Alphabet()
    ensures |UPPER| == |LOWER| == 26
    ensures forall k :: 0 <= k < 26 ==> UPPER[k] == (65 + k) as char && LOWER[k] == (97 + k) as char
  {
  }

  /** The number a decimal text writes. */
  function Decimal(s: string): int {
    if s == "" then 0 else 10 * Decimal(s[..|s| - 1]) + (s[|s| - 1] as int - '0' as int)
  }

  /** `str(n)` writes n in decimal digits, without a leading zero. */
  lemma {:induction false} DigitsWriteTheNumber(n: nat)
    ensures Decimal(Digits(n)) == n
    ensures n >= 10 ==> Digits(n)[0] != '0'
    ensures forall c :: c in Digits(n) ==> c in "0123456789"
  {
    var d := Digits(n);
    var last := ('0' as int + n % 10) as char;
    assert d[|d| - 1] == last;
    if n >= 10 {
      DigitsWriteTheNumber(n / 10);
      assert d == Digits(n / 10) + [last];
      assert d[..|d| - 1] == Digits(n / 10);
      FirstDigit(n / 10);
      assert d[0] == Digits(n / 10)[0];
    } else {
      assert d == [last] && d[..|d| - 1] == "";
      assert Decimal(d[..|d| - 1]) == 0;
    }
    forall c | c in d
      ensures c in "0123456789"
    {
      TenDigits(c);
    }
  }

  lemma FirstDigit(n: nat)
    requires n >= 10 ==> Digits(n)[0] != '0'
    ensures n >= 1 ==> Digits(n)[0] != '0'
  {
  }

  lemma TenDigits(c: char)
    ensures IsDigit(c) <==> c in "0123456789"
  {
    var ten := "0123456789";
    assert forall k :: 0 <= k < 10 ==> ten[k] == (48 + k) as char;
    if IsDigit(c) {
      assert ten[c as int - 48] == c;
    }
  }

  /** `needle in haystack`: the needle stands somewhere in it, whole. */
  lemma ContainsStandsWithin(haystack: string, needle: string)
    ensures Contains(haystack, needle) <==> exists i, j :: 0 <= i <= j <= |haystack| && haystack[i..j] == needle
  {
    if Contains(haystack, needle) {
      var i :| 0 <= i <= |haystack| && needle <= haystack[i..];
      assert haystack[i..i + |needle|] == haystack[i..][..|needle|] == needle;
    }
    if i, j :| 0 <= i <= j <= |haystack| && haystack[i..j] == needle {
      assert needle == haystack[i..][..|needle|];
    }
  }

  /** The order of texts: at the first place where they part, the smaller character is first; and a text
      comes before any that goes on from it. */
  lemma {:induction false} LessAtTheFirstDifference(a: string, b: string)
    ensures Less(a, b) <==> exists i :: PartsBelow(a, b, i)
  {
    if b != "" && a != "" && a[0] == b[0] {
      LessAtTheFirstDifference(a[1..], b[1..]);
      if i: nat :| PartsBelow(a[1..], b[1..], i) {
        assert a[..i + 1] == [a[0]] + a[1..][..i] && b[..i + 1] == [b[0]] + b[1..][..i];
        assert PartsBelow(a, b, i + 1);
      }
      if i: nat :| PartsBelow(a, b, i) {
        assert i > 0;
        assert a[1..][..i - 1] == a[..i][1..] && b[1..][..i - 1] == b[..i][1..];
        assert PartsBelow(a[1..], b[1..], i - 1);
      }
    } else if Less(a, b) {
      assert PartsBelow(a, b, 0);
    } else {
      forall i: nat
        ensures !PartsBelow(a, b, i)
      {
        if 0 < i <= |a| && i < |b| {
          assert a[..i][0] == a[0] && b[..i][0] == b[0];
        }
      }
    }
  }

  predicate PartsBelow(a: string, b: string, i: nat) {
    && i <= |a| && i < |b| && a[..i] == b[..i]
    && (i == |a| || a[i] < b[i])
  }
}
