/** What the readers of a hosts file take from its text, said of the text itself. */
module HostFlagsText {
  import opened Wrappers
  import opened Text
  import opened TextProperties
  import opened HostFlags
  import opened HostFlagsProperties

  // ---------------------------------------------------------------- words and comments

  predicate NoBlank(word: string) {
    forall k :: 0 <= k < |word| ==> !Blank([word[k]])
  }

  /** The text is these words, none of them empty or with a blank inside, with blanks between any two
      and possibly blanks around them. */
  ghost predicate Spaced(s: string, words: seq<string>)
    decreases |words|
  {
    if words == [] then Blank(s) else exists gap, rest :: Starts(s, gap, words[0], rest) && Spaced(rest, words[1..])
  }

  predicate Starts(s: string, gap: string, word: string, rest: string) {
    s == gap + word + rest && Blank(gap) && word != "" && NoBlank(word) && (rest == "" || Blank([rest[0]]))
  }

  lemma {:induction false} WordsAfterGap(gap: string, t: string)
    requires Blank(gap)
    ensures Words(gap + t) == Words(t)
  {
    if gap == "" {
      assert gap + t == t;
    } else {
      assert [gap[0]][0] == gap[0];
      SpaceIsBlank(gap[0]);
      assert (gap + t)[1..] == gap[1..] + t;
      WordsAfterGap(gap[1..], t);
    }
  }

  lemma {:induction false} LengthOfWord(word: string, rest: string)
    requires NoBlank(word) && (rest == "" || Blank([rest[0]]))
    ensures WordLength(word + rest) == |word|
  {
    hide Blank;
    if word == "" {
      assert word + rest == rest;
      if rest != "" {
        SpaceIsBlank(rest[0]);
      }
    } else {
      SpaceIsBlank(word[0]);
      assert (word + rest)[1..] == word[1..] + rest;
      LengthOfWord(word[1..], rest);
    }
  }

  lemma WordsOfStart(s: string, gap: string, word: string, rest: string)
    requires Starts(s, gap, word, rest)
    ensures Words(s) == [word] + Words(rest)
  {
    var t := word + rest;
    assert s == gap + t;
    WordsAfterGap(gap, t);
    LengthOfWord(word, rest);
    SpaceIsBlank(word[0]);
    assert t[..|word|] == word && t[|word|..] == rest;
  }

  lemma NoWords()
    ensures Words("") == []
  {
  }

  lemma {:induction false} SpacedAreWords(s: string, words: seq<string>)
    requires Spaced(s, words)
    ensures Words(s) == words
    decreases |words|
  {
    hide Blank, Words;
    if words == [] {
      assert s + "" == s;
      WordsAfterGap(s, "");
      NoWords();
    } else {
      var gap, rest :| Starts(s, gap, words[0], rest) && Spaced(rest, words[1..]);
      WordsOfStart(s, gap, words[0], rest);
      SpacedAreWords(rest, words[1..]);
    }
  }

  lemma {:induction false} WordsAreSpaced(s: string)
    ensures Spaced(s, Words(s))
    decreases |s|
  {
    hide Blank;
    if s == "" {
      EmptyIsBlank();
    } else if IsSpace(s[0]) {
      WordsAreSpaced(s[1..]);
      SpaceIsBlank(s[0]);
      OneMoreBlank(s, Words(s[1..]));
    } else {
      var n := WordLength(s);
      WordLengthStops(s);
      WordsAreSpaced(s[n..]);
      forall k | 0 <= k < n
        ensures !Blank([s[k]])
      {
        assert s[..n][k] == s[k];
        SpaceIsBlank(s[k]);
      }
      if n < |s| {
        SpaceIsBlank(s[n]);
      }
      EmptyIsBlank();
      assert s == "" + s[..n] + s[n..] && NoBlank(s[..n]);
      assert Starts(s, "", s[..n], s[n..]);
      var words := Words(s);
      assert words[0] == s[..n] && words[1..] == Words(s[n..]);
    }
  }

  lemma EmptyIsBlank()
    ensures Blank("")
  {
  }

  lemma OneMoreBlank(s: string, words: seq<string>)
    requires s != "" && Blank([s[0]]) && Spaced(s[1..], words)
    ensures Spaced(s, words)
  {
    assert s == [s[0]] + s[1..];
    assert [s[0]][0] == s[0];
    if words != [] {
      var gap, rest :| Starts(s[1..], gap, words[0], rest) && Spaced(rest, words[1..]);
      assert s == [s[0]] + gap + words[0] + rest;
      assert Starts(s, [s[0]] + gap, words[0], rest);
    }
  }

  /** `split` gives the words of a text: its longest pieces without a blank, all of them, in order. */
  lemma WordsIff(s: string, words: seq<string>)
    ensures Words(s) == words <==> Spaced(s, words)
  {
    WordsAreSpaced(s);
    if Spaced(s, words) {
      SpacedAreWords(s, words);
    }
  }

  /** The text before a mark ends where the mark first stands. */
  lemma {:induction false} BeforeIsCut(s: string, mark: char, cut: string)
    ensures Before(s, mark) == cut <==> mark !in cut && cut <= s && (|cut| < |s| ==> s[|cut|] == mark)
  {
    if s != "" {
      if s[0] != mark {
        if cut != "" {
          BeforeIsCut(s[1..], mark, cut[1..]);
          assert cut == [cut[0]] + cut[1..] && s == [s[0]] + s[1..];
        }
      }
    }
  }

  // ---------------------------------------------------------------- the driver's own host

  /** One to three digits. */
  predicate ShortNumber(g: string) {
    1 <= |g| <= 3 && forall i :: 0 <= i < |g| ==> g[i] in "0123456789"
  }

  ghost predicate FourNumbers(h: string) {
    exists a, b, c, d :: Dotted(h, a, b, c, d)
  }

  predicate Dotted(h: string, a: string, b: string, c: string, d: string) {
    && h == a + "." + b + "." + c + "." + d
    && ShortNumber(a) && ShortNumber(b) && ShortNumber(c) && ShortNumber(d)
  }

  function Rejoined(groups: seq<string>, mark: char): string
    requires groups != []
  {
    if |groups| == 1 then groups[0] else groups[0] + [mark] + Rejoined(groups[1..], mark)
  }

  lemma {:induction false} SplitRejoins(s: string, mark: char)
    ensures Rejoined(SplitOn(s, mark), mark) == s
    ensures forall g :: g in SplitOn(s, mark) ==> mark !in g
  {
    if s != "" {
      SplitRejoins(s[1..], mark);
      var rest, all := SplitOn(s[1..], mark), SplitOn(s, mark);
      assert s == [s[0]] + s[1..];
      if s[0] == mark {
        assert all[1..] == rest;
        assert Rejoined(all, mark) == "" + [mark] + Rejoined(rest, mark) == [mark] + Rejoined(rest, mark);
      } else {
        assert all[0] == [s[0]] + rest[0] && all[1..] == rest[1..];
        if |rest| > 1 {
          assert Rejoined(all, mark) == [s[0]] + rest[0] + [mark] + Rejoined(rest[1..], mark);
          assert [s[0]] + rest[0] + [mark] + Rejoined(rest[1..], mark)
              == [s[0]] + (rest[0] + [mark] + Rejoined(rest[1..], mark));
        }
        forall g | g in all
          ensures mark !in g
        {
          if g != all[0] {
            assert g in rest[1..];
          } else {
            assert rest[0] in rest;
          }
        }
      }
    }
  }

  lemma {:induction false} SplitOfJoined(a: string, s: string, mark: char)
    requires mark !in a
    ensures SplitOn(a + [mark] + s, mark) == [a] + SplitOn(s, mark)
    ensures SplitOn(a, mark) == [a]
  {
    if a == "" {
      assert ("" + [mark] + s)[1..] == s;
    } else {
      SplitOfJoined(a[1..], s, mark);
      assert (a + [mark] + s)[1..] == a[1..] + [mark] + s;
      assert a == [a[0]] + a[1..];
    }
  }

  lemma NumbersHaveNoDot(g: string)
    requires ShortNumber(g)
    ensures '.' !in g && forall ch :: ch in g ==> IsDigit(ch)
  {
    forall ch | ch in g
      ensures ch != '.' && IsDigit(ch)
    {
      TenDigits(ch);
    }
  }

  lemma FourGroups(h: string, a: string, b: string, c: string, d: string)
    requires Dotted(h, a, b, c, d)
    ensures SplitOn(h, '.') == [a, b, c, d]
  {
    NumbersHaveNoDot(a);
    NumbersHaveNoDot(b);
    NumbersHaveNoDot(c);
    NumbersHaveNoDot(d);
    hide SplitOn, ShortNumber;
    assert h == a + "." + (b + "." + (c + "." + d));
    SplitOfJoined(d, "", '.');
    SplitOfJoined(c, d, '.');
    SplitOfJoined(b, c + "." + d, '.');
    SplitOfJoined(a, b + "." + (c + "." + d), '.');
  }

  lemma RejoinedFour(a: string, b: string, c: string, d: string)
    ensures Rejoined([a, b, c, d], '.') == a + "." + b + "." + c + "." + d
  {
    assert [a, b, c, d][1..] == [b, c, d] && [b, c, d][1..] == [c, d] && [c, d][1..] == [d];
    assert Rejoined([d], '.') == d && Rejoined([c, d], '.') == c + "." + d;
    assert Rejoined([b, c, d], '.') == b + "." + (c + "." + d);
    assert Rejoined([a, b, c, d], '.') == a + "." + (b + "." + (c + "." + d));
    assert a + "." + (b + "." + (c + "." + d)) == a + "." + b + "." + c + "." + d;
  }

  lemma DigitsOnly(g: string)
    requires 1 <= |g| <= 3 && forall ch :: ch in g ==> IsDigit(ch)
    ensures ShortNumber(g)
  {
    forall i | 0 <= i < |g|
      ensures g[i] in "0123456789"
    {
      TenDigits(g[i]);
    }
  }

  lemma QuadIsDotted(h: string)
    requires IsDottedQuad(h)
    ensures FourNumbers(h)
  {
    SplitRejoins(h, '.');
    var groups := SplitOn(h, '.');
    hide SplitOn, ShortNumber, Rejoined;
    var a, b, c, d := groups[0], groups[1], groups[2], groups[3];
    assert groups == [a, b, c, d];
    RejoinedFour(a, b, c, d);
    DigitsOnly(a);
    DigitsOnly(b);
    DigitsOnly(c);
    DigitsOnly(d);
    assert Dotted(h, a, b, c, d);
  }

  lemma DottedQuadIsFourNumbers(h: string)
    ensures IsDottedQuad(h) <==> FourNumbers(h)
  {
    hide SplitOn, FourNumbers;
    if IsDottedQuad(h) {
      QuadIsDotted(h);
    }
    if FourNumbers(h) {
      DottedIsQuad(h);
    }
  }

  lemma DottedIsQuad(h: string)
    requires FourNumbers(h)
    ensures IsDottedQuad(h)
  {
    hide SplitOn;
    if a, b, c, d :| Dotted(h, a, b, c, d) {
      FourGroups(h, a, b, c, d);
      NumbersHaveNoDot(a);
      NumbersHaveNoDot(b);
      NumbersHaveNoDot(c);
      NumbersHaveNoDot(d);
    }
  }

  /** The driver's host is looked up under its trimmed name, unless nothing is left of it, it is the
      wildcard address, or it is written as four dotted numbers. */
  lemma WhichDriverHostIsLookedUp(raw: string, host: string)
    ensures DriverLabel(raw) == Some(host)
       <==> Trimmed(raw, host) && host != "" && host != "0.0.0.0" && !FourNumbers(host)
  {
    StripIsTheTrimmed(raw, host);
    DottedQuadIsFourNumbers(host);
    hide Strip, Trimmed, IsDottedQuad, FourNumbers;
  }
}
