/** File names of the on-disk schema cache. `alnum` stands for `str.isalnum` on one character. */
module CacheNames {
  import Text

  const SUFFIX := ".json"

  predicate Kept(alnum: char -> bool, ch: char) {
    alnum(ch) || ch in "-_."
  }

  function SafeChar(alnum: char -> bool, ch: char): char {
    if Kept(alnum, ch) then ch else '_'
  }

  /** `_safe_command_filename` */
  function SafeFilename(alnum: char -> bool, command: string): string {
    seq(|command|, i requires 0 <= i < |command| => SafeChar(alnum, command[i])) + SUFFIX
  }

  /** The process-unique name a store writes to before renaming. */
  function TempName(name: string, pid: nat): string {
    "." + name + "." + Text.Digits(pid) + ".tmp"
  }

  predicate IsFinalName(name: string) {
    |name| >= 5 && name[|name| - 5..] == SUFFIX
  }

  lemma FinalNames(alnum: char -> bool, command: string)
    ensures IsFinalName(SafeFilename(alnum, command))
  {
    var f := SafeFilename(alnum, command);
    assert f[|f| - 5..] == SUFFIX;
  }

  /** A temp name is never the name of a cache entry. */
  lemma TempIsNotFinal(name: string, pid: nat)
    ensures !IsFinalName(TempName(name, pid))
  {
    var t := TempName(name, pid);
    assert t[|t| - 5..][4] == t[|t| - 1] == 'p';
  }

  lemma DropEnds(u: string, v: string)
    requires "." + u + ".tmp" == "." + v + ".tmp"
    ensures u == v
  {
    assert u == ("." + u + ".tmp")[1..1 + |u|];
    assert v == ("." + v + ".tmp")[1..1 + |v|];
  }

  lemma DotInside(a: string, d: string, b: string, e: string)
    requires a + "." + d == b + "." + e && |d| < |e|
    ensures '.' in e
  {
    var whole := a + "." + d;
    assert whole[|a|] == '.';
    assert (b + "." + e)[|a|] == e[|a| - |b| - 1];
  }

  lemma LastDot(a: string, d: string, b: string, e: string)
    requires a + "." + d == b + "." + e && '.' !in d && '.' !in e
    ensures a == b && d == e
  {
    if |d| < |e| {
      DotInside(a, d, b, e);
    } else if |e| < |d| {
      DotInside(b, e, a, d);
    } else {
      assert a == (a + "." + d)[..|a|] == (b + "." + e)[..|b|] == b;
      assert d == (a + "." + d)[|a| + 1..] == (b + "." + e)[|b| + 1..] == e;
    }
  }

  /** Two temp names agree only for the same entry and the same process. */
  lemma TempNamesInjective(name1: string, pid1: nat, name2: string, pid2: nat)
    requires TempName(name1, pid1) == TempName(name2, pid2)
    ensures name1 == name2 && pid1 == pid2
  {
    var d1, d2 := Text.Digits(pid1), Text.Digits(pid2);
    hide Text.Digits;
    assert TempName(name1, pid1) == "." + (name1 + "." + d1) + ".tmp";
    assert TempName(name2, pid2) == "." + (name2 + "." + d2) + ".tmp";
    DropEnds(name1 + "." + d1, name2 + "." + d2);
    LastDot(name1, d1, name2, d2);
    Text.DigitsInjective(pid1, pid2);
  }

  /** Alphanumeric, or one of the three marks a file name may carry. */
  predicate Plain(alnum: char -> bool, ch: char) {
    alnum(ch) || ch == '-' || ch == '_' || ch == '.'
  }

  /** A file name is the command character by character, with everything but letters, digits and the
      three marks written as an underscore, and ".json" after it. */
  lemma FilenameByCharacter(alnum: char -> bool, command: string)
    ensures var f := SafeFilename(alnum, command);
      && |f| == |command| + 5 && f[|command|..] == ".json"
      && forall i :: 0 <= i < |command| ==> f[i] == if Plain(alnum, command[i]) then command[i] else '_'
  {
    var f := SafeFilename(alnum, command);
    forall i | 0 <= i < |command|
      ensures f[i] == if Plain(alnum, command[i]) then command[i] else '_'
    {
      ThreeMarks(command[i]);
    }
  }

  lemma ThreeMarks(ch: char)
    ensures ch in "-_." <==> ch == '-' || ch == '_' || ch == '.'
  {
    assert "-_."[0] == '-' && "-_."[1] == '_' && "-_."[2] == '.';
  }

  /** So commands made of such characters only share a file when they are the same. */
  lemma PlainCommandsKeepApart(alnum: char -> bool, a: string, b: string)
    requires (forall ch :: ch in a ==> Plain(alnum, ch)) && (forall ch :: ch in b ==> Plain(alnum, ch))
    ensures SafeFilename(alnum, a) == SafeFilename(alnum, b) <==> a == b
  {
    hide SafeFilename, Plain;
    FilenameByCharacter(alnum, a);
    FilenameByCharacter(alnum, b);
    assert forall i :: 0 <= i < |a| ==> a[i] in a;
    assert forall i :: 0 <= i < |b| ==> b[i] in b;
  }

  /** A character the file name writes as an underscore. */
  predicate Underscored(alnum: char -> bool, ch: char) {
    ch == '_' || !Plain(alnum, ch)
  }

  lemma CharCollision(alnum: char -> bool, x: char, y: char)
    ensures SafeChar(alnum, x) == SafeChar(alnum, y) <==> x == y || (Underscored(alnum, x) && Underscored(alnum, y))
  {
    ThreeMarks(x);
    ThreeMarks(y);
  }

  /** Exactly which commands share a cache file: those of one length that agree wherever either has a
      kept character other than the underscore. */
  lemma FilenameCollision(alnum: char -> bool, a: string, b: string)
    ensures SafeFilename(alnum, a) == SafeFilename(alnum, b)
       <==> |a| == |b| && forall i :: 0 <= i < |a| ==>
         a[i] == b[i] || (Underscored(alnum, a[i]) && Underscored(alnum, b[i]))
  {
    hide Kept, SafeChar, Underscored;
    var fa, fb := SafeFilename(alnum, a), SafeFilename(alnum, b);
    forall x, y
      ensures SafeChar(alnum, x) == SafeChar(alnum, y) <==> x == y || (Underscored(alnum, x) && Underscored(alnum, y))
    {
      CharCollision(alnum, x, y);
    }
    if fa == fb {
      assert |a| == |fa| - 5 == |fb| - 5 == |b|;
      assert forall i :: 0 <= i < |a| ==> fa[i] == SafeChar(alnum, a[i]) && fb[i] == SafeChar(alnum, b[i]);
    }
    if |a| == |b| && forall i :: 0 <= i < |a| ==> SafeChar(alnum, a[i]) == SafeChar(alnum, b[i]) {
      assert fa == fb;
    }
  }
}
