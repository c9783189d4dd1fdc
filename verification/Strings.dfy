/** What the string functions of Domain mean, without their recursion. */
module Strings {
  import opened Domain

  /** Trimming drops space at both ends and nothing else. */
  lemma {:induction false} TrimLeftDrops(s: string) returns (i: nat)
    ensures i <= |s| && TrimLeft(s) == s[i..] && forall c <- s[..i] :: IsSpace(c)
    ensures TrimLeft(s) != [] ==> !IsSpace(TrimLeft(s)[0])
  {
    hide IsSpace;
    if s != [] && IsSpace(s[0]) {
      var j := TrimLeftDrops(s[1..]);
      i := j + 1;
      assert s[1..][j..] == s[i..] && s[..i] == [s[0]] + s[1..][..j];
    } else {
      i := 0;
    }
  }

  lemma {:induction false} TrimRightDrops(s: string) returns (j: nat)
    ensures j <= |s| && TrimRight(s) == s[..j] && forall c <- s[j..] :: IsSpace(c)
    ensures TrimRight(s) != [] ==> !IsSpace(TrimRight(s)[|TrimRight(s)| - 1])
  {
    hide IsSpace;
    if s != [] && IsSpace(s[|s| - 1]) {
      j := TrimRightDrops(s[..|s| - 1]);
      assert s[..|s| - 1][..j] == s[..j] && s[j..] == s[..|s| - 1][j..] + [s[|s| - 1]];
    } else {
      j := |s|;
    }
  }

  /** `TrimSpace` leaves the part of a string between its leading and its trailing space. */
  lemma TrimSpaceDrops(s: string) returns (i: nat, j: nat)
    ensures i <= j <= |s| && TrimSpace(s) == s[i..j]
    ensures (forall c <- s[..i] :: IsSpace(c)) && (forall c <- s[j..] :: IsSpace(c))
    ensures var t := TrimSpace(s); t != [] ==> !IsSpace(t[0]) && !IsSpace(t[|t| - 1])
  {
    hide IsSpace, TrimLeft, TrimRight;
    i := TrimLeftDrops(s);
    var k := TrimRightDrops(s[i..]);
    j := i + k;
    assert s[i..][..k] == s[i..j] && s[i..][k..] == s[j..];
  }

  /** A string is blank when it is all space. */
  lemma BlankMeans(s: string)
    ensures Blank(s) <==> forall c <- s :: IsSpace(c)
  {
    hide IsSpace, TrimSpace;
    var i, j := TrimSpaceDrops(s);
    assert s == s[..i] + s[i..j] + s[j..];
    if i < j { assert s[i] in s && TrimSpace(s)[0] == s[i]; }
  }

  /** Space, among the printable characters and controls of ASCII. */
  lemma AsciiSpace(c: char)
    requires c <= '~'
    ensures IsSpace(c) <==> c == ' ' || '\t' <= c <= '\r'
  {
  }

  function Lowered(s: string): string {
    seq(|s|, i requires 0 <= i < |s| => Lower(s[i]))
  }

  /** A target mentions "fail" when that is part of it in lower case. */
  lemma FailMeans(s: string)
    ensures MentionsFail(s) <==> exists p: string, q: string :: Lowered(s) == p + "fail" + q
  {
    if MentionsFail(s) {
      var i :| 0 <= i && i + 4 <= |s| && FailAt(s, i);
      assert Lowered(s) == Lowered(s)[..i] + "fail" + Lowered(s)[i + 4..];
    }
    if p: string, q: string :| Lowered(s) == p + "fail" + q {
      var t, i := Lowered(s), |p|;
      assert |t| == |s| && t[i..i + 4] == "fail";
      assert t[i] == 'f' && t[i + 1] == 'a' && t[i + 2] == 'i' && t[i + 3] == 'l';
      assert FailAt(s, i);
    }
  }

  /** In ASCII the lower case of a capital is its small letter, and of anything else itself. */
  lemma AsciiLower(c: char)
    requires c <= '~'
    ensures 'A' <= c <= 'Z' ==> Lower(c) - 'a' == c - 'A'
    ensures !('A' <= c <= 'Z') ==> Lower(c) == c
  {
  }
}
