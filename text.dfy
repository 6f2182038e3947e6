/** Text used in file names: decimal rendering of a non-negative integer, as
    `std::stringstream << int` produces it (no sign, no leading zeros), and facts about
    taking names built by concatenation apart again. */
module Text {

  function Digit(d: nat): (c: char)
    requires d < 10
    ensures '0' <= c <= '9'
  {
    ('0' as int + d) as char
  }

  function NatToString(n: nat): (s: string)
    ensures |s| >= 1 && forall i :: 0 <= i < |s| ==> '0' <= s[i] <= '9'
    ensures (n < 10) == (|s| == 1)
  {
    if n < 10 then [Digit(n)] else NatToString(n / 10) + [Digit(n % 10)]
  }

  /** Different numbers render differently, so names built from them do not collide. */
  lemma {:induction false} NatToStringInjective(a: nat, b: nat)
    requires NatToString(a) == NatToString(b)
    ensures a == b
  {
    if a >= 10 && b >= 10 {
      var sa, sb := NatToString(a), NatToString(b);
      assert sa[|sa| - 1] == sb[|sb| - 1];
      assert a % 10 == b % 10;
      assert sa[..|sa| - 1] == NatToString(a / 10);
      assert sb[..|sb| - 1] == NatToString(b / 10);
      NatToStringInjective(a / 10, b / 10);
    }
  }

  /** A slash-free head is recovered from `head + "/" + tail`. */
  lemma SplitAtSlash(h1: string, t1: string, h2: string, t2: string)
    requires forall i :: 0 <= i < |h1| ==> h1[i] != '/'
    requires forall i :: 0 <= i < |h2| ==> h2[i] != '/'
    requires h1 + "/" + t1 == h2 + "/" + t2
    ensures h1 == h2 && t1 == t2
  {
    var w1, w2 := h1 + "/" + t1, h2 + "/" + t2;
    assert w1[|h1|] == '/' && w2[|h2|] == '/';
    assert |h1| == |h2|;
    assert h1 == w1[..|h1|] == w2[..|h2|] == h2;
    assert t1 == w1[|h1| + 1..] == w2[|h2| + 1..] == t2;
  }

  lemma DropPrefix(a: string, r1: string, r2: string)
    requires a + r1 == a + r2
    ensures r1 == r2
  {
    assert r1 == (a + r1)[|a|..];
    assert r2 == (a + r2)[|a|..];
  }

  lemma DropSuffix(d1: string, d2: string, x: string)
    requires d1 + x == d2 + x
    ensures d1 == d2
  {
    assert d1 == (d1 + x)[..|d1|];
    assert d2 == (d2 + x)[..|d2|];
  }

  predicate SlashFree(s: string)
  {
    forall i :: 0 <= i < |s| ==> s[i] != '/'
  }

  /** The file `path/dir/<number><ext>`. */
  function NumberedFile(path: string, dir: string, n: nat, ext: string): string
  {
    path + "/" + dir + "/" + NatToString(n) + ext
  }

  /** A numbered file name determines its slash-free directory and its number. */
  lemma NumberedFileInjective(path: string, dir1: string, n1: nat, dir2: string, n2: nat, ext: string)
    requires SlashFree(dir1) && SlashFree(dir2)
    requires NumberedFile(path, dir1, n1, ext) == NumberedFile(path, dir2, n2, ext)
    ensures dir1 == dir2 && n1 == n2
  {
    var a := path + "/";
    var d1, d2 := NatToString(n1) + ext, NatToString(n2) + ext;
    assert NumberedFile(path, dir1, n1, ext) == a + (dir1 + "/" + d1);
    assert NumberedFile(path, dir2, n2, ext) == a + (dir2 + "/" + d2);
    DropPrefix(a, dir1 + "/" + d1, dir2 + "/" + d2);
    SplitAtSlash(dir1, d1, dir2, d2);
    DropSuffix(NatToString(n1), NatToString(n2), ext);
    NatToStringInjective(n1, n2);
  }

  predicate AllDigits(s: string)
  {
    forall i :: 0 <= i < |s| ==> '0' <= s[i] <= '9'
  }

  /** A run of digits followed by a text that starts with a non-digit splits uniquely. */
  lemma SplitAfterDigits(d1: string, s1: string, d2: string, s2: string)
    requires AllDigits(d1) && AllDigits(d2)
    requires |s1| > 0 && !('0' <= s1[0] <= '9') && |s2| > 0 && !('0' <= s2[0] <= '9')
    requires d1 + s1 == d2 + s2
    ensures d1 == d2 && s1 == s2
  {
    var w1, w2 := d1 + s1, d2 + s2;
    assert w1[|d1|] == s1[0] && w2[|d2|] == s2[0];
    assert |d1| == |d2|;
    assert d1 == w1[..|d1|] == w2[..|d2|] == d2;
    assert s1 == w1[|d1|..] == w2[|d2|..] == s2;
  }
}
