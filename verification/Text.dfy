/** Strings: the byte order Go sorts by, and the trimming and lower-casing the spec
    reader applies to every word. */
module Text {
  predicate Leq(a: string, b: string) {
    a == "" || (b != "" && (a[0] < b[0] || (a[0] == b[0] && Leq(a[1..], b[1..]))))
  }

  lemma {:induction false} LeqAfter(common: string, a: string, b: string)
    ensures Leq(common + a, common + b) <==> Leq(a, b)
  {
    if common != "" {
      LeqAfter(common[1..], a, b);
      assert (common + a)[1..] == common[1..] + a && (common + b)[1..] == common[1..] + b;
    } else {
      assert common + a == a && common + b == b;
    }
  }

  /** The first place where two strings differ decides; the shorter of two that do not
      differ comes first. */
  lemma LeqIsFirstDifference(common: string, a: string, b: string)
    ensures Leq(common, common + b)
    ensures a != "" && b != "" && a[0] < b[0] ==> Leq(common + a, common + b) && !Leq(common + b, common + a)
  {
    LeqAfter(common, "", b);
    LeqAfter(common, a, b);
    LeqAfter(common, b, a);
    assert common + "" == common;
  }

  lemma LeqTotal(a: string, b: string)
    ensures Leq(a, b) || Leq(b, a)
    ensures Leq(a, a)
  {
  }

  lemma LeqAntisymmetric(a: string, b: string)
    requires Leq(a, b) && Leq(b, a)
    ensures a == b
  {
    if a != "" {
      LeqAntisymmetric(a[1..], b[1..]);
      assert a == [a[0]] + a[1..] && b == [b[0]] + b[1..];
    }
  }

  lemma LeqTransitive(a: string, b: string, c: string)
    requires Leq(a, b) && Leq(b, c)
    ensures Leq(a, c)
  {
    if a != "" && a[0] == b[0] == c[0] {
      LeqTransitive(a[1..], b[1..], c[1..]);
    }
  }

  lemma {:induction false} LeastExists(names: set<string>)
    requires names != {}
    ensures exists least :: IsLeast(least, names)
  {
    var x :| x in names;
    LeqTotal(x, x);
    if names == {x} {
      assert IsLeast(x, names);
    } else {
      LeastExists(names - {x});
      var y :| IsLeast(y, names - {x});
      LeqTotal(x, y);
      var least := if Leq(x, y) then x else y;
      forall z | z in names
        ensures Leq(least, z)
      {
        if z != x && Leq(x, y) {
          LeqTransitive(x, y, z);
        }
      }
      assert IsLeast(least, names);
    }
  }

  predicate IsLeast(least: string, names: set<string>) {
    least in names && forall x :: x in names ==> Leq(least, x)
  }

  lemma LeastUnique(names: set<string>, a: string, b: string)
    requires IsLeast(a, names) && IsLeast(b, names)
    ensures a == b
  {
    LeqAntisymmetric(a, b);
  }

  /** slices.Sort over a map's keys. */
  function Sorted(names: set<string>): (r: seq<string>)
    ensures forall x :: x in r <==> x in names
    ensures |r| == |names|
    ensures forall i, j :: 0 <= i < j < |r| ==> Leq(r[i], r[j]) && r[i] != r[j]
  {
    if names == {} then []
    else
      LeastExists(names);
      assert forall a, b :: IsLeast(a, names) && IsLeast(b, names) ==> a == b by {
        forall a, b | IsLeast(a, names) && IsLeast(b, names) ensures a == b {
          LeastUnique(names, a, b);
        }
      }
      var least :| IsLeast(least, names);
      [least] + Sorted(names - {least})
  }

  // ---------- words ----------

  /** Lower-case words without blanks, which trimming and lower-casing leave alone. */
  predicate Plain(s: string) {
    && s != ""
    && forall i :: 0 <= i < |s| ==> !('A' <= s[i] <= 'Z') && !Blank(s[i])
  }

  predicate Blank(c: char) {
    c == ' ' || c == '\t' || c == '\n' || c == '\r' || c == '\U{0B}' || c == '\U{0C}'
  }

  /** No line separator. */
  predicate Dotless(s: string) {
    forall i :: 0 <= i < |s| ==> s[i] != '.'
  }

  function Lower(s: string): string {
    seq(|s|, i requires 0 <= i < |s| => if 'A' <= s[i] <= 'Z' then s[i] + 32 as char else s[i])
  }

  function Upper(s: string): string {
    seq(|s|, i requires 0 <= i < |s| => if 'a' <= s[i] <= 'z' then s[i] - 32 as char else s[i])
  }

  function TrimLeft(s: string): string {
    if s != "" && Blank(s[0]) then TrimLeft(s[1..]) else s
  }

  function TrimRight(s: string): string {
    if s != "" && Blank(s[|s| - 1]) then TrimRight(s[..|s| - 1]) else s
  }

  /** What the reader does to every word: lower case, without surrounding blanks. */
  function Clean(s: string): string {
    Lower(TrimRight(TrimLeft(s)))
  }

  lemma CleanPlain(s: string)
    requires Plain(s)
    ensures Clean(s) == s
  {
    assert Lower(s) == s;
  }

  predicate AllBlank(s: string) {
    forall i :: 0 <= i < |s| ==> Blank(s[i])
  }

  lemma {:induction false} LeftTrimmed(blanks: string, s: string)
    requires AllBlank(blanks) && (s != "" ==> !Blank(s[0]))
    ensures TrimLeft(blanks + s) == s
  {
    if blanks != "" {
      LeftTrimmed(blanks[1..], s);
      assert (blanks + s)[1..] == blanks[1..] + s;
    } else {
      assert blanks + s == s;
    }
  }

  lemma {:induction false} RightTrimmed(s: string, blanks: string)
    requires AllBlank(blanks) && (s != "" ==> !Blank(s[|s| - 1]))
    ensures TrimRight(s + blanks) == s
  {
    if blanks != "" {
      var n := |blanks| - 1;
      RightTrimmed(s, blanks[..n]);
      assert (s + blanks)[..|s + blanks| - 1] == s + blanks[..n];
    } else {
      assert s + blanks == s;
    }
  }

  /** Blanks around a word do not matter, nor whether its letters are capitals. */
  lemma CleanIs(before: string, word: string, after: string)
    requires AllBlank(before) && AllBlank(after)
    requires word != "" && !Blank(word[0]) && !Blank(word[|word| - 1])
    ensures Clean(before + word + after) == Lower(word)
    ensures Lower(Upper(word)) == Lower(word)
  {
    assert (before + word) + after == before + (word + after);
    assert (word + after)[0] == word[0];
    LeftTrimmed(before, word + after);
    RightTrimmed(word, after);
  }

  /** Split at the first separator. */
  function Cut(s: string): (string, string)
    requires !Dotless(s)
  {
    if s[0] == '.' then ("", s[1..])
    else
      assert !Dotless(s[1..]) by {
        var i :| 0 <= i < |s| && s[i] == '.';
        assert s[1..][i - 1] == '.';
      }
      ([s[0]] + Cut(s[1..]).0, Cut(s[1..]).1)
  }

  lemma {:induction false} CutJoined(a: string, b: string)
    requires Dotless(a)
    ensures !Dotless(a + "." + b) && Cut(a + "." + b) == (a, b)
    decreases a
  {
    var s := a + "." + b;
    assert s[|a|] == '.';
    if a == "" {
      assert s[1..] == b;
    } else {
      assert s[1..] == a[1..] + "." + b;
      CutJoined(a[1..], b);
      assert a == [a[0]] + a[1..];
    }
  }

  lemma {:induction false} CutParts(s: string)
    requires !Dotless(s)
    ensures s == Cut(s).0 + "." + Cut(s).1 && Dotless(Cut(s).0)
    decreases s
  {
    if s[0] != '.' {
      var i :| 0 <= i < |s| && s[i] == '.';
      assert s[1..][i - 1] == '.';
      CutParts(s[1..]);
      assert s == [s[0]] + s[1..];
    } else {
      assert s == "." + s[1..];
    }
  }
}
