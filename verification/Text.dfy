/**
 Strings as the scripts handle them: trimming, lower case, and sorted order.

 White space and letter case are those of ASCII: tab to carriage return, and the
 separators from 0x1c to the space.
 */
module Text {
  predicate IsSpace(c: char) { '\t' <= c <= '\r' || 28 as char <= c <= ' ' }

  function StripLeft(s: string): (t: string)
    ensures |t| <= |s|
    ensures t != "" ==> !IsSpace(t[0])
    ensures (s == "" || !IsSpace(s[0])) ==> t == s
    ensures s != "" && !IsSpace(s[|s| - 1]) ==> t != "" && t[|t| - 1] == s[|s| - 1]
  {
    if s != "" && IsSpace(s[0]) then StripLeft(s[1..]) else s
  }

  function StripRight(s: string): (t: string)
    ensures t <= s
    ensures t != "" ==> !IsSpace(t[|t| - 1])
    ensures (s == "" || !IsSpace(s[|s| - 1])) ==> t == s
  {
    if s != "" && IsSpace(s[|s| - 1]) then StripRight(s[..|s| - 1]) else s
  }

  // str.strip(): what is left has no space at either end, so stripping again
  // changes nothing.
  function Strip(s: string): (t: string)
    ensures t != "" ==> !IsSpace(t[0]) && !IsSpace(t[|t| - 1])
  {
    StripLeft(StripRight(s))
  }

  lemma StripTwice(s: string)
    ensures Strip(Strip(s)) == Strip(s)
  {
  }

  function LowerChar(c: char): char { if 'A' <= c <= 'Z' then c + 32 as char else c }

  function Lower(s: string): (t: string)
    ensures |t| == |s|
    ensures forall i | 0 <= i < |s| :: t[i] == LowerChar(s[i])
  {
    seq(|s|, i requires 0 <= i < |s| => LowerChar(s[i]))
  }

  // ---- lexicographic order ------------------------------------------------------

  predicate Below(a: string, b: string) {
    a == "" || (b != "" && (a[0] < b[0] || (a[0] == b[0] && Below(a[1..], b[1..]))))
  }

  lemma {:induction false} BelowTotal(a: string, b: string)
    ensures Below(a, b) || Below(b, a)
    ensures Below(a, b) && Below(b, a) ==> a == b
  {
    if a != "" && b != "" && a[0] == b[0] {
      BelowTotal(a[1..], b[1..]);
      assert a == [a[0]] + a[1..] && b == [b[0]] + b[1..];
    }
  }

  lemma {:induction false} BelowTransitive(a: string, b: string, c: string)
    requires Below(a, b) && Below(b, c)
    ensures Below(a, c)
  {
    if a != "" && a[0] == b[0] == c[0] {
      BelowTransitive(a[1..], b[1..], c[1..]);
    }
  }

  predicate IsLeast(x: string, s: set<string>) { x in s && forall y | y in s :: Below(x, y) }

  lemma {:induction false} LeastExists(s: set<string>)
    requires s != {}
    ensures exists x :: IsLeast(x, s)
    ensures forall x, y | IsLeast(x, s) && IsLeast(y, s) :: x == y
    decreases |s|
  {
    forall x, y | IsLeast(x, s) && IsLeast(y, s) ensures x == y { BelowTotal(x, y); }
    var z :| z in s;
    if s == {z} {
      BelowTotal(z, z);
      assert IsLeast(z, s);
    } else {
      var rest := s - {z};
      LeastExists(rest);
      var x :| IsLeast(x, rest);
      BelowTotal(x, z);
      BelowTotal(z, z);
      if Below(x, z) {
        assert IsLeast(x, s);
      } else {
        forall y | y in s ensures Below(z, y) { if y != z { BelowTransitive(z, x, y); } }
        assert IsLeast(z, s);
      }
    }
  }

  function Least(s: set<string>): (x: string)
    requires s != {}
    ensures x in s
  {
    LeastExists(s);
    var x :| x in s && IsLeast(x, s); x
  }

  // sorted(): every element once, in ascending order.
  function Sorted(s: set<string>): (items: seq<string>)
    ensures forall x :: x in items <==> x in s
    ensures |items| == |s|
    decreases |s|
  {
    if s == {} then []
    else var x := Least(s); [x] + Sorted(s - {x})
  }

  lemma {:induction false} SortedDistinct(s: set<string>)
    ensures forall i, j | 0 <= i < j < |s| :: Sorted(s)[i] != Sorted(s)[j]
    decreases |s|
  {
    if s != {} {
      var x := Least(s);
      SortedDistinct(s - {x});
      assert x !in Sorted(s - {x});
    }
  }

  lemma {:induction false} SortedAscends(s: set<string>, i: nat, j: nat)
    requires i < j < |s|
    ensures Below(Sorted(s)[i], Sorted(s)[j])
    decreases |s|
  {
    var x := Least(s);
    assert IsLeast(x, s);
    if i == 0 {
      assert Sorted(s - {x})[j - 1] in Sorted(s - {x});
    } else {
      SortedAscends(s - {x}, i - 1, j - 1);
    }
  }
}
