// Text handling shared by the client and the sidecar: decimal rendering, fields joined
// by '|', whitespace trimming and the order in which strings are sorted.
module Text {

  /* ---------- decimal rendering ---------- */

  predicate IsDigit(c: char) {
    '0' <= c <= '9'
  }

  function Digits(n: nat): (s: string)
    ensures |s| > 0
    ensures forall i :: 0 <= i < |s| ==> IsDigit(s[i])
  {
    if n < 10 then ['0' + n as char] else Digits(n / 10) + ['0' + (n % 10) as char]
  }

  // The number a digit string denotes; leading zeros are allowed, as in int("07").
  function Number(s: string): nat
    requires forall i :: 0 <= i < |s| ==> IsDigit(s[i])
  {
    if s == [] then 0
    else
      assert IsDigit(s[|s| - 1]);
      10 * Number(s[..|s| - 1]) + (s[|s| - 1] as int - '0' as int)
  }

  function Decimal(n: int): (s: string)
    ensures |s| > 0
    ensures forall i :: 0 <= i < |s| ==> IsDigit(s[i]) || s[i] == '-'
  {
    if n < 0 then "-" + Digits(-n) else Digits(n)
  }

  lemma {:induction false} NumberOfDigits(n: nat)
    ensures Number(Digits(n)) == n
  {
    if n >= 10 {
      NumberOfDigits(n / 10);
      assert Digits(n)[..|Digits(n)| - 1] == Digits(n / 10);
    } else {
      assert Digits(n)[..0] == [];
      assert Number(Digits(n)[..0]) == 0;
    }
  }

  lemma DecimalInjective(a: int, b: int)
    requires Decimal(a) == Decimal(b)
    ensures a == b
  {
    assert (a < 0) == (Decimal(a)[0] == '-') == (Decimal(b)[0] == '-') == (b < 0);
    if a < 0 {
      assert Decimal(a)[1..] == Digits(-a) && Decimal(b)[1..] == Digits(-b);
      NumberOfDigits(-a);
      NumberOfDigits(-b);
    } else {
      NumberOfDigits(a);
      NumberOfDigits(b);
    }
  }

  /* ---------- fields joined by '|' ---------- */

  predicate NoBar(s: string) {
    '|' !in s
  }

  // A field without '|' can be read back from the text it starts.
  lemma FirstField(a: string, x: string, b: string, y: string)
    requires NoBar(a) && NoBar(b)
    requires a + "|" + x == b + "|" + y
    ensures a == b && x == y
  {
    FirstBar(a, x);
    FirstBar(b, y);
    var s := a + "|" + x;
    assert |a| == |b|;
    assert a == s[..|a|] == b;
    assert x == s[|a| + 1..] == y;
  }

  lemma FirstBar(a: string, x: string)
    requires NoBar(a)
    ensures (a + "|" + x)[|a|] == '|'
    ensures forall i :: 0 <= i < |a| ==> (a + "|" + x)[i] != '|'
  {
    assert forall i :: 0 <= i < |a| ==> (a + "|" + x)[i] == a[i];
  }

  /* ---------- trimming ---------- */

  // The white space strings.TrimSpace removes.
  predicate IsSpace(c: char) {
    || '\t' <= c <= '\r' || c == ' ' || c == '\U{0085}' || c == '\U{00A0}' || c == '\U{1680}'
    || '\U{2000}' <= c <= '\U{200A}' || c == '\U{2028}' || c == '\U{2029}'
    || c == '\U{202F}' || c == '\U{205F}' || c == '\U{3000}'
  }

  // The code points that are white space in Unicode: 25 of them.
  const WHITE_SPACE: seq<int> := [0x9, 0xA, 0xB, 0xC, 0xD, 0x20, 0x85, 0xA0, 0x1680, 0x2000, 0x2001, 0x2002, 0x2003,
                                  0x2004, 0x2005, 0x2006, 0x2007, 0x2008, 0x2009, 0x200A, 0x2028, 0x2029, 0x202F,
                                  0x205F, 0x3000]

  lemma IsSpaceExactly(c: char)
    ensures IsSpace(c) <==> c as int in WHITE_SPACE
  {
    assert 0x2000 <= c as int <= 0x200A ==> WHITE_SPACE[c as int - 0x2000 + 9] == c as int;
    assert 9 <= c as int <= 13 ==> WHITE_SPACE[c as int - 9] == c as int;
    assert WHITE_SPACE[5] == 0x20 && WHITE_SPACE[6] == 0x85 && WHITE_SPACE[7] == 0xA0 && WHITE_SPACE[8] == 0x1680;
    assert WHITE_SPACE[20] == 0x2028 && WHITE_SPACE[21] == 0x2029 && WHITE_SPACE[22] == 0x202F;
    assert WHITE_SPACE[23] == 0x205F && WHITE_SPACE[24] == 0x3000;
  }

  // The first position from i on without white space.
  function AfterSpaces(s: string, i: nat): (k: nat)
    requires i <= |s|
    ensures i <= k <= |s| && (k < |s| ==> !IsSpace(s[k]))
    decreases |s| - i
  {
    if i < |s| && IsSpace(s[i]) then AfterSpaces(s, i + 1) else i
  }

  // The end of what is left before j when white space is dropped there, not before i.
  function BeforeSpaces(s: string, i: nat, j: nat): (k: nat)
    requires i <= j <= |s|
    ensures i <= k <= j && (k > i ==> !IsSpace(s[k - 1]))
    decreases j
  {
    if i < j && IsSpace(s[j - 1]) then BeforeSpaces(s, i, j - 1) else j
  }

  predicate Trimmed(s: string) {
    s == [] || (!IsSpace(s[0]) && !IsSpace(s[|s| - 1]))
  }

  function Trim(s: string): (t: string)
    ensures Trimmed(t)
    ensures Trimmed(s) ==> t == s
  {
    var i := AfterSpaces(s, 0);
    s[i..BeforeSpaces(s, i, |s|)]
  }

  lemma {:induction false} SpacesAfter(s: string, i: nat)
    requires i <= |s|
    ensures forall k :: i <= k < AfterSpaces(s, i) ==> IsSpace(s[k])
    decreases |s| - i
  {
    if i < |s| && IsSpace(s[i]) {
      SpacesAfter(s, i + 1);
    }
  }

  lemma {:induction false} SpacesBefore(s: string, i: nat, j: nat)
    requires i <= j <= |s|
    ensures forall k :: BeforeSpaces(s, i, j) <= k < j ==> IsSpace(s[k])
    decreases j
  {
    if i < j && IsSpace(s[j - 1]) {
      SpacesBefore(s, i, j - 1);
    }
  }

  // Trimming drops white space at both ends and nothing else ...
  lemma TrimDropsSpaces(s: string) returns (i: nat, j: nat)
    ensures i <= j <= |s| && Trim(s) == s[i..j]
    ensures forall k :: 0 <= k < i ==> IsSpace(s[k])
    ensures forall k :: j <= k < |s| ==> IsSpace(s[k])
  {
    hide IsSpace;
    i := AfterSpaces(s, 0);
    j := BeforeSpaces(s, i, |s|);
    SpacesAfter(s, 0);
    SpacesBefore(s, i, |s|);
  }

  // ... and what is left is the only part of the text of which that can be said.
  lemma TrimIs(s: string, i: nat, j: nat)
    requires i <= j <= |s| && Trimmed(s[i..j])
    requires forall k :: 0 <= k < i ==> IsSpace(s[k])
    requires forall k :: j <= k < |s| ==> IsSpace(s[k])
    ensures Trim(s) == s[i..j]
  {
    hide *;
    var a, b := TrimDropsSpaces(s);
    TrimIsTrimmed(s);
    NotShorter(s, a, b, i, j);
    NotShorter(s, i, j, a, b);
  }

  lemma TrimIsTrimmed(s: string)
    ensures Trimmed(Trim(s))
  {
    hide Trimmed, Trim;
  }

  // A part without white space at its ends lies within any part with only white space around it.
  lemma NotShorter(s: string, a: nat, b: nat, i: nat, j: nat)
    requires a <= b <= |s| && i <= j <= |s| && Trimmed(s[a..b])
    requires forall k :: 0 <= k < i ==> IsSpace(s[k])
    requires forall k :: j <= k < |s| ==> IsSpace(s[k])
    ensures a < b ==> i <= a && b <= j
  {
    hide IsSpace;
    if a < b {
      assert s[a..b][0] == s[a] && s[a..b][b - a - 1] == s[b - 1];
    }
  }

  predicate Blank(s: string) {
    Trim(s) == ""
  }

  /* ---------- order ---------- */

  predicate TextLe(a: string, b: string) {
    a == [] || (b != [] && (a[0] < b[0] || (a[0] == b[0] && TextLe(a[1..], b[1..]))))
  }

  // Texts are ordered by the first character in which they differ; a prefix comes first.
  lemma {:induction false} TextLeExactly(a: string, b: string)
    ensures TextLe(a, b) <==>
            || a <= b
            || exists i :: 0 <= i < |a| && i < |b| && a[..i] == b[..i] && a[i] < b[i]
  {
    if a != [] && b != [] {
      TextLeExactly(a[1..], b[1..]);
      if a[0] == b[0] {
        assert a <= b <==> a[1..] <= b[1..];
        forall i | 0 <= i < |a| - 1 && i < |b| - 1
          ensures a[1..][..i] == b[1..][..i] <==> a[..i + 1] == b[..i + 1]
        {
          assert a[..i + 1] == [a[0]] + a[1..][..i] && b[..i + 1] == [b[0]] + b[1..][..i];
        }
        if i :| 0 <= i < |a| - 1 && i < |b| - 1 && a[1..][..i] == b[1..][..i] && a[1..][i] < b[1..][i] {
          assert a[..i + 1] == b[..i + 1] && a[i + 1] < b[i + 1];
        }
        if i :| 0 <= i < |a| && i < |b| && a[..i] == b[..i] && a[i] < b[i] {
          assert i > 0;
          assert a[..i - 1 + 1] == b[..i - 1 + 1];
          assert a[1..][..i - 1] == b[1..][..i - 1] && a[1..][i - 1] < b[1..][i - 1];
        }
      } else {
        assert a[..0] == b[..0];
        forall i | 0 < i < |a| && i < |b| ensures a[..i] != b[..i] {
          assert a[..i][0] == a[0] && b[..i][0] == b[0];
        }
      }
    }
  }

  lemma {:induction false} TextLeTotal(a: string, b: string)
    ensures TextLe(a, b) || TextLe(b, a)
    ensures TextLe(a, b) && TextLe(b, a) ==> a == b
  {
    if a != [] && b != [] && a[0] == b[0] {
      TextLeTotal(a[1..], b[1..]);
      assert a == [a[0]] + a[1..] && b == [b[0]] + b[1..];
    }
  }

  lemma {:induction false} TextLeTransitive(a: string, b: string, c: string)
    requires TextLe(a, b) && TextLe(b, c)
    ensures TextLe(a, c)
  {
    if a != [] && a[0] == b[0] && b[0] == c[0] {
      TextLeTransitive(a[1..], b[1..], c[1..]);
    }
  }
}
