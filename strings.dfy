/** Python string operations the simulator relies on, stated over `seq<char>`:
    `strip()`, `lower()`, `isdigit()`, `int()`, `sep.join(...)`, `s.split(c)` and `p in s`. */
module Strings {

  /** Python's `str.isspace()` for one character (the characters `strip()` removes). */
  predicate IsSpace(c: char)
  {
    c == ' ' || c == '\t' || c == '\n' || c == '\r' || c == '\U{B}' || c == '\U{C}' ||
    ('\U{1C}' <= c <= '\U{1F}') || c == '\U{85}' || c == '\U{A0}' || c == '\U{1680}' ||
    ('\U{2000}' <= c <= '\U{200A}') || c == '\U{2028}' || c == '\U{2029}' || c == '\U{202F}' ||
    c == '\U{205F}' || c == '\U{3000}'
  }

  predicate AllSpace(s: string)
  {
    forall i :: 0 <= i < |s| ==> IsSpace(s[i])
  }

  /** Python's `s.strip()`: drops leading and trailing whitespace. */
  function Strip(s: string): (r: string)
    ensures |r| <= |s|
    ensures r != [] ==> !IsSpace(r[0]) && !IsSpace(r[|r| - 1])
  {
    if s != [] && IsSpace(s[0]) then Strip(s[1..])
    else if s != [] && IsSpace(s[|s| - 1]) then Strip(s[..|s| - 1])
    else s
  }

  /** Whitespace-only ends of `s[1..]` stay whitespace-only when the blank `s[0]` joins
      the front. */
  lemma MiddleAfterFront(s: string, i: nat, j: nat)
    requires s != [] && IsSpace(s[0]) && i <= j <= |s| - 1
    requires AllSpace(s[1..][..i]) && AllSpace(s[1..][j..])
    ensures s[1..][i..j] == s[i + 1..j + 1]
    ensures AllSpace(s[..i + 1]) && AllSpace(s[j + 1..])
  {
    assert s[1..][j..] == s[j + 1..];
    assert forall k :: 0 <= k < i ==> s[..i + 1][k + 1] == s[1..][..i][k];
  }

  /** Whitespace-only ends of `s[..|s| - 1]` stay whitespace-only when the blank last
      character joins the back. */
  lemma MiddleBeforeBack(s: string, i: nat, j: nat)
    requires s != [] && IsSpace(s[|s| - 1]) && i <= j <= |s| - 1
    requires AllSpace(s[..|s| - 1][..i]) && AllSpace(s[..|s| - 1][j..])
    ensures s[..|s| - 1][i..j] == s[i..j]
    ensures AllSpace(s[..i]) && AllSpace(s[j..])
  {
    assert s[..|s| - 1][..i] == s[..i];
    assert forall k :: 0 <= k < |s| - 1 - j ==> s[j..][k] == s[..|s| - 1][j..][k];
  }

  /** What `strip()` keeps is a middle slice of `s` whose two ends are whitespace only. */
  lemma {:induction false} StripMiddle(s: string) returns (i: nat, j: nat)
    ensures i <= j <= |s| && Strip(s) == s[i..j]
    ensures AllSpace(s[..i]) && AllSpace(s[j..])
  {
    if s != [] && IsSpace(s[0]) {
      var i', j' := StripMiddle(s[1..]);
      MiddleAfterFront(s, i', j');
      i, j := i' + 1, j' + 1;
    } else if s != [] && IsSpace(s[|s| - 1]) {
      i, j := StripMiddle(s[..|s| - 1]);
      MiddleBeforeBack(s, i, j);
    } else {
      i, j := 0, |s|;
    }
  }

  /** The first character `strip()` keeps is the first character of `s` that is not
      blank. */
  lemma StripFirst(s: string)
    ensures Strip(s) != [] ==> exists k :: 0 <= k < |s| && s[k] == Strip(s)[0] && AllSpace(s[..k])
    ensures forall k :: 0 <= k < |s| && !IsSpace(s[k]) && AllSpace(s[..k]) ==>
      Strip(s) != [] && Strip(s)[0] == s[k]
  {
    var i, j := StripMiddle(s);
    if Strip(s) != [] {
      assert s[i] == Strip(s)[0];
    }
    forall k | 0 <= k < |s| && !IsSpace(s[k]) && AllSpace(s[..k])
      ensures Strip(s) != [] && Strip(s)[0] == s[k]
    {
      SpaceBefore(s, i, k);
      SpaceBefore(s, k, i);
      SpaceAfter(s, j, k);
    }
  }

  /** What `strip()` keeps occurs in `s`, and it is empty only when `s` is all blanks. */
  lemma StripContained(s: string)
    ensures Contains(s, Strip(s))
    ensures Strip(s) == [] ==> AllSpace(s)
  {
    var i, j := StripMiddle(s);
    assert OccursAt(s, Strip(s), i);
    if Strip(s) == [] {
      forall k | 0 <= k < |s|
        ensures IsSpace(s[k])
      {
        SpaceBefore(s, i, k);
        SpaceAfter(s, j, k);
      }
    }
  }

  lemma SpaceBefore(s: string, n: int, k: int)
    ensures 0 <= k < n <= |s| && AllSpace(s[..n]) ==> IsSpace(s[k])
  {
    if 0 <= k < n <= |s| {
      assert s[..n][k] == s[k];
    }
  }

  lemma SpaceAfter(s: string, n: int, k: int)
    ensures 0 <= n <= k < |s| && AllSpace(s[n..]) ==> IsSpace(s[k])
  {
    if 0 <= n <= k < |s| {
      assert s[n..][k - n] == s[k];
    }
  }

  /** Python's `s.strip(chars)` for a set of characters (the parser's `strip('[]')`). */
  function StripChars(s: string, chars: set<char>): (r: string)
    ensures |r| <= |s|
    ensures r != [] ==> r[0] !in chars && r[|r| - 1] !in chars
  {
    if s != [] && s[0] in chars then StripChars(s[1..], chars)
    else if s != [] && s[|s| - 1] in chars then StripChars(s[..|s| - 1], chars)
    else s
  }

  /** What `strip(chars)` keeps is a middle slice of `s` with only characters of `chars`
      on either side of it. */
  lemma {:induction false} StripCharsMiddle(s: string, chars: set<char>) returns (i: nat, j: nat)
    ensures i <= j <= |s| && StripChars(s, chars) == s[i..j]
    ensures forall k :: 0 <= k < i ==> s[k] in chars
    ensures forall k :: j <= k < |s| ==> s[k] in chars
  {
    if s != [] && s[0] in chars {
      var i', j' := StripCharsMiddle(s[1..], chars);
      assert s[1..][i'..j'] == s[i' + 1..j' + 1];
      assert forall k :: 1 <= k < |s| ==> s[k] == s[1..][k - 1];
      i, j := i' + 1, j' + 1;
    } else if s != [] && s[|s| - 1] in chars {
      i, j := StripCharsMiddle(s[..|s| - 1], chars);
      assert s[..|s| - 1][i..j] == s[i..j];
    } else {
      i, j := 0, |s|;
    }
  }

  /** `str.lower()` on one character: ASCII and Latin-1 capitals. */
  function LowerChar(c: char): (d: char)
    ensures 'A' <= c <= 'Z' ==> 'a' <= d <= 'z' && d as int == c as int + 32
    ensures 'À' <= c <= 'Þ' && c != '×' ==> 'à' <= d <= 'þ' && d as int == c as int + 32
    ensures !('A' <= c <= 'Z') && !('À' <= c <= 'Þ' && c != '×') ==> d == c
  {
    if 'A' <= c <= 'Z' || ('À' <= c <= 'Þ' && c != '×') then (c as int + 32) as char
    else c
  }

  /** `str.lower()`, character by character. */
  function Lower(s: string): (r: string)
    ensures |r| == |s|
    ensures forall i :: 0 <= i < |s| ==> r[i] == LowerChar(s[i])
  {
    seq(|s|, i requires 0 <= i < |s| => LowerChar(s[i]))
  }

  lemma LowerAppend(s: string, t: string)
    ensures Lower(s + t) == Lower(s) + Lower(t)
  {
    assert forall i :: 0 <= i < |s + t| ==> Lower(s + t)[i] == (Lower(s) + Lower(t))[i];
  }

  /** `p` occurs in `t` starting at index `i`. */
  predicate OccursAt(t: string, p: string, i: int)
  {
    0 <= i && i + |p| <= |t| && t[i..i + |p|] == p
  }

  /** Python's `p in t` for strings: `p` occurs in `t` as a contiguous slice. */
  predicate Contains(t: string, p: string)
  {
    exists i | 0 <= i <= |t| :: OccursAt(t, p, i)
  }

  /** An occurrence survives text on either side. */
  lemma ContainsGrow(t: string, p: string, before: string, after: string)
    requires Contains(t, p)
    ensures Contains(before + t + after, p)
  {
    var i :| 0 <= i <= |t| && OccursAt(t, p, i);
    var u := before + t + after;
    assert u[|before| + i..|before| + i + |p|] == p;
    assert OccursAt(u, p, |before| + i);
  }

  /** The middle of an occurring pattern occurs as well. */
  lemma ContainsInner(t: string, a: string, p: string, b: string)
    requires Contains(t, a + p + b)
    ensures Contains(t, p)
  {
    var i :| 0 <= i <= |t| && OccursAt(t, a + p + b, i);
    var w := a + p + b;
    assert t[i..i + |w|] == w;
    forall k | 0 <= k < |p|
      ensures t[i + |a| + k] == p[k]
    {
      assert t[i..i + |w|][|a| + k] == w[|a| + k];
    }
    assert t[i + |a|..i + |a| + |p|] == p;
    assert OccursAt(t, p, i + |a|);
  }

  /** Every character of an occurring pattern is a character of the text. */
  lemma ContainsChar(t: string, p: string, c: char)
    requires Contains(t, p) && c in p
    ensures c in t
  {
    var i :| 0 <= i <= |t| && OccursAt(t, p, i);
    var k :| 0 <= k < |p| && p[k] == c;
    assert t[i + k] == c;
  }

  predicate IsDigit(c: char)
  {
    '0' <= c <= '9'
  }

  /** `str.isdigit()` restricted to ASCII digits: non-empty and all digits. */
  predicate IsDigits(s: string)
  {
    s != [] && forall i :: 0 <= i < |s| ==> IsDigit(s[i])
  }

  /** `int(s)` for a string of ASCII digits. */
  function DigitsValue(s: string): (n: nat)
    requires forall i :: 0 <= i < |s| ==> IsDigit(s[i])
  {
    if s == [] then 0
    else assert IsDigit(s[|s| - 1]); 10 * DigitsValue(s[..|s| - 1]) + (s[|s| - 1] as int - '0' as int)
  }

  /** Python's `sep.join(parts)`. */
  function Join(parts: seq<string>, sep: string): string
  {
    if parts == [] then ""
    else if |parts| == 1 then parts[0]
    else parts[0] + sep + Join(parts[1..], sep)
  }

  /** Python's `s.split(c)` for a one-character separator: always at least one piece. */
  function Split(s: string, c: char): (r: seq<string>)
    ensures |r| >= 1
  {
    if s == [] then [""]
    else if s[0] == c then [""] + Split(s[1..], c)
    else var rest := Split(s[1..], c); [[s[0]] + rest[0]] + rest[1..]
  }

  /** Splitting and joining on the same character are inverse: joining the pieces of `s`
      gives back `s`. */
  lemma {:induction false} JoinSplit(s: string, c: char)
    ensures Join(Split(s, c), [c]) == s
  {
    if s == [] {
    } else if s[0] == c {
      JoinSplit(s[1..], c);
    } else {
      JoinSplit(s[1..], c);
      var rest := Split(s[1..], c);
      if |rest| > 1 {
        assert Split(s, c)[1..] == rest[1..];
      }
    }
  }

  lemma {:induction false} SplitNoSep(s: string, c: char)
    requires c !in s
    ensures Split(s, c) == [s]
  {
    if s != [] {
      SplitNoSep(s[1..], c);
      assert s == [s[0]] + s[1..];
    }
  }

  lemma {:induction false} SplitAppendSep(a: string, b: string, c: char)
    requires c !in a
    ensures Split(a + [c] + b, c) == [a] + Split(b, c)
  {
    if a == [] {
      assert [c] + b == a + [c] + b;
    } else {
      assert (a + [c] + b)[1..] == a[1..] + [c] + b;
      SplitAppendSep(a[1..], b, c);
      assert a == [a[0]] + a[1..];
    }
  }

  /** Conversely, splitting a join of separator-free parts gives back the parts. */
  lemma {:induction false} SplitJoin(parts: seq<string>, c: char)
    requires |parts| >= 1
    requires forall i :: 0 <= i < |parts| ==> c !in parts[i]
    ensures Split(Join(parts, [c]), c) == parts
  {
    if |parts| == 1 {
      SplitNoSep(parts[0], c);
    } else {
      SplitJoin(parts[1..], c);
      SplitAppendSep(parts[0], Join(parts[1..], [c]), c);
      assert parts == [parts[0]] + parts[1..];
    }
  }

  /** A join of one more part extends the join of the first parts. */
  lemma {:induction false} JoinAppend(parts: seq<string>, more: seq<string>, sep: string)
    ensures parts != [] && more != [] ==> Join(parts + more, sep) == Join(parts, sep) + sep + Join(more, sep)
    ensures parts == [] ==> Join(parts + more, sep) == Join(more, sep)
    ensures more == [] ==> Join(parts + more, sep) == Join(parts, sep)
  {
    if parts == [] || more == [] {
      assert parts + more == if parts == [] then more else parts;
    } else if |parts| == 1 {
      assert (parts + more)[1..] == more;
    } else {
      JoinAppend(parts[1..], more, sep);
      assert (parts + more)[1..] == parts[1..] + more;
    }
  }

  /** Every part occurs in the join. */
  lemma {:induction false} JoinContainsParts(parts: seq<string>, sep: string)
    ensures forall i :: 0 <= i < |parts| ==> Contains(Join(parts, sep), parts[i])
  {
    if |parts| == 1 {
      assert OccursAt(parts[0], parts[0], 0);
    } else if |parts| > 1 {
      var rest := Join(parts[1..], sep);
      JoinContainsParts(parts[1..], sep);
      assert Join(parts, sep) == parts[0] + sep + rest + "";
      forall i | 0 <= i < |parts|
        ensures Contains(Join(parts, sep), parts[i])
      {
        if i == 0 {
          assert OccursAt(Join(parts, sep), parts[0], 0);
        } else {
          assert parts[i] == parts[1..][i - 1];
          ContainsGrow(rest, parts[i], parts[0] + sep, "");
        }
      }
    }
  }

  /** The join of a history is a prefix of the join of any extension of it. */
  lemma JoinPrefix(parts: seq<string>, more: seq<string>, sep: string)
    ensures Join(parts, sep) <= Join(parts + more, sep)
  {
    JoinAppend(parts, more, sep);
  }

  /** Index of the first occurrence of `c` in `s`. */
  function FirstIndex(s: string, c: char): (i: nat)
    requires c in s
    ensures i < |s| && s[i] == c && c !in s[..i]
  {
    if s[0] == c then 0 else 1 + FirstIndex(s[1..], c)
  }

  /** Python's `s.split(c, 1)[0]` when `c in s`. */
  function BeforeFirst(s: string, c: char): string
    requires c in s
  {
    s[..FirstIndex(s, c)]
  }

  /** Python's `s.split(c, 1)[1]` when `c in s`. */
  function AfterFirst(s: string, c: char): string
    requires c in s
  {
    s[FirstIndex(s, c) + 1..]
  }

  /** `split(c, 1)` cuts at the first `c`: the two parts and the separator rebuild the string. */
  lemma SplitOnceRebuilds(s: string, c: char)
    requires c in s
    ensures BeforeFirst(s, c) + [c] + AfterFirst(s, c) == s
    ensures c !in BeforeFirst(s, c)
  {
    var i := FirstIndex(s, c);
    assert s == s[..i] + [s[i]] + s[i + 1..];
  }

  /** The first `c` of `a + [c] + b` is the one after `a` when `a` has none. */
  lemma FirstIndexAfter(a: string, c: char, b: string)
    requires c !in a
    ensures c in a + [c] + b && FirstIndex(a + [c] + b, c) == |a|
  {
    var s := a + [c] + b;
    assert s[|a|] == c;
    assert s[..|a|] == a;
  }

  /** Cutting at the first `c` of `a + [c] + b` gives back `a` and `b`. */
  lemma CutAt(a: string, c: char, b: string)
    requires c !in a
    ensures c in a + [c] + b && BeforeFirst(a + [c] + b, c) == a && AfterFirst(a + [c] + b, c) == b
  {
    FirstIndexAfter(a, c, b);
  }

  /** A text made of three consecutive parts: the first is a prefix, the middle sits right
      after it and the last is a suffix. */
  lemma ThreeParts(p: string, m: string, t: string, r: string)
    requires r == p + m + t
    ensures |r| == |p| + |m| + |t|
    ensures p <= r && OccursAt(r, m, |p|) && r[|r| - |t|..] == t
  {
    assert r == p + (m + t);
    assert r[|p|..|p| + |m|] == m;
  }

  /** A template with two slots: the fixed head is a prefix and each slot's value sits
      where the template puts it. */
  lemma TemplateSlots(head: string, a: string, mid: string, b: string, tail: string, r: string)
    requires r == head + a + mid + b + tail
    ensures head <= r && OccursAt(r, a, |head|) && OccursAt(r, b, |head| + |a| + |mid|)
    ensures OccursAt(r, mid, |head| + |a|) && |r| >= |tail| && r[|r| - |tail|..] == tail
    ensures |r| == |head| + |a| + |mid| + |b| + |tail|
    ensures Contains(r, a) && Contains(r, b)
  {
    assert r == head + (a + mid + b + tail);
    assert r[..|head|] == head;
    assert r[|head|..|head| + |a|] == a;
    assert r[|head| + |a|..|head| + |a| + |mid|] == mid;
    assert r == (head + a + mid + b) + tail;
    assert r[|head| + |a| + |mid|..|head| + |a| + |mid| + |b|] == b;
    assert OccursAt(r, a, |head|);
    assert OccursAt(r, b, |head| + |a| + |mid|);
  }

  /** A filled two-slot template determines its slots when the first slot cannot contain
      the character that opens the fixed text after it. */
  lemma TemplateInjective(head: string, a1: string, a2: string, mid: string,
                          b1: string, b2: string, tail: string, c: char)
    requires mid != [] && mid[0] == c && c !in a1 && c !in a2
    requires head + a1 + mid + b1 + tail == head + a2 + mid + b2 + tail
    ensures a1 == a2 && b1 == b2
  {
    var r1 := head + a1 + mid + b1 + tail;
    var r2 := head + a2 + mid + b2 + tail;
    var t := r1[|head|..];
    assert t == a1 + [c] + (mid[1..] + b1 + tail);
    assert t == a2 + [c] + (mid[1..] + b2 + tail);
    FirstIndexAfter(a1, c, mid[1..] + b1 + tail);
    FirstIndexAfter(a2, c, mid[1..] + b2 + tail);
    assert a1 == r1[|head|..|head| + |a1|];
    assert a2 == r2[|head|..|head| + |a2|];
    assert b1 == r1[|head| + |a1| + |mid|..|head| + |a1| + |mid| + |b1|];
    assert b2 == r2[|head| + |a2| + |mid|..|head| + |a2| + |mid| + |b2|];
  }

  /** Fixed text on both sides determines what lies between. */
  lemma MiddleDetermined(a: string, x: string, y: string, b: string)
    requires a + x + b == a + y + b
    ensures x == y
  {
    assert |x| == |y|;
    assert x == (a + x + b)[|a|..|a| + |x|];
  }
}
