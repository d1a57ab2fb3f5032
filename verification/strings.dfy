/** String helpers the Python code gets from `str`: case mapping, `join`,
    `split`, `replace` of one character, decimal formatting of a counter, and
    the first field of `split(sep)`. Case mapping is ASCII only. */
module Strs {

  function UpperChar(c: char): char {
    if 'a' <= c <= 'z' then (c as int - 32) as char else c
  }

  function LowerChar(c: char): char {
    if 'A' <= c <= 'Z' then (c as int + 32) as char else c
  }

  /** `s.upper()` */
  function Upper(s: string): (r: string)
    ensures |r| == |s|
    ensures forall i :: 0 <= i < |s| ==> r[i] == UpperChar(s[i])
  {
    seq(|s|, i requires 0 <= i < |s| => UpperChar(s[i]))
  }

  /** `s.lower()` */
  function Lower(s: string): (r: string)
    ensures |r| == |s|
    ensures forall i :: 0 <= i < |s| ==> r[i] == LowerChar(s[i])
  {
    seq(|s|, i requires 0 <= i < |s| => LowerChar(s[i]))
  }

  /** Upper-casing first does not change what lower-casing gives, and a
      character that case mapping leaves alone is found in both forms. */
  lemma LowerOfUpper(s: string)
    ensures Lower(Upper(s)) == Lower(s)
    ensures forall c :: UpperChar(c) == c && LowerChar(c) == c ==> (c in s <==> c in Upper(s))
  {
    assert forall c :: UpperChar(c) == c && LowerChar(c) == c ==> (c in Upper(s) ==> c in s) by {
      forall c | UpperChar(c) == c && LowerChar(c) == c && c in Upper(s)
        ensures c in s
      {
        var i :| 0 <= i < |Upper(s)| && Upper(s)[i] == c;
        assert UpperChar(s[i]) == c;
        assert s[i] == c;
      }
    }
  }

  /** `s.replace(from, to)` for one-character strings. */
  function ReplaceChar(s: string, from: char, to: char): (r: string)
    ensures |r| == |s|
    ensures forall i :: 0 <= i < |s| ==> r[i] == (if s[i] == from then to else s[i])
  {
    seq(|s|, i requires 0 <= i < |s| => if s[i] == from then to else s[i])
  }

  lemma ReplaceCharAppend(a: string, b: string, from: char, to: char)
    ensures ReplaceChar(a + b, from, to) == ReplaceChar(a, from, to) + ReplaceChar(b, from, to)
  {
  }

  lemma ReplaceCharAbsent(s: string, from: char, to: char)
    requires from !in s
    ensures ReplaceChar(s, from, to) == s
  {
  }

  /** `sep.join(parts)` */
  function Join(sep: string, parts: seq<string>): string
  {
    if |parts| == 0 then ""
    else if |parts| == 1 then parts[0]
    else parts[0] + sep + Join(sep, parts[1..])
  }

  /** `s.split(c)` for a one-character separator: the pieces between the
      occurrences of `c`, so there is always at least one piece. */
  function Split(s: string, c: char): (r: seq<string>)
    ensures |r| == CountChar(s, c) + 1
    ensures forall i :: 0 <= i < |r| ==> c !in r[i]
  {
    if |s| == 0 then [""]
    else
      var rest := Split(s[1..], c);
      if s[0] == c then [""] + rest
      else [[s[0]] + rest[0]] + rest[1..]
  }

  /** Splitting a string whose first part holds no separator keeps that part
      glued to the first piece of the remainder. */
  lemma {:induction false} SplitPrefix(p: string, t: string, c: char)
    requires c !in p
    ensures Split(p + t, c) == [p + Split(t, c)[0]] + Split(t, c)[1..]
  {
    if |p| == 0 {
      assert p + t == t;
      assert p + Split(t, c)[0] == Split(t, c)[0];
      assert Split(t, c) == [Split(t, c)[0]] + Split(t, c)[1..];
    } else {
      assert (p + t)[1..] == p[1..] + t;
      SplitPrefix(p[1..], t, c);
      assert [p[0]] + (p[1..] + Split(t, c)[0]) == p + Split(t, c)[0];
    }
  }

  /** Splitting undoes joining when no part holds the separator. */
  lemma {:induction false} SplitJoin(parts: seq<string>, c: char)
    requires |parts| > 0
    requires forall i :: 0 <= i < |parts| ==> c !in parts[i]
    ensures Split(Join([c], parts), c) == parts
  {
    if |parts| == 1 {
      SplitPrefix(parts[0], "", c);
      assert parts[0] + "" == parts[0];
    } else {
      var rest := Join([c], parts[1..]);
      assert Join([c], parts) == parts[0] + ([c] + rest);
      SplitPrefix(parts[0], [c] + rest, c);
      assert ([c] + rest)[1..] == rest;
      assert Split([c] + rest, c) == [""] + Split(rest, c);
      SplitJoin(parts[1..], c);
      assert Split([c] + rest, c)[0] == "";
      assert parts[0] + "" == parts[0];
      assert Split([c] + rest, c)[1..] == parts[1..];
      assert parts == [parts[0]] + parts[1..];
    }
  }

  /** Joining undoes splitting. */
  lemma {:induction false} JoinSplit(s: string, c: char)
    ensures Join([c], Split(s, c)) == s
  {
    if |s| == 0 {
    } else {
      var rest := Split(s[1..], c);
      JoinSplit(s[1..], c);
      if s[0] == c {
        assert Join([c], [""] + rest) == "" + [c] + Join([c], rest);
      } else if |rest| == 1 {
        assert Join([c], rest) == rest[0];
      } else {
        assert Join([c], rest) == rest[0] + [c] + Join([c], rest[1..]);
        assert ([[s[0]] + rest[0]] + rest[1..])[1..] == rest[1..];
      }
      assert s == [s[0]] + s[1..];
    }
  }

  /** The text of `str.format` of a decimal digit. */
  function DigitChar(d: nat): char
    requires d < 10
  {
    ('0' as int + d) as char
  }

  /** `str(n)` / `'{}'.format(n)` for a non-negative integer. */
  function NatToString(n: nat): (r: string)
    ensures |r| >= 1
    ensures n >= 10 ==> |r| >= 2
    ensures forall i :: 0 <= i < |r| ==> '0' <= r[i] <= '9'
  {
    if n < 10 then [DigitChar(n)]
    else NatToString(n / 10) + [DigitChar(n % 10)]
  }

  /** Distinct counters give distinct decimal texts. */
  lemma {:induction false} NatToStringInjective(a: nat, b: nat)
    requires NatToString(a) == NatToString(b)
    ensures a == b
  {
    if a < 10 && b < 10 {
      assert NatToString(a)[0] == DigitChar(a);
    } else if a < 10 || b < 10 {
      assert false;
    } else {
      var sa, sb := NatToString(a), NatToString(b);
      assert sa[|sa| - 1] == DigitChar(a % 10);
      assert sb[|sb| - 1] == DigitChar(b % 10);
      assert sa[..|sa| - 1] == NatToString(a / 10);
      assert sb[..|sb| - 1] == NatToString(b / 10);
      NatToStringInjective(a / 10, b / 10);
    }
  }

  /** `s.split(sep)[0]`: the text before the first occurrence of `sep`, or
      all of `s` when it does not occur. */
  function BeforeFirst(s: string, sep: string): string
    requires |sep| > 0
  {
    if |s| < |sep| then s
    else if s[..|sep|] == sep then ""
    else [s[0]] + BeforeFirst(s[1..], sep)
  }

  /** A prefix that cannot start the separator is exactly what comes before
      the separator placed after it. */
  lemma {:induction false} BeforeFirstOf(name: string, sep: string, rest: string)
    requires |sep| > 0
    requires sep[0] !in name
    ensures BeforeFirst(name + sep + rest, sep) == name
  {
    var s := name + sep + rest;
    if |name| == 0 {
      assert s[..|sep|] == sep;
    } else {
      assert s[0] == name[0];
      assert s[..|sep|][0] != sep[0];
      assert s[1..] == name[1..] + sep + rest;
      BeforeFirstOf(name[1..], sep, rest);
      assert name == [name[0]] + name[1..];
    }
  }

  /** `s.count(c)` for one character. */
  function CountChar(s: string, c: char): nat {
    if |s| == 0 then 0 else (if s[0] == c then 1 else 0) + CountChar(s[1..], c)
  }

  /** `s.endswith(t)` */
  predicate EndsWith(s: string, t: string) {
    |t| <= |s| && s[|s| - |t|..] == t
  }

  /** A string is a prefix of any text it opens, and a suffix of any text
      it closes. */
  lemma Enclosed(head: string, middle: string, tail: string)
    ensures head <= head + middle + tail
    ensures EndsWith(head + middle + tail, tail)
  {
    var r := head + middle + tail;
    assert r == (head + middle) + tail;
    assert r[..|head|] == head;
  }

  /** Appending the same text to both sides keeps a suffix a suffix. */
  lemma EndsWithAppend(s: string, t: string, q: string)
    requires EndsWith(s, t)
    ensures EndsWith(s + q, t + q)
  {
    assert (s + q)[|s + q| - |t + q|..] == s[|s| - |t|..] + q;
  }

  /** Being a suffix is transitive. */
  lemma EndsWithTrans(s: string, t: string, u: string)
    requires EndsWith(s, t) && EndsWith(t, u)
    ensures EndsWith(s, u)
  {
    assert s[|s| - |u|..] == s[|s| - |t|..][|t| - |u|..];
  }

  /** A join ends with its last part. */
  lemma {:induction false} JoinEndsWith(sep: string, parts: seq<string>)
    requires |parts| > 0
    ensures EndsWith(Join(sep, parts), parts[|parts| - 1])
  {
    if |parts| > 1 {
      JoinEndsWith(sep, parts[1..]);
      var rest := Join(sep, parts[1..]);
      Enclosed(parts[0], sep, rest);
      EndsWithTrans(Join(sep, parts), rest, parts[|parts| - 1]);
    }
  }

  /** `t in s` for strings: `t` occurs somewhere in `s`. */
  predicate Occurs(t: string, s: string) {
    exists k :: 0 <= k <= |s| && OccursAt(t, s, k)
  }

  /** `t` occurs in `s` from index `k` on. */
  predicate OccursAt(t: string, s: string, k: int) {
    0 <= k <= |s| - |t| && s[k..k + |t|] == t
  }

  /** A string occurs in any text that holds it between two others. */
  lemma OccursIn(p: string, t: string, q: string)
    ensures Occurs(t, p + t + q)
  {
    assert (p + t + q)[|p|..|p| + |t|] == t;
    assert OccursAt(t, p + t + q, |p|);
  }

  /** Occurring is transitive. */
  lemma OccursTrans(t: string, u: string, s: string)
    requires Occurs(t, u) && Occurs(u, s)
    ensures Occurs(t, s)
  {
    var i :| 0 <= i <= |u| && OccursAt(t, u, i);
    var j :| 0 <= j <= |s| && OccursAt(u, s, j);
    assert i + |t| <= |u| && j + |u| <= |s|;
    forall k | 0 <= k < |t|
      ensures s[j + i + k] == t[k]
    {
      assert s[j..j + |u|][i + k] == s[j + i + k];
      assert u[i..i + |t|][k] == u[i + k];
    }
    assert s[j + i..j + i + |t|] == t;
    assert OccursAt(t, s, j + i);
  }

  /** Every part occurs in the join of the parts. */
  lemma {:induction false} JoinOccurs(sep: string, parts: seq<string>, i: nat)
    requires i < |parts|
    ensures Occurs(parts[i], Join(sep, parts))
    decreases i
  {
    if |parts| == 1 {
      OccursIn("", parts[0], "");
      assert "" + parts[0] + "" == parts[0];
    } else if i == 0 {
      OccursIn("", parts[0], sep + Join(sep, parts[1..]));
      assert "" + parts[0] + (sep + Join(sep, parts[1..])) == Join(sep, parts);
    } else {
      JoinOccurs(sep, parts[1..], i - 1);
      var rest := Join(sep, parts[1..]);
      OccursIn(parts[0] + sep, rest, "");
      assert parts[0] + sep + rest + "" == Join(sep, parts);
      OccursTrans(parts[i], rest, Join(sep, parts));
    }
  }
}
