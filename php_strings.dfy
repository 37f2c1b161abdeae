/** The few PHP string built-ins the help callback relies on, on `seq<char>`
    (one character stands for one byte of a PHP string). */
module PhpStrings {

  /** `explode(sep, s)` for a one-character separator: the pieces of `s`
      between occurrences of `sep`; the empty string gives `[""]`. */
  function Split(s: string, sep: char): (parts: seq<string>)
    ensures |parts| >= 1
    ensures forall i :: 0 <= i < |parts| ==> sep !in parts[i]
  {
    if |s| == 0 then [""]
    else
      var rest := Split(s[1..], sep);
      if s[0] == sep then [""] + rest
      else [[s[0]] + rest[0]] + rest[1..]
  }

  /** `implode(glue, parts)`: the pieces with `glue` between neighbours. */
  function Join(parts: seq<string>, glue: string): string
  {
    if |parts| == 0 then ""
    else if |parts| == 1 then parts[0]
    else parts[0] + glue + Join(parts[1..], glue)
  }

  /** `str_repeat(c, n)` for a non-negative count. */
  function Repeat(c: char, n: nat): (r: string)
    ensures |r| == n
    ensures forall i :: 0 <= i < n ==> r[i] == c
  {
    if n == 0 then "" else [c] + Repeat(c, n - 1)
  }

  /** Proof helper: concatenation regrouped, so that long literals need no element-wise comparison. */
  lemma ConcatAssoc<T>(a: seq<T>, b: seq<T>, c: seq<T>)
    ensures a + b + c == a + (b + c)
  {
  }

  /** Number of occurrences of `c` in `s`. */
  function Count(s: string, c: char): nat
  {
    if |s| == 0 then 0 else (if s[0] == c then 1 else 0) + Count(s[1..], c)
  }

  /** PHP's conversion of a string to a boolean: only "" and "0" are false. */
  predicate Truthy(s: string)
  {
    s != "" && s != "0"
  }

  lemma {:induction false} CountAppend(a: string, b: string, c: char)
    ensures Count(a + b, c) == Count(a, c) + Count(b, c)
  {
    if |a| > 0 {
      assert (a + b)[1..] == a[1..] + b;
      CountAppend(a[1..], b, c);
    } else {
      assert a + b == b;
    }
  }

  lemma {:induction false} CountAbsent(s: string, c: char)
    ensures c !in s <==> Count(s, c) == 0
  {
    if |s| > 0 {
      CountAbsent(s[1..], c);
      assert s == [s[0]] + s[1..];
    }
  }

  /** explode yields one piece more than there are separators. */
  lemma {:induction false} SplitLength(s: string, sep: char)
    ensures |Split(s, sep)| == Count(s, sep) + 1
  {
    if |s| > 0 {
      SplitLength(s[1..], sep);
    }
  }

  /** A string without the separator explodes to itself alone. */
  lemma {:induction false} SplitWithoutSeparator(s: string, sep: char)
    requires sep !in s
    ensures Split(s, sep) == [s]
  {
    if |s| > 0 {
      assert sep !in s[1..];
      SplitWithoutSeparator(s[1..], sep);
      assert [s[0]] + s[1..] == s;
    }
  }

  /** Gluing an extra character onto the first piece. */
  lemma JoinExtendFirst(x: char, r: seq<string>, glue: string)
    requires |r| >= 1
    ensures Join([[x] + r[0]] + r[1..], glue) == [x] + Join(r, glue)
  {
    var q := [[x] + r[0]] + r[1..];
    if |r| > 1 {
      assert q[1..] == r[1..];
    }
  }

  /** implode inverts explode when the glue is the separator. */
  lemma {:induction false} JoinSplit(s: string, sep: char)
    ensures Join(Split(s, sep), [sep]) == s
  {
    if |s| > 0 {
      var rest := Split(s[1..], sep);
      JoinSplit(s[1..], sep);
      if s[0] == sep {
        assert ([""] + rest)[1..] == rest;
        assert s == [sep] + s[1..];
      } else {
        JoinExtendFirst(s[0], rest, [sep]);
        assert s == [s[0]] + s[1..];
      }
    }
  }
}
