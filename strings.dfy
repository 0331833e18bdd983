/**
 * The two Python string builtins the type-path code relies on, `str.split('.')`
 * and `'.'.join(parts)`, together with `str(n)` for the numbered segment names.
 * Splitting never returns an empty list: `"".split('.') == [""]` and an input
 * with k dots has k + 1 parts, some possibly empty.
 */
module Strings {

  /** Python's `s.split('.')`. */
  function Split(s: string): (parts: seq<string>)
    ensures |parts| >= 1
    ensures |parts| == DotCount(s) + 1
  {
    if s == [] then [""]
    else
      var rest := Split(s[1..]);
      if s[0] == '.' then [""] + rest
      else [[s[0]] + rest[0]] + rest[1..]
  }

  /** The number of separator characters in `s`. */
  function DotCount(s: string): nat
  {
    if s == [] then 0 else (if s[0] == '.' then 1 else 0) + DotCount(s[1..])
  }

  /** Python's `'.'.join(parts)`; joining the empty list gives the empty string. */
  function Join(parts: seq<string>): string
  {
    if |parts| == 0 then ""
    else if |parts| == 1 then parts[0]
    else parts[0] + "." + Join(parts[1..])
  }

  /** No part of a list contains the separator. */
  predicate DotFree(parts: seq<string>)
  {
    forall i :: 0 <= i < |parts| ==> '.' !in parts[i]
  }

  /** Python's `str(n)` for a natural number: its decimal digits. */
  function NatToString(n: nat): (s: string)
    ensures |s| >= 1
    ensures forall i :: 0 <= i < |s| ==> '0' <= s[i] <= '9'
  {
    if n < 10 then [DigitChar(n)] else NatToString(n / 10) + [DigitChar(n % 10)]
  }

  function DigitChar(d: nat): (c: char)
    requires d < 10
    ensures '0' <= c <= '9'
  {
    "0123456789"[d]
  }

  /** Every part produced by splitting is free of separators. */
  lemma {:induction false} SplitDotFree(s: string)
    ensures DotFree(Split(s))
  {
    if s != [] {
      SplitDotFree(s[1..]);
      var rest := Split(s[1..]);
      if s[0] != '.' {
        var parts := Split(s);
        forall i | 0 <= i < |parts| ensures '.' !in parts[i] {
          if i == 0 {
            assert parts[0] == [s[0]] + rest[0];
          } else {
            assert parts[i] == rest[i];
          }
        }
      }
    }
  }

  /** Joining the parts of a split gives the original string back. */
  lemma {:induction false} JoinSplit(s: string)
    ensures Join(Split(s)) == s
  {
    if s != [] {
      JoinSplit(s[1..]);
      var rest := Split(s[1..]);
      if s[0] == '.' {
        assert Split(s) == [""] + rest;
        assert Join([""] + rest) == "" + "." + Join(rest);
        assert s == [s[0]] + s[1..];
      } else {
        var parts := [[s[0]] + rest[0]] + rest[1..];
        assert Split(s) == parts;
        if |rest| == 1 {
          assert Join(parts) == [s[0]] + rest[0];
          assert Join(rest) == rest[0];
        } else {
          assert parts[1..] == rest[1..];
          assert Join(parts) == [s[0]] + rest[0] + "." + Join(rest[1..]);
          assert Join(rest) == rest[0] + "." + Join(rest[1..]);
        }
        assert s == [s[0]] + s[1..];
      }
    }
  }

  /** A string without separators splits into itself alone. */
  lemma {:induction false} SplitDotless(a: string)
    requires '.' !in a
    ensures Split(a) == [a]
  {
    if a != [] {
      assert '.' !in a[1..] by {
        forall i | 0 <= i < |a[1..]| ensures a[1..][i] != '.' { assert a[1..][i] == a[i + 1]; }
      }
      SplitDotless(a[1..]);
      assert a == [a[0]] + a[1..];
    }
  }

  /** Splitting `a + "." + t`, with `a` free of separators, peels `a` off. */
  lemma {:induction false} SplitDotted(a: string, t: string)
    requires '.' !in a
    ensures Split(a + "." + t) == [a] + Split(t)
  {
    if a == [] {
      assert a + "." + t == ['.'] + t;
      assert (['.'] + t)[1..] == t;
    } else {
      assert '.' !in a[1..] by {
        forall i | 0 <= i < |a[1..]| ensures a[1..][i] != '.' { assert a[1..][i] == a[i + 1]; }
      }
      SplitDotted(a[1..], t);
      var s := a + "." + t;
      assert s[0] == a[0];
      assert s[1..] == a[1..] + "." + t;
      var rest := Split(s[1..]);
      assert rest == [a[1..]] + Split(t);
      assert [s[0]] + rest[0] == a;
    }
  }

  /** Splitting a join of separator-free parts gives the parts back. */
  lemma {:induction false} SplitJoin(parts: seq<string>)
    requires |parts| >= 1
    requires DotFree(parts)
    ensures Split(Join(parts)) == parts
  {
    assert '.' !in parts[0];
    if |parts| == 1 {
      SplitDotless(parts[0]);
    } else {
      assert DotFree(parts[1..]) by {
        forall i | 0 <= i < |parts[1..]| ensures '.' !in parts[1..][i] { assert parts[1..][i] == parts[i + 1]; }
      }
      SplitJoin(parts[1..]);
      SplitDotted(parts[0], Join(parts[1..]));
      assert parts == [parts[0]] + parts[1..];
    }
  }

  /** Joining one more part appends a separator and that part. */
  lemma {:induction false} JoinSnoc(parts: seq<string>, x: string)
    requires |parts| >= 1
    ensures Join(parts + [x]) == Join(parts) + "." + x
  {
    if |parts| == 1 {
      assert (parts + [x])[1..] == [x];
    } else {
      assert (parts + [x])[1..] == parts[1..] + [x];
      JoinSnoc(parts[1..], x);
    }
  }

  /** Concatenation regroups freely; stated once so that loops appending to a log need not rediscover it. */
  lemma AppendAssoc<T>(a: seq<T>, b: seq<T>, c: seq<T>)
    ensures a + b + c == a + (b + c)
  {
  }

  /** Decimal renderings never contain a separator. */
  lemma NatToStringDotless(n: nat)
    ensures '.' !in NatToString(n)
  {
    var s := NatToString(n);
    forall i | 0 <= i < |s| ensures s[i] != '.' { assert '0' <= s[i] <= '9'; }
  }
}
