/** Character and string helpers shared by the runtime ports and the catalog
    build scripts: ASCII digits, decimal rendering of integers (as JavaScript's
    `String(n)` and template literals produce it), `split` / `join` with a
    one-character separator, global single-character `replace`, and prefixes. */
module Text {

  datatype Option<T> = None | Some(value: T)

  predicate IsDigit(c: char) { '0' <= c <= '9' }

  predicate AllDigits(s: string) { forall i :: 0 <= i < |s| ==> IsDigit(s[i]) }

  function DigitValue(c: char): (v: nat)
    requires IsDigit(c)
    ensures v < 10
  {
    (c as int) - ('0' as int)
  }

  function DigitChar(v: nat): (c: char)
    requires v < 10
    ensures IsDigit(c) && DigitValue(c) == v
  {
    (('0' as int) + v) as char
  }

  /** Numeric value of a run of decimal digits, most significant first. */
  function DigitsValue(s: string): nat
    requires AllDigits(s)
  {
    if s == [] then 0 else DigitsValue(s[..|s| - 1]) * 10 + DigitValue(s[|s| - 1])
  }

  /** Decimal rendering of a natural number, without leading zeros. */
  function NatToString(n: nat): (r: string)
    ensures |r| > 0 && AllDigits(r)
    ensures r[0] == '0' ==> n == 0
  {
    if n < 10 then [DigitChar(n)] else NatToString(n / 10) + [DigitChar(n % 10)]
  }

  /** Decimal rendering of an integer, with a leading '-' when negative. */
  function IntToString(i: int): (r: string)
    ensures |r| > 0
  {
    if i < 0 then "-" + NatToString(-i) else NatToString(i)
  }

  lemma {:induction false} NatToStringValue(n: nat)
    ensures DigitsValue(NatToString(n)) == n
  {
    if n >= 10 {
      NatToStringValue(n / 10);
      var s := NatToString(n);
      assert s[..|s| - 1] == NatToString(n / 10);
    }
  }

  /** Two naturals with the same rendering are equal. */
  lemma NatToStringInjective(a: nat, b: nat)
    requires NatToString(a) == NatToString(b)
    ensures a == b
  {
    NatToStringValue(a);
    NatToStringValue(b);
  }

  /** Length of the longest prefix of `s` made of digits. */
  function DigitRun(s: string): (k: nat)
    ensures k <= |s|
  {
    if s != [] && IsDigit(s[0]) then 1 + DigitRun(s[1..]) else 0
  }

  /** The run is made of digits, and the character after it, if any, is
      not one. */
  lemma {:induction false} DigitRunDigits(s: string)
    ensures AllDigits(s[..DigitRun(s)])
    ensures DigitRun(s) < |s| ==> !IsDigit(s[DigitRun(s)])
  {
    if s != [] && IsDigit(s[0]) {
      DigitRunDigits(s[1..]);
      assert s[..DigitRun(s)] == [s[0]] + s[1..][..DigitRun(s[1..])];
    }
  }

  lemma {:induction false} DigitRunOf(d: string, rest: string)
    requires AllDigits(d)
    requires rest == [] || !IsDigit(rest[0])
    ensures DigitRun(d + rest) == |d|
  {
    if d != [] {
      assert (d + rest)[1..] == d[1..] + rest;
      DigitRunOf(d[1..], rest);
    } else {
      assert d + rest == rest;
    }
  }

  predicate StartsWith(s: string, prefix: string)
  {
    |prefix| <= |s| && s[..|prefix|] == prefix
  }

  /** JavaScript `s.substring(k)` for a non-negative start. */
  function Substring(s: string, k: nat): (r: string)
    ensures |r| == if k <= |s| then |s| - k else 0
  {
    if k <= |s| then s[k..] else ""
  }

  /** `xs.join(sep)`: the pieces with `sep` between consecutive ones. */
  function Join(xs: seq<string>, sep: string): string
  {
    if |xs| == 0 then ""
    else if |xs| == 1 then xs[0]
    else xs[0] + sep + Join(xs[1..], sep)
  }

  /** `s.split(c)` for a one-character separator: never empty, and an empty
      string splits into one empty piece. */
  function Split(s: string, c: char): (r: seq<string>)
    ensures |r| > 0
    ensures forall i :: 0 <= i < |r| ==> c !in r[i]
  {
    if s == [] then [""]
    else
      var rest := Split(s[1..], c);
      if s[0] == c then [""] + rest
      else [[s[0]] + rest[0]] + rest[1..]
  }

  lemma {:induction false} JoinSplit(s: string, c: char)
    ensures Join(Split(s, c), [c]) == s
  {
    if s != [] {
      var rest := Split(s[1..], c);
      JoinSplit(s[1..], c);
      if s[0] == c {
        assert Split(s, c) == [""] + rest;
        assert ([""] + rest)[1..] == rest;
      } else {
        var r := Split(s, c);
        assert r == [[s[0]] + rest[0]] + rest[1..];
        if |rest| == 1 {
          assert Join(r, [c]) == [s[0]] + rest[0];
        } else {
          assert r[1..] == rest[1..];
          assert Join(rest, [c]) == rest[0] + [c] + Join(rest[1..], [c]);
        }
      }
    }
  }

  lemma {:induction false} SplitPrefix(a: string, b: string, c: char)
    requires c !in a
    ensures Split(a + b, c) == [a + Split(b, c)[0]] + Split(b, c)[1..]
  {
    if a != [] {
      assert (a + b)[0] == a[0];
      assert (a + b)[1..] == a[1..] + b;
      SplitPrefix(a[1..], b, c);
      assert [a[0]] + (a[1..] + Split(b, c)[0]) == a + Split(b, c)[0];
    } else {
      assert a + b == b;
      var r := Split(b, c);
      assert a + r[0] == r[0];
      assert r == [r[0]] + r[1..];
    }
  }

  /** Splitting a joined list recovers it when no piece holds the separator. */
  lemma {:induction false} SplitJoin(xs: seq<string>, c: char)
    requires |xs| > 0
    requires forall i :: 0 <= i < |xs| ==> c !in xs[i]
    ensures Split(Join(xs, [c]), c) == xs
  {
    if |xs| == 1 {
      SplitPrefix(xs[0], "", c);
      assert Split("", c) == [""];
      assert xs[0] + "" == xs[0];
    } else {
      SplitJoin(xs[1..], c);
      var rest := Join(xs[1..], [c]);
      assert Join(xs, [c]) == xs[0] + ([c] + rest);
      SplitPrefix(xs[0], [c] + rest, c);
      assert ([c] + rest)[1..] == rest;
      var t := Split([c] + rest, c);
      assert t == [""] + xs[1..];
      assert t[0] == "" && t[1..] == xs[1..];
      assert xs[0] + t[0] == xs[0];
      assert xs == [xs[0]] + xs[1..];
    }
  }

  lemma {:induction false} JoinAppend(xs: seq<string>, ys: seq<string>, sep: string)
    requires |xs| > 0 && |ys| > 0
    ensures Join(xs + ys, sep) == Join(xs, sep) + sep + Join(ys, sep)
  {
    if |xs| == 1 {
      assert (xs + ys)[1..] == ys;
    } else {
      assert (xs + ys)[1..] == xs[1..] + ys;
      JoinAppend(xs[1..], ys, sep);
    }
  }

  lemma {:induction false} NotInJoin(xs: seq<string>, sep: string, c: char)
    requires c !in sep
    requires forall i :: 0 <= i < |xs| ==> c !in xs[i]
    ensures c !in Join(xs, sep)
  {
    if |xs| > 1 {
      NotInJoin(xs[1..], sep, c);
    }
  }

  /** `s.replace(/c/g, r)`: every occurrence of `c` becomes `r`. */
  function ReplaceChar(s: string, c: char, r: string): (t: string)
    ensures c !in r ==> c !in t
  {
    if s == [] then ""
    else (if s[0] == c then r else [s[0]]) + ReplaceChar(s[1..], c, r)
  }

  lemma {:induction false} ReplaceCharAppend(a: string, b: string, c: char, r: string)
    ensures ReplaceChar(a + b, c, r) == ReplaceChar(a, c, r) + ReplaceChar(b, c, r)
  {
    if a != [] {
      assert (a + b)[0] == a[0];
      assert (a + b)[1..] == a[1..] + b;
      ReplaceCharAppend(a[1..], b, c, r);
    } else {
      assert a + b == b;
    }
  }

  /** Characters other than `c` survive unchanged. */
  lemma {:induction false} ReplaceCharAbsent(s: string, c: char, r: string)
    requires c !in s
    ensures ReplaceChar(s, c, r) == s
  {
    if s != [] {
      ReplaceCharAbsent(s[1..], c, r);
    }
  }

  /** Keeps, in order, each element whose key is neither in `seen` nor the
      key of an element kept before it: a filter whose callback remembers the
      keys it has let through. */
  function DedupBy<T, K(==)>(xs: seq<T>, key: T -> K, seen: set<K>): (r: seq<T>)
    ensures forall i :: 0 <= i < |r| ==> r[i] in xs && key(r[i]) !in seen
    ensures forall i, j :: 0 <= i < j < |r| ==> key(r[i]) != key(r[j])
    ensures |r| <= |xs|
  {
    if xs == [] then []
    else if key(xs[0]) in seen then
      var r := DedupBy(xs[1..], key, seen);
      assert forall i :: 1 <= i < |xs| ==> xs[i] == xs[1..][i - 1];
      r
    else
      var t := DedupBy(xs[1..], key, seen + {key(xs[0])});
      assert forall i :: 1 <= i < |xs| ==> xs[i] == xs[1..][i - 1];
      var r := [xs[0]] + t;
      assert forall i :: 1 <= i < |r| ==> r[i] == t[i - 1];
      r
  }

  /** Every key of the input outside `seen` is the key of a kept element. */
  lemma {:induction false} DedupByCovers<T, K>(xs: seq<T>, key: T -> K, seen: set<K>, k: K)
    requires KeyIn(xs, key, k) && k !in seen
    ensures KeyIn(DedupBy(xs, key, seen), key, k)
  {
    var r := DedupBy(xs, key, seen);
    if key(xs[0]) == k {
      assert r[0] == xs[0];
    } else {
      var i :| 0 <= i < |xs| && key(xs[i]) == k;
      assert key(xs[1..][i - 1]) == k;
      if key(xs[0]) in seen {
        DedupByCovers(xs[1..], key, seen, k);
      } else {
        var t := DedupBy(xs[1..], key, seen + {key(xs[0])});
        DedupByCovers(xs[1..], key, seen + {key(xs[0])}, k);
        var j :| 0 <= j < |t| && key(t[j]) == k;
        assert r[j + 1] == t[j];
      }
    }
  }

  /** Some element of `xs` has the key `k`. */
  predicate KeyIn<T, K(==)>(xs: seq<T>, key: T -> K, k: K)
  {
    exists i :: 0 <= i < |xs| && key(xs[i]) == k
  }

  /** Reference definition, built from the right: an element is kept when no
      element before it has the same key. */
  function FirstByKey<T, K(==)>(xs: seq<T>, key: T -> K): seq<T>
  {
    if xs == [] then []
    else
      var init := xs[..|xs| - 1];
      FirstByKey(init, key) + (if KeyIn(init, key, key(xs[|xs| - 1])) then [] else [xs[|xs| - 1]])
  }

  /** A key is in a non-empty sequence when it is the first element's or it
      is in the rest. */
  lemma KeyInCons<T, K>(a: seq<T>, key: T -> K, k: K)
    requires a != []
    ensures KeyIn(a, key, k) <==> key(a[0]) == k || KeyIn(a[1..], key, k)
  {
    var a' := a[1..];
    if KeyIn(a, key, k) && key(a[0]) != k {
      var i :| 0 <= i < |a| && key(a[i]) == k;
      assert a'[i - 1] == a[i];
    }
    if KeyIn(a', key, k) {
      var i :| 0 <= i < |a'| && key(a'[i]) == k;
      assert a[i + 1] == a'[i];
    }
  }

  /** Appending one element to the input appends it to the output exactly
      when its key is new. */
  lemma {:induction false} DedupBySnoc<T, K>(a: seq<T>, x: T, key: T -> K, seen: set<K>)
    ensures DedupBy(a + [x], key, seen)
      == DedupBy(a, key, seen) + (if key(x) in seen || KeyIn(a, key, key(x)) then [] else [x])
  {
    if a == [] {
      assert [x][1..] == [];
    } else {
      var a' := a[1..];
      var ax := a + [x];
      assert ax[0] == a[0] && ax[1..] == a' + [x];
      KeyInCons(a, key, key(x));
      if key(a[0]) in seen {
        DedupBySnoc(a', x, key, seen);
        assert DedupBy(ax, key, seen) == DedupBy(a' + [x], key, seen);
      } else {
        var seen' := seen + {key(a[0])};
        DedupBySnoc(a', x, key, seen');
        var last := if key(x) in seen' || KeyIn(a', key, key(x)) then [] else [x];
        assert DedupBy(ax, key, seen) == [a[0]] + DedupBy(a' + [x], key, seen');
        AppendAssoc([a[0]], DedupBy(a', key, seen'), last);
      }
    }
  }

  /** The left-to-right filter keeps exactly the first element of each key,
      in input order. */
  lemma {:induction false} DedupByIsFirstByKey<T, K>(xs: seq<T>, key: T -> K)
    ensures DedupBy(xs, key, {}) == FirstByKey(xs, key)
    decreases |xs|
  {
    if xs != [] {
      var init := xs[..|xs| - 1];
      assert xs == init + [xs[|xs| - 1]];
      DedupBySnoc(init, xs[|xs| - 1], key, {});
      DedupByIsFirstByKey(init, key);
    }
  }

  /** What the filter keeps from a prefix of the input is a prefix of what it
      keeps from the whole. */
  lemma {:induction false} FirstByKeyPrefix<T, K>(a: seq<T>, b: seq<T>, key: T -> K)
    ensures FirstByKey(a, key) <= FirstByKey(a + b, key)
    decreases |b|
  {
    if b != [] {
      var b' := b[..|b| - 1];
      assert (a + b)[..|a + b| - 1] == a + b';
      FirstByKeyPrefix(a, b', key);
    } else {
      assert a + b == a;
    }
  }

  /** The lists `f` gives for the elements of `xs`, concatenated in order. */
  function FlatMap<T, U>(xs: seq<T>, f: T -> seq<U>): seq<U>
  {
    if xs == [] then [] else FlatMap(xs[..|xs| - 1], f) + f(xs[|xs| - 1])
  }

  /** One more element appends its list. */
  lemma FlatMapStep<T, U>(xs: seq<T>, f: T -> seq<U>, i: nat)
    requires i < |xs|
    ensures FlatMap(xs[..i + 1], f) == FlatMap(xs[..i], f) + f(xs[i])
  {
    assert xs[..i + 1][..i] == xs[..i];
  }

  /** The concatenation is empty exactly when every list is. */
  lemma {:induction false} FlatMapEmpty<T, U>(xs: seq<T>, f: T -> seq<U>)
    ensures FlatMap(xs, f) == [] <==> forall k :: 0 <= k < |xs| ==> f(xs[k]) == []
  {
    if xs != [] {
      var init := xs[..|xs| - 1];
      FlatMapEmpty(init, f);
      assert forall k :: 0 <= k < |init| ==> init[k] == xs[k];
    }
  }

  /** Concatenation is associative. */
  lemma AppendAssoc<T>(a: seq<T>, b: seq<T>, c: seq<T>)
    ensures a + b + c == a + (b + c)
  {
  }

  /** A filter whose callback keeps an element only when its key is not yet
      in a set of seen keys, and then adds the key: the first element of each key, in
      order. */
  method FirstOccurrences<T, K(==)>(xs: seq<T>, key: T -> K) returns (out: seq<T>)
    ensures out == DedupBy(xs, key, {})
  {
    var seen: set<K> := {};
    out := [];
    var i := 0;
    while i < |xs|
      invariant 0 <= i <= |xs|
      invariant out + DedupBy(xs[i..], key, seen) == DedupBy(xs, key, {})
    {
      assert xs[i..][1..] == xs[i + 1..];
      var k := key(xs[i]);
      if k !in seen {
        out := out + [xs[i]];
        seen := seen + {k};
      }
      i := i + 1;
    }
    assert xs[i..] == [];
  }

  function Id<T>(x: T): T
  {
    x
  }

  /** The distinct elements of `xs`, each where it first occurs. */
  function Dedup<T(==,!new)>(xs: seq<T>): (r: seq<T>)
    ensures forall x :: x in r <==> x in xs
    ensures forall i, j :: 0 <= i < j < |r| ==> r[i] != r[j]
    ensures |r| <= |xs|
  {
    var r := DedupBy(xs, Id, {});
    assert forall x :: x in xs ==> x in r by {
      forall x | x in xs ensures x in r {
        var i :| 0 <= i < |xs| && xs[i] == x;
        assert KeyIn(xs, Id, x);
        DedupByCovers(xs, Id, {}, x);
      }
    }
    r
  }

  /** A list without repeated elements has each element once in its multiset. */
  lemma {:induction false} DistinctCounts<T>(s: seq<T>, x: T)
    requires forall i, j :: 0 <= i < j < |s| ==> s[i] != s[j]
    ensures multiset(s)[x] <= 1
  {
    if s != [] {
      DistinctCounts(s[1..], x);
      assert s == [s[0]] + s[1..];
      if s[0] == x {
        assert x !in s[1..];
      }
    }
  }

  /** A list with a repeated element counts that element at least twice. */
  lemma RepeatCounts<T>(s: seq<T>, i: nat, j: nat)
    requires i < j < |s| && s[i] == s[j]
    ensures multiset(s)[s[i]] >= 2
  {
    assert s == s[..j] + [s[j]] + s[j + 1..];
    assert s[i] in s[..j];
  }

  /** The number of bytes of the character's UTF-8 encoding. */
  function Utf8Width(c: char): nat
  {
    if c < '\U{0080}' then 1 else if c < '\U{0800}' then 2 else if c < '\U{10000}' then 3 else 4
  }

  /** The length of the text's UTF-8 encoding: Go's `len` of a string. It is
      the number of characters exactly when they are all ASCII. */
  function Utf8Length(s: string): (n: nat)
    ensures n >= |s|
    ensures n == 0 <==> s == []
    ensures n == |s| <==> forall i :: 0 <= i < |s| ==> s[i] < '\U{0080}'
  {
    if s == [] then 0
    else
      var n := Utf8Width(s[0]) + Utf8Length(s[1..]);
      assert forall i :: 1 <= i < |s| ==> s[i] == s[1..][i - 1];
      n
  }
}
