/** JavaScript's conversion of values to numbers, as `Math.min`, `Math.max`,
    the comparator `(a, b) => a - b` and `x > 0` apply it, and `String()` of
    the number that results. Only integral numbers are modelled. */
module JsNumber {
  import opened Text
  import opened Json

  /** An integral JavaScript number, or one of the non-finite ones. */
  datatype Number = Finite(v: int) | NaN | Infinity | NegInfinity

  /** `String(x)`. */
  function NumberText(x: Number): string
  {
    match x
    case Finite(v) => IntToString(v)
    case NaN => "NaN"
    case Infinity => "Infinity"
    case NegInfinity => "-Infinity"
  }

  // ----- ToNumber -------------------------------------------------------

  /** The white space and line terminators `Number()` ignores around a
      string: tab, vertical tab, form feed, the byte order mark, the space
      separators and the line and paragraph separators. */
  predicate IsSpace(c: char)
  {
    c == ' ' || c == '\t' || c == '\n' || c == '\r' || c == '\U{000B}' || c == '\U{000C}'
    || c == '\U{00A0}' || c == '\U{FEFF}' || c == '\U{1680}' || ('\U{2000}' <= c <= '\U{200A}')
    || c == '\U{2028}' || c == '\U{2029}' || c == '\U{202F}' || c == '\U{205F}' || c == '\U{3000}'
  }

  /** The text without its leading and trailing white space. */
  function Trim(s: string): (r: string)
    ensures |r| > 0 ==> !IsSpace(r[0]) && !IsSpace(r[|r| - 1])
    ensures forall i :: 0 <= i < |s| && !IsSpace(s[i]) ==> |r| > 0
    ensures (forall i :: 0 <= i < |s| ==> !IsSpace(s[i])) ==> r == s
    decreases |s|
  {
    if |s| > 0 && IsSpace(s[0]) then Trim(s[1..])
    else if |s| > 0 && IsSpace(s[|s| - 1]) then
      var r := Trim(s[..|s| - 1]);
      assert forall i :: 0 <= i < |s| - 1 ==> s[..|s| - 1][i] == s[i];
      r
    else s
  }

  /** An unsigned decimal literal: `Infinity`, or a run of digits. */
  function Unsigned(t: string): Number
  {
    if t == "Infinity" then Infinity
    else if |t| > 0 && AllDigits(t) then Finite(DigitsValue(t))
    else NaN
  }

  function Negate(x: Number): Number
  {
    match x
    case Finite(v) => Finite(-v)
    case Infinity => NegInfinity
    case NegInfinity => Infinity
    case NaN => NaN
  }

  /** `Number(s)` for a string: empty or blank text is 0, otherwise an
      optionally signed decimal literal; anything else is NaN. */
  function StringToNumber(s: string): Number
  {
    var t := Trim(s);
    if t == "" then Finite(0)
    else if t[0] == '-' then Negate(Unsigned(t[1..]))
    else if t[0] == '+' then Unsigned(t[1..])
    else Unsigned(t)
  }

  /** `Number(v)`: `undefined` is NaN, `null` and `false` are 0, `true` is 1,
      and strings are read as decimal literals; arrays and objects are
      first turned into their string (`[16]` is "16", `[]` is "", an object
      "[object Object]"). */
  function ToNumber(v: Value): (r: Number)
    ensures v.Num? ==> r == Finite(v.n)
    ensures v.Undefined? ==> r.NaN?
    ensures v.Null? ==> r == Finite(0)
  {
    match v
    case Undefined => NaN
    case Null => Finite(0)
    case Bool(b) => Finite(if b then 1 else 0)
    case Num(n) => Finite(n)
    case Str(s) => StringToNumber(s)
    case Arr(_) => StringToNumber(ToJsString(v))
    case Obj(_) => StringToNumber(ToJsString(v))
  }

  /** A natural number's decimal text, bare or as the only element of an
      array, converts back to the number. */
  lemma DigitsToNumber(n: nat)
    ensures ToNumber(Str(NatToString(n))) == Finite(n)
    ensures ToNumber(Arr([Num(n)])) == Finite(n)
  {
    DecimalReadsBack(n, "", "");
    assert "" + NatToString(n) + "" == NatToString(n);
    assert JoinItems([Num(n)], ",") == ToJsString(Num(n)) == NatToString(n);
  }

  /** The digits of a natural number are an unsigned literal of its value. */
  lemma UnsignedDigits(n: nat)
    ensures Unsigned(NatToString(n)) == Finite(n)
  {
    NatToStringValue(n);
    assert NatToString(n)[0] != 'I';
  }

  /** The decimal text of a natural number reads back as that number, with
      or without white space around it. */
  lemma DecimalReadsBack(n: nat, pre: string, post: string)
    requires forall i :: 0 <= i < |pre| ==> IsSpace(pre[i])
    requires forall i :: 0 <= i < |post| ==> IsSpace(post[i])
    ensures StringToNumber(pre + NatToString(n) + post) == Finite(n)
  {
    var t := NatToString(n);
    assert IsDigit(t[0]) && IsDigit(t[|t| - 1]);
    TrimAround(pre, t, post);
    UnsignedDigits(n);
  }

  /** So does the text of a negative integer. */
  lemma NegativeDecimalReadsBack(n: nat, pre: string, post: string)
    requires n > 0
    requires forall i :: 0 <= i < |pre| ==> IsSpace(pre[i])
    requires forall i :: 0 <= i < |post| ==> IsSpace(post[i])
    ensures StringToNumber(pre + IntToString(-(n as int)) + post) == Finite(-(n as int))
  {
    var d := NatToString(n);
    var t := IntToString(-(n as int));
    assert t == "-" + d;
    assert t[0] == '-' && t[1..] == d && t[|t| - 1] == d[|d| - 1];
    assert IsDigit(d[|d| - 1]);
    TrimAround(pre, t, post);
    UnsignedDigits(n);
    assert StringToNumber(pre + t + post) == Negate(Unsigned(d));
  }

  /** Leading white space in front of a text that starts with another
      character is all that trimming drops at the front. */
  lemma {:induction false} TrimLeft(pre: string, u: string)
    requires forall i :: 0 <= i < |pre| ==> IsSpace(pre[i])
    requires |u| > 0 && !IsSpace(u[0])
    ensures Trim(pre + u) == Trim(u)
    decreases |pre|
  {
    if |pre| > 0 {
      var s := pre + u;
      assert IsSpace(s[0]);
      assert s[1..] == pre[1..] + u;
      TrimLeft(pre[1..], u);
    } else {
      assert pre + u == u;
    }
  }

  /** Trailing white space after a text that starts and ends with other
      characters is all that trimming drops. */
  lemma {:induction false} TrimRight(t: string, post: string)
    requires forall i :: 0 <= i < |post| ==> IsSpace(post[i])
    requires |t| > 0 && !IsSpace(t[0]) && !IsSpace(t[|t| - 1])
    ensures Trim(t + post) == t
    decreases |post|
  {
    var s := t + post;
    if |post| > 0 {
      assert !IsSpace(s[0]) && IsSpace(s[|s| - 1]);
      assert s[..|s| - 1] == t + post[..|post| - 1];
      TrimRight(t, post[..|post| - 1]);
    } else {
      assert s == t;
    }
  }

  /** Trimming drops exactly the white space around a text that starts and
      ends with other characters. */
  lemma TrimAround(pre: string, t: string, post: string)
    requires forall i :: 0 <= i < |pre| ==> IsSpace(pre[i])
    requires forall i :: 0 <= i < |post| ==> IsSpace(post[i])
    requires |t| > 0 && !IsSpace(t[0]) && !IsSpace(t[|t| - 1])
    ensures Trim(pre + t + post) == t
  {
    assert pre + t + post == pre + (t + post);
    TrimLeft(pre, t + post);
    TrimRight(t, post);
  }

  // ----- order ----------------------------------------------------------

  function Tier(x: Number): int
  {
    match x
    case NegInfinity => 0
    case Finite(_) => 1
    case Infinity => 2
    case NaN => 3
  }

  /** `a < b`; false whenever either is NaN. */
  predicate Less(a: Number, b: Number)
  {
    !a.NaN? && !b.NaN? && (Tier(a) < Tier(b) || (a.Finite? && b.Finite? && a.v < b.v))
  }

  /** `a === b` on numbers: NaN equals nothing, itself included. */
  predicate StrictEquals(a: Number, b: Number)
  {
    !a.NaN? && a == b
  }

  /** `x > 0`. */
  predicate Positive(x: Number)
  {
    Less(Finite(0), x)
  }

  /** Without NaN, `<` is a strict total order. */
  lemma LessTotal(a: Number, b: Number, c: Number)
    requires !a.NaN? && !b.NaN? && !c.NaN?
    ensures Less(a, b) || a == b || Less(b, a)
    ensures !(Less(a, b) && Less(b, a))
    ensures Less(a, b) && Less(b, c) ==> Less(a, c)
    ensures !Less(b, a) && !Less(c, b) ==> !Less(c, a)
  {
  }

  // ----- Math.min and Math.max ------------------------------------------

  predicate HasNaN(xs: seq<Value>)
  {
    exists i :: 0 <= i < |xs| && ToNumber(xs[i]).NaN?
  }

  function Min2(a: Number, b: Number): Number
  {
    if a.NaN? || b.NaN? then NaN else if Less(b, a) then b else a
  }

  function Max2(a: Number, b: Number): Number
  {
    if a.NaN? || b.NaN? then NaN else if Less(a, b) then b else a
  }

  /** `Math.min(...xs)`: NaN when some argument converts to NaN, `Infinity`
      for no arguments, and otherwise the least converted argument. */
  function MathMin(xs: seq<Value>): (r: Number)
    ensures r.NaN? <==> HasNaN(xs)
    ensures xs == [] ==> r == Infinity
    ensures !r.NaN? && xs != [] ==> exists i :: 0 <= i < |xs| && ToNumber(xs[i]) == r
    ensures !r.NaN? ==> forall i :: 0 <= i < |xs| ==> !Less(ToNumber(xs[i]), r)
  {
    if xs == [] then Infinity
    else
      var m := MathMin(xs[1..]);
      assert forall i :: 1 <= i < |xs| ==> xs[i] == xs[1..][i - 1];
      assert HasNaN(xs) <==> ToNumber(xs[0]).NaN? || HasNaN(xs[1..]) by {
        if HasNaN(xs[1..]) {
          var i :| 0 <= i < |xs[1..]| && ToNumber(xs[1..][i]).NaN?;
          assert ToNumber(xs[i + 1]).NaN?;
        }
      }
      Min2(ToNumber(xs[0]), m)
  }

  /** `Math.max(...xs)`: NaN when some argument converts to NaN, `-Infinity`
      for no arguments, and otherwise the greatest converted argument. */
  function MathMax(xs: seq<Value>): (r: Number)
    ensures r.NaN? <==> HasNaN(xs)
    ensures xs == [] ==> r == NegInfinity
    ensures !r.NaN? && xs != [] ==> exists i :: 0 <= i < |xs| && ToNumber(xs[i]) == r
    ensures !r.NaN? ==> forall i :: 0 <= i < |xs| ==> !Less(r, ToNumber(xs[i]))
  {
    if xs == [] then NegInfinity
    else
      var m := MathMax(xs[1..]);
      assert forall i :: 1 <= i < |xs| ==> xs[i] == xs[1..][i - 1];
      assert HasNaN(xs) <==> ToNumber(xs[0]).NaN? || HasNaN(xs[1..]) by {
        if HasNaN(xs[1..]) {
          var i :| 0 <= i < |xs[1..]| && ToNumber(xs[1..][i]).NaN?;
          assert ToNumber(xs[i + 1]).NaN?;
        }
      }
      Max2(ToNumber(xs[0]), m)
  }

  /** Every value converts to a finite number. */
  predicate AllFinite(xs: seq<Value>)
  {
    forall x :: x in xs ==> ToNumber(x).Finite?
  }

  /** `Math.min` and `Math.max` are both finite exactly when there are
      arguments and all of them convert to finite numbers. */
  lemma FiniteBounds(xs: seq<Value>)
    ensures MathMin(xs).Finite? && MathMax(xs).Finite? <==> xs != [] && AllFinite(xs)
  {
    var lo, hi := MathMin(xs), MathMax(xs);
    if xs != [] && AllFinite(xs) {
      assert forall i :: 0 <= i < |xs| ==> xs[i] in xs;
      var i :| 0 <= i < |xs| && ToNumber(xs[i]) == lo;
      var k :| 0 <= k < |xs| && ToNumber(xs[k]) == hi;
      assert xs[i] in xs && xs[k] in xs;
    }
    if lo.Finite? && hi.Finite? {
      forall x | x in xs ensures ToNumber(x).Finite? {
        var i :| 0 <= i < |xs| && xs[i] == x;
        assert !Less(ToNumber(xs[i]), lo) && !Less(hi, ToNumber(xs[i]));
      }
    }
  }

  /** Finite bounds are attained and enclose every argument. */
  lemma FiniteBoundsEnclose(xs: seq<Value>)
    requires MathMin(xs).Finite? && MathMax(xs).Finite?
    ensures exists x :: x in xs && ToNumber(x) == MathMin(xs)
    ensures exists x :: x in xs && ToNumber(x) == MathMax(xs)
    ensures forall x :: x in xs ==> ToNumber(x).Finite? && MathMin(xs).v <= ToNumber(x).v <= MathMax(xs).v
  {
    var lo, hi := MathMin(xs), MathMax(xs);
    FiniteBounds(xs);
    var i :| 0 <= i < |xs| && ToNumber(xs[i]) == lo;
    var k :| 0 <= k < |xs| && ToNumber(xs[k]) == hi;
    assert xs[i] in xs && xs[k] in xs;
    forall x | x in xs ensures MathMin(xs).v <= ToNumber(x).v <= MathMax(xs).v {
      var j :| 0 <= j < |xs| && xs[j] == x;
      assert !Less(ToNumber(xs[j]), lo) && !Less(hi, ToNumber(xs[j]));
    }
  }

  // ----- sort((a, b) => a - b) ------------------------------------------

  /** The values' numbers never decrease. */
  predicate SortedByNumber(s: seq<Value>)
  {
    forall i, j :: 0 <= i < j < |s| ==> !Less(ToNumber(s[j]), ToNumber(s[i]))
  }

  predicate NoNaN(s: seq<Value>)
  {
    forall i :: 0 <= i < |s| ==> !ToNumber(s[i]).NaN?
  }

  /** Inserts `x` before the first element whose number is not below its
      own, after the smaller ones. */
  function InsertByNumber(x: Value, s: seq<Value>): (r: seq<Value>)
    ensures multiset(r) == multiset(s) + multiset{x}
  {
    if s == [] then [x]
    else if !Less(ToNumber(s[0]), ToNumber(x)) then [x] + s
    else
      assert s == [s[0]] + s[1..];
      [s[0]] + InsertByNumber(x, s[1..])
  }

  /** Inserting into a list sorted by number keeps it sorted; the inserted
      value and the list itself are the only sources of elements. */
  lemma {:induction false} InsertKeepsOrder(x: Value, s: seq<Value>)
    requires !ToNumber(x).NaN? && NoNaN(s) && SortedByNumber(s)
    ensures NoNaN(InsertByNumber(x, s)) && SortedByNumber(InsertByNumber(x, s))
    ensures forall j :: 0 <= j < |InsertByNumber(x, s)| ==> InsertByNumber(x, s)[j] == x || InsertByNumber(x, s)[j] in s
  {
    var r := InsertByNumber(x, s);
    if s == [] {
    } else if !Less(ToNumber(s[0]), ToNumber(x)) {
      PrependKeepsOrder(x, s);
    } else {
      var t := InsertByNumber(x, s[1..]);
      TailKeepsOrder(s);
      InsertKeepsOrder(x, s[1..]);
      assert r == [s[0]] + t;
      forall j | 0 <= j < |t| ensures !Less(ToNumber(t[j]), ToNumber(s[0])) {
        if t[j] == x {
          LessTotal(ToNumber(s[0]), ToNumber(x), ToNumber(x));
        } else {
          var k :| 0 <= k < |s[1..]| && s[1..][k] == t[j];
          assert s[k + 1] == t[j];
        }
      }
      ConsKeepsOrder(s[0], t);
      forall j | 0 <= j < |r| ensures r[j] == x || r[j] in s {
        if j > 0 {
          assert r[j] == t[j - 1];
        }
      }
    }
  }

  lemma TailKeepsOrder(s: seq<Value>)
    requires s != [] && NoNaN(s) && SortedByNumber(s)
    ensures NoNaN(s[1..]) && SortedByNumber(s[1..])
  {
    assert forall i :: 0 <= i < |s| - 1 ==> s[1..][i] == s[i + 1];
  }

  /** A value not above any element of a sorted list can go in front of it. */
  lemma ConsKeepsOrder(h: Value, t: seq<Value>)
    requires !ToNumber(h).NaN? && NoNaN(t) && SortedByNumber(t)
    requires forall j :: 0 <= j < |t| ==> !Less(ToNumber(t[j]), ToNumber(h))
    ensures NoNaN([h] + t) && SortedByNumber([h] + t)
  {
    var r := [h] + t;
    assert forall j :: 0 < j < |r| ==> r[j] == t[j - 1];
  }

  /** A value not above the head of a sorted list can go in front of it. */
  lemma PrependKeepsOrder(x: Value, s: seq<Value>)
    requires !ToNumber(x).NaN? && NoNaN(s) && SortedByNumber(s)
    requires s != [] && !Less(ToNumber(s[0]), ToNumber(x))
    ensures NoNaN([x] + s) && SortedByNumber([x] + s)
  {
    forall j | 0 <= j < |s| ensures !Less(ToNumber(s[j]), ToNumber(x)) {
      LessTotal(ToNumber(x), ToNumber(s[0]), ToNumber(s[j]));
    }
    ConsKeepsOrder(x, s);
  }

  /** A stable insertion sort by number. */
  function SortByNumber(xs: seq<Value>): (r: seq<Value>)
    ensures multiset(r) == multiset(xs)
  {
    if xs == [] then []
    else
      assert xs == [xs[0]] + xs[1..];
      InsertByNumber(xs[0], SortByNumber(xs[1..]))
  }

  /** Values none of which converts to NaN come out sorted by number. */
  lemma {:induction false} SortByNumberSorts(xs: seq<Value>)
    requires NoNaN(xs)
    ensures NoNaN(SortByNumber(xs)) && SortedByNumber(SortByNumber(xs))
  {
    if xs != [] {
      assert NoNaN(xs[1..]) by {
        assert forall i :: 0 <= i < |xs| - 1 ==> xs[1..][i] == xs[i + 1];
      }
      SortByNumberSorts(xs[1..]);
      InsertKeepsOrder(xs[0], SortByNumber(xs[1..]));
    }
  }

  function DefinedOnes(xs: seq<Value>): (r: seq<Value>)
    ensures forall i :: 0 <= i < |r| ==> !r[i].Undefined?
  {
    if xs == [] then []
    else (if xs[0].Undefined? then [] else [xs[0]]) + DefinedOnes(xs[1..])
  }

  function UndefinedOnes(xs: seq<Value>): (r: seq<Value>)
    ensures forall i :: 0 <= i < |r| ==> r[i].Undefined?
  {
    if xs == [] then []
    else (if xs[0].Undefined? then [xs[0]] else []) + UndefinedOnes(xs[1..])
  }

  /** Splitting off the `undefined` elements loses and adds nothing. */
  lemma {:induction false} PartsPermute(xs: seq<Value>)
    ensures multiset(DefinedOnes(xs)) + multiset(UndefinedOnes(xs)) == multiset(xs)
  {
    if xs != [] {
      PartsPermute(xs[1..]);
      assert xs == [xs[0]] + xs[1..];
    }
  }

  /** `xs.sort((a, b) => a - b)`: `undefined` elements go last and the others
      are compared by `a - b`. When no other element converts to NaN the
      comparator is consistent and the sort is stable and by number. With a
      NaN the comparator is inconsistent and the order is left to the
      engine; the elements are then kept in their order. */
  function JsSort(xs: seq<Value>): (r: seq<Value>)
    ensures multiset(r) == multiset(xs)
    ensures NoNaN(DefinedOnes(xs)) ==> forall i, j :: 0 <= i < j < |r| ==>
      (r[i].Undefined? ==> r[j].Undefined?) && (!r[j].Undefined? ==> !Less(ToNumber(r[j]), ToNumber(r[i])))
  {
    PartsPermute(xs);
    var d := DefinedOnes(xs);
    if NoNaN(d) then
      var s := SortByNumber(d);
      SortByNumberSorts(d);
      var r := s + UndefinedOnes(xs);
      assert forall i :: 0 <= i < |s| ==> s[i] in multiset(d);
      assert forall i :: 0 <= i < |s| ==> !s[i].Undefined?;
      r
    else d + UndefinedOnes(xs)
  }

  /** Sorting keeps the elements, so a list without repeats stays without. */
  lemma JsSortDistinct(xs: seq<Value>)
    requires forall i, j :: 0 <= i < j < |xs| ==> xs[i] != xs[j]
    ensures forall x :: x in JsSort(xs) <==> x in xs
    ensures forall i, j :: 0 <= i < j < |JsSort(xs)| ==> JsSort(xs)[i] != JsSort(xs)[j]
  {
    var r := JsSort(xs);
    assert forall x :: x in r <==> x in multiset(r);
    assert forall x :: x in xs <==> x in multiset(xs);
    forall i, j | 0 <= i < j < |r| ensures r[i] != r[j] {
      if r[i] == r[j] {
        RepeatCounts(r, i, j);
        DistinctCounts(xs, r[i]);
      }
    }
  }

  /** Distinct numbers come out strictly increasing. */
  lemma JsSortNumbersIncrease(xs: seq<Value>)
    requires forall x :: x in xs ==> x.Num?
    requires forall i, j :: 0 <= i < j < |xs| ==> xs[i] != xs[j]
    ensures forall i, j :: 0 <= i < j < |JsSort(xs)| ==>
      JsSort(xs)[i].Num? && JsSort(xs)[j].Num? && JsSort(xs)[i].n < JsSort(xs)[j].n
  {
    var r := JsSort(xs);
    JsSortDistinct(xs);
    PartsPermute(xs);
    assert NoNaN(DefinedOnes(xs)) by {
      forall k | 0 <= k < |DefinedOnes(xs)| ensures !ToNumber(DefinedOnes(xs)[k]).NaN? {
        assert DefinedOnes(xs)[k] in multiset(DefinedOnes(xs));
      }
    }
    forall i, j | 0 <= i < j < |r| ensures r[i].Num? && r[j].Num? && r[i].n < r[j].n {
      assert r[i] in xs && r[j] in xs;
    }
  }
}
