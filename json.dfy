/** The JavaScript values the catalog build scripts handle: the parsed JSON
    source files and the objects the scripts build from them. An object is
    an association list that keeps its keys in insertion order. */
module Json {
  import opened Text

  datatype Value =
    | Undefined
    | Null
    | Bool(b: bool)
    | Num(n: int)
    | Str(s: string)
    | Arr(items: seq<Value>)
    | Obj(fields: seq<Field>)

  datatype Field = Field(key: string, value: Value)

  /** JavaScript truthiness: `undefined`, `null`, `false`, `0` and `''` are falsy. */
  predicate Truthy(v: Value)
  {
    match v
    case Undefined => false
    case Null => false
    case Bool(b) => b
    case Num(n) => n != 0
    case Str(s) => s != ""
    case Arr(_) => true
    case Obj(_) => true
  }

  /** `a || b`. */
  function Or(a: Value, b: Value): Value
  {
    if Truthy(a) then a else b
  }

  /** The value of the first field named `k`, or `undefined`. */
  function Lookup(fs: seq<Field>, k: string): (r: Value)
  {
    if fs == [] then Undefined
    else if fs[0].key == k then fs[0].value
    else Lookup(fs[1..], k)
  }

  /** A value read is the value of a field with that key; no such field,
      and the read is `undefined`. */
  lemma {:induction false} LookupFound(fs: seq<Field>, k: string)
    ensures Lookup(fs, k) != Undefined ==> exists i :: 0 <= i < |fs| && fs[i].key == k && fs[i].value == Lookup(fs, k)
    ensures (forall i :: 0 <= i < |fs| ==> fs[i].key != k) ==> Lookup(fs, k) == Undefined
  {
    if fs != [] && fs[0].key != k {
      LookupFound(fs[1..], k);
      if Lookup(fs, k) != Undefined {
        var i :| 0 <= i < |fs[1..]| && fs[1..][i].key == k && fs[1..][i].value == Lookup(fs, k);
        assert fs[i + 1] == fs[1..][i];
      }
    }
  }

  /** Property read `v.k`: an object's own field, the `length` of a string or
      array, and `undefined` for everything else. */
  function Get(v: Value, k: string): (r: Value)
    ensures v.Obj? ==> r == Lookup(v.fields, k)
    ensures !v.Obj? && r != Undefined ==> k == "length" && r.Num?
  {
    match v
    case Obj(fs) => Lookup(fs, k)
    case Str(s) => if k == "length" then Num(|s|) else Undefined
    case Arr(xs) => if k == "length" then Num(|xs|) else Undefined
    case _ => Undefined
  }

  /** Reading a key from an object with one more field in front. */
  lemma LookupCons(f: Field, fs: seq<Field>, k: string)
    ensures Lookup([f] + fs, k) == if f.key == k then f.value else Lookup(fs, k)
  {
    assert ([f] + fs)[1..] == fs;
  }

  /** The first field with a key is the one a read of that key finds. */
  lemma {:induction false} LookupFirst(fs: seq<Field>, i: nat)
    requires i < |fs|
    requires forall j :: 0 <= j < i ==> fs[j].key != fs[i].key
    ensures Lookup(fs, fs[i].key) == fs[i].value
  {
    if i > 0 {
      assert fs[0].key != fs[i].key;
      LookupFirst(fs[1..], i - 1);
    }
  }

  /** The fields pairing each key with the value at the same place. */
  function Zip(ks: seq<string>, vs: seq<Value>): (fs: seq<Field>)
    requires |ks| == |vs|
    ensures |fs| == |ks|
    ensures forall i :: 0 <= i < |fs| ==> fs[i].key == ks[i] && fs[i].value == vs[i]
  {
    seq(|ks|, i requires 0 <= i < |ks| => Field(ks[i], vs[i]))
  }

  /** A key read from zipped fields finds the value paired with its first
      occurrence. */
  lemma LookupZip(ks: seq<string>, vs: seq<Value>, i: nat)
    requires |ks| == |vs| && i < |ks|
    requires forall j :: 0 <= j < i ==> ks[j] != ks[i]
    ensures Lookup(Zip(ks, vs), ks[i]) == vs[i]
  {
    LookupFirst(Zip(ks, vs), i);
  }

  predicate HasKey(fs: seq<Field>, k: string)
  {
    exists i :: 0 <= i < |fs| && fs[i].key == k
  }

  /** The keys of an object, in order. */
  function Keys(fs: seq<Field>): (ks: seq<string>)
    ensures |ks| == |fs|
    ensures forall i :: 0 <= i < |fs| ==> ks[i] == fs[i].key
  {
    if fs == [] then [] else [fs[0].key] + Keys(fs[1..])
  }

  /** A key is present exactly when it is among the keys. */
  lemma HasKeyKeys(fs: seq<Field>, k: string)
    ensures HasKey(fs, k) <==> k in Keys(fs)
  {
    if k in Keys(fs) {
      var i :| 0 <= i < |fs| && Keys(fs)[i] == k;
      assert fs[i].key == k;
    }
  }

  /** The first field with key `k` is the one read. */
  lemma {:induction false} LookupAt(fs: seq<Field>, i: nat, k: string)
    requires i < |fs| && fs[i].key == k && k !in Keys(fs)[..i]
    ensures Lookup(fs, k) == fs[i].value
  {
    if i > 0 {
      assert Keys(fs)[0] == fs[0].key;
      assert Keys(fs[1..])[..i - 1] == Keys(fs)[1..i];
      LookupAt(fs[1..], i - 1, k);
    }
  }

  /** Assignment `o[k] = v`: an existing key keeps its place, a new key goes last. */
  function Put(fs: seq<Field>, k: string, v: Value): (r: seq<Field>)
    ensures Lookup(r, k) == v
    ensures forall j :: j != k ==> Lookup(r, j) == Lookup(fs, j)
    ensures HasKey(fs, k) ==> |r| == |fs|
    ensures !HasKey(fs, k) ==> r == fs + [Field(k, v)]
  {
    if fs == [] then [Field(k, v)]
    else if fs[0].key == k then
      var r := [Field(k, v)] + fs[1..];
      assert forall i :: 1 <= i < |fs| ==> r[i] == fs[i];
      r
    else
      var t := Put(fs[1..], k, v);
      assert forall i :: 1 <= i < |fs| ==> fs[i] == fs[1..][i - 1];
      [fs[0]] + t
  }

  lemma HasKeyCons(f: Field, fs: seq<Field>, j: string)
    ensures HasKey([f] + fs, j) <==> f.key == j || HasKey(fs, j)
  {
    if f.key == j {
      assert ([f] + fs)[0].key == j;
    }
    if HasKey(fs, j) {
      var i :| 0 <= i < |fs| && fs[i].key == j;
      assert ([f] + fs)[i + 1] == fs[i];
    }
    if HasKey([f] + fs, j) && f.key != j {
      var i :| 0 <= i < |[f] + fs| && ([f] + fs)[i].key == j;
      assert fs[i - 1] == ([f] + fs)[i];
    }
  }

  /** Assignment adds its key and no other. */
  lemma {:induction false} PutHasKey(fs: seq<Field>, k: string, v: Value, j: string)
    ensures HasKey(Put(fs, k, v), j) <==> HasKey(fs, j) || j == k
  {
    if fs != [] {
      HasKeyCons(fs[0], fs[1..], j);
      assert fs == [fs[0]] + fs[1..];
      if fs[0].key == k {
        HasKeyCons(Field(k, v), fs[1..], j);
      } else {
        PutHasKey(fs[1..], k, v, j);
        HasKeyCons(fs[0], Put(fs[1..], k, v), j);
      }
    }
  }

  /** Object spread `{...base, ...extra}`: each field of `extra` assigned in turn. */
  function Spread(base: seq<Field>, extra: seq<Field>): seq<Field>
    decreases |extra|
  {
    if extra == [] then base
    else Spread(Put(base, extra[0].key, extra[0].value), extra[1..])
  }

  /** A JavaScript object never holds the same key twice. */
  predicate DistinctKeys(fs: seq<Field>)
  {
    forall i, j :: 0 <= i < j < |fs| ==> fs[i].key != fs[j].key
  }

  /** After a spread, a key `extra` does not hold reads as in `base`. */
  lemma {:induction false} SpreadKeeps(base: seq<Field>, extra: seq<Field>, k: string)
    requires !HasKey(extra, k)
    ensures Lookup(Spread(base, extra), k) == Lookup(base, k)
    ensures HasKey(Spread(base, extra), k) <==> HasKey(base, k)
    decreases |extra|
  {
    if extra != [] {
      assert !HasKey(extra[1..], k) by {
        forall i | 0 <= i < |extra[1..]| ensures extra[1..][i].key != k {
          assert extra[1..][i] == extra[i + 1];
        }
      }
      PutHasKey(base, extra[0].key, extra[0].value, k);
      SpreadKeeps(Put(base, extra[0].key, extra[0].value), extra[1..], k);
    }
  }

  /** After a spread, a key of `extra` reads as in `extra`. */
  lemma {:induction false} SpreadOverrides(base: seq<Field>, extra: seq<Field>, k: string)
    requires DistinctKeys(extra) && HasKey(extra, k)
    ensures Lookup(Spread(base, extra), k) == Lookup(extra, k)
    ensures HasKey(Spread(base, extra), k)
    decreases |extra|
  {
    var next := Put(base, extra[0].key, extra[0].value);
    PutHasKey(base, extra[0].key, extra[0].value, k);
    if extra[0].key == k {
      assert !HasKey(extra[1..], k) by {
        forall i | 0 <= i < |extra[1..]| ensures extra[1..][i].key != k {
          assert extra[1..][i] == extra[i + 1];
        }
      }
      SpreadKeeps(next, extra[1..], k);
    } else {
      var i :| 0 <= i < |extra| && extra[i].key == k;
      assert extra[1..][i - 1] == extra[i];
      SpreadOverrides(next, extra[1..], k);
    }
  }

  /** `Object.fromEntries(Object.entries(o).filter(([k]) => !omit.includes(k)))`. */
  function WithoutKeys(fs: seq<Field>, omit: seq<string>): (r: seq<Field>)
    ensures forall i :: 0 <= i < |r| ==> r[i].key !in omit
    ensures forall i :: 0 <= i < |r| ==> r[i] in fs
    ensures forall i :: 0 <= i < |fs| && fs[i].key !in omit ==> fs[i] in r
  {
    if fs == [] then []
    else if fs[0].key in omit then WithoutKeys(fs[1..], omit)
    else [fs[0]] + WithoutKeys(fs[1..], omit)
  }

  /** Dropping keys leaves the other keys' values alone and keeps the keys
      distinct. */
  lemma {:induction false} WithoutKeysLookup(fs: seq<Field>, omit: seq<string>, k: string)
    requires k !in omit
    ensures Lookup(WithoutKeys(fs, omit), k) == Lookup(fs, k)
    ensures HasKey(WithoutKeys(fs, omit), k) <==> HasKey(fs, k)
  {
    if fs != [] {
      WithoutKeysLookup(fs[1..], omit, k);
      assert HasKey(fs, k) <==> fs[0].key == k || HasKey(fs[1..], k) by {
        assert forall i :: 1 <= i < |fs| ==> fs[i] == fs[1..][i - 1];
      }
      var r := WithoutKeys(fs, omit);
      if fs[0].key !in omit {
        var t := WithoutKeys(fs[1..], omit);
        assert r == [fs[0]] + t;
        assert HasKey(r, k) <==> fs[0].key == k || HasKey(t, k) by {
          assert forall i :: 1 <= i < |r| ==> r[i] == t[i - 1];
        }
      }
    }
  }

  lemma {:induction false} WithoutKeysDistinct(fs: seq<Field>, omit: seq<string>)
    requires DistinctKeys(fs)
    ensures DistinctKeys(WithoutKeys(fs, omit))
  {
    if fs != [] {
      WithoutKeysDistinct(fs[1..], omit);
      if fs[0].key !in omit {
        var t := WithoutKeys(fs[1..], omit);
        forall i | 0 <= i < |t| ensures t[i].key != fs[0].key {
          var j :| 0 <= j < |fs[1..]| && fs[1..][j] == t[i];
          assert fs[j + 1] == t[i];
        }
      }
    }
  }

  /** `String(v)` and template-literal interpolation `${v}`. An array renders
      its elements joined by ',' with `null` and `undefined` as empty. */
  function ToJsString(v: Value): string
    decreases v
  {
    match v
    case Undefined => "undefined"
    case Null => "null"
    case Bool(b) => if b then "true" else "false"
    case Num(n) => IntToString(n)
    case Str(s) => s
    case Arr(xs) => JoinItems(xs, ",")
    case Obj(_) => "[object Object]"
  }

  /** `xs.join(sep)` for arbitrary elements. */
  function JoinItems(xs: seq<Value>, sep: string): string
    decreases xs
  {
    if |xs| == 0 then ""
    else
      var first := if xs[0].Undefined? || xs[0].Null? then "" else ToJsString(xs[0]);
      if |xs| == 1 then first else first + sep + JoinItems(xs[1..], sep)
  }

  /** Array.isArray(v) ? v : [v] */
  function AsList(v: Value): (r: seq<Value>)
    ensures v.Arr? ==> r == v.items
    ensures !v.Arr? ==> r == [v]
  {
    if v.Arr? then v.items else [v]
  }
}
