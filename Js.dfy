/**
 * The few pieces of JavaScript value semantics the dashboard relies on:
 * optional values, the result of `Number(x)`, truthiness, the `<` order on
 * strings, and plain objects as insertion-ordered field lists (including
 * parsed JSON).
 */
module Js {

  datatype Option<+T> = None | Some(value: T)
  {
    function GetOr(default: T): T
    {
      match this
      case Some(v) => v
      case None => default
    }
  }

  function Init<T>(s: seq<T>): seq<T>
    requires s != []
  {
    s[..|s| - 1]
  }

  function Last<T>(s: seq<T>): T
    requires s != []
  {
    s[|s| - 1]
  }

  lemma InitLast<T>(s: seq<T>)
    requires s != []
    ensures s == Init(s) + [Last(s)]
  {
  }

  lemma InitLastSnoc<T>(s: seq<T>, x: T)
    ensures Init(s + [x]) == s && Last(s + [x]) == x
  {
  }

  /** The outcome of JavaScript's `Number(x)`: a finite number or NaN. */
  datatype Number = NaN | Num(value: real)

  /** `Number(x) || 0`: NaN (and both zeros) become 0. */
  function OrZero(n: Number): real
  {
    match n
    case NaN => 0.0
    case Num(v) => v
  }

  /** `s || d` for a string `s`: the empty string is the only falsy string. */
  function OrDefault(s: string, d: string): string
  {
    if s != "" then s else d
  }

  /** Truthiness of an optional string (`undefined`/`null` or a string). */
  predicate Truthy(o: Option<string>)
  {
    o.Some? && o.value != ""
  }

  /** JavaScript's `a < b` on two strings: lexicographic on characters. */
  predicate StrLess(a: string, b: string)
  {
    if a == [] then b != []
    else if b == [] then false
    else if a[0] != b[0] then a[0] < b[0]
    else StrLess(a[1..], b[1..])
  }

  lemma {:induction false} StrLessIrreflexive(a: string)
    ensures !StrLess(a, a)
  {
    if a != [] {
      StrLessIrreflexive(a[1..]);
    }
  }

  lemma {:induction false} StrLessAsymmetric(a: string, b: string)
    requires StrLess(a, b)
    ensures !StrLess(b, a)
  {
    if a != [] && b != [] && a[0] == b[0] {
      StrLessAsymmetric(a[1..], b[1..]);
    }
  }

  lemma {:induction false} StrLessTotal(a: string, b: string)
    ensures a == b || StrLess(a, b) || StrLess(b, a)
  {
    if a != [] && b != [] && a[0] == b[0] {
      StrLessTotal(a[1..], b[1..]);
      if a[1..] == b[1..] {
        assert a == [a[0]] + a[1..] && b == [b[0]] + b[1..];
      }
    }
  }

  lemma {:induction false} StrLessTransitive(a: string, b: string, c: string)
    requires StrLess(a, b) && StrLess(b, c)
    ensures StrLess(a, c)
  {
    if a != [] && a[0] == b[0] && b[0] == c[0] {
      StrLessTransitive(a[1..], b[1..], c[1..]);
    }
  }

  /** `!(a < b)` is a total preorder: "a is not earlier than b" chains. */
  lemma NotLessTransitive(a: string, b: string, c: string)
    requires !StrLess(a, b) && !StrLess(b, c)
    ensures !StrLess(a, c)
  {
    StrLessTotal(a, b);
    StrLessTotal(b, c);
    if StrLess(a, c) {
      if a == b {
      } else if b == c {
      } else {
        StrLessTransitive(c, b, a);
        StrLessAsymmetric(c, a);
      }
    }
  }

  /** A value as produced by `JSON.parse`. Objects keep their keys in order. */
  datatype Json =
    | JNull
    | JBool(b: bool)
    | JNum(n: real)
    | JStr(s: string)
    | JArr(items: seq<Json>)
    | JObj(fields: seq<(string, Json)>)

  /** JavaScript truthiness of a parsed JSON value (JSON has no NaN). */
  predicate JsonTruthy(j: Json)
  {
    match j
    case JNull => false
    case JBool(b) => b
    case JNum(n) => n != 0.0
    case JStr(s) => s != ""
    case JArr(_) => true
    case JObj(_) => true
  }

  // ---------------------------------------------------------------------
  // Plain objects as insertion-ordered lists of (name, value) fields.

  function Names<V>(fields: seq<(string, V)>): (r: seq<string>)
    ensures |r| == |fields|
  {
    if fields == [] then [] else [fields[0].0] + Names(fields[1..])
  }

  predicate Distinct<T(==)>(s: seq<T>)
  {
    forall i, j :: 0 <= i < j < |s| ==> s[i] != s[j]
  }

  /** Property lookup `o[name]`; `None` stands for `undefined`. */
  function Get<V>(fields: seq<(string, V)>, name: string): (r: Option<V>)
    ensures r.Some? <==> name in Names(fields)
  {
    if fields == [] then None
    else if fields[0].0 == name then Some(fields[0].1)
    else Get(fields[1..], name)
  }

  /** With distinct names, looking up a field's name finds that field. */
  lemma {:induction false} GetDistinctAt<V>(fields: seq<(string, V)>, k: nat)
    requires Distinct(Names(fields)) && k < |fields|
    ensures Get(fields, fields[k].0) == Some(fields[k].1)
  {
    if k > 0 {
      var names := Names(fields);
      assert names == [fields[0].0] + Names(fields[1..]);
      assert names[0] == fields[0].0;
      NameAt(fields, k);
      assert names[k] == fields[k].0;
      assert Distinct(Names(fields[1..])) by {
        forall i, j | 0 <= i < j < |Names(fields[1..])| ensures Names(fields[1..])[i] != Names(fields[1..])[j] {
          assert Names(fields[1..])[i] == names[i + 1] && Names(fields[1..])[j] == names[j + 1];
        }
      }
      GetDistinctAt(fields[1..], k - 1);
    }
  }

  lemma {:induction false} NameAt<V>(fields: seq<(string, V)>, k: nat)
    requires k < |fields|
    ensures Names(fields)[k] == fields[k].0
  {
    if k > 0 {
      NameAt(fields[1..], k - 1);
    }
  }

  lemma {:induction false} NamesAppend<V>(a: seq<(string, V)>, b: seq<(string, V)>)
    ensures Names(a + b) == Names(a) + Names(b)
  {
    if a == [] {
      assert a + b == b;
    } else {
      assert (a + b)[1..] == a[1..] + b;
      NamesAppend(a[1..], b);
    }
  }

  /** Lookup in a concatenation finds the first part's field first. */
  lemma {:induction false} GetAppend<V>(a: seq<(string, V)>, b: seq<(string, V)>, name: string)
    ensures Get(a + b, name) == if name in Names(a) then Get(a, name) else Get(b, name)
  {
    if a != [] {
      assert (a + b)[1..] == a[1..] + b;
      assert Names(a) == [a[0].0] + Names(a[1..]);
      GetAppend(a[1..], b, name);
    } else {
      assert a + b == b;
    }
  }

  /** Property assignment `o[name] = v`: an existing key keeps its place, a new key goes last. */
  function Put<V>(fields: seq<(string, V)>, name: string, v: V): seq<(string, V)>
  {
    if fields == [] then [(name, v)]
    else if fields[0].0 == name then [(name, v)] + fields[1..]
    else [fields[0]] + Put(fields[1..], name, v)
  }

  /** `Object.assign(target, source)`: assigns the source's fields in their order. */
  function Assign<V>(target: seq<(string, V)>, source: seq<(string, V)>): seq<(string, V)>
    decreases |source|
  {
    if source == [] then target
    else Assign(Put(target, source[0].0, source[0].1), source[1..])
  }

  lemma {:induction false} PutGet<V>(fields: seq<(string, V)>, name: string, v: V, other: string)
    ensures Get(Put(fields, name, v), other) == if other == name then Some(v) else Get(fields, other)
  {
    if fields != [] && fields[0].0 != name {
      PutGet(fields[1..], name, v, other);
    }
  }

  lemma {:induction false} PutNames<V>(fields: seq<(string, V)>, name: string, v: V)
    ensures Names(Put(fields, name, v)) == if name in Names(fields) then Names(fields) else Names(fields) + [name]
  {
    if fields != [] && fields[0].0 != name {
      PutNames(fields[1..], name, v);
      assert Names(fields) == [fields[0].0] + Names(fields[1..]);
    }
  }

  /** Every field of `source` wins; every other field of `target` survives. */
  lemma {:induction false} AssignGet<V>(target: seq<(string, V)>, source: seq<(string, V)>, name: string)
    requires Distinct(Names(source))
    ensures Get(Assign(target, source), name) ==
            if name in Names(source) then Get(source, name) else Get(target, name)
    decreases |source|
  {
    if source != [] {
      var rest := source[1..];
      assert Names(source) == [source[0].0] + Names(rest);
      assert Distinct(Names(rest)) by {
        forall i, j | 0 <= i < j < |Names(rest)| ensures Names(rest)[i] != Names(rest)[j] {
          assert Names(rest)[i] == Names(source)[i + 1];
          assert Names(rest)[j] == Names(source)[j + 1];
        }
      }
      AssignGet(Put(target, source[0].0, source[0].1), rest, name);
      PutGet(target, source[0].0, source[0].1, name);
      if name == source[0].0 {
        assert name !in Names(rest) by {
          forall j | 0 <= j < |Names(rest)| ensures Names(rest)[j] != name {
            assert Names(rest)[j] == Names(source)[j + 1];
            assert Names(source)[0] == name;
          }
        }
      }
    }
  }

  /** The keys of `Object.assign(target, source)`: the target's, then the source's new ones in order. */
  lemma {:induction false} AssignNames<V>(target: seq<(string, V)>, source: seq<(string, V)>)
    ensures Names(Assign(target, source)) == Names(target) + NewNames(Names(target), Names(source))
    decreases |source|
  {
    if source != [] {
      var n, rest := source[0].0, source[1..];
      var t' := Put(target, n, source[0].1);
      var known := Names(target);
      assert Names(source) == [n] + Names(rest);
      assert Names(Assign(target, source)) == Names(t') + NewNames(Names(t'), Names(rest)) by {
        AssignNames(t', rest);
      }
      assert Names(t') == if n in known then known else known + [n] by {
        PutNames(target, n, source[0].1);
      }
    }
  }

  /** The names of `added` that are not already in `known` (or earlier in `added`), in order. */
  function NewNames(known: seq<string>, added: seq<string>): seq<string>
    decreases |added|
  {
    if added == [] then []
    else if added[0] in known then NewNames(known, added[1..])
    else [added[0]] + NewNames(known + [added[0]], added[1..])
  }
}
