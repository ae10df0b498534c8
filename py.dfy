/** The part of Python's data model the scripts rely on: JSON-shaped values,
    truthiness, `dict.get`, `str()`, `float()`, `.strip()` and f-string
    alignment, and exceptions as an error result. */
module Py {
  import Text
  import Seqs

  datatype Option<+T> = None | Some(value: T)

  /** The outcome of evaluating a Python expression: a value, or an exception
      was raised. Which exception is not recorded: every caller in the
      scripts either lets it end the run or catches all kinds alike. */
  datatype Result<+T> = Ok(value: T) | Raise {
    predicate IsFailure() { Raise? }
    function PropagateFailure<U>(): Result<U>
      requires Raise?
    {
      Raise
    }
    function Extract(): T
      requires Ok?
    {
      value
    }
  }

  /** A value as `json.load` produces it; objects are keyed by strings. */
  datatype Json =
    | Null
    | Bool(b: bool)
    | Int(i: int)
    | Float(x: real)
    | Str(s: string)
    | Arr(items: seq<Json>)
    | Obj(fields: map<string, Json>)

  type Dict = map<string, Json>

  /** The library functions whose internals are not modelled. */
  datatype Host = Host(
    parseFloat: string -> Option<real>,   // float(s); None where it raises ValueError
    showFloat: real -> string,            // str(x) for a float
    showContainer: Json -> string,        // str(v) for a list or a dict
    decode: string -> Option<Json>)       // json.loads(s); None where it raises

  /** Python's truth value of `v`. */
  predicate Truthy(v: Json) {
    match v
    case Null => false
    case Bool(b) => b
    case Int(i) => i != 0
    case Float(x) => x != 0.0
    case Str(s) => s != ""
    case Arr(items) => items != []
    case Obj(m) => m != map[]
  }

  /** `a or b`. */
  function Or(a: Json, b: Json): Json {
    if Truthy(a) then a else b
  }

  /** `d.get(k, default)`. */
  function Get(d: Dict, k: string, default: Json): Json {
    if k in d then d[k] else default
  }

  /** `v[k]` for a string key: only a dict holding `k` answers. */
  function Index(v: Json, k: string): Result<Json> {
    if v.Obj? && k in v.fields then Ok(v.fields[k]) else Raise
  }

  /** `str(v)`. */
  function ToStr(h: Host, v: Json): string {
    match v
    case Null => "None"
    case Bool(b) => if b then "True" else "False"
    case Int(i) => Text.IntToString(i)
    case Float(x) => h.showFloat(x)
    case Str(s) => s
    case Arr(_) => h.showContainer(v)
    case Obj(_) => h.showContainer(v)
  }

  /** `float(v)`; `None`, lists and dicts raise TypeError. */
  function ToFloat(h: Host, v: Json): Result<real> {
    match v
    case Bool(b) => Ok(if b then 1.0 else 0.0)
    case Int(i) => Ok(i as real)
    case Float(x) => Ok(x)
    case Str(s) => (match h.parseFloat(s) case Some(x) => Ok(x) case None => Raise)
    case _ => Raise
  }

  /** `v.strip()`: only strings have the method. */
  function StripValue(v: Json): Result<string> {
    if v.Str? then Ok(Text.Strip(v.s)) else Raise
  }

  /** The f-string field `{v:<w}`: numbers and strings are left-justified
      (a bool as the integer it is); None, lists and dicts raise TypeError. */
  function FormatLeft(h: Host, v: Json, w: nat): Result<string> {
    match v
    case Str(s) => Ok(Text.LJust(s, w))
    case Bool(b) => Ok(Text.LJust(if b then "1" else "0", w))
    case Int(i) => Ok(Text.LJust(Text.IntToString(i), w))
    case Float(x) => Ok(Text.LJust(h.showFloat(x), w))
    case _ => Raise
  }

  /** `[f(x) for x in s]` where `f` may raise: the first exception ends the
      loop. */
  function MapOk<T, U>(s: seq<T>, f: T -> Result<U>): Result<seq<U>> {
    if s == [] then Ok([])
    else
      var init :- MapOk(s[..|s| - 1], f);
      var last :- f(s[|s| - 1]);
      Ok(init + [last])
  }

  /** The loop succeeds exactly when every element succeeds, and then yields
      one result per element, in order. */
  lemma {:induction false} MapOkPerElement<T, U>(s: seq<T>, f: T -> Result<U>)
    ensures MapOk(s, f).Ok? <==> forall k :: 0 <= k < |s| ==> f(s[k]).Ok?
    ensures MapOk(s, f).Ok? ==>
      |MapOk(s, f).value| == |s| && forall k :: 0 <= k < |s| ==> MapOk(s, f).value[k] == f(s[k]).value
  {
    if s != [] {
      var init := s[..|s| - 1];
      MapOkPerElement(init, f);
      assert forall k :: 0 <= k < |init| ==> init[k] == s[k];
    }
  }

  /** One more element: the loop so far, then the new element. */
  lemma MapOkSnoc<T, U>(s: seq<T>, x: T, f: T -> Result<U>)
    ensures MapOk(s + [x], f) ==
      if MapOk(s, f).Raise? || f(x).Raise? then Raise else Ok(MapOk(s, f).value + [f(x).value])
  {
    assert (s + [x])[..|s|] == s;
  }

  /** Two loops in a row: the first, then the second, and the first
      exception ends both. */
  lemma {:induction false} MapOkAppend<T, U>(a: seq<T>, b: seq<T>, f: T -> Result<U>)
    ensures MapOk(a + b, f) ==
      if MapOk(a, f).Raise? || MapOk(b, f).Raise? then Raise else Ok(MapOk(a, f).value + MapOk(b, f).value)
  {
    if b == [] {
      assert a + b == a;
      assert MapOk(a, f).Ok? ==> MapOk(a, f).value + [] == MapOk(a, f).value;
    } else {
      var init := b[..|b| - 1];
      var x := b[|b| - 1];
      assert a + b == (a + init) + [x];
      assert b == init + [x];
      MapOkAppend(a, init, f);
      MapOkSnoc(a + init, x, f);
      MapOkSnoc(init, x, f);
      if MapOk(a, f).Ok? && MapOk(init, f).Ok? && f(x).Ok? {
        var va, vi := MapOk(a, f).value, MapOk(init, f).value;
        assert (va + vi) + [f(x).value] == va + (vi + [f(x).value]);
      }
    }
  }

  /** Once a prefix has raised, the whole loop raises. */
  lemma {:induction false} MapOkRaisePersists<T, U>(s: seq<T>, f: T -> Result<U>, n: nat)
    requires n <= |s| && MapOk(s[..n], f).Raise?
    ensures MapOk(s, f).Raise?
    decreases |s| - n
  {
    if n < |s| {
      assert s[..n + 1][..n] == s[..n];
      MapOkRaisePersists(s, f, n + 1);
    } else {
      assert s[..n] == s;
    }
  }

  /** A loop over `reversed(s)` that ends at the first element whose `step`
      gives a value (a `break`), goes on while it gives `None`, and ends when
      `step` raises. */
  function LastSome<T, U>(s: seq<T>, step: T -> Result<Option<U>>): Result<Option<U>> {
    if s == [] then Ok(None)
    else
      var r :- step(s[|s| - 1]);
      if r.Some? then Ok(r) else LastSome(s[..|s| - 1], step)
  }

  /** An element after which every step gives `None` decides the loop. */
  lemma {:induction false} LastSomeAt<T, U>(s: seq<T>, step: T -> Result<Option<U>>, k: nat)
    requires k < |s| && step(s[k]).Ok? && step(s[k]).value.Some?
    requires forall j :: k < j < |s| ==> step(s[j]) == Ok(None)
    ensures LastSome(s, step) == step(s[k])
  {
    if k < |s| - 1 {
      var init := s[..|s| - 1];
      assert init[k] == s[k];
      assert forall j :: k < j < |init| ==> init[j] == s[j];
      LastSomeAt(init, step, k);
    }
  }

  /** When every step gives `None`, so does the loop. */
  lemma {:induction false} LastSomeNone<T, U>(s: seq<T>, step: T -> Result<Option<U>>)
    requires forall j :: 0 <= j < |s| ==> step(s[j]) == Ok(None)
    ensures LastSome(s, step) == Ok(None)
  {
    if s != [] {
      LastSomeNone(s[..|s| - 1], step);
    }
  }

  /** A value found by the loop comes from the latest element whose step
      gives a value; every later step gave `None`. */
  lemma {:induction false} LastSomeFound<T, U>(s: seq<T>, step: T -> Result<Option<U>>, u: U) returns (k: nat)
    requires LastSome(s, step) == Ok(Some(u))
    ensures k < |s| && step(s[k]) == Ok(Some(u))
    ensures forall j :: k < j < |s| ==> step(s[j]) == Ok(None)
  {
    if step(s[|s| - 1]) == Ok(Some(u)) {
      k := |s| - 1;
    } else {
      var init := s[..|s| - 1];
      k := LastSomeFound(init, step, u);
      assert init[k] == s[k];
      assert forall j :: k < j < |init| ==> init[j] == s[j];
    }
  }

  /** A newest element whose step gives `None` can be dropped. */
  lemma LastSomeSkip<T, U>(s: seq<T>, x: T, step: T -> Result<Option<U>>)
    requires step(x) == Ok(None)
    ensures LastSome(s + [x], step) == LastSome(s, step)
  {
    assert (s + [x])[..|s|] == s;
  }

  /** `[x for x in s if test(x)]` where `test` may raise: the first exception
      ends the loop. */
  function FilterOk<T>(s: seq<T>, test: T -> Result<bool>): Result<seq<T>> {
    if s == [] then Ok([])
    else
      var init :- FilterOk(s[..|s| - 1], test);
      var keep :- test(s[|s| - 1]);
      Ok(init + if keep then [s[|s| - 1]] else [])
  }

  /** The test "succeeds with True". */
  function Passes<T>(test: T -> Result<bool>): T -> bool {
    x => test(x) == Ok(true)
  }

  /** The loop succeeds exactly when every test succeeds, and then keeps, in
      order, the elements whose test gave True. */
  lemma {:induction false} FilterOkIsFilter<T>(s: seq<T>, test: T -> Result<bool>)
    ensures FilterOk(s, test).Ok? <==> forall k :: 0 <= k < |s| ==> test(s[k]).Ok?
    ensures FilterOk(s, test).Ok? ==> FilterOk(s, test).value == Seqs.Filter(s, Passes(test))
  {
    if s != [] {
      var init := s[..|s| - 1];
      FilterOkIsFilter(init, test);
      assert forall k :: 0 <= k < |init| ==> init[k] == s[k];
    }
  }

  /** One more element: the loop so far, then its test. */
  lemma FilterOkSnoc<T>(s: seq<T>, x: T, test: T -> Result<bool>)
    ensures FilterOk(s + [x], test) ==
      if FilterOk(s, test).Raise? || test(x).Raise? then Raise
      else Ok(FilterOk(s, test).value + if test(x).value then [x] else [])
  {
    assert (s + [x])[..|s|] == s;
  }

  /** Once a prefix has raised, the whole loop raises. */
  lemma {:induction false} FilterOkRaisePersists<T>(s: seq<T>, test: T -> Result<bool>, n: nat)
    requires n <= |s| && FilterOk(s[..n], test).Raise?
    ensures FilterOk(s, test).Raise?
    decreases |s| - n
  {
    if n < |s| {
      assert s[..n + 1] == s[..n] + [s[n]];
      FilterOkSnoc(s[..n], s[n], test);
      FilterOkRaisePersists(s, test, n + 1);
    } else {
      assert s[..n] == s;
    }
  }
}
