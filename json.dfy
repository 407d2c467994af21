/**
 * Decoded JSON values and the handful of Python operations the tools apply to them:
 * `x[key]`, `x.get(key, default)` and `for item in x`. Each either yields a value or
 * raises, and the exception is kept as a `Fault`, since every tool turns it into an
 * error record.
 */
module Json {
  import opened Wrappers

  /** A value as `response.json()` returns it. Numbers keep their literal text: the
      gateway only passes them through and never computes with them. */
  datatype Json =
    | Null
    | Bool(b: bool)
    | Num(literal: string)
    | Str(s: string)
    | Arr(items: seq<Json>)
    | Obj(fields: map<string, Json>)

  /** The Python type of a decoded value, which a TypeError or AttributeError names. */
  datatype Kind = NoneType | BoolType | NumberType | StrType | ListType | DictType

  function KindOf(x: Json): Kind {
    match x
    case Null => NoneType
    case Bool(_) => BoolType
    case Num(_) => NumberType
    case Str(_) => StrType
    case Arr(_) => ListType
    case Obj(_) => DictType
  }

  /** An exception raised inside a tool's `try` block, other than an HTTP status error. */
  datatype Fault =
    | KeyNotFound(key: string)     // KeyError: a dict has no such key
    | WrongType(kind: Kind)        // TypeError / AttributeError on a value of this type
    | Transport(message: string)   // the HTTP client could not complete the exchange
    | Undecodable                  // a successful reply whose body is not JSON

  predicate HasKey(x: Json, key: string) {
    x.Obj? && key in x.fields
  }

  predicate HasKeys(x: Json, keys: seq<string>) {
    x.Obj? && forall k :: k in keys ==> k in x.fields
  }

  /** The entries of dict `x` under `keys` (nothing when `x` is not a dict). */
  function Restrict(x: Json, keys: seq<string>): map<string, Json> {
    if x.Obj? then map k | k in keys && k in x.fields :: x.fields[k] else map[]
  }

  /** `x[key]` with a string key: only a dict can be indexed by a string. */
  function Index(x: Json, key: string): (r: Result<Json, Fault>)
    ensures r.Success? <==> HasKey(x, key)
    ensures r.Success? ==> r.value == x.fields[key]
    ensures !x.Obj? ==> r == Failure(WrongType(KindOf(x)))
    ensures x.Obj? && key !in x.fields ==> r == Failure(KeyNotFound(key))
  {
    if !x.Obj? then Failure(WrongType(KindOf(x)))
    else if key in x.fields then Success(x.fields[key])
    else Failure(KeyNotFound(key))
  }

  /**
   * `x.get(key, default)`: only a dict has a `get` method. It agrees with `x[key]` except
   * where that raises a KeyError, and there it yields the default instead.
   */
  function Get(x: Json, key: string, default: Json): (r: Result<Json, Fault>)
    ensures r.Success? <==> x.Obj?
    ensures Index(x, key).Success? || !x.Obj? ==> r == Index(x, key)
    ensures Index(x, key) == Failure(KeyNotFound(key)) ==> r == Success(default)
  {
    if !x.Obj? then Failure(WrongType(KindOf(x)))
    else if key in x.fields then Success(x.fields[key])
    else Success(default)
  }

  /**
   * The items `for item in x` visits, in a loop whose body first indexes the item with a
   * string key (both loops of the gateway do). A list yields its elements. A dict yields its
   * keys and a string its characters, all of them strings, so such a loop raises a TypeError
   * on the first of them whatever the key order, and runs zero times only when `x` is empty.
   * Numbers, booleans and None are not iterable.
   */
  function Items(x: Json): (r: Result<seq<Json>, Fault>)
    ensures r.Success? <==> x.Arr? || (x.Obj? && |x.fields| == 0) || (x.Str? && |x.s| == 0)
    ensures r.Success? && x.Arr? ==> r.value == x.items
    ensures r.Success? && !x.Arr? ==> r.value == []
    ensures r.Failure? ==> r.error == WrongType(if x.Obj? || x.Str? then StrType else KindOf(x))
  {
    match x
    case Arr(items) => Success(items)
    case Obj(m) => if |m| == 0 then Success([]) else Failure(WrongType(StrType))
    case Str(s) => if |s| == 0 then Success([]) else Failure(WrongType(StrType))
    case _ => Failure(WrongType(KindOf(x)))
  }

  /**
   * The dict literal `{k: x[k], ...}` over `keys`, evaluated key by key in order.
   * It succeeds exactly when every key is present, and then copies those entries verbatim;
   * otherwise it reports the first failing lookup.
   */
  function Pick(x: Json, keys: seq<string>): (r: Result<map<string, Json>, Fault>)
    ensures r.Success? <==> keys == [] || HasKeys(x, keys)
    ensures r.Success? ==> r.value == Restrict(x, keys)
    ensures r.Failure? && !x.Obj? ==> r.error == WrongType(KindOf(x))
    ensures r.Failure? && x.Obj? ==> r.error.KeyNotFound? && r.error.key in keys && r.error.key !in x.fields
    ensures r.Failure? && x.Obj? ==>
      exists j :: 0 <= j < |keys| && keys[j] == r.error.key && forall i :: 0 <= i < j ==> keys[i] in x.fields
    decreases |keys|
  {
    if keys == [] then Success(map[])
    else
      var v :- Index(x, keys[0]);
      var rest :- Pick(x, keys[1..]);
      Success(rest[keys[0] := v])
  }

  /**
   * The list a `for` loop builds by appending `project(item)` for each item in turn. The
   * first item whose projection raises ends the loop with that exception; otherwise the
   * list has one entry per item, in the items' order.
   */
  function Collect(items: seq<Json>, project: Json -> Result<Json, Fault>): (r: Result<seq<Json>, Fault>)
    ensures r.Success? <==> forall i :: 0 <= i < |items| ==> project(items[i]).Success?
    ensures r.Success? ==> |r.value| == |items|
    ensures r.Success? ==> forall i :: 0 <= i < |items| ==> r.value[i] == project(items[i]).value
    decreases |items|
  {
    if items == [] then Success([])
    else
      var init :- Collect(items[..|items| - 1], project);
      var last :- project(items[|items| - 1]);
      Success(init + [last])
  }

  /** When `Collect` fails, it fails with the fault of the first item whose projection fails. */
  lemma {:induction false} CollectFirstFault(items: seq<Json>, project: Json -> Result<Json, Fault>)
    ensures Collect(items, project).Failure? ==>
      exists i :: 0 <= i < |items| && project(items[i]) == Failure(Collect(items, project).error)
        && forall j :: 0 <= j < i ==> project(items[j]).Success?
    decreases |items|
  {
    if items != [] {
      var init := items[..|items| - 1];
      CollectFirstFault(init, project);
      if Collect(init, project).Failure? {
        var i :| 0 <= i < |init| && project(init[i]) == Failure(Collect(init, project).error)
          && forall j :: 0 <= j < i ==> project(init[j]).Success?;
        assert items[i] == init[i];
        assert forall j :: 0 <= j < i ==> items[j] == init[j];
      } else if Collect(items, project).Failure? {
        var i := |items| - 1;
        assert forall j :: 0 <= j < i ==> items[j] == init[j];
      }
    }
  }

  /** A loop that stops at item `n` with an exception ends the whole loop with it. */
  lemma {:induction false} CollectStopsAt(items: seq<Json>, n: nat, project: Json -> Result<Json, Fault>)
    requires n < |items|
    requires Collect(items[..n], project).Success?
    requires project(items[n]).Failure?
    ensures Collect(items, project) == Failure(project(items[n]).error)
    decreases |items|
  {
    if n < |items| - 1 {
      var init := items[..|items| - 1];
      assert init[..n] == items[..n];
      CollectStopsAt(init, n, project);
    } else {
      assert items[..|items| - 1] == items[..n];
    }
  }
}
