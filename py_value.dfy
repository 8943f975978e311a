/** Python values as the JSON, YAML and TOML parsers hand them to the core,
    and the few Python operations the core applies to them: truthiness, the
    `in` operator with a string on its left, subscription by a string,
    iteration with `for`, and `dict.get`. */
module PyValue {

  datatype Option<+T> = None | Some(value: T)

  /** A parsed document node. Python's `None` is `Null`. A mapping keeps its
      keys in insertion order, as a Python dict does; a parser never yields
      the same key twice, so the first entry for a key is its only one. */
  datatype Value =
    | Null
    | Bool(b: bool)
    | Num(n: int)
    | Str(s: string)
    | List(items: seq<Value>)
    | Object(fields: seq<(string, Value)>)

  /** The entries of a mapping, in order. */
  type Fields = seq<(string, Value)>

  /** The exceptions the core's expressions raise on shapes they do not expect. */
  datatype PyError = TypeError | AttributeError | KeyError

  /** The outcome of a Python expression that may raise. */
  datatype Py<+T> = Ok(value: T) | Raise(error: PyError) {
    predicate IsFailure() { Raise? }
    function PropagateFailure<U>(): Py<U> requires Raise? { Raise(error) }
    function Extract(): T requires Ok? { value }
  }

  /** `acc + rest` once `rest` has been evaluated: what a loop that has
      collected `acc` so far ends with, if the remaining iterations give `r`. */
  function Prepend<T>(acc: seq<T>, r: Py<seq<T>>): (q: Py<seq<T>>)
    ensures q.Ok? <==> r.Ok?
    ensures r.Ok? ==> |q.value| == |acc| + |r.value| && q.value[..|acc|] == acc
  {
    match r
    case Ok(rest) => Ok(acc + rest)
    case Raise(e) => Raise(e)
  }

  /** Associativity of collecting: what was gathered before a step, plus the
      step, plus what follows. */
  lemma PrependAssoc<T>(acc: seq<T>, step: seq<T>, rest: Py<seq<T>>)
    ensures Prepend(acc, Prepend(step, rest)) == Prepend(acc + step, rest)
  {
    if rest.Ok? {
      assert acc + (step + rest.value) == (acc + step) + rest.value;
    }
  }

  /** A loop that has collected nothing yet ends with what the remaining
      iterations give. */
  lemma PrependNothing<T>(r: Py<seq<T>>)
    ensures Prepend([], r) == r
  {
    if r.Ok? {
      assert [] + r.value == r.value;
    }
  }

  /** A loop with no iterations left ends with what it has collected. */
  lemma PrependAll<T>(acc: seq<T>)
    ensures Prepend(acc, Ok([])) == Ok(acc)
  {
    assert acc + [] == acc;
  }

  /** What a loop that appends each of `results` in turn ends with: all the
      values, in order, or the first exception. */
  function CollectResults<T>(results: seq<Py<T>>): Py<seq<T>> {
    if results == [] then Ok([])
    else
      match results[0]
      case Raise(e) => Raise(e)
      case Ok(x) => Prepend([x], CollectResults(results[1..]))
  }

  /** A successful collection has one value per result, each that result's
      value. */
  lemma {:induction false} CollectResultsOk<T>(results: seq<Py<T>>, values: seq<T>)
    requires CollectResults(results) == Ok(values)
    ensures |values| == |results|
    ensures forall i | 0 <= i < |results| :: results[i] == Ok(values[i])
  {
    if results != [] {
      var rest := CollectResults(results[1..]);
      CollectResultsOk(results[1..], rest.value);
      assert values == [results[0].value] + rest.value;
      forall i | 0 < i < |results|
        ensures results[i] == Ok(values[i])
      {
        assert results[i] == results[1..][i - 1];
      }
    }
  }

  /** The collection raises iff some result is an exception, and then with
      the first exception among the results. */
  lemma {:induction false} CollectResultsRaise<T>(results: seq<Py<T>>)
    ensures CollectResults(results).Raise? <==> exists i | 0 <= i < |results| :: results[i].Raise?
    ensures CollectResults(results).Raise? ==>
              exists i | 0 <= i < |results| ::
                results[i] == Raise(CollectResults(results).error) && forall j | 0 <= j < i :: results[j].Ok?
  {
    if results != [] {
      var tail := results[1..];
      CollectResultsRaise(tail);
      if results[0].Ok? {
        if exists i | 0 <= i < |results| :: results[i].Raise? {
          var i :| 0 <= i < |results| && results[i].Raise?;
          assert tail[i - 1].Raise?;
        }
        if CollectResults(results).Raise? {
          var i :| 0 <= i < |tail| && tail[i] == Raise(CollectResults(tail).error) &&
                   forall j | 0 <= j < i :: tail[j].Ok?;
          assert results[i + 1] == tail[i];
          forall j | 0 <= j < i + 1
            ensures results[j].Ok?
          {
            if j > 0 {
              assert results[j] == tail[j - 1];
            }
          }
        }
      } else {
        assert results[0] == Raise(CollectResults(results).error);
      }
    }
  }

  /** One iteration of the collecting loop: the values so far, then either
      the next exception or the next value followed by the rest. */
  lemma CollectResultsStep<T>(results: seq<Py<T>>, i: int, acc: seq<T>)
    requires 0 <= i < |results|
    ensures results[i].Raise? ==>
              Prepend(acc, CollectResults(results[i..])) == Raise(results[i].error)
    ensures results[i].Ok? ==>
              Prepend(acc, CollectResults(results[i..])) ==
              Prepend(acc + [results[i].value], CollectResults(results[i + 1..]))
  {
    assert results[i..][0] == results[i] && results[i..][1..] == results[i + 1..];
    if results[i].Ok? {
      PrependAssoc(acc, [results[i].value], CollectResults(results[i + 1..]));
    }
  }

  /** Python truthiness, `bool(v)`. */
  predicate Truthy(v: Value) {
    match v
    case Null => false
    case Bool(b) => b
    case Num(n) => n != 0
    case Str(s) => s != ""
    case List(items) => items != []
    case Object(fields) => fields != []
  }

  predicate HasKey(fields: Fields, key: string) {
    exists i | 0 <= i < |fields| :: fields[i].0 == key
  }

  /** The value of the first entry for `key`. */
  function Lookup(fields: Fields, key: string): (r: Option<Value>)
    ensures r.Some? <==> HasKey(fields, key)
    ensures r.Some? ==> (key, r.value) in fields
  {
    if fields == [] then None
    else if fields[0].0 == key then Some(fields[0].1)
    else
      var r := Lookup(fields[1..], key);
      assert HasKey(fields, key) ==> HasKey(fields[1..], key) by {
        if HasKey(fields, key) {
          var i :| 0 <= i < |fields| && fields[i].0 == key;
          assert fields[1..][i - 1].0 == key;
        }
      }
      r
  }

  /** `key in s` for two strings: `key` occurs in `s` as a contiguous piece. */
  predicate IsSubstring(key: string, s: string) {
    key <= s || (s != [] && IsSubstring(key, s[1..]))
  }

  /** `key in container`: a mapping tests its keys, a list its elements, a
      string its substrings; `None`, a number or a boolean raises TypeError. */
  function Contains(container: Value, key: string): Py<bool> {
    match container
    case Object(fields) => Ok(HasKey(fields, key))
    case List(items) => Ok(Str(key) in items)
    case Str(s) => Ok(IsSubstring(key, s))
    case _ => Raise(TypeError)
  }

  /** `container[key]` with a string key: only a mapping accepts it. */
  function Subscript(container: Value, key: string): (r: Py<Value>)
    ensures r.Ok? <==> container.Object? && HasKey(container.fields, key)
  {
    match container
    case Object(fields) =>
      (match Lookup(fields, key)
       case Some(v) => Ok(v)
       case None => Raise(KeyError))
    case _ => Raise(TypeError)
  }

  /** What `for x in v` visits: a list's elements, a mapping's keys, a
      string's characters (each a one-character string); iterating `None`, a
      number or a boolean raises TypeError. */
  function Iterate(v: Value): (r: Py<seq<Value>>)
    ensures r.Ok? <==> v.List? || v.Object? || v.Str?
    ensures v.List? ==> r == Ok(v.items)
    ensures v.Object? ==> |r.value| == |v.fields| && forall i | 0 <= i < |v.fields| :: r.value[i] == Str(v.fields[i].0)
    ensures v.Str? ==> |r.value| == |v.s| && forall i | 0 <= i < |v.s| :: r.value[i] == Str([v.s[i]])
  {
    match v
    case List(items) => Ok(items)
    case Object(fields) => Ok(seq(|fields|, i requires 0 <= i < |fields| => Str(fields[i].0)))
    case Str(s) => Ok(seq(|s|, i requires 0 <= i < |s| => Str([s[i]])))
    case _ => Raise(TypeError)
  }

  /** `d.get(key, default)` on a dict. */
  function Get(fields: Fields, key: string, default: Value): (r: Value)
    ensures HasKey(fields, key) ==> r == Lookup(fields, key).value
    ensures !HasKey(fields, key) ==> r == default
  {
    match Lookup(fields, key)
    case Some(v) => v
    case None => default
  }

  /** `v.get(key, default)` where `v` need not be a dict: any other value has
      no `get` attribute. */
  function DictGet(v: Value, key: string, default: Value): (r: Py<Value>)
    ensures r.Ok? <==> v.Object?
    ensures v.Object? ==> r.value == Get(v.fields, key, default)
  {
    if v.Object? then Ok(Get(v.fields, key, default)) else Raise(AttributeError)
  }

  /** `key in v` and then `v[key]`, with any exception caught: the value
      under `key`, found only when `v` is a mapping that has it. */
  function Member(v: Value, key: string): (r: Option<Value>)
    ensures r == if v.Object? then Lookup(v.fields, key) else None
  {
    match Contains(v, key)
    case Raise(_) => None
    case Ok(found) =>
      if !found then None
      else
        (match Subscript(v, key)
         case Raise(_) => None
         case Ok(x) => Some(x))
  }

  /** `not v or key not in v`, else `v[key]`, with any exception caught: the
      guard every manifest probe opens with. */
  function Field(v: Value, key: string): (r: Option<Value>)
    ensures r == if v.Object? then Lookup(v.fields, key) else None
  {
    if !Truthy(v) then None else Member(v, key)
  }
}
