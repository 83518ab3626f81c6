/**
 * The shape of the values `json.loads` produces and `json.dumps` consumes,
 * and the handful of Python operations the pipeline applies to them:
 * `dict.get`, item assignment, `{**a, **b}`, truthiness, `isinstance(x, int)`
 * and `str(x)`. An object keeps its members in insertion order, as a Python
 * dict does. Parsing and printing the text itself are not part of this model.
 */
module Json {
  import opened Wrappers
  import opened Text
  import opened Collections

  datatype Json =
    | JNull
    | JBool(b: bool)
    | JInt(i: int)
    | JStr(s: string)
    | JArr(items: seq<Json>)
    | JObj(fields: seq<(string, Json)>)

  type Fields = seq<(string, Json)>

  /** What `json.loads` hands back: a value, or the `JSONDecodeError` with its message. */
  datatype Parsed = Parsed(value: Json) | Malformed(detail: string)

  function Keys(fields: Fields): (ks: seq<string>)
    ensures |ks| == |fields| && forall i :: 0 <= i < |fields| ==> ks[i] == fields[i].0
  {
    seq(|fields|, i requires 0 <= i < |fields| => fields[i].0)
  }

  lemma KeysCons(x: (string, Json), fields: Fields)
    ensures Keys([x] + fields) == [x.0] + Keys(fields)
  {
  }

  /** A Python dict never holds one key twice. */
  predicate UniqueKeys(fields: Fields)
  {
    NoDuplicates(Keys(fields))
  }

  predicate HasKey(fields: Fields, key: string)
  {
    key in Keys(fields)
  }

  /** `d.get(key)`: None when the key is absent, else the value stored under it. */
  function Get(fields: Fields, key: string): (r: Option<Json>)
    ensures r.Some? <==> HasKey(fields, key)
  {
    if |fields| == 0 then None
    else
      KeysCons(fields[0], fields[1..]);
      assert [fields[0]] + fields[1..] == fields;
      if fields[0].0 == key then Some(fields[0].1) else Get(fields[1..], key)
  }

  /** What `d.get(key)` finds is stored in `d` under `key`. */
  lemma {:induction false} GetStored(fields: Fields, key: string)
    requires HasKey(fields, key)
    ensures exists i :: 0 <= i < |fields| && fields[i] == (key, Get(fields, key).value)
  {
    if fields[0].0 != key {
      var rest := fields[1..];
      assert Keys(fields) == [fields[0].0] + Keys(rest) by {
        KeysCons(fields[0], rest);
        assert [fields[0]] + rest == fields;
      }
      GetStored(rest, key);
      var i :| 0 <= i < |rest| && rest[i] == (key, Get(rest, key).value);
      assert fields[i + 1] == rest[i];
    }
  }

  /** In a dict, `d.get(k)` is the value paired with `k`. */
  lemma {:induction false} GetAt(fields: Fields, i: nat)
    requires UniqueKeys(fields) && i < |fields|
    ensures Get(fields, fields[i].0) == Some(fields[i].1)
  {
    if i > 0 {
      var rest := fields[1..];
      assert Keys(rest) == Keys(fields)[1..];
      assert UniqueKeys(rest) by {
        forall a, b | 0 <= a < b < |rest| ensures Keys(rest)[a] != Keys(rest)[b] {
          assert Keys(fields)[a + 1] != Keys(fields)[b + 1];
        }
      }
      assert fields[0].0 != fields[i].0 by {
        assert Keys(fields)[0] != Keys(fields)[i];
      }
      assert rest[i - 1] == fields[i];
      GetAt(rest, i - 1);
    }
  }

  /** `d.get(key, default)` */
  function GetOr(fields: Fields, key: string, default: Json): Json
  {
    match Get(fields, key)
    case Some(v) => v
    case None => default
  }

  /** `d[key] = v`: an existing key keeps its place, a new one goes last. */
  function Put(fields: Fields, key: string, v: Json): (r: Fields)
    ensures Get(r, key) == Some(v)
    ensures forall k :: k != key ==> Get(r, k) == Get(fields, k)
  {
    if |fields| == 0 then [(key, v)]
    else if fields[0].0 == key then [(key, v)] + fields[1..]
    else
      var rest := Put(fields[1..], key, v);
      assert ([fields[0]] + rest)[1..] == rest;
      [fields[0]] + rest
  }

  /** The keys after `d[key] = v`: unchanged when the key was there, else the new key last. */
  lemma {:induction false} PutKeys(fields: Fields, key: string, v: Json)
    ensures Keys(Put(fields, key, v)) == if HasKey(fields, key) then Keys(fields) else Keys(fields) + [key]
  {
    if |fields| > 0 {
      KeysCons(fields[0], fields[1..]);
      assert [fields[0]] + fields[1..] == fields;
      if fields[0].0 == key {
        KeysCons((key, v), fields[1..]);
      } else {
        PutKeys(fields[1..], key, v);
        KeysCons(fields[0], Put(fields[1..], key, v));
      }
    }
  }

  lemma PutKeepsUnique(fields: Fields, key: string, v: Json)
    ensures UniqueKeys(fields) ==> UniqueKeys(Put(fields, key, v))
  {
    PutKeys(fields, key, v);
  }

  /** `{**base, **extra}`: every key of `extra` overrides the same key of `base`. */
  function Merge(base: Fields, extra: Fields): (r: Fields)
    ensures forall k :: !HasKey(extra, k) ==> Get(r, k) == Get(base, k)
    ensures forall k :: HasKey(extra, k) ==> HasKey(r, k)
    ensures UniqueKeys(base) ==> UniqueKeys(r)
    decreases |extra|
  {
    if |extra| == 0 then base
    else
      KeysCons(extra[0], extra[1..]);
      assert [extra[0]] + extra[1..] == extra;
      var next := Put(base, extra[0].0, extra[0].1);
      PutKeepsUnique(base, extra[0].0, extra[0].1);
      Merge(next, extra[1..])
  }

  /** In `{**base, **extra}` the key of `extra` wins. */
  lemma {:induction false} MergeOverrides(base: Fields, extra: Fields, i: nat)
    requires UniqueKeys(extra) && i < |extra|
    ensures Get(Merge(base, extra), extra[i].0) == Some(extra[i].1)
    decreases |extra|
  {
    if i == 0 {
      MergeOverridesFirst(base, extra);
    } else {
      var next := Put(base, extra[0].0, extra[0].1);
      var rest := extra[1..];
      MergeUnfold(base, extra);
      assert Keys(rest) == Keys(extra)[1..];
      assert rest[i - 1] == extra[i];
      assert UniqueKeys(rest) by {
        forall a, b | 0 <= a < b < |rest| ensures Keys(rest)[a] != Keys(rest)[b] {
          assert Keys(extra)[a + 1] != Keys(extra)[b + 1];
        }
      }
      MergeOverrides(next, rest, i - 1);
    }
  }

  lemma MergeUnfold(base: Fields, extra: Fields)
    requires 0 < |extra|
    ensures Merge(base, extra) == Merge(Put(base, extra[0].0, extra[0].1), extra[1..])
  {
  }

  lemma MergeOverridesFirst(base: Fields, extra: Fields)
    requires UniqueKeys(extra) && 0 < |extra|
    ensures Get(Merge(base, extra), extra[0].0) == Some(extra[0].1)
  {
    var next := Put(base, extra[0].0, extra[0].1);
    var rest := extra[1..];
    var k := extra[0].0;
    assert Merge(base, extra) == Merge(next, rest);
    assert Keys(rest) == Keys(extra)[1..];
    forall j | 0 <= j < |rest| ensures Keys(rest)[j] != k {
      assert Keys(extra)[j + 1] != Keys(extra)[0];
    }
    assert !HasKey(rest, k);
    assert Get(Merge(next, rest), k) == Get(next, k);
  }

  /** Python truthiness: `None`, `False`, `0`, `""`, `[]` and `{}` are false. */
  predicate Truthy(j: Json)
  {
    match j
    case JNull => false
    case JBool(b) => b
    case JInt(i) => i != 0
    case JStr(s) => s != ""
    case JArr(items) => items != []
    case JObj(fields) => fields != []
  }

  /** `isinstance(j, int)`, which also holds of `True` and `False`. */
  predicate IsPyInt(j: Json)
  {
    j.JInt? || j.JBool?
  }

  /** The integer value of a Python `int` or `bool`. */
  function PyIntValue(j: Json): int
    requires IsPyInt(j)
  {
    if j.JInt? then j.i else if j.b then 1 else 0
  }

  /** `repr(j)`; strings are quoted with single quotes. */
  function Repr(j: Json): string
    decreases j
  {
    match j
    case JNull => "None"
    case JBool(b) => if b then "True" else "False"
    case JInt(i) => IntToString(i)
    case JStr(s) => "'" + s + "'"
    case JArr(items) =>
      "[" + Join(seq(|items|, k requires 0 <= k < |items| => Repr(items[k])), ", ") + "]"
    case JObj(fields) =>
      "{" + Join(seq(|fields|, k requires 0 <= k < |fields| => MemberRepr(fields, k)), ", ") + "}"
  }

  function MemberRepr(fields: Fields, k: nat): string
    requires k < |fields|
    decreases JObj(fields), 0
  {
    assert fields[k] in fields;
    "'" + fields[k].0 + "': " + Repr(fields[k].1)
  }

  /** `str(j)`: a string is itself, anything else its `repr`. */
  function PyStr(j: Json): (r: string)
    ensures j.JStr? ==> r == j.s
    ensures j.JInt? ==> r == IntToString(j.i)
  {
    if j.JStr? then j.s else Repr(j)
  }

  /** `type(j).__name__`, as Python's error messages name it. */
  function TypeName(j: Json): string
  {
    match j
    case JNull => "NoneType"
    case JBool(_) => "bool"
    case JInt(_) => "int"
    case JStr(_) => "str"
    case JArr(_) => "list"
    case JObj(_) => "dict"
  }

  /** `{"error": message}`, the shape every stage reports a failure in. */
  function ErrorObject(message: string): (r: Json)
    ensures r.JObj? && Get(r.fields, "error") == Some(JStr(message))
  {
    JObj([("error", JStr(message))])
  }
}
