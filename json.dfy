/** JSON values as `json.load` hands them to the importers, and the handful
    of Python operations the importers apply to them (`dict.get`, iteration,
    the `in` operator, subscripting, `str.lower`). An operation that raises
    in Python returns `Err`; the importers' callers catch every exception
    and drop the file, so the kind of exception is not kept. */
module Json {

  datatype Option<+T> = None | Some(value: T) {
    function GetOr(default: T): T {
      if Some? then value else default
    }
  }

  /** The outcome of Python code that may raise. */
  datatype Result<+T> = Ok(value: T) | Err {
    predicate IsFailure() { Err? }
    function PropagateFailure<U>(): Result<U> {
      Err
    }
    function Extract(): T
      requires Ok?
    {
      value
    }
  }

  /** Python's `None` is `JNull`: the importers never tell the two apart. */
  datatype Json =
    | JNull
    | JBool(b: bool)
    | JNum(n: real)
    | JStr(s: string)
    | JArr(items: seq<Json>)
    | JObj(fields: seq<Field>)

  /** One member of an object, in document order. A key may repeat in the
      text; the dict `json.load` builds then holds the last value. */
  datatype Field = Field(key: string, value: Json)

  const EmptyObj: Json := JObj([])
  const EmptyArr: Json := JArr([])

  /** Python truthiness of a JSON value. */
  predicate Truthy(v: Json) {
    match v
    case JNull => false
    case JBool(b) => b
    case JNum(n) => n != 0.0
    case JStr(s) => s != []
    case JArr(a) => a != []
    case JObj(fs) => fs != []
  }

  /** Field `i` is the last one of `fs` with key `key`: the one the dict
      `json.load` builds keeps. */
  predicate LastWithKey(fs: seq<Field>, key: string, i: int) {
    0 <= i < |fs| && fs[i].key == key && forall j :: i < j < |fs| ==> fs[j].key != key
  }

  /** Some field of `fs` has key `key`. */
  predicate HasKey(fs: seq<Field>, key: string) {
    exists i :: 0 <= i < |fs| && fs[i].key == key
  }

  /** `d[key]` on the dict built from `fs`: the last field with that key. */
  function Lookup(fs: seq<Field>, key: string): (r: Option<Json>)
    ensures r.Some? <==> HasKey(fs, key)
    ensures r.Some? ==> exists i :: LastWithKey(fs, key, i) && fs[i].value == r.value
  {
    if fs == [] then None
    else if fs[|fs| - 1].key == key then Some(fs[|fs| - 1].value)
    else
      var front := fs[..|fs| - 1];
      var r := Lookup(front, key);
      assert forall i :: 0 <= i < |front| ==> front[i] == fs[i];
      assert forall i :: 0 <= i < |fs| && fs[i].key == key ==> i < |front|;
      r
  }

  /** The distinct keys of `fs` in order of first appearance, as iterating
      the dict yields them. */
  function Keys(fs: seq<Field>): (ks: seq<string>)
    ensures forall k :: k in ks <==> exists i :: 0 <= i < |fs| && fs[i].key == k
    ensures forall i, j :: 0 <= i < j < |ks| ==> ks[i] != ks[j]
  {
    if fs == [] then []
    else
      var front := Keys(fs[..|fs| - 1]);
      assert forall i :: 0 <= i < |fs| - 1 ==> fs[..|fs| - 1][i] == fs[i];
      if fs[|fs| - 1].key in front then front else front + [fs[|fs| - 1].key]
  }

  /** `v.get(key, default)`: raises unless `v` is a dict; the default when
      no field has the key, else the value of the last field that has it. */
  function DictGet(v: Json, key: string, default: Json): (r: Result<Json>)
    ensures r.Ok? <==> v.JObj?
    ensures v.JObj? && !HasKey(v.fields, key) ==> r.value == default
    ensures v.JObj? && HasKey(v.fields, key) ==>
              exists i :: LastWithKey(v.fields, key, i) && r.value == v.fields[i].value
  {
    match v
    case JObj(fs) => Ok(Lookup(fs, key).GetOr(default))
    case _ => Err
  }

  /** `DictGet` on a dict in terms of `Lookup`, for proofs that reason
      with the latter. */
  lemma DictGetIsLookup(v: Json, key: string, default: Json)
    requires v.JObj?
    ensures DictGet(v, key, default) == Ok(Lookup(v.fields, key).GetOr(default))
  {
  }

  /** The elements `for x in v` visits: a list's items, a string's
      characters, a dict's keys; `None`, booleans and numbers raise. */
  function Iter(v: Json): (r: Result<seq<Json>>)
    ensures r.Ok? <==> (v.JArr? || v.JStr? || v.JObj?)
    ensures v.JArr? ==> r == Ok(v.items)
    ensures r.Ok? && !v.JArr? ==> forall x :: x in r.value ==> x.JStr?
  {
    match v
    case JArr(a) => Ok(a)
    case JStr(s) => Ok(seq(|s|, i requires 0 <= i < |s| => JStr([s[i]])))
    case JObj(fs) =>
      var ks := Keys(fs);
      Ok(seq(|ks|, i requires 0 <= i < |ks| => JStr(ks[i])))
    case _ => Err
  }

  /** `p` occurs in `s` as a contiguous piece. */
  predicate IsInfix(p: string, s: string) {
    exists i | 0 <= i <= |s| - |p| :: OccursAt(p, s, i)
  }

  predicate OccursAt(p: string, s: string, i: int) {
    0 <= i <= |s| - |p| && s[i..i + |p|] == p
  }

  /** Python's `key in v` for a string `key`: dict membership, list
      membership, substring; raises on `None`, booleans and numbers. */
  function Contains(v: Json, key: string): (r: Result<bool>)
    ensures r.Ok? <==> (v.JObj? || v.JArr? || v.JStr?)
    ensures v.JObj? ==> r == Ok(exists i :: 0 <= i < |v.fields| && v.fields[i].key == key)
    ensures v.JArr? ==> r == Ok(exists i :: 0 <= i < |v.items| && v.items[i] == JStr(key))
    ensures v.JStr? ==> r == Ok(IsInfix(key, v.s))
  {
    match v
    case JObj(fs) => Ok(Lookup(fs, key).Some?)
    case JArr(a) => Ok(JStr(key) in a)
    case JStr(s) => Ok(IsInfix(key, s))
    case _ => Err
  }

  /** Python's `v[key]` for a string `key`: only a dict holding the key
      answers; a list or string raises TypeError, a dict without the key
      KeyError. */
  function Subscript(v: Json, key: string): (r: Result<Json>)
    ensures r.Ok? <==> v.JObj? && exists i :: 0 <= i < |v.fields| && v.fields[i].key == key
    ensures r.Ok? ==> exists i :: LastWithKey(v.fields, key, i) && r.value == v.fields[i].value
  {
    if v.JObj? && Lookup(v.fields, key).Some? then Ok(Lookup(v.fields, key).value) else Err
  }

  /** ASCII case folding. For the two comparisons the system makes with it
      (against "n/a" and "true") it agrees with Python's `str.lower`: no
      other character lowers to one of their letters. */
  function LowerChar(c: char): (d: char)
    ensures 'A' <= c <= 'Z' ==> d as int == c as int + 32
    ensures !('A' <= c <= 'Z') ==> d == c
  {
    if 'A' <= c <= 'Z' then (c as int + 32) as char else c
  }

  function LowerStr(s: string): (t: string)
    ensures |t| == |s| && forall i :: 0 <= i < |s| ==> t[i] == LowerChar(s[i])
  {
    seq(|s|, i requires 0 <= i < |s| => LowerChar(s[i]))
  }

  /** `v.lower()`: raises unless `v` is a string; otherwise the string with
      each ASCII capital replaced by its small letter. */
  function Lower(v: Json): (r: Result<string>)
    ensures r.Ok? <==> v.JStr?
    ensures r.Ok? ==> |r.value| == |v.s|
    ensures r.Ok? ==> forall i :: 0 <= i < |v.s| ==>
              if 'A' <= v.s[i] <= 'Z' then r.value[i] as int == v.s[i] as int + 32 else r.value[i] == v.s[i]
  {
    match v
    case JStr(s) => Ok(LowerStr(s))
    case _ => Err
  }
}

/** The corpus as the walkers see it: one entry per file `os.walk` visits. */
module Corpus {
  import opened Json

  /** A visited file: its name and, when opening and `json.load` succeeded,
      the parsed document (`None` when either raised). */
  datatype SourceFile = SourceFile(name: string, content: Option<Json>)

  /** `file.endswith('.json')`, case-sensitive. */
  predicate IsJsonName(name: string) {
    |name| >= 5 && name[|name| - 5..] == ".json"
  }
}
