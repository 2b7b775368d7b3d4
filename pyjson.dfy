/** Decoded JSON documents as the renderers see them (Python dicts, lists,
    strings, numbers, booleans and None), the few Python operations the
    renderers apply to them, and the exceptions those operations raise. */
module PyJson {
  import opened Text

  datatype Option<+T> = None | Some(value: T) {
    function GetOr(default: T): T {
      match this
      case Some(v) => v
      case None => default
    }
  }

  /** The exceptions a renderer can raise; the payload of `KeyError` is the
      missing key. */
  datatype Exception =
    | KeyError(key: Json)
    | TypeError
    | AttributeError
    | IndexError
    | UnboundLocalError(name: string)

  /** A value, or the exception that ended the computation. */
  datatype Result<+T> = Ok(value: T) | Err(error: Exception) {
    predicate IsFailure() { Err? }
    function PropagateFailure<U>(): Result<U>
      requires Err?
    {
      Err(error)
    }
    function Extract(): T
      requires Ok?
    {
      value
    }
  }

  /** A decoded JSON value. A number is kept as the text Python's `str()`
      gives for it; an object keeps its members in document order. */
  datatype Json =
    | JNull
    | JBool(b: bool)
    | JNum(repr: string)
    | JStr(s: string)
    | JArr(items: seq<Json>)
    | JObj(fields: seq<(string, Json)>)

  /** Python truthiness: None, False, zero and empty containers are false. */
  predicate Truthy(j: Json) {
    match j
    case JNull => false
    case JBool(b) => b
    case JNum(r) => r != "0" && r != "0.0" && r != "-0.0"
    case JStr(s) => s != ""
    case JArr(xs) => xs != []
    case JObj(fs) => fs != []
  }

  /** The value bound to `key` in an object's members, if any. */
  function Lookup(fields: seq<(string, Json)>, key: string): (r: Option<Json>)
    ensures r.Some? <==> exists i :: 0 <= i < |fields| && fields[i].0 == key
  {
    if |fields| == 0 then None
    else if fields[0].0 == key then Some(fields[0].1)
    else
      var r := Lookup(fields[1..], key);
      assert forall i :: 1 <= i < |fields| ==> fields[i] == fields[1..][i - 1];
      r
  }

  /** `key in d` for a dict `d`. */
  predicate Has(j: Json, key: string) {
    j.JObj? && Lookup(j.fields, key).Some?
  }

  /** `d[key]` for a dict `d` that has `key`. */
  function At(j: Json, key: string): Json
    requires Has(j, key)
  {
    Lookup(j.fields, key).value
  }

  /** Python `repr()` of a string, without escaping. */
  function Quote(s: string): string {
    "'" + s + "'"
  }

  /** Python `repr()`; strings are quoted with single quotes and no escaping. */
  function Repr(j: Json): string
    decreases j
  {
    match j
    case JNull => "None"
    case JBool(b) => if b then "True" else "False"
    case JNum(r) => r
    case JStr(s) => Quote(s)
    case JArr(xs) =>
      "[" + Join(", ", seq(|xs|, i requires 0 <= i < |xs| => Repr(xs[i]))) + "]"
    case JObj(fs) =>
      "{" + Join(", ", seq(|fs|, i requires 0 <= i < |fs| => Quote(fs[i].0) + ": " + Repr(fs[i].1))) + "}"
  }

  /** Python `str()`, which is what an f-string substitutes. */
  function Str(j: Json): string {
    if j.JStr? then j.s else Repr(j)
  }

  /** `str(d.get(key, default))` for a dict `d`. */
  function StrOr(j: Json, key: string, default: string): string
    requires j.JObj?
  {
    Str(Lookup(j.fields, key).GetOr(JStr(default)))
  }

  /** `x.get(key, default)`: only a dict has `get`. */
  function Get(j: Json, key: string, default: Json): (r: Result<Json>)
    ensures r.Err? <==> !j.JObj?
    ensures Has(j, key) ==> r == Ok(At(j, key))
    ensures j.JObj? && !Has(j, key) ==> r == Ok(default)
  {
    match j
    case JObj(fs) => Ok(Lookup(fs, key).GetOr(default))
    case _ => Err(AttributeError)
  }

  /** `x[key]` with a string key: a dict without the key raises KeyError,
      every other value raises TypeError. */
  function Index(j: Json, key: string): (r: Result<Json>)
    ensures r.Ok? <==> Has(j, key)
    ensures r.Ok? ==> r.value == At(j, key)
    ensures j.JObj? && !Has(j, key) ==> r == Err(KeyError(JStr(key)))
    ensures !j.JObj? ==> r == Err(TypeError)
  {
    match j
    case JObj(fs) =>
      (match Lookup(fs, key)
       case Some(v) => Ok(v)
       case None => Err(KeyError(JStr(key))))
    case _ => Err(TypeError)
  }

  /** `x[0]`: the first item of a list or the first character of a string;
      a dict (string keys only) raises KeyError, a scalar TypeError. */
  function First(j: Json): (r: Result<Json>)
    ensures j.JArr? && |j.items| > 0 ==> r == Ok(j.items[0])
    ensures (j.JArr? && |j.items| == 0) || j == JStr("") ==> r == Err(IndexError)
  {
    match j
    case JArr(xs) => if |xs| > 0 then Ok(xs[0]) else Err(IndexError)
    case JStr(s) => if |s| > 0 then Ok(JStr([s[0]])) else Err(IndexError)
    case JObj(_) => Err(KeyError(JNum("0")))
    case _ => Err(TypeError)
  }

  /** `len(x)`, defined for strings, lists and dicts. */
  function Len(j: Json): (r: Result<nat>)
    ensures r.Ok? <==> j.JStr? || j.JArr? || j.JObj?
    ensures r.Ok? ==> (r.value == 0 <==> !Truthy(j))
  {
    match j
    case JStr(s) => Ok(|s|)
    case JArr(xs) => Ok(|xs|)
    case JObj(fs) => Ok(|fs|)
    case _ => Err(TypeError)
  }

  /** The keys of an object, in order, as JSON strings. */
  function Keys(fields: seq<(string, Json)>): (r: seq<Json>)
    ensures |r| == |fields|
    ensures forall i :: 0 <= i < |fields| ==> r[i] == JStr(fields[i].0)
  {
    seq(|fields|, i requires 0 <= i < |fields| => JStr(fields[i].0))
  }

  /** What `for x in j` visits: the items of a list, the keys of a dict, the
      characters of a string; other values are not iterable. */
  function Iterate(j: Json): (r: Result<seq<Json>>)
    ensures r.Ok? <==> j.JArr? || j.JObj? || j.JStr?
    ensures j.JArr? ==> r == Ok(j.items)
  {
    match j
    case JArr(xs) => Ok(xs)
    case JObj(fs) => Ok(Keys(fs))
    case JStr(s) => Ok(seq(|s|, i requires 0 <= i < |s| => JStr([s[i]])))
    case _ => Err(TypeError)
  }

  /** `s` occurs in `t` as a contiguous piece. */
  predicate IsSubstring(s: string, t: string)
    decreases |t|
  {
    (|s| <= |t| && t[..|s|] == s) || (|t| > 0 && IsSubstring(s, t[1..]))
  }

  /** `key in x` for a string `key`: membership for a dict (keys) and a list
      (items), substring for a string; other values raise TypeError. */
  function Contains(key: string, j: Json): (r: Result<bool>)
    ensures j.JObj? ==> r == Ok(Has(j, key))
    ensures r.Err? <==> !(j.JObj? || j.JArr? || j.JStr?)
  {
    match j
    case JObj(fs) => Ok(Lookup(fs, key).Some?)
    case JArr(xs) => Ok(JStr(key) in xs)
    case JStr(s) => Ok(IsSubstring(key, s))
    case _ => Err(TypeError)
  }

  /** `d.items()`: only a dict has it. */
  function Items(j: Json): (r: Result<seq<(string, Json)>>)
    ensures r.Ok? <==> j.JObj?
    ensures j.JObj? ==> r.value == j.fields
  {
    if j.JObj? then Ok(j.fields) else Err(AttributeError)
  }

  /** The strings among the visited values, or None if one is not a string. */
  function AllStrings(xs: seq<Json>): (r: Option<seq<string>>)
    ensures r.Some? <==> forall i :: 0 <= i < |xs| ==> xs[i].JStr?
    ensures r.Some? ==> |r.value| == |xs| && forall i :: 0 <= i < |xs| ==> r.value[i] == xs[i].s
  {
    if |xs| == 0 then Some([])
    else if !xs[0].JStr? then None
    else
      match AllStrings(xs[1..])
      case None => None
      case Some(rest) => Some([xs[0].s] + rest)
  }

  /** `' '.join(x)`: every visited value must be a string. */
  function SpaceJoin(j: Json): (r: Result<string>)
    ensures j.JArr? && (forall i :: 0 <= i < |j.items| ==> j.items[i].JStr?) ==>
              r == Ok(Join(" ", AllStrings(j.items).value))
  {
    var xs :- Iterate(j);
    match AllStrings(xs)
    case Some(parts) => Ok(Join(" ", parts))
    case None => Err(TypeError)
  }

  /** Apply `f` to each item in order and collect the results; the first
      exception stops the loop, as it does in Python. */
  function MapAll<X, Y>(f: X -> Result<Y>, xs: seq<X>): (r: Result<seq<Y>>)
    ensures r.Ok? ==> |r.value| == |xs|
    decreases |xs|
  {
    if |xs| == 0 then Ok([])
    else
      var init :- MapAll(f, xs[..|xs| - 1]);
      var y :- f(xs[|xs| - 1]);
      Ok(init + [y])
  }

  /** MapAll succeeds exactly when `f` succeeds on every item, and then
      holds `f`'s result for every item in order. */
  lemma {:induction false} MapAllOk<X, Y>(f: X -> Result<Y>, xs: seq<X>)
    ensures MapAll(f, xs).Ok? <==> forall i :: 0 <= i < |xs| ==> f(xs[i]).Ok?
    ensures MapAll(f, xs).Ok? ==> forall i :: 0 <= i < |xs| ==> MapAll(f, xs).value[i] == f(xs[i]).value
    decreases |xs|
  {
    if |xs| > 0 {
      var init := xs[..|xs| - 1];
      MapAllOk(f, init);
      assert forall i :: 0 <= i < |init| ==> init[i] == xs[i];
    }
  }

  /** MapAll raises the exception of the first item on which `f` raises. */
  lemma {:induction false} MapAllErr<X, Y>(f: X -> Result<Y>, xs: seq<X>, k: nat)
    requires k < |xs|
    requires forall i :: 0 <= i < k ==> f(xs[i]).Ok?
    requires f(xs[k]).Err?
    ensures MapAll(f, xs) == Err(f(xs[k]).error)
    decreases |xs|
  {
    if k < |xs| - 1 {
      var init := xs[..|xs| - 1];
      assert forall i :: 0 <= i <= k ==> init[i] == xs[i];
      MapAllErr(f, init, k);
    } else {
      var init := xs[..|xs| - 1];
      assert forall i :: 0 <= i < |init| ==> init[i] == xs[i];
      MapAllOk(f, init);
    }
  }

  /** A failure on a prefix is the failure of the whole loop. */
  lemma {:induction false} MapAllPrefixErr<X, Y>(f: X -> Result<Y>, xs: seq<X>, n: nat)
    requires n <= |xs|
    requires MapAll(f, xs[..n]).Err?
    ensures MapAll(f, xs) == MapAll(f, xs[..n])
    decreases |xs|
  {
    if n < |xs| {
      var init := xs[..|xs| - 1];
      assert init[..n] == xs[..n];
      MapAllPrefixErr(f, init, n);
    } else {
      assert xs[..n] == xs;
    }
  }

  /** One turn of a loop that appends `f`'s result for each item: either the
      item extends the collected prefix, or its exception is the loop's. */
  lemma MapAllStep<X, Y>(f: X -> Result<Y>, xs: seq<X>, i: nat)
    requires i < |xs|
    requires MapAll(f, xs[..i]).Ok?
    ensures f(xs[i]).Ok? ==> MapAll(f, xs[..i + 1]) == Ok(MapAll(f, xs[..i]).value + [f(xs[i]).value])
    ensures f(xs[i]).Err? ==> MapAll(f, xs) == Err(f(xs[i]).error)
  {
    assert xs[..i + 1][..i] == xs[..i];
    assert xs[..i + 1][i] == xs[i];
    if f(xs[i]).Err? {
      MapAllPrefixErr(f, xs, i + 1);
    }
  }

  /** The loop over a single item. */
  lemma MapAllSingle<X, Y>(f: X -> Result<Y>, x: X)
    ensures f(x).Ok? ==> MapAll(f, [x]) == Ok([f(x).value])
  {
    if f(x).Ok? {
      var empty: seq<X> := [];
      assert [x][..0] == empty;
      assert MapAll(f, empty) == Ok([]);
      assert [] + [f(x).value] == [f(x).value];
    }
  }

  /** The first member with the key gives the value. */
  lemma {:induction false} LookupFirst(fields: seq<(string, Json)>, key: string, i: nat)
    requires i < |fields| && fields[i].0 == key
    requires forall j :: 0 <= j < i ==> fields[j].0 != key
    ensures Lookup(fields, key) == Some(fields[i].1)
  {
    if i > 0 {
      LookupFirst(fields[1..], key, i - 1);
    }
  }

  /** Looking a key up in members with one more in front. */
  lemma LookupCons(f: (string, Json), rest: seq<(string, Json)>)
    ensures forall key :: Lookup([f] + rest, key) == if f.0 == key then Some(f.1) else Lookup(rest, key)
  {
    assert ([f] + rest)[1..] == rest;
  }
}
