/** Parsed API responses and the Python operations the scripts apply to them:
    subscripting, `in`, iteration, `html.unescape`, `str(...)`, and `getjson`.
    Every operation that can raise returns a `Result`, so each `try` block of
    the scripts can be followed branch by branch. */
module PyJson {
  import opened PyText

  /** A value produced by `json.loads`. Objects keep their keys in document
      order; numbers are integers. */
  datatype Json =
    | JNull
    | JBool(b: bool)
    | JInt(i: int)
    | JStr(s: string)
    | JArr(items: seq<Json>)
    | JObj(fields: seq<(string, Json)>)

  /** The Python exceptions the scripts can raise or catch. */
  datatype Error =
    | ValueError        // getjson on a value that is neither str nor Response
    | JsonDecodeError   // json.loads on malformed text
    | KeyError          // a missing key in a dict
    | TypeError         // subscripting, iterating or unescaping the wrong kind of value
    | AttributeError    // .strip() on a value that is not a string
    | IndexError        // .iloc[0] of an empty frame
    | UnboundLocalError // reading a local variable that was never assigned
    | RequestError      // requests.get/post raised (network failure)

  datatype Result<+T> = Ok(value: T) | Err(error: Error) {
    predicate IsFailure() { Err? }
    function PropagateFailure<U>(): Result<U>
      requires Err?
    {
      Err(error)
    }
    function Extract(): T
      requires Ok?
    {
      value
    }
  }

  datatype Option<+T> = None | Some(value: T)

  /** What the scripts call but whose inside is not modelled: `json.loads`,
      the entity decoding of `html.unescape`, and `str()` of a list or dict. */
  datatype Host = Host(
    parse: string -> Option<Json>,
    unescapeEntities: string -> string,
    reprOf: Json -> string)

  predicate HasKey(fields: seq<(string, Json)>, key: string) {
    exists i :: 0 <= i < |fields| && fields[i].0 == key
  }

  /** The value bound to `key`; a later binding wins, as in `json.loads`. */
  function Lookup(fields: seq<(string, Json)>, key: string): (r: Option<Json>)
    ensures r.Some? <==> HasKey(fields, key)
    ensures r.Some? ==> exists i :: 0 <= i < |fields| && fields[i] == (key, r.value) &&
                                    forall j :: i < j < |fields| ==> fields[j].0 != key
  {
    if fields == [] then None
    else if fields[|fields| - 1].0 == key then Some(fields[|fields| - 1].1)
    else
      var r := Lookup(fields[..|fields| - 1], key);
      assert forall i :: 0 <= i < |fields| - 1 ==> fields[..|fields| - 1][i] == fields[i];
      r
  }

  /** `j[key]` with a string key. */
  function Index(j: Json, key: string): (r: Result<Json>)
    ensures r.Ok? <==> j.JObj? && HasKey(j.fields, key)
    ensures r.Ok? ==> Lookup(j.fields, key) == Some(r.value)
    ensures r.Err? ==> r.error == (if j.JObj? then KeyError else TypeError)
  {
    match j
    case JObj(fs) =>
      (match Lookup(fs, key)
       case Some(v) => Ok(v)
       case None => Err(KeyError))
    case _ => Err(TypeError)
  }

  predicate OccursAt(s: string, key: string, i: nat)
    requires i + |key| <= |s|
  {
    s[i..i + |key|] == key
  }

  /** `key in j` with a string on the left. */
  function Contains(j: Json, key: string): (r: Result<bool>)
    ensures r.Err? <==> !(j.JObj? || j.JArr? || j.JStr?)
    ensures j.JObj? ==> r == Ok(HasKey(j.fields, key))
  {
    match j
    case JObj(fs) => Ok(HasKey(fs, key))
    case JArr(items) => Ok(JStr(key) in items)
    case JStr(s) => Ok(exists i :: 0 <= i <= |s| - |key| && OccursAt(s, key, i))
    case _ => Err(TypeError)
  }

  /** `for x in j`: a list gives its items, a string its characters, a dict its keys. */
  function Iter(j: Json): (r: Result<seq<Json>>)
    ensures j.JArr? ==> r == Ok(j.items)
    ensures r.Err? <==> !(j.JObj? || j.JArr? || j.JStr?)
    ensures j.JStr? ==> r.Ok? && |r.value| == |j.s| &&
                        forall k :: 0 <= k < |j.s| ==> r.value[k] == JStr([j.s[k]])
    ensures j.JObj? ==> r.Ok? && |r.value| == |j.fields| &&
                        forall k :: 0 <= k < |j.fields| ==> r.value[k] == JStr(j.fields[k].0)
  {
    match j
    case JArr(items) => Ok(items)
    case JStr(s) => Ok(seq(|s|, k requires 0 <= k < |s| => JStr([s[k]])))
    case JObj(fs) => Ok(seq(|fs|, k requires 0 <= k < |fs| => JStr(fs[k].0)))
    case _ => Err(TypeError)
  }

  /** `html.unescape` on a string: text without '&' comes back unchanged. */
  function UnescapeText(s: string, host: Host): (r: string)
    ensures '&' !in s ==> r == s
  {
    if '&' in s then host.unescapeEntities(s) else s
  }

  /** `html.unescape(j)` on whatever the API returned. Its first step,
      `'&' not in j`, also works on lists and dicts, which then come back as
      they are; anything else raises TypeError. */
  function Unescape(j: Json, host: Host): (r: Result<Json>)
    ensures j.JStr? ==> r == Ok(JStr(UnescapeText(j.s, host)))
    ensures r.Ok? ==> r.value.JStr? == j.JStr?
    ensures j.JNull? || j.JInt? || j.JBool? ==> r == Err(TypeError)
  {
    match j
    case JStr(s) => Ok(JStr(UnescapeText(s, host)))
    case JArr(items) => if JStr("&") in items then Err(TypeError) else Ok(j)
    case JObj(fs) => if HasKey(fs, "&") then Err(TypeError) else Ok(j)
    case _ => Err(TypeError)
  }

  /** `str(j)`, as an f-string renders it. */
  function Str(j: Json, host: Host): string {
    match j
    case JNull => "None"
    case JBool(b) => if b then "True" else "False"
    case JInt(i) => IntStr(i)
    case JStr(s) => s
    case _ => host.reprOf(j)
  }

  /** Only scalars can be dict keys; a list or a dict raises TypeError. */
  predicate Hashable(j: Json) {
    !(j.JArr? || j.JObj?)
  }

  /** What `getjson` may be handed. */
  datatype Payload = Text(text: string) | Response(content: string) | OtherValue

  /** `getjson` (snipeit_inv_sign.py and transfer.py carry the same copy). */
  function GetJson(p: Payload, host: Host): (r: Result<Json>)
    ensures r == Err(ValueError) <==> p.OtherValue?
    ensures p.Text? ==> r == ParseText(p.text, host)
    ensures p.Response? ==> r == ParseText(p.content, host)
  {
    match p
    case Text(t) => ParseText(t, host)
    case Response(c) => ParseText(c, host)
    case OtherValue => Err(ValueError)
  }

  /** `json.loads(t)`. */
  function ParseText(t: string, host: Host): (r: Result<Json>)
    ensures r.Ok? <==> host.parse(t).Some?
    ensures r.Ok? ==> r.value == host.parse(t).value
    ensures r.Err? ==> r.error == JsonDecodeError
  {
    match host.parse(t)
    case Some(j) => Ok(j)
    case None => Err(JsonDecodeError)
  }

  /** A Python `for` loop whose body may raise: the results of the items
      processed before the first exception. */
  function TakeOk<T>(items: seq<Json>, f: Json -> Result<T>): (r: seq<T>)
    ensures |r| <= |items|
    ensures forall k :: 0 <= k < |r| ==> f(items[k]) == Ok(r[k])
    ensures |r| < |items| ==> f(items[|r|]).Err?
  {
    if items == [] then []
    else match f(items[0])
      case Err(_) => []
      case Ok(v) => [v] + TakeOk(items[1..], f)
  }

  /** That loop, run: the body is applied to each item until one raises. */
  method CollectOk<T>(items: seq<Json>, f: Json -> Result<T>) returns (results: seq<T>, raised: bool)
    ensures results == TakeOk(items, f)
    ensures raised <==> |results| < |items|
  {
    results, raised := [], false;
    while |results| < |items| && !raised
      invariant |results| <= |items|
      invariant forall k :: 0 <= k < |results| ==> f(items[k]) == Ok(results[k])
      invariant raised ==> |results| < |items| && f(items[|results|]).Err?
      decreases |items| - |results|, if raised then 0 else 1
    {
      var r := f(items[|results|]);
      if r.Err? {
        raised := true;
      } else {
        results := results + [r.value];
      }
    }
    TakeOkUnique(items, f, results);
  }

  /** The three facts of TakeOk's contract single out its result. */
  lemma {:induction false} TakeOkUnique<T>(items: seq<Json>, f: Json -> Result<T>, r: seq<T>)
    requires |r| <= |items|
    requires forall k :: 0 <= k < |r| ==> f(items[k]) == Ok(r[k])
    requires |r| < |items| ==> f(items[|r|]).Err?
    ensures r == TakeOk(items, f)
  {
    if items != [] && r != [] {
      TakeOkUnique(items[1..], f, r[1..]);
    }
  }

  /** When no item raises, the loop runs to the end. */
  lemma TakeOkAll<T>(items: seq<Json>, f: Json -> Result<T>)
    requires forall k :: 0 <= k < |items| ==> f(items[k]).Ok?
    ensures |TakeOk(items, f)| == |items|
  {
  }
}
