/**
 * JSON values as the SDK sees them after `ucjson.loads`, and the few dict and
 * iteration operations its encoders, decoders and request builders use.
 *
 * An object keeps its keys in insertion order, as a Python dict does, so that
 * the text `ucjson.dumps` writes for a nested object is determined.
 */
module Json {
  import opened Wrappers

  datatype Json =
    | JNull
    | JBool(b: bool)
    | JNumber(n: int)
    | JString(s: string)
    | JArray(items: seq<Json>)
    | JObject(fields: seq<(string, Json)>)

  /** Why a decoder raised: the Python exception each case stands for is noted beside it. */
  datatype DecodeError =
    | NotJsonText                       // json.JSONDecodeError from ucjson.loads
    | NotAnObject                       // j[key] or j.get(key) on something that is not a dict
    | MissingKey(key: string)           // KeyError from j[key]
    | NotIterable                       // a comprehension over a number, bool or None
    | NotUuid(value: Json)              // uuid.UUID(value) rejects its argument
    | NotIsoTimestamp(value: Json)      // iso8601.parse_date(value) rejects its argument
    | NotEpochTimestamp(value: Json)    // datetime.fromtimestamp(value) rejects its argument

  /** The value stored under `key` (the first entry with that key), if any. */
  function Lookup(fields: seq<(string, Json)>, key: string): (r: Option<Json>)
    ensures r.Some? <==> key in KeySet(fields)
  {
    if fields == [] then None
    else if fields[0].0 == key then Some(fields[0].1)
    else Lookup(fields[1..], key)
  }

  /** The keys of an object's entries. */
  function KeySet(fields: seq<(string, Json)>): set<string> {
    if fields == [] then {} else {fields[0].0} + KeySet(fields[1..])
  }

  /** The keys of a dict in insertion order, as `list(d)` gives them. */
  function Keys(fields: seq<(string, Json)>): seq<string> {
    seq(|fields|, i requires 0 <= i < |fields| => fields[i].0)
  }

  predicate HasKey(j: Json, key: string) {
    j.JObject? && Lookup(j.fields, key).Some?
  }

  /** The `i`-th entry is found by its key when no earlier entry has that key. */
  lemma {:induction false} LookupFirst(fields: seq<(string, Json)>, i: nat)
    requires i < |fields|
    requires forall k :: 0 <= k < i ==> fields[k].0 != fields[i].0
    ensures Lookup(fields, fields[i].0) == Some(fields[i].1)
  {
    if i > 0 {
      assert fields[1..][i - 1] == fields[i];
      LookupFirst(fields[1..], i - 1);
    }
  }

  /** `j.get(key)` on a dict: the stored value, or None when the key is absent. */
  function LookupOrNull(fields: seq<(string, Json)>, key: string): (v: Json)
    ensures Lookup(fields, key).None? ==> v == JNull
    ensures Lookup(fields, key).Some? ==> v == Lookup(fields, key).value
  {
    match Lookup(fields, key)
    case Some(v) => v
    case None => JNull
  }

  /** `j[key]`: the stored value, KeyError when the key is absent, TypeError when `j` is no dict. */
  function Index(j: Json, key: string): (r: Result<Json, DecodeError>)
    ensures r.Success? <==> HasKey(j, key)
    ensures r.Success? ==> r.value == Lookup(j.fields, key).value
    ensures j.JObject? && !HasKey(j, key) ==> r == Failure(MissingKey(key))
  {
    match j
    case JObject(fields) =>
      (match Lookup(fields, key)
       case Some(v) => Success(v)
       case None => Failure(MissingKey(key)))
    case _ => Failure(NotAnObject)
  }

  /** `j.get(key)`: the stored value or None; AttributeError when `j` is no dict. */
  function GetOrNone(j: Json, key: string): (r: Result<Json, DecodeError>)
    ensures r.Success? <==> j.JObject?
    ensures r.Success? ==> r.value == LookupOrNull(j.fields, key)
  {
    match j
    case JObject(fields) => Success(LookupOrNull(fields, key))
    case _ => Failure(NotAnObject)
  }

  /**
   * `d[key] = v` on a dict: the entry for `key` is overwritten where it
   * stands, or appended when the key is new.
   */
  function Put(fields: seq<(string, Json)>, key: string, v: Json): (r: seq<(string, Json)>)
    ensures Lookup(r, key) == Some(v)
    ensures forall k :: k != key ==> Lookup(r, k) == Lookup(fields, k)
    ensures KeySet(r) == KeySet(fields) + {key}
  {
    if fields == [] then [(key, v)]
    else if fields[0].0 == key then [(key, v)] + fields[1..]
    else
      var rest := Put(fields[1..], key, v);
      assert forall k :: k != key && k != fields[0].0 ==> Lookup([fields[0]] + rest, k) == Lookup(rest, k);
      [fields[0]] + rest
  }

  /**
   * What `for x in j` visits: the items of a list, the keys of a dict, the
   * characters of a string; TypeError for a number, a bool or None.
   */
  function Iterate(j: Json): (r: Result<seq<Json>, DecodeError>)
    ensures r.Success? <==> j.JArray? || j.JObject? || j.JString?
    ensures j.JArray? ==> r == Success(j.items)
    ensures j.JObject? ==> |r.value| == |j.fields|
    ensures j.JObject? ==> forall i :: 0 <= i < |j.fields| ==> r.value[i] == JString(j.fields[i].0)
    ensures j.JString? ==> |r.value| == |j.s|
    ensures j.JString? ==> forall i :: 0 <= i < |j.s| ==> r.value[i] == JString([j.s[i]])
  {
    match j
    case JArray(items) => Success(items)
    case JObject(fields) => Success(seq(|fields|, i requires 0 <= i < |fields| => JString(fields[i].0)))
    case JString(s) => Success(seq(|s|, i requires 0 <= i < |s| => JString([s[i]])))
    case _ => Failure(NotIterable)
  }

  /**
   * A list comprehension `[decode(x) for x in items]`: every item decoded in
   * order, or the exception of the first item that fails.
   */
  function DecodeEach<T>(items: seq<Json>, decode: Json -> Result<T, DecodeError>): (r: Result<seq<T>, DecodeError>)
    ensures r.Success? <==> forall i :: 0 <= i < |items| ==> decode(items[i]).Success?
    ensures r.Success? ==> |r.value| == |items|
    ensures r.Success? ==> forall i :: 0 <= i < |items| ==> r.value[i] == decode(items[i]).value
    ensures r.Failure? ==> exists i :: 0 <= i < |items| && decode(items[i]) == Failure(r.error)
                                       && forall k :: 0 <= k < i ==> decode(items[k]).Success?
  {
    if items == [] then Success([])
    else
      match decode(items[0])
      case Failure(e) => Failure(e)
      case Success(head) =>
        var rest := DecodeEach(items[1..], decode);
        assert forall i :: 0 < i < |items| ==> items[i] == items[1..][i - 1];
        match rest
        case Failure(e) =>
          assert exists i :: 0 < i < |items| && decode(items[i]) == Failure(e)
                             && forall k :: 0 <= k < i ==> decode(items[k]).Success? by {
            var i' :| 0 <= i' < |items[1..]| && decode(items[1..][i']) == Failure(e)
                      && forall k :: 0 <= k < i' ==> decode(items[1..][k]).Success?;
            assert forall k :: 0 < k < i' + 1 ==> items[k] == items[1..][k - 1];
          }
          Failure(e)
        case Success(tail) => Success([head] + tail)
  }

  /** When every item decodes to the matching value, the comprehension gives exactly those values. */
  lemma DecodeEachAll<T>(items: seq<Json>, decode: Json -> Result<T, DecodeError>, values: seq<T>)
    requires |items| == |values|
    requires forall i :: 0 <= i < |items| ==> decode(items[i]) == Success(values[i])
    ensures DecodeEach(items, decode) == Success(values)
  {
    var r := DecodeEach(items, decode);
    assert r.value == values;
  }

  // ----- The text `json.dumps` writes, with its default separators ", " and ": " -----

  function DigitChar(d: int): char
    requires 0 <= d < 10
  {
    "0123456789"[d]
  }

  function NatText(n: nat): string
    decreases n
  {
    if n < 10 then [DigitChar(n)] else NatText(n / 10) + [DigitChar(n % 10)]
  }

  function IntText(n: int): string {
    if n < 0 then "-" + NatText(-n) else NatText(n)
  }

  /** The escape `json.dumps(..., ensure_ascii=False)` writes for one character. */
  function EscapeChar(c: char): string {
    if c == '"' then "\\\""
    else if c == '\\' then "\\\\"
    else if c == '\n' then "\\n"
    else if c == '\r' then "\\r"
    else if c == '\t' then "\\t"
    else if c as int == 8 then "\\b"
    else if c as int == 12 then "\\f"
    else if (c as int) < 32 then "\\u00" + ["0123456789abcdef"[c as int / 16], "0123456789abcdef"[c as int % 16]]
    else [c]
  }

  function EscapeText(s: string): string {
    if s == [] then [] else EscapeChar(s[0]) + EscapeText(s[1..])
  }

  function QuoteText(s: string): string {
    "\"" + EscapeText(s) + "\""
  }

  function Join(parts: seq<string>, sep: string): string {
    if parts == [] then []
    else if |parts| == 1 then parts[0]
    else parts[0] + sep + Join(parts[1..], sep)
  }

  /** `json.dumps(j)`: the text a nested `to_json()` call produces. */
  function Dumps(j: Json): (r: string)
    ensures j.JObject? ==> |r| >= 2 && r[0] == '{' && r[|r| - 1] == '}'
    ensures j.JArray? ==> |r| >= 2 && r[0] == '[' && r[|r| - 1] == ']'
    ensures j.JString? ==> |r| >= 2 && r[0] == '"' && r[|r| - 1] == '"'
    ensures j.JNull? ==> r == "null"
    decreases j
  {
    match j
    case JNull => "null"
    case JBool(b) => if b then "true" else "false"
    case JNumber(n) => IntText(n)
    case JString(s) => QuoteText(s)
    case JArray(items) =>
      "[" + Join(seq(|items|, i requires 0 <= i < |items| => Dumps(items[i])), ", ") + "]"
    case JObject(fields) =>
      "{" + Join(seq(|fields|, i requires 0 <= i < |fields| =>
                       assert fields[i] in fields;
                       QuoteText(fields[i].0) + ": " + Dumps(fields[i].1)), ", ") + "}"
  }
}
