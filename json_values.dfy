/**
 * The JSON payloads of the exchange's API as Python sees them after `resp.json()`:
 * objects keep their members in document order, `dict.get` answers with the last
 * member of that name (as Python's `json` module builds its dicts), and values
 * have Python's truthiness and `str()` text.
 */
module JsonValues {
  import opened Wrappers
  import opened PyText

  datatype Json =
    | JNull
    | JBool(b: bool)
    | JInt(i: int)
    | JStr(s: string)
    | JArray(elems: seq<Json>)
    | JObject(members: seq<Member>)

  datatype Member = Member(name: string, value: Json)

  /** `d.get(key)` on a decoded object: the value of the last member named `key`, or `None`. */
  function Get(members: seq<Member>, key: string): Json {
    if members == [] then JNull
    else if members[|members| - 1].name == key then members[|members| - 1].value
    else Get(members[..|members| - 1], key)
  }

  /** `get` answers `None` for a name no member has. */
  lemma {:induction false} GetAbsent(members: seq<Member>, key: string)
    requires forall i :: 0 <= i < |members| ==> members[i].name != key
    ensures Get(members, key) == JNull
  {
    if members != [] {
      var n := |members| - 1;
      assert members[n].name != key;
      GetAbsent(members[..n], key);
    }
  }

  /** `get` answers the value of the last member with the name asked for. */
  lemma {:induction false} GetLastMember(members: seq<Member>, key: string, i: nat)
    requires i < |members| && members[i].name == key
    requires forall j :: i < j < |members| ==> members[j].name != key
    ensures Get(members, key) == members[i].value
  {
    var n := |members| - 1;
    if i < n {
      assert members[n].name != key;
      GetLastMember(members[..n], key, i);
    }
  }

  /** Python's `bool(v)`: `None`, `False`, `0`, `""`, `[]` and `{}` are false. */
  predicate Truthy(v: Json) {
    match v
    case JNull => false
    case JBool(b) => b
    case JInt(i) => i != 0
    case JStr(s) => s != ""
    case JArray(elems) => elems != []
    case JObject(members) => members != []
  }

  function DigitChar(d: nat): (c: char)
    requires d < 10
    ensures '0' <= c <= '9'
  {
    "0123456789"[d]
  }

  /** The decimal digits of `n`, as `str(n)` writes them. */
  function Digits(n: nat): (r: string)
    ensures r != []
    ensures forall k :: 0 <= k < |r| ==> '0' <= r[k] <= '9'
    decreases n
  {
    if n < 10 then [DigitChar(n)] else Digits(n / 10) + [DigitChar(n % 10)]
  }

  /** `sep.join(parts)`. */
  function Join(parts: seq<string>, sep: string): string {
    if parts == [] then ""
    else if |parts| == 1 then parts[0]
    else parts[0] + sep + Join(parts[1..], sep)
  }

  /** Python's `repr(v)` for a decoded JSON value (strings quoted with `'`). */
  function Repr(v: Json): string
    decreases v
  {
    match v
    case JNull => "None"
    case JBool(b) => if b then "True" else "False"
    case JInt(i) => if i < 0 then "-" + Digits(-i) else Digits(i)
    case JStr(s) => "'" + s + "'"
    case JArray(elems) =>
      "[" + Join(seq(|elems|, k requires 0 <= k < |elems| => Repr(elems[k])), ", ") + "]"
    case JObject(members) =>
      "{" + Join(seq(|members|, k requires 0 <= k < |members| =>
                       "'" + members[k].name + "': " + Repr(members[k].value)), ", ") + "}"
  }

  /** Python's `str(v)`: a string is its own text, every other value its `repr`. */
  function Str(v: Json): string {
    if v.JStr? then v.s else Repr(v)
  }

  /** `str()` of a number or a boolean has no surrounding whitespace, so `strip()` keeps it. */
  lemma StrOfScalarIsTrimmed(v: Json)
    requires v.JInt? || v.JBool?
    ensures Strip(Str(v)) == Str(v)
    ensures Str(v) != ""
  {
    var t := Str(v);
    if v.JInt? {
      var d := Digits(if v.i < 0 then -v.i else v.i);
      assert t[|t| - 1] == d[|d| - 1];
    }
    StripKeepsTrimmed(t);
  }

  // ---------------------------------------------------------------------------
  // The payload of an API call
  // ---------------------------------------------------------------------------

  /** What an API call hands back: the decoded body, or a failure of the request, of its
      status (`raise_for_status`) or of JSON decoding. */
  datatype ApiReply = Delivered(payload: Json) | RequestFailed

  datatype ApiError =
    | RequestError        // transport error, HTTP error status or a body that is not JSON
    | PayloadNotAnObject  // `payload.get` on something that is not a dict
    | ItemsNotAList       // iterating the chosen value does not give dicts
    | ItemNotAnObject     // `item.get` on a list element that is not a dict

  /** `payload.get("data") or payload.get("rows") or payload or []` on a dict payload. */
  function Chosen(payload: seq<Member>): (v: Json)
    ensures Truthy(v) || v == JArray([])
    ensures Truthy(Get(payload, "data")) ==> v == Get(payload, "data")
    ensures !Truthy(Get(payload, "data")) && Truthy(Get(payload, "rows")) ==> v == Get(payload, "rows")
    ensures !Truthy(Get(payload, "data")) && !Truthy(Get(payload, "rows")) && payload != []
            ==> v == JObject(payload)
    ensures !Truthy(Get(payload, "data")) && !Truthy(Get(payload, "rows")) && payload == []
            ==> v == JArray([])
  {
    var data := Get(payload, "data");
    var rows := Get(payload, "rows");
    if Truthy(data) then data
    else if Truthy(rows) then rows
    else if payload != [] then JObject(payload)
    else JArray([])
  }

  /** The items the mapping loop iterates over, exactly as the expression is written:
      a payload that is not a dict fails at `payload.get`; iterating a non-empty dict
      yields its keys and a non-empty string its characters (both fail at `item.get`),
      and a number or `True` cannot be iterated. */
  function PayloadItemsAsWritten(payload: Json): (r: Result<seq<Json>, ApiError>)
  {
    if !payload.JObject? then Failure(PayloadNotAnObject)
    else
      match Chosen(payload.members)
      case JArray(elems) => Success(elems)
      case _ => Failure(ItemsNotAList)
  }

  /** As written, a top-level JSON array is rejected before `or payload` is reached. */
  lemma ArrayPayloadRejectedAsWritten(elems: seq<Json>)
    ensures PayloadItemsAsWritten(JArray(elems)) == Failure(PayloadNotAnObject)
  {
  }

  /** As written, the `or payload` alternative never supplies an item: any non-empty
      item list comes from the `data` or the `rows` member. */
  lemma WholePayloadNeverSuppliesItems(payload: Json)
    requires PayloadItemsAsWritten(payload).Success?
    requires PayloadItemsAsWritten(payload).value != []
    ensures payload.JObject?
    ensures var items := JArray(PayloadItemsAsWritten(payload).value);
            items == Get(payload.members, "data") || items == Get(payload.members, "rows")
  {
  }

  /** A reply `{"data": []}` is an error, not an empty result: the empty list is falsy, the
      non-empty dict itself is iterated, and its first key fails at `item.get`. */
  lemma EmptyDataListFails()
    ensures PayloadItemsAsWritten(JObject([Member("data", JArray([]))])) == Failure(ItemsNotAList)
    ensures PayloadItems(JObject([Member("data", JArray([]))])) == Failure(ItemsNotAList)
  {
  }

  /** The evidently intended reading of the same expression: a payload that is itself a
      JSON array is the item list; every other payload is handled as written. */
  function PayloadItems(payload: Json): (r: Result<seq<Json>, ApiError>)
    ensures payload.JArray? ==> r == Success(payload.elems)
    ensures !payload.JArray? ==> r == PayloadItemsAsWritten(payload)
  {
    if payload.JArray? then Success(payload.elems) else PayloadItemsAsWritten(payload)
  }

  /** True when every item is a JSON object, so that `item.get` succeeds on each. */
  predicate AllObjects(items: seq<Json>) {
    forall k :: 0 <= k < |items| ==> items[k].JObject?
  }

  /** `f` applied to the members of every item, in item order. */
  function MapObjects<R>(items: seq<Json>, f: seq<Member> -> R): (out: seq<R>)
    requires AllObjects(items)
    ensures |out| == |items|
    ensures forall k :: 0 <= k < |items| ==> out[k] == f(items[k].members)
  {
    seq(|items|, k requires 0 <= k < |items| => f(items[k].members))
  }

  /** The loop `for item in items: rows.append({...})` of an API mapper, `f` building one
      record. It gives up at the first item that is not an object, where `item.get` raises. */
  method MapItems<R>(items: seq<Json>, f: seq<Member> -> R) returns (rows: Option<seq<R>>)
    ensures rows.Some? <==> AllObjects(items)
    ensures rows.Some? ==> rows.value == MapObjects(items, f)
  {
    var out: seq<R> := [];
    var i := 0;
    while i < |items|
      invariant 0 <= i <= |items|
      invariant forall k :: 0 <= k < i ==> items[k].JObject?
      invariant |out| == i
      invariant forall k :: 0 <= k < i ==> out[k] == f(items[k].members)
    {
      var item := items[i];
      if !item.JObject? {
        assert !AllObjects(items);
        return None;
      }
      out := out + [f(item.members)];
      i := i + 1;
    }
    return Some(out);
  }
}
