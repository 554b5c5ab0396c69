/**
 * Decoded JSON values as the scripts handle them after `json.loads`, with
 * the Python operations they apply: `d.get(k, default)`, `x[:n]`,
 * truthiness, `==` against a string, and `str(x)` as an f-string does it.
 */
module PyJson {
  import opened Wrappers
  import opened Text

  /** A decoded JSON value. Numbers are integers; floats are not modelled. */
  datatype Json =
    | JNull
    | JBool(b: bool)
    | JInt(n: int)
    | JStr(s: string)
    | JArr(items: seq<Json>)
    | JObj(members: seq<Member>)

  /** One key/value pair of a decoded object, in document order. */
  datatype Member = Member(key: string, value: Json)

  /** The Python exception classes the modelled code can raise. */
  datatype PyError =
    | AttributeError   // `.get` on something that is not a dict
    | KeyError         // `d[k]` with `k` missing
    | TypeError        // slicing or indexing a value that does not support it
    | ValueError       // a body that is not valid JSON, an `int()` that fails
    | OSError          // a failed request or file operation
    | ProcessError     // a `git` subprocess that fails

  /**
   * The value stored under `key`; as with `json.loads`, the last of
   * several equal keys wins.
   */
  function Lookup(members: seq<Member>, key: string): (r: Option<Json>)
    ensures r.None? <==> forall i :: 0 <= i < |members| ==> members[i].key != key
    ensures r.Some? ==> Member(key, r.value) in members
    decreases |members|
  {
    if members == [] then None
    else if members[|members| - 1].key == key then Some(members[|members| - 1].value)
    else Lookup(members[..|members| - 1], key)
  }

  /** `d.get(key, default)` on a value known to be a dict. */
  function Field(obj: Json, key: string, default: Json): Json
    requires obj.JObj?
  {
    Lookup(obj.members, key).GetOr(default)
  }

  /** `x[:n]`: strings and lists slice; anything else raises TypeError. */
  function SliceTo(x: Json, n: nat): (r: Result<Json, PyError>)
    ensures r.Success? <==> x.JStr? || x.JArr?
    ensures x.JStr? ==> r == Success(JStr(Take(x.s, n)))
  {
    match x
    case JStr(s) => Success(JStr(Take(s, n)))
    case JArr(items) => Success(JArr(Take(items, n)))
    case _ => Failure(TypeError)
  }

  /** Python truthiness (`if not x`). */
  predicate Truthy(x: Json)
  {
    match x
    case JNull => false
    case JBool(b) => b
    case JInt(n) => n != 0
    case JStr(s) => s != ""
    case JArr(items) => items != []
    case JObj(members) => members != []
  }

  /** `str(x)`, which is what an f-string substitutes for `{x}`. */
  function Str(x: Json): string
  {
    if x.JStr? then x.s else Repr(x)
  }

  /** `repr(x)`; strings are quoted with single quotes. */
  function Repr(x: Json): string
  {
    match x
    case JNull => "None"
    case JBool(b) => if b then "True" else "False"
    case JInt(n) => IntToString(n)
    case JStr(s) => Quote(s)
    case JArr(items) =>
      "[" + JoinWith(seq(|items|, i requires 0 <= i < |items| => Repr(items[i])), ", ") + "]"
    case JObj(members) =>
      var keys := DictKeys(members);
      "{" + JoinWith(seq(|keys|, i requires 0 <= i < |keys| =>
                       Quote(keys[i]) + ": " + Repr(Lookup(members, keys[i]).value)), ", ") + "}"
  }

  /**
   * The keys of the dict `json.loads` builds from `members`: each key once,
   * where it first occurs (a repeated key keeps its place and takes the
   * last value, as Lookup gives it).
   */
  function DictKeys(members: seq<Member>): (keys: seq<string>)
    ensures forall j :: 0 <= j < |keys| ==> Lookup(members, keys[j]).Some?
    ensures forall i :: 0 <= i < |members| ==> members[i].key in keys
    ensures forall i, j :: 0 <= i < j < |keys| ==> keys[i] != keys[j]
  {
    if members == [] then []
    else
      var init := members[..|members| - 1];
      var keys := DictKeys(init);
      var last := members[|members| - 1].key;
      assert forall i :: 0 <= i < |init| ==> members[i] == init[i];
      if last in keys then keys else keys + [last]
  }

  function Quote(s: string): string
  {
    "'" + s + "'"
  }

  /** `sep.join(parts)` for a separator of any length. */
  function JoinWith(parts: seq<string>, sep: string): string
  {
    if parts == [] then ""
    else if |parts| == 1 then parts[0]
    else parts[0] + sep + JoinWith(parts[1..], sep)
  }

  function DigitChar(d: nat): char
    requires d < 10
  {
    "0123456789"[d]
  }

  function NatToString(n: nat): string
  {
    if n < 10 then [DigitChar(n)] else NatToString(n / 10) + [DigitChar(n % 10)]
  }

  function IntToString(n: int): string
  {
    if n < 0 then "-" + NatToString(-n) else NatToString(n)
  }
}
