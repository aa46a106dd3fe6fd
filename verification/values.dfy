/**
 * The JavaScript values that reach the contact pipeline as parsed bodies:
 * what JSON.parse can produce (numbers kept to integers), plus BigInt, the
 * one kind of value on which JSON.stringify throws.
 */
module Values {
  import opened Wrappers

  datatype Value =
    | Null
    | Bool(b: bool)
    | Num(n: int)
    | Str(s: string)
    | Arr(items: seq<Value>)
    | Obj(fields: seq<(string, Value)>)
    | BigInt(big: int)

  /** The value stored under `key`, if the object has that key. */
  function Get(fields: seq<(string, Value)>, key: string): (r: Option<Value>)
    ensures r.Some? <==> exists i | 0 <= i < |fields| :: fields[i].0 == key
    ensures r.Some? ==> exists i | 0 <= i < |fields| :: fields[i] == (key, r.value)
  {
    if fields == [] then None
    else if fields[0].0 == key then Some(fields[0].1)
    else Get(fields[1..], key)
  }

  /** `typeof v === "object" && v !== null && "error" in v` (an array has no "error" key). */
  predicate HasError(v: Value)
    ensures HasError(v) <==> v.Obj? && exists i | 0 <= i < |v.fields| :: v.fields[i].0 == "error"
  {
    v.Obj? && Get(v.fields, "error").Some?
  }

  /** The body `{ error: message }` the route answers with. */
  function ErrorBody(message: string): Value
  {
    Obj([("error", Str(message))])
  }

  predicate ContainsBigInt(v: Value)
  {
    match v
    case BigInt(_) => true
    case Arr(items) => exists i | 0 <= i < |items| :: ContainsBigInt(items[i])
    case Obj(fields) => exists i | 0 <= i < |fields| :: ContainsBigInt(fields[i].1)
    case _ => false
  }

  function Digit(d: int): char
    requires 0 <= d < 10
  {
    "0123456789"[d]
  }

  function NatToString(n: nat): (r: string)
    ensures r != []
  {
    if n < 10 then [Digit(n)] else NatToString(n / 10) + [Digit(n % 10)]
  }

  function IntToString(n: int): (r: string)
    ensures r != []
  {
    if n < 0 then "-" + NatToString(-n) else NatToString(n)
  }

  function HexDigit(d: int): char
    requires 0 <= d < 16
  {
    "0123456789abcdef"[d]
  }

  /** One character as JSON.stringify writes it inside a string literal. */
  function EscapeChar(c: char): (r: string)
    ensures r != []
  {
    if c == '"' then "\\\""
    else if c == '\\' then "\\\\"
    else if c == '\U{0008}' then "\\b"
    else if c == '\U{000C}' then "\\f"
    else if c == '\n' then "\\n"
    else if c == '\r' then "\\r"
    else if c == '\t' then "\\t"
    else if c < ' ' then "\\u00" + [HexDigit(c as int / 16), HexDigit(c as int % 16)]
    else [c]
  }

  function Escape(s: string): string
  {
    if s == [] then [] else EscapeChar(s[0]) + Escape(s[1..])
  }

  function Quote(s: string): (r: string)
    ensures |r| >= 2 && r[0] == '"'
  {
    "\"" + Escape(s) + "\""
  }

  /** `parts` joined by commas. */
  function JoinCommas(parts: seq<string>): string
  {
    if parts == [] then []
    else if |parts| == 1 then parts[0]
    else parts[0] + "," + JoinCommas(parts[1..])
  }

  /** Every entry present: the unwrapped entries, or None as soon as one is missing. */
  function AllPresent(parts: seq<Option<string>>): (r: Option<seq<string>>)
    ensures r.Some? <==> forall i | 0 <= i < |parts| :: parts[i].Some?
    ensures r.Some? ==> |r.value| == |parts|
  {
    if parts == [] then Some([])
    else match (parts[0], AllPresent(parts[1..]))
      case (Some(p), Some(ps)) => Some([p] + ps)
      case _ => None
  }

  /**
   * JSON.stringify, with its exception as None: it throws exactly when the
   * value holds a BigInt, and otherwise never yields the empty text.
   */
  function Stringify(v: Value): (r: Option<string>)
    ensures r.None? <==> ContainsBigInt(v)
    ensures r.Some? ==> r.value != []
  {
    match v
    case Null => Some("null")
    case Bool(b) => Some(if b then "true" else "false")
    case Num(n) => Some(IntToString(n))
    case Str(s) => Some(Quote(s))
    case BigInt(_) => None
    case Arr(items) =>
      var parts := seq(|items|, i requires 0 <= i < |items| => Stringify(items[i]));
      assert forall i | 0 <= i < |items| :: parts[i].Some? == !ContainsBigInt(items[i]);
      (match AllPresent(parts)
       case None => None
       case Some(ps) => Some("[" + JoinCommas(ps) + "]"))
    case Obj(fields) =>
      var parts := seq(|fields|, i requires 0 <= i < |fields| =>
        (match Stringify(fields[i].1)
         case None => None
         case Some(t) => Some(Quote(fields[i].0) + ":" + t)));
      assert forall i | 0 <= i < |fields| :: parts[i].Some? == !ContainsBigInt(fields[i].1);
      match AllPresent(parts)
      case None => None
      case Some(ps) => Some("{" + JoinCommas(ps) + "}")
  }
}
