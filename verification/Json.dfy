/** JSON values as both ends of the worker channel and the provider stream see them. */
module Json {
  import opened Options

  const U32_LIMIT: nat := 0x1_0000_0000
  const U64_LIMIT: nat := 0x1_0000_0000_0000_0000

  datatype Json =
    | Null
    | Bool(b: bool)
    | Num(n: int)
    | Frac(r: real)
    | Str(s: string)
    | Arr(items: seq<Json>)
    | Obj(fields: map<string, Json>)
  {
    /** Member lookup; a value that is not an object has no members. */
    function Get(key: string): Option<Json> {
      if Obj? && key in fields then Some(fields[key]) else None
    }

    function AsStr(): Option<string> {
      if Str? then Some(s) else None
    }

    /** Integers in the range of an unsigned 64-bit word. */
    function AsU64(): Option<nat> {
      if Num? && 0 <= n < U64_LIMIT then Some(n) else None
    }

    /** Integers in the range of a signed 64-bit word. */
    function AsI64(): Option<int> {
      if Num? && -0x8000_0000_0000_0000 <= n < 0x8000_0000_0000_0000 then Some(n) else None
    }

    function GetStr(key: string): Option<string> {
      match Get(key) case Some(v) => v.AsStr() case None => None
    }

    function GetU64(key: string): Option<nat> {
      match Get(key) case Some(v) => v.AsU64() case None => None
    }
  }

  /** A JSON-RPC error object says this code and this message; what it leaves out is -1 and a stock text. */
  predicate ErrorSays(err: Json, code: int, message: string) {
    && (match err.Get("code")
        case Some(Num(n)) => code == if -0x8000_0000_0000_0000 <= n < 0x8000_0000_0000_0000 then n else -1
        case _ => code == -1)
    && (match err.Get("message")
        case Some(Str(text)) => message == text
        case _ => message == "unknown rpc error")
  }
}
