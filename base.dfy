/** Shared vocabulary: optional values, results carrying the Python exception a
    call would raise, and the JSON values that flow through the envelopes. */
module Base {

  datatype Option<+T> = None | Some(value: T) {
    function GetOr(default: T): T {
      match this
      case Some(v) => v
      case None => default
    }
  }

  /** The exceptions the modelled code raises or lets through. */
  datatype Error =
    | TypeError(reason: string)          // abstract class instantiated, keyword given twice
    | AttributeError(attribute: string)  // attribute looked up on an object that lacks it
    | KeyError(key: string)              // dict lookup of a missing key
    | RuntimeError(message: string)      // a blueprint bound twice
    | RecursionError                     // delegation that never reaches a registry
    | ValidationError(fields: seq<string>) // request body rejected by the schema parser
    | DomainError(raised: string)        // raised by the resource itself, passed on verbatim

  datatype Result<+T> = Ok(value: T) | Err(error: Error)

  /** JSON documents as produced by the serializer and sent on the wire. */
  datatype Json =
    | JNull
    | JBool(b: bool)
    | JInt(i: int)
    | JStr(s: string)
    | JArr(items: seq<Json>)
    | JObj(members: map<string, Json>)
}
