/**
 * The values and exceptions shared by the Bedrock Converse helpers: a JSON-like
 * value standing for the Python objects found in request dictionaries and
 * tool calls, and the exceptions those helpers raise.
 */
module BedrockTypes {

  /** A Python value in a Converse request dictionary: int, str, list or dict (keyed by str). */
  datatype Value =
    | VInt(i: int)
    | VStr(s: string)
    | VList(items: seq<Value>)
    | VDict(entries: map<string, Value>)

  /**
   * The exceptions the helpers raise. `KeyError` names the missing key,
   * `AssertionError` the tool-call key whose absence failed the assertion,
   * `ValueError` carries the message, and `TypeError` also stands for the
   * AttributeError that a missing `.copy()` raises.
   */
  datatype BedrockError =
    | KeyError(key: string)
    | AssertionError(missing: string)
    | ValueError(message: string)
    | TypeError

  /** Python truthiness of a value. */
  predicate Truthy(v: Value)
  {
    match v
    case VInt(i) => i != 0
    case VStr(s) => s != ""
    case VList(items) => items != []
    case VDict(entries) => entries != map[]
  }
}
