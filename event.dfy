/**
 * The event record handed to the pipeline by the protocol front-end
 * (`event.Event` of the bugs-channel-plugins module, whose source is not
 * part of this model). Its free-form fields are `map[string]interface{}`
 * trees; the closed datatype `Value` lists the shapes the scrubber tells
 * apart with `reflect`.
 */
module PluginEvent {

  /** A leaf of a decoded JSON tree. */
  datatype Prim = Str(s: string) | Num(n: int) | Bool(b: bool)

  /**
   * One value of a `map[string]interface{}`:
   * - `Scalar`: any value that is neither a map nor a slice;
   * - `Map`: a nested `map[string]interface{}`;
   * - `MapList`: a `[]map[string]interface{}`;
   * - `OtherList`: any other slice or array (`[]interface{}`, `[]string`, ...).
   */
  datatype Value =
    | Scalar(prim: Prim)
    | Map(dict: Dict)
    | MapList(dicts: seq<Dict>)
    | OtherList(elems: seq<Value>)

  /** A `map[string]interface{}`. */
  datatype Dict = Dict(entries: map<string, Value>)

  /** The fields of `event.Event` that the core reads or writes. */
  datatype Event = Event(
    id: string,
    serviceId: string,
    platform: string,
    extra: Dict,
    stackTrace: seq<Dict>,
    tags: seq<string>
  )
}
