/**
 * Decoded JSON as the traits see it, the remote's responses, the exceptions
 * they raise, and the foreign parsers (is_numeric, strtotime) as parameters.
 */
module Data {
  import opened Wrappers

  /**
   * A value of a decoded record. JSON objects and lists are PHP arrays
   * (JArray); list indices appear as their decimal strings. The two object
   * kinds are the ones type inference distinguishes: a \DateTime built by the
   * insert coercion (its constructor arguments kept abstractly) and any other.
   */
  datatype Value =
    | JNull
    | JBool(b: bool)
    | JInt(i: int)
    | JFloat(r: real)
    | JString(s: string)
    | JArray(entries: seq<Entry>)
    | DateTimeObject(date: Value, zone: Option<Value>)
    | OtherObject

  datatype Entry = Entry(key: string, value: Value)

  /** One row of remote data: an ordered PHP array from column name to value. */
  type Record = seq<Entry>

  /** array_keys */
  function Keys(r: Record): seq<string> {
    seq(|r|, i requires 0 <= i < |r| => r[i].key)
  }

  /** array_key_exists */
  predicate HasKey(r: Record, k: string) {
    k in Keys(r)
  }

  /** `$r[k]`: the value under the first entry with key `k`, null when there is none. */
  function Lookup(r: Record, k: string): Value {
    if r == [] then JNull else if r[0].key == k then r[0].value else Lookup(r[1..], k)
  }

  /** The columns both traits add themselves: `id` and the two timestamps. */
  const Reserved: seq<string> := ["id", "created_at", "updated_at"]

  /**
   * The foreign parsers, left uninterpreted: PHP's is_numeric on strings and
   * whether strtotime accepts a scalar (after PHP's string conversion).
   */
  datatype Parsers = Parsers(isNumeric: string -> bool, strtotime: Value -> bool)

  /**
   * One response of the remote endpoint: a failed request, a paginated
   * envelope (`data` with optional `per_page`, `current_page`, `last_page`)
   * or a bare JSON list of records.
   */
  datatype Response =
    | Failed
    | Paginated(data: seq<Record>, perPage: Option<int>, currentPage: Option<int>, lastPage: Option<int>)
    | Bare(rows: seq<Record>)

  /** The exceptions the core raises. */
  datatype Error =
    | NoData(message: string)
    | AccessFailed(message: string)
    | QueryFailed(message: string)
    | ChunkSizeNotPositive
    | UnknownColumnType(typeValue: Value)

  const ManagedNoDataMessage: string := "No data returned from Remote Model `$remoteEndpoint`."
  const LegacyNoDataMessage: string := "No data returned from Remote Model `$endpoint`."
  const AccessFailedMessage: string := "Access to Remote Model `$endpoint` failed."
}
