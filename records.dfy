/** JSON objects as the backend reads them: string keys to string values. */
module Records {
  /** A JSON object whose relevant values are strings. */
  type Dict = map<string, string>

  /** Python's `d.get(key, default)`. */
  function Get(d: Dict, key: string, default: string): (r: string)
    ensures key in d ==> r == d[key]
    ensures key !in d ==> r == default
  {
    if key in d then d[key] else default
  }
}
