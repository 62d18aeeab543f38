/** JSON values as `json.loads` hands them to the program: the cache file's
    contents and every API response body. Python's `dict`, `list`, `str`,
    `int`, `float`, `bool` and `None`. */
module Json {

  datatype Json =
    | JNull
    | JBool(b: bool)
    | JInt(i: int)
    | JFloat(r: real)
    | JStr(s: string)
    | JArr(elems: seq<Json>)
    | JObj(fields: map<string, Json>)

  /** `j[key]` succeeds: `j` is an object with that key (else KeyError). */
  predicate Has(j: Json, key: string)
  {
    j.JObj? && key in j.fields
  }

  /** `j[key]`. */
  function Get(j: Json, key: string): Json
    requires Has(j, key)
  {
    j.fields[key]
  }

  /** `j[i]` succeeds: `j` is a list with an element at `i` (else IndexError). */
  predicate HasIndex(j: Json, i: nat)
  {
    j.JArr? && i < |j.elems|
  }

  /** `j[i]`. */
  function At(j: Json, i: nat): Json
    requires HasIndex(j, i)
  {
    j.elems[i]
  }

  /** `j[outer][inner]` succeeds. */
  predicate HasPath(j: Json, outer: string, inner: string)
  {
    Has(j, outer) && Has(Get(j, outer), inner)
  }
}
