/** JavaScript's `a || b` on values that may be absent: `null`, `undefined`,
 *  `''` and `0` are falsy, so `x || null` turns each of them into null. */
module Js {
  import opened Wrappers

  predicate TruthyStr(v: Option<string>)
  {
    v.Some? && v.value != ""
  }

  predicate TruthyInt(v: Option<int>)
  {
    v.Some? && v.value != 0
  }

  /** `v || null` on a string field. */
  function OrNullStr(v: Option<string>): (r: Option<string>)
    ensures r.None? <==> !TruthyStr(v)
    ensures r.Some? ==> r == v && r.value != ""
  {
    if TruthyStr(v) then v else None
  }

  /** `v || null` on a numeric field. */
  function OrNullInt(v: Option<int>): (r: Option<int>)
    ensures r.None? <==> !TruthyInt(v)
    ensures r.Some? ==> r == v && r.value != 0
  {
    if TruthyInt(v) then v else None
  }

  /** `v || d` on a string field. */
  function OrStr(v: Option<string>, d: string): (r: string)
    ensures TruthyStr(v) ==> r == v.value
    ensures !TruthyStr(v) ==> r == d
  {
    if TruthyStr(v) then v.value else d
  }
}
