/** How many leading rows of a listing one page shows: a row limit and a size budget. */
module Pages {
  const MAX_PAGE_CHARS: nat := 4 * 1024 * 1024

  /** Rows are taken one by one; the first always fits, and the rest must fit the budget. */
  function Shown(sizes: seq<nat>, limit: nat, taken: nat, size: nat): (n: nat)
    ensures n <= |sizes|
  {
    if sizes == [] || taken >= limit || (taken > 0 && size + sizes[0] > MAX_PAGE_CHARS) then 0
    else 1 + Shown(sizes[1..], limit, taken + 1, size + sizes[0])
  }
}
