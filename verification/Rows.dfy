/** Rows of a table with a text key. */
module Rows {

  /** Index of the first row with this key, or the number of rows. */
  function FindBy<T>(rows: seq<T>, keyOf: T -> string, key: string): (i: nat)
    ensures i <= |rows|
    ensures i < |rows| ==> keyOf(rows[i]) == key
    ensures forall k :: 0 <= k < i ==> keyOf(rows[k]) != key
  {
    if rows == [] then 0
    else if keyOf(rows[0]) == key then 0
    else 1 + FindBy(rows[1..], keyOf, key)
  }
}
