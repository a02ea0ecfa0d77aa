/** The optional value used for `current_riddle` and for the player a star may be placed around. */
module Basics {
  datatype Option<T> = None | Some(value: T)

  function Max(a: int, b: int): int { if a < b then b else a }

  function Min(a: int, b: int): int { if a < b then a else b }

  /**
   * `s[:-1]` on a string, or `list.pop()` on a non-empty list with its result unused: the last
   * element dropped, an empty sequence left empty.
   */
  function DropLast<T>(s: seq<T>): (r: seq<T>)
    ensures |s| == 0 ==> r == []
    ensures |s| > 0 ==> |r| == |s| - 1 && s == r + [s[|s| - 1]]
  {
    if |s| == 0 then s else s[..|s| - 1]
  }
}
