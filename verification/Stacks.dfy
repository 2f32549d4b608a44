/** Stacks of undo states: the top is the end of the sequence. */
module Stacks {
  /** The newest entries that fit; the oldest are dropped first. */
  function Trim<T>(s: seq<T>, size: nat): seq<T> {
    if |s| > size then s[|s| - size..] else s
  }

  function Last<T>(s: seq<T>): T
    requires s != []
  {
    s[|s| - 1]
  }

  function Front<T>(s: seq<T>): seq<T>
    requires s != []
  {
    s[..|s| - 1]
  }

  /** A hook opens a state when there is none. */
  function Opened<T>(s: seq<T>, bottom: T): seq<T> {
    if s == [] then [bottom] else s
  }
}
