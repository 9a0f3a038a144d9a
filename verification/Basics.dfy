/** Definitions that several modules share. */
module Basics {
  datatype Option<+T> = None | Some(value: T)

  const NS_PER_MS := 1_000_000

  function Flatten<T>(parts: seq<seq<T>>): seq<T>
  {
    if parts == [] then [] else parts[0] + Flatten(parts[1..])
  }
}
