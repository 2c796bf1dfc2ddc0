/** Text helpers shared by the backend's command builder and the editor. */
module Texts {
  /** The pieces joined with `sep` between each two, as JavaScript's
      `parts.join(sep)` gives them. */
  function Joined(parts: seq<string>, sep: string): string
    decreases |parts|
  {
    if parts == [] then ""
    else if |parts| == 1 then parts[0]
    else parts[0] + sep + Joined(parts[1..], sep)
  }
}
