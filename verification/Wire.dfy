/** The values that cross the wire, shared by the server and every client. */
module Wire {
  datatype Option<+T> = None | Some(value: T)

  datatype Result<+T, +E> = Ok(value: T) | Err(error: E)

  /** A message as clients see it. `pos` is its `seq`, the position in the server-wide sequence. */
  datatype Message = Message(pos: nat, username: string, body: string, postedAt: nat)

  /** A room as the listing reports it. `latestSeq` is START while the room is empty. */
  datatype Room = Room(id: nat, name: string, latestSeq: nat)

  /** Below every message's position. */
  const START: nat := 0

  /** The first `n` elements, or all of them when there are fewer. */
  function FirstN<T>(s: seq<T>, n: nat): seq<T> {
    if |s| <= n then s else s[..n]
  }

  /** The last `n` elements, or all of them when there are fewer. */
  function LastN<T>(s: seq<T>, n: nat): seq<T> {
    if |s| <= n then s else s[|s| - n..]
  }

  function Reversed<T>(s: seq<T>): (r: seq<T>)
    ensures |r| == |s|
  {
    seq(|s|, i requires 0 <= i < |s| => s[|s| - 1 - i])
  }

  function Flatten<T>(batches: seq<seq<T>>): seq<T> {
    if batches == [] then [] else Flatten(batches[..|batches| - 1]) + batches[|batches| - 1]
  }

  function Max(a: nat, b: nat): nat {
    if a < b then b else a
  }

  function Min(a: nat, b: nat): nat {
    if a < b then a else b
  }
}
