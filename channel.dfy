/** Unbounded FIFO channels. A send appends at the back, a `try_recv` takes
    the front item or reports that the channel is empty. */
module Channels {

  datatype Option<T> = None | Some(value: T)

  /** Regrouping a run of sends or receives. */
  lemma AppendAssociates<T>(a: seq<T>, b: seq<T>, c: seq<T>)
    ensures (a + b) + c == a + (b + c)
  {
  }

  class Channel<T> {
    var items: seq<T>

    constructor ()
      ensures items == []
    {
      items := [];
    }

    function IsEmpty(): bool
      reads this
    {
      |items| == 0
    }

    method Send(x: T)
      modifies this
      ensures items == old(items) + [x]
    {
      items := items + [x];
    }

    method TryRecv() returns (r: Option<T>)
      modifies this
      ensures old(items) == [] ==> r == None && items == []
      ensures old(items) != [] ==> r == Some(old(items)[0]) && items == old(items)[1..]
    {
      if |items| == 0 {
        r := None;
      } else {
        r := Some(items[0]);
        items := items[1..];
      }
    }
  }
}
