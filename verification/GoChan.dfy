/** Go's bounded channels, as values: the buffered elements (oldest first), the
    capacity, and whether the channel has been closed.  Closing keeps what is still
    buffered; only a closed channel with nothing left yields the zero value. */
module GoChan {

  datatype Chan<T> = Chan(buf: seq<T>, cap: nat, closed: bool) {

    /** A receive would not block. */
    predicate CanReceive() {
      closed || buf != []
    }

    /** A receive yields the zero value with `ok == false`. */
    predicate Drained() {
      closed && buf == []
    }

    /** The channel after one receive. */
    function Rest(): Chan<T> {
      if buf == [] then this else this.(buf := buf[1..])
    }

    /** What a receive takes out: the oldest element, or nothing. */
    function Taken(): seq<T> {
      if buf == [] then [] else [buf[0]]
    }

    /** A send does not block: there is room, or the channel is closed and the send panics. */
    predicate CanSend() {
      closed || |buf| < cap
    }

    function Append(x: T): Chan<T> {
      this.(buf := buf + [x])
    }

    function Shut(): Chan<T> {
      this.(closed := true)
    }
  }

  function Make<T>(cap: nat): Chan<T> {
    Chan([], cap, false)
  }

  /** What makes it a queue: a receive after a send takes the element sent only if nothing was
      buffered before, and otherwise the same as it would have taken before the send. */
  lemma FirstInFirstOut<T>(ch: Chan<T>, x: T)
    ensures ch.Append(x).CanReceive()
    ensures ch.buf == [] ==> ch.Append(x).Taken() == [x] && ch.Append(x).Rest() == ch
    ensures ch.buf != [] ==> ch.Append(x).Taken() == ch.Taken() && ch.Append(x).Rest() == ch.Rest().Append(x)
    ensures ch.Shut().CanReceive() && ch.Shut().CanSend() && ch.Shut().buf == ch.buf
    ensures !ch.closed ==> (ch.CanReceive() <==> |ch.buf| > 0) && (ch.CanSend() <==> |ch.buf| < ch.cap)
  {
  }

  /** The probe of the reconnect guard: a non-blocking receive that reports whether the
      channel is closed *and* empty.  It is not an observation: it takes an element out
      whenever there is one, also from a channel that is already closed. */
  method IsChanClose<T>(ch: Chan<T>) returns (closed: bool, rest: Chan<T>)
    ensures closed == ch.Drained() == (ch.closed && ch.buf == [])
    ensures rest == ch.Rest() && rest.closed == ch.closed && rest.cap == ch.cap
    ensures if ch.buf == [] then rest.buf == [] else ch.buf == [ch.buf[0]] + rest.buf
  {
    if ch.CanReceive() {
      var received := ch.buf != [];
      return !received, ch.Rest();
    }
    return false, ch;
  }
}
