/** The single-producer, single-consumer queue as its two users see it.

    Every value sits in exactly one of four stretches, oldest first: taken by the
    reader, flushed and waiting for the reader, complete but not flushed, and part of
    an unfinished item. The pointer-level pipe in `YPipe` is proved to behave like this
    queue, and the two-ended pipe of `PipeModel` is built on it. */
module QueueSpec {

  datatype Option<+T> = None | Some(value: T)

  datatype Queue<T> = Queue(taken: seq<T>, flushed: seq<T>, complete: seq<T>, partial: seq<T>, asleep: bool) {

    function Write(v: T, incomplete: bool): Queue<T> {
      if incomplete then this.(partial := partial + [v])
      else this.(complete := complete + partial + [v], partial := [])
    }

    /** Takes back the newest value of an unfinished item. */
    function Unwrite(): Queue<T> {
      if partial == [] then this else this.(partial := partial[..|partial| - 1])
    }

    function Flush(): Queue<T> {
      if complete == [] then this
      else this.(flushed := flushed + complete, complete := [], asleep := false)
    }

    /** False when flushing finds the reader asleep, so that the caller has to wake it. */
    predicate FlushFindsReaderAwake() {
      complete == [] || !asleep
    }

    /** A reader that finds nothing goes to sleep. */
    function CheckRead(): Queue<T> {
      if flushed == [] then this.(asleep := true) else this
    }

    function Read(): Queue<T> {
      if flushed == [] then this.(asleep := true)
      else this.(taken := taken + [flushed[0]], flushed := flushed[1..])
    }

    /** Reading until nothing is left. */
    function Drain(): Queue<T> {
      this.(taken := taken + flushed, flushed := [], asleep := true)
    }

    /** Everything the writer has completed, read or not. */
    function Completed(): seq<T> {
      taken + flushed + complete
    }
  }

  function EmptyQueue<T>(): Queue<T> {
    Queue([], [], [], [], false)
  }
}
