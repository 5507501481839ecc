/** The history a tracker writes, event by event, read as a whole or one track at a time. */
module Logs {

  datatype Tagged<E> = Tagged(id: int, event: E)

  /** What is logged about one track. */
  function LogOf<E>(log: seq<Tagged<E>>, id: int): seq<E> {
    if log == [] then []
    else
      var t := log[|log| - 1];
      LogOf(log[..|log| - 1], id) + (if t.id == id then [t.event] else [])
  }

  lemma {:induction false} LogAppend<E>(log: seq<Tagged<E>>, t: Tagged<E>, id: int)
    ensures LogOf(log + [t], id) == LogOf(log, id) + (if t.id == id then [t.event] else [])
  {
    assert (log + [t])[..|log|] == log;
  }
}
