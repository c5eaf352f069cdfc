/** Runs seen with the states they pass through. */
module Traces {

  /** One more state than events; event i leads from state i to state i + 1. */
  datatype Path<S, E> = Path(states: seq<S>, events: seq<E>)

  function Start<S, E>(s: S): Path<S, E> {
    Path([s], [])
  }

  function Then<S, E>(path: Path<S, E>, e: E, s: S): Path<S, E> {
    Path(path.states + [s], path.events + [e])
  }

  predicate Extends<S(==), E(==)>(path: Path<S, E>, more: Path<S, E>) {
    path.states <= more.states && path.events <= more.events
  }
}
