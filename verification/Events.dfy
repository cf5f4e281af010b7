/** Events of an execution graph: a position (thread, index). */
module Events {

  datatype Event = Event(thread: int, index: int) {
    predicate IsInitializer() { this == Initializer }

    predicate IsBottom() { this == Bottom }

    function Prev(): Event { Event(thread, index - 1) }

    function Next(): Event { Event(thread, index + 1) }
  }

  /** The event every location is initialised by: the start label of main. */
  const Initializer: Event := Event(0, 0)

  /** "No event": the reads-from of a read that has not been given a write yet. */
  const Bottom: Event := Event(-42, -42)
}
