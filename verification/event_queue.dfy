/** Events and the two-lane event queue: completion events are a stack that is served first,
    regular events are a FIFO. */
module EventQueue {

  /** `completion` is kind.Is(Kind, CompletionEventKind); `data` stands for the other fields. */
  datatype Event = Event(name: string, completion: bool, id: string, source: seq<string>, data: int)

  datatype Pending = Pending(completions: seq<Event>, regular: seq<Event>)

  const EMPTY := Pending([], [])

  function Push(q: Pending, e: Event): Pending {
    if e.completion then q.(completions := q.completions + [e]) else q.(regular := q.regular + [e])
  }

  function PushAll(q: Pending, es: seq<Event>): Pending {
    if es == [] then q else Push(PushAll(q, es[..|es| - 1]), es[|es| - 1])
  }

  predicate IsEmpty(q: Pending) {
    q.completions == [] && q.regular == []
  }

  function Head(q: Pending): Event
    requires !IsEmpty(q)
  {
    if q.completions != [] then q.completions[|q.completions| - 1] else q.regular[0]
  }

  function Rest(q: Pending): Pending
    requires !IsEmpty(q)
  {
    if q.completions != [] then q.(completions := q.completions[..|q.completions| - 1])
    else q.(regular := q.regular[1..])
  }

  function Size(q: Pending): nat {
    |q.completions| + |q.regular|
  }
}
