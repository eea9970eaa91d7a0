/**
 * The repository's tagged result wrapper: a status and whatever the result
 * carries besides (its data and message), which the search handler never inspects.
 */
module Resources {
  datatype Status = Success | Error | Loading

  datatype Resource<D> = Resource(status: Status, payload: D)

  /** SUCCESS and ERROR end a fetch; LOADING is an intermediate state. */
  predicate IsTerminal<D>(r: Resource<D>)
  {
    r.status == Success || r.status == Error
  }
}
