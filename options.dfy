/** The optional value the queue's `dequeue` hands back: `undefined` becomes None. */
module Options {
  datatype Option<T> = None | Some(value: T)
}
