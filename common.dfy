/** Shapes shared by the frontend models: an optional value and the data of an
    HTTP reply. A network call is modelled by its outcome only: `Some(reply)` when
    the request succeeded, `None` when it failed. */
module Common {

  datatype Option<T> = None | Some(value: T)

  /** The JSON body of a successful reply, kept abstract. */
  datatype Reply = Reply(json: string)
}
