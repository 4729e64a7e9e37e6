/** Datatypes that several modules use. */
module Wrappers {

  datatype Option<T> = None | Some(value: T)

  /** What a request key is remembered with: the row it created and its content. */
  datatype Saved = Saved(id: nat, digest: string)
}
