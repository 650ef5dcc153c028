/** Wrappers shared by every layer: a Java nullable/Optional value and a
    pass-or-fail outcome standing in for a thrown exception. */
module Common {

  datatype Option<T> = None | Some(value: T)

  datatype Outcome<E> = Pass | Fail(error: E)
}
