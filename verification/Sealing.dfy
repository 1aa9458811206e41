/** Authenticated encryption as a sealed box that opens only under the data it was bound to. */
module Sealing {
  import opened Text

  datatype Sealed<A> = Sealed(boundTo: A, secret: string)

  /** Decryption under the given associated data; `None` is the authentication failure. */
  function OpenSealed<A(==)>(box: Sealed<A>, aad: A): Option<string> {
    if box.boundTo == aad then Some(box.secret) else None
  }
}
