/** The values the resource store keeps and returns. */
module Types {

  newtype byte = x: int | 0 <= x < 256

  /** An Internet Computer principal: an opaque identity, compared by its bytes. */
  datatype Principal = Principal(raw: seq<byte>)

  datatype Option<T> = None | Some(value: T)

  /** The closed set of resource categories. */
  datatype Category = Treatment | Prevention | Research | DietAdvice | Testimonial | MedicalAdvice

  /** One stored entry. Ids and timestamps are unbounded here (the source uses u64). */
  datatype Resource = Resource(
    id: nat,
    title: string,
    description: string,
    category: Category,
    createdAt: nat,
    updatedAt: nat,
    verified: bool)

  /** What a caller supplies to create or update a resource. */
  datatype Payload = Payload(title: string, description: string, category: Category)

  datatype Error = NotFound | AlreadyExists | InvalidInput(message: string) | Unauthorized

  /** The store's result type; failure-compatible, so `:-` plays the part of Rust's `?`. */
  datatype Result<T> = Ok(value: T) | Err(error: Error) {
    predicate IsFailure() {
      Err?
    }

    function PropagateFailure<U>(): Result<U>
      requires Err?
    {
      Err(error)
    }

    function Extract(): T
      requires Ok?
    {
      value
    }
  }
}
