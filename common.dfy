/** Values shared by the training wrapper and the dataset model: optional
    values, the outcome of an operation that Python would abort with an
    exception, and opaque tensor handles. */
module Common {

  datatype Option<+T> = None | Some(value: T)

  /** The Python exceptions the modelled code can raise on its own paths. */
  datatype Error =
    | NotImplementedError
    | AttributeError(attribute: string)
    | IndexError
    | KeyError
    | FileNotFoundError

  datatype Result<+T> = Ok(value: T) | Err(error: Error)

  /** A tensor is never inspected by the modelled code: it is only stored,
      copied and handed on, so a handle stands for it. */
  datatype Tensor = Tensor(handle: nat)
}
