/** Optional values and the failures the core can raise. */
module Outcomes {

  datatype Option<+T> = None | Some(value: T)

  /** The ways a lookup in the core can fail.
      - NotFound: `get_object_or_404` found no row (an HTTP 404).
      - DoesNotExist: `Project.objects.get` found no row; the permission
        classes do not catch it, so it escapes as a raw ORM exception.
      - KeyError: a key read from the validated request data was omitted.
      - AttributeError: `obj.author` read on an object that has no author;
        `IsAuthorOrReadOnly` would raise it on a user account, but no view
        applies that class to one. */
  datatype Error = NotFound | DoesNotExist | KeyError | AttributeError

  datatype Result<+T> = Ok(value: T) | Err(error: Error)
}
