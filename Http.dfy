/** The HTTP side shared by the two controllers: the action results they
    return, and the mappings their catch blocks apply to a service call's end. */
module Http {
  import opened Shared

  /** The results the controllers build. `Unhandled` is an exception that no
      catch block of the action handles and that escapes to the framework. */
  datatype ActionResult<T> =
    | Ok(value: T)
    | CreatedAtAction(actionName: string, routeId: int32, value: T)
    | NoContent
    | BadRequest(message: string)
    | NotFound(detail: Option<string>)
    | Unhandled(fault: Fault)
  {
    /** The response's status code; an escaping exception becomes ASP.NET Core's 500. */
    function StatusCode(): int {
      match this
      case Ok(_) => 200
      case CreatedAtAction(_, _, _) => 201
      case NoContent => 204
      case BadRequest(_) => 400
      case NotFound(_) => 404
      case Unhandled(_) => 500
    }
  }

  /** An action's result together with the service state it leaves behind. */
  datatype Exchange<T, S> = Exchange(result: ActionResult<T>, after: S)

  /** The update and delete actions: 204 when the service call completes,
      400 for `ArgumentException` and 404 for `KeyNotFoundException`, each
      carrying the exception's message. */
  function NoContentOrError<T>(c: Completion): (r: ActionResult<T>)
    ensures r.StatusCode() == 204 <==> c.Completed?
    ensures r.StatusCode() == 400 <==> c.Threw? && c.fault.ArgumentException?
    ensures r.StatusCode() == 404 <==> c.Threw? && c.fault.KeyNotFoundException?
    ensures r.BadRequest? ==> r.message == c.fault.message
    ensures r.NotFound? ==> r.detail == Some(c.fault.message)
  {
    match c
    case Completed => NoContent
    case Threw(ArgumentException(m)) => BadRequest(m)
    case Threw(KeyNotFoundException(m)) => NotFound(Some(m))
  }

  /** The add actions: 201 pointing at the new entity's id when the service
      call completes, 400 for `ArgumentException`; any other exception is not
      caught. */
  function CreatedOrBadRequest<T>(c: Completion, actionName: string, id: int32, value: T): (r: ActionResult<T>)
    ensures r.StatusCode() == 201 <==> c.Completed?
    ensures r.StatusCode() == 400 <==> c.Threw? && c.fault.ArgumentException?
    ensures r.Unhandled? <==> c.Threw? && c.fault.KeyNotFoundException?
    ensures r.CreatedAtAction? ==> r.actionName == actionName && r.routeId == id && r.value == value
    ensures r.BadRequest? ==> r.message == c.fault.message
  {
    match c
    case Completed => CreatedAtAction(actionName, id, value)
    case Threw(ArgumentException(m)) => BadRequest(m)
    case Threw(f) => Unhandled(f)
  }
}
