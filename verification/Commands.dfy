/** Commands as Cloud sends them, and what a handler gives back: the messages behind commands/. */
module Commands {

  datatype Operation = Create | Delete | Hibernate | Resume | Reconcile | Save | Unknown

  /** An ExecuteCommand, without the configuration its handler reads. */
  datatype Command = Command(id: string, operation: Operation, generation: int, container: string, device: string)

  /** A handler returns a result, returns an error code, or raises. */
  datatype Outcome<+R> = Returned(result: R) | Rejected(code: string, message: string) | Raised(message: string)

  /** The operations main.py registers a handler for. */
  const HANDLED: set<Operation> := {Create, Delete, Hibernate, Resume, Save}

  /** The operations whose handler asks Container Maker to create a container. */
  const CREATING: set<Operation> := {Create, Resume}

  /** `_PLACING_OPERATIONS` and `_UNPLACING_OPERATIONS` of commands/executor.py. */
  const PLACING: set<Operation> := {Create, Resume}
  const UNPLACING: set<Operation> := {Delete, Hibernate}

  function OperationName(operation: Operation): string {
    match operation
    case Create => "Create"
    case Delete => "Delete"
    case Hibernate => "Hibernate"
    case Resume => "Resume"
    case Reconcile => "Reconcile"
    case Save => "Save"
    case Unknown => "Unknown"
  }

  /** Each operation is stored under its own name, and no other is. */
  lemma NamesTellApart(operation: Operation)
    ensures OperationName(operation) == "Create" <==> operation.Create?
    ensures OperationName(operation) == "Delete" <==> operation.Delete?
    ensures OperationName(operation) == "Hibernate" <==> operation.Hibernate?
    ensures OperationName(operation) == "Resume" <==> operation.Resume?
    ensures OperationName(operation) == "Reconcile" <==> operation.Reconcile?
    ensures OperationName(operation) == "Save" <==> operation.Save?
    ensures OperationName(operation) == "Unknown" <==> operation.Unknown?
  {
  }
}
