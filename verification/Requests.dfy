/** Controller requests and the operations that authorize them
    (internal/controlledsession/protocol.go, authorization.go). */
module Requests {
  import opened Common

  const MAX_FRAME_PAYLOAD: nat := 0x10_0000

  datatype Operation = InputOperation | ResizeOperation | TerminateOperation | CompleteOperation

  datatype RequestKind =
    | Input | Resize | Terminate | Complete | AcknowledgeTerminated
    | OtherRequest(name: string)

  /** `bytes == None` is Go's nil slice; `Some([])` is an empty, present one. */
  datatype Request = Request(kind: RequestKind, bytes: Option<seq<byte>>, columns: uint32, rows: uint32) {
    predicate Valid() {
      match kind
      case Input => bytes.Some? && columns == 0 && rows == 0
      case Resize => bytes.None? && ValidDimensions(columns, rows)
      case OtherRequest(_) => false
      case _ => bytes.None? && columns == 0 && rows == 0
    }
  }

  predicate ValidDimensions(columns: uint32, rows: uint32) {
    1 <= columns <= 65535 && 1 <= rows <= 65535
  }

  function OperationFor(kind: RequestKind): Option<Operation> {
    match kind
    case Input => Some(InputOperation)
    case Resize => Some(ResizeOperation)
    case Terminate => Some(TerminateOperation)
    case Complete => Some(CompleteOperation)
    case _ => None
  }
}
