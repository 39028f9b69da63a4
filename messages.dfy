/** Values exchanged by the Drakvuf task manager: bytes, the result
    messages written by the sandbox, the report handed back to callers, and
    the errors its operations return. */
module Messages {

  /** One octet of a sample or of a result file. */
  newtype byte = x: int | 0 <= x < 256

  /** Go's int64, used for register values, user ids and argument values. */
  newtype int64 = x: int | -0x8000_0000_0000_0000 <= x < 0x8000_0000_0000_0000

  /** The 16 raw bytes of an MD5 sum. */
  type Digest = s: seq<byte> | |s| == 16
    witness [0, 0, 0, 0, 0, 0, 0, 0, 0, 0, 0, 0, 0, 0, 0, 0]

  datatype Option<T> = None | Some(value: T)

  /** One value per error return of the manager. */
  datatype Error =
    | TaskAlreadyPending      // NewTask: the content hash is already a pending task
    | SampleExists            // NewTask: the incoming directory already holds the file name
    | WriteFailed             // NewTask: writing the sample failed
    | TaskNotPending          // TaskStatus, TaskReport: unknown task id
    | ResultNotFound          // TaskReport: no drakvuf.log for the task
    | HeaderParseError        // TaskReport: header does not decode or has an empty Plugin
    | ResultParseError        // TaskReport: the syscall document does not decode
    | PluginNotCoded(plugin: string)  // TaskReport: a Plugin other than "syscall"

  /** A Go `(value, error)` pair where exactly one side is meaningful. */
  datatype Result<T> = Ok(value: T) | Err(error: Error)

  /** Answer of GetStatus. */
  datatype StatusResp = StatusResp(pendingTaskNum: int)

  /** The first-pass view of a result file: only its Plugin and OS fields. */
  datatype HeaderMsg = HeaderMsg(plugin: string, os: string)

  /** The exported fields of the common envelope (vCPU is unexported and
      never filled by the decoder, so it is not part of the value). */
  datatype CommonType = CommonType(cr3: int64, procName: string, uid: int64)

  datatype SyscallArg = SyscallArg(argDir: string, argType: string, argName: string, argValue: int64)

  /** The exported part of the syscall description: its argument list, whose
      elements are pointers and so may be null. */
  datatype SyscallType = SyscallType(args: seq<Option<SyscallArg>>)

  /** A fully decoded "syscall" result; Common and Syscall are pointers. */
  datatype SyscallMsg = SyscallMsg(plugin: string, os: string, common: Option<CommonType>, syscall: Option<SyscallType>)

  /** What TaskReport returns: the task id and the decoded result. */
  datatype TasksReport = TasksReport(taskId: string, result: SyscallMsg)

  /** The library calls the manager makes and whose internals are not part
      of the model: md5.Sum, and json.Unmarshal into the header and into the
      syscall message (None when Unmarshal returns an error). */
  datatype Library = Library(
    md5: seq<byte> -> Digest,
    unmarshalHeader: seq<byte> -> Option<HeaderMsg>,
    unmarshalSyscall: seq<byte> -> Option<SyscallMsg>)
}
