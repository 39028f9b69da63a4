/** The task manager's behaviour as functions of its state: the pending-task
    registry together with the filesystem. Each operation of the Drakvuf
    class is proved equal to one of these functions; the properties of the
    task lifecycle are proved here. */
module TaskLifecycle {
  import opened Messages
  import Hex

  /** What the manager is constructed with: the three directories the
      sandbox watches and the library calls it makes. */
  datatype Config = Config(incomingDir: string, processingDir: string, finishedDir: string, lib: Library)

  /** PendingTasks (task id to submitted file name) and the files on disk. */
  datatype State = State(pending: map<string, string>, files: map<string, seq<byte>>)

  /** The state after an operation and what the operation returned. */
  datatype Step<T> = Step(next: State, result: Result<T>)

  /** A task id as the manager hands them out: 32 lower-case hex digits. */
  predicate IsTaskId(id: string) {
    |id| == 32 && forall i :: 0 <= i < |id| ==> Hex.IsLowerHexDigit(id[i])
  }

  /** Every key of the registry is a task id. */
  predicate WellFormed(pending: map<string, string>) {
    forall id :: id in pending ==> IsTaskId(id)
  }

  function IncomingPath(c: Config, fileName: string): string {
    c.incomingDir + "/" + fileName
  }

  function ProcessingPath(c: Config, fileName: string): string {
    c.processingDir + "/" + fileName
  }

  function ResultPath(c: Config, taskId: string): string {
    c.finishedDir + "/" + taskId + "/drakvuf.log"
  }

  /** The task id of a sample: the hex encoding of its MD5 sum. */
  function TaskId(lib: Library, sample: seq<byte>): (id: string)
    ensures IsTaskId(id)
  {
    Hex.Encode(lib.md5(sample))
  }

  /** Two samples get the same task id only when their MD5 sums agree. */
  lemma TaskIdInjective(lib: Library, a: seq<byte>, b: seq<byte>)
    requires TaskId(lib, a) == TaskId(lib, b)
    ensures lib.md5(a) == lib.md5(b)
  {
    Hex.EncodeInjective(lib.md5(a), lib.md5(b));
  }

  /** NewTask, given whether the write into the incoming directory succeeds. */
  function Submit(c: Config, s: State, sample: seq<byte>, fileName: string, writeOk: bool): (out: Step<string>)
    ensures out.result.Ok? <==>
              TaskId(c.lib, sample) !in s.pending && IncomingPath(c, fileName) !in s.files && writeOk
    ensures TaskId(c.lib, sample) in s.pending ==> out.result == Err(TaskAlreadyPending)
    ensures TaskId(c.lib, sample) !in s.pending && IncomingPath(c, fileName) in s.files ==>
              out.result == Err(SampleExists)
    ensures TaskId(c.lib, sample) !in s.pending && IncomingPath(c, fileName) !in s.files && !writeOk ==>
              out.result == Err(WriteFailed)
    ensures out.result.Err? ==> out.next == s
    ensures out.result.Ok? ==>
              && out.result.value == TaskId(c.lib, sample)
              && IsTaskId(out.result.value)
              && out.next.pending == s.pending[out.result.value := fileName]
              && out.next.files == s.files[IncomingPath(c, fileName) := sample]
  {
    var id := TaskId(c.lib, sample);
    if id in s.pending then Step(s, Err(TaskAlreadyPending))
    else if IncomingPath(c, fileName) in s.files then Step(s, Err(SampleExists))
    else if !writeOk then Step(s, Err(WriteFailed))
    else Step(State(s.pending[id := fileName], s.files[IncomingPath(c, fileName) := sample]), Ok(id))
  }

  /** TaskStatus: 0 while the submitted file is in the processing directory,
      1 once it is gone from there. */
  function Status(c: Config, s: State, taskId: string): (r: Result<int>)
    ensures r.Err? <==> taskId !in s.pending
    ensures r.Err? ==> r.error == TaskNotPending
    ensures r.Ok? ==> (r.value == 0 || r.value == 1)
    ensures r.Ok? ==> (r.value == 1 <==> ProcessingPath(c, s.pending[taskId]) !in s.files)
  {
    if taskId !in s.pending then Err(TaskNotPending)
    else if ProcessingPath(c, s.pending[taskId]) in s.files then Ok(0)
    else Ok(1)
  }

  /** The two-pass decoding of a result file: the header first, then, for the
      one Plugin handled, the full syscall document. */
  function DecodeResult(lib: Library, taskId: string, raw: seq<byte>): (r: Result<TasksReport>)
    ensures r.Ok? <==>
              && lib.unmarshalHeader(raw).Some?
              && lib.unmarshalHeader(raw).value.plugin == "syscall"
              && lib.unmarshalSyscall(raw).Some?
    ensures r.Ok? ==> r.value == TasksReport(taskId, lib.unmarshalSyscall(raw).value)
    ensures r == Err(HeaderParseError) <==>
              lib.unmarshalHeader(raw).None? || lib.unmarshalHeader(raw).value.plugin == ""
    ensures r == Err(ResultParseError) <==>
              && lib.unmarshalHeader(raw).Some?
              && lib.unmarshalHeader(raw).value.plugin == "syscall"
              && lib.unmarshalSyscall(raw).None?
    ensures r.Err? && r.error.PluginNotCoded? <==>
              && lib.unmarshalHeader(raw).Some?
              && lib.unmarshalHeader(raw).value.plugin !in {"", "syscall"}
    ensures r.Err? && r.error.PluginNotCoded? ==> r.error.plugin == lib.unmarshalHeader(raw).value.plugin
  {
    match lib.unmarshalHeader(raw)
    case None => Err(HeaderParseError)
    case Some(hdr) =>
      if hdr.plugin == "" then Err(HeaderParseError)
      else if hdr.plugin == "syscall" then
        match lib.unmarshalSyscall(raw)
        case None => Err(ResultParseError)
        case Some(sc) => Ok(TasksReport(taskId, sc))
      else Err(PluginNotCoded(hdr.plugin))
  }

  /** TaskReport: read the result file, retire the task, then decode. */
  function Report(c: Config, s: State, taskId: string): (out: Step<TasksReport>)
    ensures out.next.files == s.files
    ensures taskId !in s.pending ==> out == Step(s, Err(TaskNotPending))
    ensures taskId in s.pending && ResultPath(c, taskId) !in s.files ==> out == Step(s, Err(ResultNotFound))
    ensures taskId in s.pending && ResultPath(c, taskId) in s.files ==>
              && out.next.pending == s.pending - {taskId}
              && out.result == DecodeResult(c.lib, taskId, s.files[ResultPath(c, taskId)])
    ensures out.result.Ok? ==> out.result.value.taskId == taskId && taskId !in out.next.pending
  {
    if taskId !in s.pending then Step(s, Err(TaskNotPending))
    else if ResultPath(c, taskId) !in s.files then Step(s, Err(ResultNotFound))
    else Step(s.(pending := s.pending - {taskId}), DecodeResult(c.lib, taskId, s.files[ResultPath(c, taskId)]))
  }

  /** Submit and Report keep every registry key a task id. */
  lemma OperationsKeepWellFormed(c: Config, s: State, sample: seq<byte>, fileName: string, writeOk: bool, taskId: string)
    requires WellFormed(s.pending)
    ensures WellFormed(Submit(c, s, sample, fileName, writeOk).next.pending)
    ensures WellFormed(Report(c, s, taskId).next.pending)
  {
  }

  /** The number GetStatus reports grows by one with each accepted
      submission and shrinks by one with each report that got as far as
      reading the result file. */
  lemma PendingCount(c: Config, s: State, sample: seq<byte>, fileName: string, writeOk: bool, taskId: string)
    ensures Submit(c, s, sample, fileName, writeOk).result.Ok? ==>
              |Submit(c, s, sample, fileName, writeOk).next.pending| == |s.pending| + 1
    ensures Report(c, s, taskId).result !in {Err(TaskNotPending), Err(ResultNotFound)} ==>
              |Report(c, s, taskId).next.pending| == |s.pending| - 1
  {
  }

  /** After an accepted submission, submitting the same content again, under
      any file name, is refused and changes nothing, whatever the second
      write would do. */
  lemma DuplicateSubmission(c: Config, s: State, sample: seq<byte>, name1: string, name2: string, ok1: bool, ok2: bool)
    requires Submit(c, s, sample, name1, ok1).result.Ok?
    ensures var s1 := Submit(c, s, sample, name1, ok1).next;
            Submit(c, s1, sample, name2, ok2) == Step(s1, Err(TaskAlreadyPending))
  {
  }

  /** Once a report has read the result file, the task is gone: a second
      report of it fails with TaskNotPending, whether the first decoded or
      not. */
  lemma ReportSingleUse(c: Config, s: State, taskId: string)
    requires Report(c, s, taskId).result !in {Err(TaskNotPending), Err(ResultNotFound)}
    ensures var s1 := Report(c, s, taskId).next;
            Report(c, s1, taskId) == Step(s1, Err(TaskNotPending))
            && Status(c, s1, taskId) == Err(TaskNotPending)
  {
  }

  /** A report that fails before the result file is read leaves the task
      pending, so it can be asked for again. */
  lemma EarlyReportKeepsTask(c: Config, s: State, taskId: string)
    requires Report(c, s, taskId).result == Err(ResultNotFound)
    ensures Report(c, s, taskId).next == s && taskId in s.pending
  {
  }

  /** In a well-formed registry, a string that is not a task id is never
      pending: status and report for it fail and change nothing. */
  lemma UnknownIdNotPending(c: Config, s: State, taskId: string)
    requires WellFormed(s.pending)
    requires !IsTaskId(taskId)
    ensures Status(c, s, taskId) == Err(TaskNotPending)
    ensures Report(c, s, taskId) == Step(s, Err(TaskNotPending))
  {
  }

  /** Status right after an accepted submission: 0 only if the processing
      directory already holds a file of that name; with distinct incoming
      and processing paths and no such file, the task already reads as done,
      before the sandbox has picked the sample up. */
  lemma StatusRightAfterSubmit(c: Config, s: State, sample: seq<byte>, fileName: string)
    requires Submit(c, s, sample, fileName, true).result.Ok?
    ensures var s1 := Submit(c, s, sample, fileName, true).next;
            Status(c, s1, TaskId(c.lib, sample)) ==
              Ok(if ProcessingPath(c, fileName) in s1.files then 0 else 1)
    ensures ProcessingPath(c, fileName) != IncomingPath(c, fileName) && ProcessingPath(c, fileName) !in s.files ==>
              Status(c, Submit(c, s, sample, fileName, true).next, TaskId(c.lib, sample)) == Ok(1)
  {
  }

  /** The sandbox claims a sample: it leaves incoming and appears in processing. */
  function Claim(c: Config, s: State, fileName: string): State
    requires IncomingPath(c, fileName) in s.files
  {
    s.(files := (s.files - {IncomingPath(c, fileName)})[ProcessingPath(c, fileName) := s.files[IncomingPath(c, fileName)]])
  }

  /** The sandbox finishes: the sample leaves processing and the result file
      is written under the task's directory. */
  function Finish(c: Config, s: State, fileName: string, taskId: string, log: seq<byte>): State {
    s.(files := (s.files - {ProcessingPath(c, fileName)})[ResultPath(c, taskId) := log])
  }

  /** The whole life of one task: submitted, claimed (status 0), finished
      (status 1), reported once with its own id and the decoded syscall
      result, and unknown afterwards. */
  lemma Lifecycle(c: Config, s: State, sample: seq<byte>, fileName: string, log: seq<byte>)
    requires Submit(c, s, sample, fileName, true).result.Ok?
    requires ResultPath(c, TaskId(c.lib, sample)) != ProcessingPath(c, fileName)
    requires c.lib.unmarshalHeader(log).Some? && c.lib.unmarshalHeader(log).value.plugin == "syscall"
    requires c.lib.unmarshalSyscall(log).Some?
    ensures
      var id := TaskId(c.lib, sample);
      var s1 := Submit(c, s, sample, fileName, true).next;
      var s2 := Claim(c, s1, fileName);
      var s3 := Finish(c, s2, fileName, id, log);
      var s4 := Report(c, s3, id).next;
      && Status(c, s2, id) == Ok(0)
      && Status(c, s3, id) == Ok(1)
      && Report(c, s3, id).result == Ok(TasksReport(id, c.lib.unmarshalSyscall(log).value))
      && Report(c, s4, id).result == Err(TaskNotPending)
  {
  }

  /** When the two decoding passes agree on the Plugin field, every report
      that succeeds carries a "syscall" result. */
  lemma ReportedPluginIsSyscall(c: Config, s: State, taskId: string)
    requires taskId in s.pending && ResultPath(c, taskId) in s.files
    requires var raw := s.files[ResultPath(c, taskId)];
             c.lib.unmarshalSyscall(raw).Some? && c.lib.unmarshalHeader(raw).Some? ==>
               c.lib.unmarshalSyscall(raw).value.plugin == c.lib.unmarshalHeader(raw).value.plugin
    ensures Report(c, s, taskId).result.Ok? ==> Report(c, s, taskId).result.value.result.plugin == "syscall"
  {
  }
}
