/** The Drakvuf task manager: a registry of pending tasks in front of the
    directories the Drakvuf sandbox watches. */
module Drakvuf {
  import opened Messages
  import opened TaskLifecycle
  import Hex
  import opened Storage

  class Drakvuf {
    const IncomingDir: string
    const ProcessingDir: string
    const FinishedDir: string
    /** The filesystem the three directories live on. */
    const fs: FileSystem
    /** md5.Sum and json.Unmarshal. */
    const lib: Library
    /** Task id (MD5 hex of the sample) to the file name it was submitted under. */
    var PendingTasks: map<string, string>

    /** The directories and library calls as one value of the lifecycle model. */
    function Settings(): Config {
      TaskLifecycle.Config(IncomingDir, ProcessingDir, FinishedDir, lib)
    }

    /** The registry and the filesystem as one value of the lifecycle model. */
    ghost function Snapshot(): State
      reads this, fs
    {
      State(PendingTasks, fs.files)
    }

    /** Every registry key is a task id, as every key comes from NewTask;
        TaskLifecycle.UnknownIdNotPending draws the consequence that an
        ill-formed id is never pending. */
    ghost predicate Valid()
      reads this
    {
      WellFormed(PendingTasks)
    }

    /** New: keeps the three directories as given and starts with no pending
        task; it cannot fail. */
    constructor New(incomingDir: string, processingDir: string, finishedDir: string, fs: FileSystem, lib: Library)
      ensures Valid()
      ensures IncomingDir == incomingDir && ProcessingDir == processingDir && FinishedDir == finishedDir
      ensures this.fs == fs && this.lib == lib && PendingTasks == map[]
    {
      IncomingDir := incomingDir;
      ProcessingDir := processingDir;
      FinishedDir := finishedDir;
      this.fs := fs;
      this.lib := lib;
      PendingTasks := map[];
    }

    /** GetStatus: the number of pending tasks; never an error. */
    method GetStatus() returns (r: Result<StatusResp>)
      ensures r == Ok(StatusResp(|PendingTasks|))
    {
      r := Ok(StatusResp(|PendingTasks|));
    }

    /** NewTask: refuses content already pending and a file name already in
        the incoming directory, writes the sample, and only then records the
        task. The write outcome is visible in the result. */
    method NewTask(fileBytes: seq<byte>, fileName: string) returns (r: Result<string>)
      requires Valid()
      modifies this, fs
      ensures Valid()
      ensures Step(Snapshot(), r) == Submit(Settings(), old(Snapshot()), fileBytes, fileName, r != Err(WriteFailed))
    {
      var hash := lib.md5(fileBytes);
      var md5hash := Hex.Encode(hash);
      if md5hash in PendingTasks {
        return Err(TaskAlreadyPending);
      }
      var found := fs.Stat(IncomingDir + "/" + fileName);
      if found {
        return Err(SampleExists);
      }
      var ok := fs.WriteFile(IncomingDir + "/" + fileName, fileBytes);
      if !ok {
        return Err(WriteFailed);
      }
      PendingTasks := PendingTasks[md5hash := fileName];
      return Ok(md5hash);
    }

    /** TaskStatus: 0 while the submitted file is in the processing
        directory, 1 once it is not; changes nothing. */
    method TaskStatus(taskID: string) returns (r: Result<int>)
      ensures r == Status(Settings(), Snapshot(), taskID)
    {
      if taskID !in PendingTasks {
        return Err(TaskNotPending);
      }
      var fileName := PendingTasks[taskID];
      var found := fs.Stat(ProcessingDir + "/" + fileName);
      if found {
        return Ok(0);
      }
      return Ok(1);
    }

    /** TaskReport: reads FinishedDir/<taskID>/drakvuf.log, retires the task,
        then decodes the header and, for "syscall", the full message. */
    method TaskReport(taskID: string) returns (r: Result<TasksReport>)
      requires Valid()
      modifies this
      ensures Valid()
      ensures Step(Snapshot(), r) == Report(Settings(), old(Snapshot()), taskID)
    {
      if taskID !in PendingTasks {
        return Err(TaskNotPending);
      }
      var resultBytes := fs.ReadFile(FinishedDir + "/" + taskID + "/drakvuf.log");
      if resultBytes.None? {
        return Err(ResultNotFound);
      }
      PendingTasks := PendingTasks - {taskID};
      var hdr := lib.unmarshalHeader(resultBytes.value);
      if hdr.None? || hdr.value.plugin == "" {
        return Err(HeaderParseError);
      }
      if hdr.value.plugin == "syscall" {
        var sc := lib.unmarshalSyscall(resultBytes.value);
        if sc.None? {
          return Err(ResultParseError);
        }
        r := Ok(TasksReport(taskID, sc.value));
      } else {
        r := Err(PluginNotCoded(hdr.value.plugin));
      }
    }

    /** DeleteTask: a no-op that always succeeds. */
    method DeleteTask(taskID: string) returns (err: Option<Error>)
      ensures err == None
    {
      err := None;
    }
  }

  /** A caller's view: the same content submitted twice is refused the second
      time, and a task is reported at most once. */
  method Client(fs: FileSystem, lib: Library, sample: seq<byte>)
    modifies fs
  {
    var d := new Drakvuf.New("/incoming", "/processing", "/finished", fs, lib);
    var id := d.NewTask(sample, "a.exe");
    if id.Ok? {
      assert id.value == TaskId(lib, sample);
      var again := d.NewTask(sample, "b.exe");
      assert again == Err(TaskAlreadyPending);
      var status := d.GetStatus();
      assert status == Ok(StatusResp(1));
      var first := d.TaskReport(id.value);
      if first !in {Err(TaskNotPending), Err(ResultNotFound)} {
        var second := d.TaskReport(id.value);
        assert second == Err(TaskNotPending);
      }
    }
  }
}
