# Drakvuf task manager — a Dafny model

This project models the task manager of the Drakvuf analysis service
(`services/drakvuf/drakvuf/drakvuf.go`). The manager accepts a binary
sample and drops it into the sandbox's *incoming* directory. The task id is
the MD5 hex digest of the sample. The registry `PendingTasks` maps each
pending task id to the file name it was submitted under. The manager says a
task is done once the sample is no longer in the *processing* directory. It
then reads `FinishedDir/<taskID>/drakvuf.log`, retires the task and decodes
the log in two passes: first the `Plugin` header, then, for `"syscall"`, the
full syscall message.

Files:

- `messages.dfy` (module `Messages`): bytes, `int64`, the MD5 digest, the
  message records (`HeaderMsg`, `SyscallMsg`, `CommonType`, `SyscallType`,
  `SyscallArg`, `TasksReport`, `StatusResp`), the error values and the
  `Library` of foreign calls (`md5.Sum` and the two `json.Unmarshal` calls).
- `hex.dfy` (module `Hex`): `hex.EncodeToString` and a decoder proved to
  invert it, so distinct digests give distinct task ids.
- `storage.dfy` (module `Storage`): the filesystem as a class holding a map
  from full path to contents, with `os.Stat`, `ioutil.ReadFile` and
  `ioutil.WriteFile`. The write may fail, which is nondeterministic.
- `lifecycle.dfy` (module `TaskLifecycle`): the manager as functions of its
  state (registry plus files): `Submit`, `Status`, `Report`, `DecodeResult`.
  The lifecycle lemmas are proved about these functions: deduplication,
  single-use reports, pending counts, and a full submit, claim, finish,
  report run.
- `drakvuf.dfy` (module `Drakvuf`): the class `Drakvuf` with the Go struct's
  fields. Its methods follow the Go code step by step. Each method that
  changes state is proved equal to its `TaskLifecycle` function. A small
  client method (`Client`) shows what a caller can conclude: a repeat
  submission is refused and a task is reported at most once.

Paths are built exactly as the code builds them (`IncomingDir + "/" +
fileName`, `ProcessingDir + "/" + fileName`, `FinishedDir + "/" + taskID +
"/drakvuf.log"`). The model never assumes the directories are distinct.

A consequence the model makes explicit (`StatusRightAfterSubmit`):
`TaskStatus` only checks that the file is gone from the processing
directory. So a task whose sample is still waiting in the incoming
directory already reads as done (1), before the sandbox has claimed it.

`NewTask` records the task only after the write has succeeded
(`services/drakvuf/drakvuf/drakvuf.go:123-130`). So a failed write leaves
the registry unchanged, and there is nothing to roll back.

## Model

| member | source | states |
|---|---|---|
| `Drakvuf.Drakvuf.New` | services/drakvuf/drakvuf/drakvuf.go:75-83 | the three directories, the filesystem and the library are stored unchanged, the registry starts empty and satisfies the invariant; construction cannot fail |
| `Drakvuf.Drakvuf.GetStatus` | services/drakvuf/drakvuf/drakvuf.go:86-99 | always succeeds with `PendingTaskNum` equal to the number of pending tasks; changes nothing (no modifies clause) |
| `Drakvuf.Drakvuf.NewTask` | services/drakvuf/drakvuf/drakvuf.go:103-134 | keeps the registry invariant; the new registry, the new files and the result are exactly `Submit` of the old state, with the write outcome visible as `WriteFailed` |
| `Drakvuf.Drakvuf.TaskStatus` | services/drakvuf/drakvuf/drakvuf.go:136-153 | returns exactly `Status` of the current state and changes nothing, so repeated calls agree |
| `Drakvuf.Drakvuf.TaskReport` | services/drakvuf/drakvuf/drakvuf.go:155-197 | keeps the registry invariant; the new registry and the result are exactly `Report` of the old state; files are untouched |
| `Drakvuf.Drakvuf.DeleteTask` | services/drakvuf/drakvuf/drakvuf.go:199-201 | always returns no error and changes nothing |
| `Storage.FileSystem.Stat` | services/drakvuf/drakvuf/drakvuf.go:116-117 | reports a hit exactly when a file is at the path; everything else counts as absent |
| `Storage.FileSystem.ReadFile` | services/drakvuf/drakvuf/drakvuf.go:168-169 | returns the file's contents when the path holds a file, and no contents otherwise |
| `Storage.FileSystem.WriteFile` | services/drakvuf/drakvuf/drakvuf.go:123-124 | on success only the written path changes and it holds exactly the data; on failure nothing changes |
| `Hex.Encode` | services/drakvuf/drakvuf/drakvuf.go:106 | the encoding has two characters per byte, all lower-case hex digits |
| `Hex.DecodeEncode` | services/drakvuf/drakvuf/drakvuf.go:106 | decoding an encoding gives back the bytes (round trip) |
| `Hex.EncodeInjective` | services/drakvuf/drakvuf/drakvuf.go:106 | equal encodings come only from equal bytes |
| `TaskLifecycle.TaskId` | services/drakvuf/drakvuf/drakvuf.go:105-106 | a task id is 32 lower-case hex characters |
| `TaskLifecycle.TaskIdInjective` | services/drakvuf/drakvuf/drakvuf.go:105-109 | two samples share a task id only if their MD5 sums are equal |
| `TaskLifecycle.Submit` | services/drakvuf/drakvuf/drakvuf.go:103-134 | succeeds iff the id is not pending, the incoming path is free and the write succeeds. A pending id gives TaskAlreadyPending; an existing incoming file gives SampleExists; a failed write gives WriteFailed. Any failure changes neither registry nor files. Success returns the id, adds exactly `id -> fileName` and writes exactly the sample at the incoming path |
| `TaskLifecycle.Status` | services/drakvuf/drakvuf/drakvuf.go:136-153 | fails with TaskNotPending iff the id is not pending; otherwise returns 0 or 1, and 1 exactly when the submitted file name is absent from the processing directory |
| `TaskLifecycle.DecodeResult` | services/drakvuf/drakvuf/drakvuf.go:177-196 | succeeds iff the header decodes with Plugin "syscall" and the full message decodes; the report then carries the given id and the decoded message. HeaderParseError iff the header does not decode or Plugin is empty. ResultParseError iff Plugin is "syscall" and the full decode fails. PluginNotCoded, naming the plugin, iff Plugin is anything else |
| `TaskLifecycle.Report` | services/drakvuf/drakvuf/drakvuf.go:155-197 | never changes files. An unknown id gives TaskNotPending with no change. A missing result file gives ResultNotFound and the task stays pending. Otherwise the id leaves the registry whatever the decode gives, and the result is `DecodeResult`. A success carries the requested id |
| `TaskLifecycle.OperationsKeepWellFormed` | services/drakvuf/drakvuf/drakvuf.go:130-175 | submitting and reporting keep every registry key a valid task id |
| `TaskLifecycle.PendingCount` | services/drakvuf/drakvuf/drakvuf.go:88-175 | an accepted submission adds one to the pending count; a report that read the result file removes one |
| `TaskLifecycle.DuplicateSubmission` | services/drakvuf/drakvuf/drakvuf.go:108-113 | after an accepted submission, the same content under any name is refused with TaskAlreadyPending and changes nothing |
| `TaskLifecycle.ReportSingleUse` | services/drakvuf/drakvuf/drakvuf.go:160-196 | once a report has read the result file, whether decoding then succeeded or failed, both a second report and a status query fail with TaskNotPending |
| `TaskLifecycle.EarlyReportKeepsTask` | services/drakvuf/drakvuf/drakvuf.go:167-172 | a report that finds no result file leaves the state unchanged and the task pending |
| `TaskLifecycle.UnknownIdNotPending` | services/drakvuf/drakvuf/drakvuf.go:136-165 | with the registry invariant, a string that is not a 32-character lower-case hex id is never pending, so status and report for it fail with TaskNotPending and change nothing |
| `TaskLifecycle.StatusRightAfterSubmit` | services/drakvuf/drakvuf/drakvuf.go:122-153 | right after an accepted submission, status is 0 only if the processing directory already holds that file name, so a sample still in incoming reads as done |
| `TaskLifecycle.Lifecycle` | services/drakvuf/drakvuf/drakvuf.go:103-197 | a full run: submit, then the sandbox claims the sample (status 0), then finishes (status 1). The report then returns the id and the decoded syscall message, and a second report fails with TaskNotPending |
| `TaskLifecycle.ReportedPluginIsSyscall` | services/drakvuf/drakvuf/drakvuf.go:177-190 | when both decoding passes read the same Plugin field, every successful report holds a "syscall" message |

## Left out

- The HTTP layer (`services/drakvuf/main.go`), the stub servers (`services/drakvuf/drakvuf-service.go`, `services/drakvuf/drakvuf-interface.go`) and the top-level pipeline (`main.go`) are thin wrappers or stubs around the core and are not modelled.
- MD5 and JSON decoding are foreign library calls. They are the fields of a `Library` value, so their internals are not modelled. For that reason the constructor `New` also takes the `Library` and the `FileSystem`, which in Go are ambient.
- The two `json.Unmarshal` passes are independent fields of `Library`, and the model does not relate them. It therefore allows outcomes that two decodings of the same bytes cannot produce, such as a full decode whose `Plugin` differs from the header's. `ReportedPluginIsSyscall` takes their agreement as a hypothesis.
- Go's JSON field-tag rules are not modelled. The unexported fields `vCPU`, `scModule`, `scName` and `nArgs` are never filled by `json.Unmarshal`, so the records leave them out. For the same reason the model makes no round-trip claim about the result format.
- `TasksReport.Result` is an `interface{}` in Go. It is modelled as the syscall message, the only value the code ever stores there.
- Storage.FileSystem.WriteFile: a failed write is modelled as changing nothing; a partial or truncating write is not modelled, and the file mode 0644 is not modelled.
- Storage.FileSystem: paths are compared as strings, with no normalisation. `.`, `..`, repeated or trailing `/` and symbolic links are not resolved, so two spellings of one file are two keys. For example, after a sample is stored as `a`, a submission named `./a` is accepted here, while `os.Stat` would find the file and refuse it. Go strings are byte strings, while a Dafny `string` is a sequence of characters.
- Storage.FileSystem.Stat: the filesystem holds files only. A path that names a directory, and any stat or read error other than absence, behave as "absent".
- `TaskStatus` in Go returns 0 together with its error. The model returns only the error.
- Error-message text (the `fmt.Sprintf` calls) is not modelled; each error is one value of `Error`.
- Concurrency is not modelled: the Go map is unsynchronised and the HTTP server is concurrent, but the model has single-threaded method calls only.
- The free-disk-space check in `GetStatus` is commented out in the code and is not modelled.
- The sandbox itself is not modelled. The functions `Claim` and `Finish` stand for its two visible effects, moving the sample into processing and writing the result file, and are used only in the `Lifecycle` lemma.
