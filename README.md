# Azure Batch demo client: task descriptors and create-if-absent handling

The program uploads three input files to the `inputfiles` blob container,
creates a Batch pool and a job (treating "already exists" as success), builds
three task descriptors and submits them. This project models the parts of it
that are logic rather than calls into the Azure SDKs:

- `InputFiles` (`input_files.dfy`): the container name and the list of file
  names the upload step uploads, and the URL a blob gets in a storage account.
- `TaskBuilder` (`task_builder.dfy`): the descriptor builder `CreateTasks`, a
  method whose counted loop appends one descriptor per iteration. Each
  descriptor has the id `Task{i}`, the command `cp input.txt output.txt`, one
  input binding and two output-upload rules. The method is proved against a
  reference `Descriptor(…, i)` written in terms of the upload list. Lemmas then
  prove the following: the ids are distinct; each condition (`TaskSuccess`,
  `TaskFailure`) selects exactly one rule; the six destination blob names of a
  job never collide; every destination name contains the job id and the task id;
  every input URL names a blob that the upload step provides.
- `CreateIfAbsent` (`create_if_absent.dfy`): the catch clause of `CreatePool`
  and `CreateJob` as a pure decision. It maps the outcome of the commit to two
  things: whether an exception escapes, and which message is printed, if any.
- `Program` (`program.dfy`): the order of the entry point's steps. First the
  pool, then the job, then the tasks. An exception that escapes one step stops
  the run before the next step.

The `CloudTask` that `CreateTasks` makes is modelled as a `TaskSpec` value. Its
`ResourceFiles` and `OutputFiles` are filled in after construction by datatype
updates, in the same order as in the source. The task list is a `seq` that the
loop extends.

`CreatePool` and `CreateJob` swallow every `BatchException`, whatever its code;
only other exceptions escape. The model follows the code.

## Model

| member | source | states |
|---|---|---|
| `TaskBuilder.CreateTasks` | batchtest/Program.cs:151-196 | returns exactly three descriptors in loop order, task k being `Descriptor(…, k)` (so its id is `Task{k}`); the list has distinct ids, one rule per upload condition, collision-free destination names that mention the job and task ids, and only inputs that were uploaded |
| `TaskBuilder.InputPathIsUploadedBlob` | batchtest/Program.cs:158-159 | the URL built from `"/inputfiles/taskdata{i}.txt"` is the blob URL of the i-th name of the upload list in the `inputfiles` container |
| `TaskBuilder.TaskIdsDistinct` | batchtest/Program.cs:157 | `Task{i}` and `Task{j}` differ whenever i and j differ |
| `TaskBuilder.ListIdsDistinct` | batchtest/Program.cs:155-157 | a list that agrees with the reference descriptors has pairwise distinct task ids |
| `TaskBuilder.DescriptorRules` | batchtest/Program.cs:171-190 | in a descriptor, the rules selected by `TaskSuccess` are exactly the first rule and those selected by `TaskFailure` exactly the second |
| `TaskBuilder.ListOneRulePerCondition` | batchtest/Program.cs:171-190 | in every task of the list, each upload condition selects exactly one output rule (no gap, no double upload) |
| `TaskBuilder.DestinationNamesDistinct` | batchtest/Program.cs:177-186 | `output-{jobId}-{taskId}.txt` never equals any `failed-…` name, and two different tasks never share a success name or a failure name |
| `TaskBuilder.ListDestinationsCollisionFree` | batchtest/Program.cs:155-190 | all six destination blob names of a job are pairwise distinct, across tasks and between the two rules of one task, whatever the two container URLs are |
| `TaskBuilder.NamesMentionIds` | batchtest/Program.cs:176-186 | both the success and the failure destination name contain the job id and the task id as contiguous pieces |
| `TaskBuilder.ListDestinationsMentionIds` | batchtest/Program.cs:171-190 | every destination name in the list contains the job id and the id of the task that owns the rule |
| `TaskBuilder.ListInputsUploaded` | batchtest/Program.cs:158-168 | every input binding of every task downloads a blob of the `inputfiles` container whose name is in the upload list |
| `TaskBuilder.ExampleJobDestinations` | batchtest/Program.cs:155-186 | with job id `jobId1234`, task 0 is `Task0` with success blob `output-jobId1234-Task0.txt` and input `…/inputfiles/taskdata0.txt`, and task 2 has failure blob `failed-jobId1234-Task2.txt` |
| `InputFiles.InputFileNamesDistinct` | batchtest/Program.cs:84-89 | the upload list names each file once |
| `CreateIfAbsent.Handle` | batchtest/Program.cs:123-128 | an exception escapes exactly when it is not a `BatchException`; the "already existed" message is printed exactly when the Batch error code is the kind's exists code, and it is that kind's message |
| `CreateIfAbsent.CreatePool` | batchtest/Program.cs:113-129 | a `BatchException` is never rethrown, whatever its code (also a missing code); the pool message is printed exactly for `PoolExists`; a successful commit prints nothing |
| `CreateIfAbsent.CreateJob` | batchtest/Program.cs:134-148 | the same for jobs: a `BatchException` is never rethrown; the job message is printed exactly for `JobExists`; a successful commit prints nothing |
| `CreateIfAbsent.OtherKindsCodeIsSilent` | batchtest/Program.cs:123-147 | `JobExists` during pool creation and `PoolExists` during job creation are swallowed without a message |
| `Program.Provision` | batchtest/Program.cs:56-59 | job creation is attempted exactly when pool creation let no exception escape; the tasks are built exactly when neither step let one escape |
| `Program.RerunStillCreatesTasks` | batchtest/Program.cs:56-59 | when pool and job already exist, both messages are printed and the tasks are still built |
| `Program.BatchErrorsNeverStopTheRun` | batchtest/Program.cs:56-59 | a `BatchException` with any code from either commit does not stop the run before the tasks are built |

## Left out

- Configuration loading from JSON, user secrets and environment variables (Program.cs:22-42). The account URL, the job id and the two container SAS URLs are plain string parameters.
- Blob upload mechanics: creating the container, reading local files and uploading streams (Program.cs:78-98). These are storage SDK calls and file I/O. Only the container name and the file-name list are modelled.
- Batch client creation, the pool's VM image and size constants, and the remote `CommitAsync` calls (Program.cs:50-57, 103-121, 136-140). These are remote calls. Only how their outcome is handled is modelled, as a `CommitOutcome` parameter.
- `AddTaskAsync` with at most three parallel requests, and the blanket catch around it (Program.cs:61-70). This is bounded-parallel submission inside the SDK.
- Server-side evaluation of the upload conditions. The backend does this, not this program.
- Console output and `Console.ReadLine`. A printed notice is modelled only as the optional message in `Handling`.
- Rendering of task numbers with more than one decimal digit. The loop index stays below three, so `{i}` is always one digit.
- That the storage account URL names the account the inputs are uploaded to. `UploadFiles` uploads to the account built from `StorageAccount:Name` and its key over HTTPS (Program.cs:78-81), while `CreateTasks` builds the input URLs from the separate setting `StorageAccount:Url` (Program.cs:37, 159). The code does not tie the two together. The model assumes `StorageAccount:Url` is the blob endpoint of that account, with no trailing slash, so `InputFiles.IsUploaded` has no account parameter and `TaskBuilder.ListInputsUploaded` holds only under this assumption.
- Identity and mutability of `CloudTask` objects. Nothing shares a task object, so a value with the same fields says the same.
