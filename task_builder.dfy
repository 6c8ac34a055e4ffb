/** The task descriptor builder (CreateTasks): one descriptor per input file, each
    with a command, one input binding and two output-upload rules keyed on how the
    task ends. */
module TaskBuilder {
  import opened InputFiles

  /** When the backend uploads an output file (OutputFileUploadCondition). */
  datatype Condition = TaskSuccess | TaskFailure

  /** A blob to download into the task's working directory before it runs. */
  datatype ResourceFile = ResourceFile(httpUrl: string, filePath: string)

  /** A blob container (given by its SAS URL) and the blob name to upload to. */
  datatype BlobDestination = BlobDestination(containerUrl: string, path: string)

  /** A file pattern in the task's working directory, where matching files go,
      and when they are uploaded. */
  datatype OutputRule = OutputRule(filePattern: string, destination: BlobDestination, uploadCondition: Condition)

  /** What a CloudTask carries once CreateTasks has filled it in. */
  datatype TaskSpec = TaskSpec(id: string, commandLine: string,
                               resourceFiles: seq<ResourceFile>, outputFiles: seq<OutputRule>)

  /** The number of iterations of the builder's loop. */
  const TaskCount: nat := 3

  const TaskCommandLine: string := "cp input.txt output.txt"
  const TargetInputFileName: string := "input.txt"
  const SuccessPattern: string := "output.txt"
  const FailurePattern: string := "../std*.txt"

  /** The decimal rendering of a loop index; below ten it is one character. */
  function Digit(i: nat): (d: string)
    requires i < 10
    ensures |d| == 1 && '0' <= d[0] <= '9'
  {
    [(('0' as int) + i) as char]
  }

  function TaskId(i: nat): (id: string)
    requires i < 10
  {
    "Task" + Digit(i)
  }

  /** Blob name a task's output goes to when it succeeds. */
  function SuccessName(jobId: string, taskId: string): (name: string)
  {
    "output-" + jobId + "-" + taskId + ".txt"
  }

  /** Blob name a task's standard streams go to when it fails. */
  function FailureName(jobId: string, taskId: string): (name: string)
  {
    "failed-" + jobId + "-" + taskId + ".txt"
  }

  /** The descriptor task `i` should have: its input is the i-th uploaded blob,
      its outputs are routed by condition to names keyed on the job and the task.
      This is the reference the builder is proved against. */
  function Descriptor(storageAccountUrl: string, jobId: string, outputFilesContainerSasUrl: string,
                      failedFilesContainerSasUrl: string, i: nat): (t: TaskSpec)
    requires i < TaskCount
  {
    TaskSpec(TaskId(i), TaskCommandLine,
             [ResourceFile(BlobUrl(storageAccountUrl, InputContainer, InputFileNames[i]), TargetInputFileName)],
             [OutputRule(SuccessPattern, BlobDestination(outputFilesContainerSasUrl, SuccessName(jobId, TaskId(i))), TaskSuccess),
              OutputRule(FailurePattern, BlobDestination(failedFilesContainerSasUrl, FailureName(jobId, TaskId(i))), TaskFailure)])
  }

  /** The rules of a rule list that upload on condition `c`, in order. */
  function RulesFor(rules: seq<OutputRule>, c: Condition): (r: seq<OutputRule>)
    ensures |r| <= |rules|
    ensures forall k :: 0 <= k < |r| ==> r[k] in rules && r[k].uploadCondition == c
  {
    if rules == [] then []
    else (if rules[0].uploadCondition == c then [rules[0]] else []) + RulesFor(rules[1..], c)
  }

  /** True when `sub` occurs in `s` as a contiguous piece. */
  ghost predicate Mentions(s: string, sub: string)
  {
    exists k :: MentionsAt(s, sub, k)
  }

  ghost predicate MentionsAt(s: string, sub: string, k: int)
  {
    0 <= k <= |s| - |sub| && s[k..k + |sub|] == sub
  }

  // Properties of a built task list.

  ghost predicate IdsDistinct(tasks: seq<TaskSpec>)
  {
    forall a, b :: 0 <= a < b < |tasks| ==> tasks[a].id != tasks[b].id
  }

  /** No upload condition is left without a rule, and none fires two rules. */
  ghost predicate OneRulePerCondition(tasks: seq<TaskSpec>)
  {
    forall a, c :: 0 <= a < |tasks| ==> |RulesFor(tasks[a].outputFiles, c)| == 1
  }

  /** No two output rules of the job, in the same task or in different tasks,
      name the same destination blob (whatever the containers are). */
  ghost predicate DestinationsCollisionFree(tasks: seq<TaskSpec>)
  {
    forall a, r, b, s ::
      0 <= a < |tasks| && 0 <= b < |tasks| &&
      0 <= r < |tasks[a].outputFiles| && 0 <= s < |tasks[b].outputFiles| && (a != b || r != s) ==>
        tasks[a].outputFiles[r].destination.path != tasks[b].outputFiles[s].destination.path
  }

  /** Every output destination name contains both the job id and the owning task's id. */
  ghost predicate DestinationsMentionIds(jobId: string, tasks: seq<TaskSpec>)
  {
    forall a, r :: 0 <= a < |tasks| && 0 <= r < |tasks[a].outputFiles| ==>
      Mentions(tasks[a].outputFiles[r].destination.path, jobId) &&
      Mentions(tasks[a].outputFiles[r].destination.path, tasks[a].id)
  }

  /** Every input binding downloads a blob that the upload step provides. */
  ghost predicate InputsUploaded(storageAccountUrl: string, tasks: seq<TaskSpec>)
  {
    forall a, f :: 0 <= a < |tasks| && 0 <= f < |tasks[a].resourceFiles| ==>
      IsUploadedBlobUrl(storageAccountUrl, tasks[a].resourceFiles[f].httpUrl)
  }

  /** True when `url` is the URL of a blob the upload step provides. */
  ghost predicate IsUploadedBlobUrl(storageAccountUrl: string, url: string)
  {
    exists name :: IsUploaded(InputContainer, name) && url == BlobUrl(storageAccountUrl, InputContainer, name)
  }

  // Lemmas about single descriptors.

  lemma TaskIdsDistinct(i: nat, j: nat)
    requires i < 10 && j < 10 && i != j
    ensures TaskId(i) != TaskId(j)
  {
    assert TaskId(i)[4] != TaskId(j)[4];
  }

  /** The character that tells two tasks' destination names apart. */
  lemma NameDigitAt(prefix: string, jobId: string, i: nat)
    requires i < 10
    ensures |prefix + jobId + "-" + TaskId(i) + ".txt"| == |prefix| + |jobId| + 10
    ensures (prefix + jobId + "-" + TaskId(i) + ".txt")[|prefix| + |jobId| + 5] == Digit(i)[0]
  {
    var s := prefix + jobId + "-" + TaskId(i) + ".txt";
    assert s == (prefix + jobId + "-") + (TaskId(i) + ".txt");
    assert (TaskId(i) + ".txt")[4] == Digit(i)[0];
  }

  /** Success and failure names differ from each other and across tasks. */
  lemma DestinationNamesDistinct(jobId: string, i: nat, j: nat)
    requires i < 10 && j < 10
    ensures SuccessName(jobId, TaskId(i)) != FailureName(jobId, TaskId(j))
    ensures i != j ==> SuccessName(jobId, TaskId(i)) != SuccessName(jobId, TaskId(j))
    ensures i != j ==> FailureName(jobId, TaskId(i)) != FailureName(jobId, TaskId(j))
  {
    assert SuccessName(jobId, TaskId(i))[0] == 'o';
    assert FailureName(jobId, TaskId(j))[0] == 'f';
    if i != j {
      NameDigitAt("output-", jobId, i);
      NameDigitAt("output-", jobId, j);
      NameDigitAt("failed-", jobId, i);
      NameDigitAt("failed-", jobId, j);
    }
  }

  /** The piece of `prefix + x + suffix` at |prefix| is x. */
  lemma MentionsMiddle(prefix: string, x: string, suffix: string)
    ensures Mentions(prefix + x + suffix, x)
  {
    var s := prefix + x + suffix;
    assert MentionsAt(s, x, |prefix|);
  }

  lemma NamesMentionIds(jobId: string, taskId: string)
    ensures Mentions(SuccessName(jobId, taskId), jobId) && Mentions(SuccessName(jobId, taskId), taskId)
    ensures Mentions(FailureName(jobId, taskId), jobId) && Mentions(FailureName(jobId, taskId), taskId)
  {
    MentionsMiddle("output-", jobId, "-" + taskId + ".txt");
    MentionsMiddle("output-" + jobId + "-", taskId, ".txt");
    MentionsMiddle("failed-", jobId, "-" + taskId + ".txt");
    MentionsMiddle("failed-" + jobId + "-", taskId, ".txt");
    assert "output-" + jobId + ("-" + taskId + ".txt") == SuccessName(jobId, taskId);
    assert "failed-" + jobId + ("-" + taskId + ".txt") == FailureName(jobId, taskId);
  }

  lemma DescriptorRules(storageAccountUrl: string, jobId: string, outputFilesContainerSasUrl: string,
                        failedFilesContainerSasUrl: string, i: nat, c: Condition)
    requires i < TaskCount
    ensures var rules := Descriptor(storageAccountUrl, jobId, outputFilesContainerSasUrl, failedFilesContainerSasUrl, i).outputFiles;
            RulesFor(rules, c) == [if c == TaskSuccess then rules[0] else rules[1]]
  {
    var rules := Descriptor(storageAccountUrl, jobId, outputFilesContainerSasUrl, failedFilesContainerSasUrl, i).outputFiles;
    assert rules[1..][1..] == [];
  }

  /** The path the builder writes is the URL path of the i-th uploaded blob. */
  lemma InputPathIsUploadedBlob(storageAccountUrl: string, i: nat)
    requires i < TaskCount
    ensures storageAccountUrl + ("/inputfiles/taskdata" + Digit(i) + ".txt")
            == BlobUrl(storageAccountUrl, InputContainer, InputFileNames[i])
  {
    assert "/inputfiles/taskdata" + Digit(i) + ".txt" == "/" + InputContainer + "/" + InputFileNames[i];
  }

  // Lemmas about the whole list: any list that agrees with the reference
  // descriptors has every property the builder promises.

  ghost predicate AgreesWithDescriptors(storageAccountUrl: string, jobId: string, outputFilesContainerSasUrl: string,
                                        failedFilesContainerSasUrl: string, tasks: seq<TaskSpec>)
  {
    |tasks| == TaskCount &&
    forall k :: 0 <= k < TaskCount ==>
      tasks[k] == Descriptor(storageAccountUrl, jobId, outputFilesContainerSasUrl, failedFilesContainerSasUrl, k)
  }

  lemma ListIdsDistinct(storageAccountUrl: string, jobId: string, outputFilesContainerSasUrl: string,
                        failedFilesContainerSasUrl: string, tasks: seq<TaskSpec>)
    requires AgreesWithDescriptors(storageAccountUrl, jobId, outputFilesContainerSasUrl, failedFilesContainerSasUrl, tasks)
    ensures IdsDistinct(tasks)
  {
    forall a, b | 0 <= a < b < |tasks| ensures tasks[a].id != tasks[b].id {
      TaskIdsDistinct(a, b);
    }
  }

  lemma ListOneRulePerCondition(storageAccountUrl: string, jobId: string, outputFilesContainerSasUrl: string,
                                failedFilesContainerSasUrl: string, tasks: seq<TaskSpec>)
    requires AgreesWithDescriptors(storageAccountUrl, jobId, outputFilesContainerSasUrl, failedFilesContainerSasUrl, tasks)
    ensures OneRulePerCondition(tasks)
  {
    forall a, c | 0 <= a < |tasks| ensures |RulesFor(tasks[a].outputFiles, c)| == 1 {
      DescriptorRules(storageAccountUrl, jobId, outputFilesContainerSasUrl, failedFilesContainerSasUrl, a, c);
    }
  }

  lemma ListDestinationsCollisionFree(storageAccountUrl: string, jobId: string, outputFilesContainerSasUrl: string,
                                      failedFilesContainerSasUrl: string, tasks: seq<TaskSpec>)
    requires AgreesWithDescriptors(storageAccountUrl, jobId, outputFilesContainerSasUrl, failedFilesContainerSasUrl, tasks)
    ensures DestinationsCollisionFree(tasks)
  {
    forall a, r, b, s |
      0 <= a < |tasks| && 0 <= b < |tasks| &&
      0 <= r < |tasks[a].outputFiles| && 0 <= s < |tasks[b].outputFiles| && (a != b || r != s)
      ensures tasks[a].outputFiles[r].destination.path != tasks[b].outputFiles[s].destination.path
    {
      DestinationNamesDistinct(jobId, a, b);
      DestinationNamesDistinct(jobId, b, a);
    }
  }

  lemma ListDestinationsMentionIds(storageAccountUrl: string, jobId: string, outputFilesContainerSasUrl: string,
                                   failedFilesContainerSasUrl: string, tasks: seq<TaskSpec>)
    requires AgreesWithDescriptors(storageAccountUrl, jobId, outputFilesContainerSasUrl, failedFilesContainerSasUrl, tasks)
    ensures DestinationsMentionIds(jobId, tasks)
  {
    forall a, r | 0 <= a < |tasks| && 0 <= r < |tasks[a].outputFiles|
      ensures Mentions(tasks[a].outputFiles[r].destination.path, jobId)
      ensures Mentions(tasks[a].outputFiles[r].destination.path, tasks[a].id)
    {
      NamesMentionIds(jobId, tasks[a].id);
    }
  }

  lemma ListInputsUploaded(storageAccountUrl: string, jobId: string, outputFilesContainerSasUrl: string,
                           failedFilesContainerSasUrl: string, tasks: seq<TaskSpec>)
    requires AgreesWithDescriptors(storageAccountUrl, jobId, outputFilesContainerSasUrl, failedFilesContainerSasUrl, tasks)
    ensures InputsUploaded(storageAccountUrl, tasks)
  {
    forall a, f | 0 <= a < |tasks| && 0 <= f < |tasks[a].resourceFiles|
      ensures IsUploadedBlobUrl(storageAccountUrl, tasks[a].resourceFiles[f].httpUrl)
    {
      var name := InputFileNames[a];
      assert IsUploaded(InputContainer, name);
      assert tasks[a].resourceFiles[f].httpUrl == BlobUrl(storageAccountUrl, InputContainer, name);
    }
  }

  /** Builds the job's task descriptors, one per loop iteration, exactly as
      CreateTasks does: the CloudTask is made from its id and command line, then
      its input binding and its output rules are filled in, then it is appended. */
  method CreateTasks(storageAccountUrl: string, jobId: string, outputFilesContainerSasUrl: string,
                     failedFilesContainerSasUrl: string) returns (tasks: seq<TaskSpec>)
    ensures |tasks| == TaskCount
    ensures forall k :: 0 <= k < TaskCount ==>
      tasks[k] == Descriptor(storageAccountUrl, jobId, outputFilesContainerSasUrl, failedFilesContainerSasUrl, k)
    ensures IdsDistinct(tasks)
    ensures OneRulePerCondition(tasks)
    ensures DestinationsCollisionFree(tasks)
    ensures DestinationsMentionIds(jobId, tasks)
    ensures InputsUploaded(storageAccountUrl, tasks)
  {
    tasks := [];
    for i := 0 to TaskCount
      invariant |tasks| == i
      invariant forall k :: 0 <= k < i ==>
        tasks[k] == Descriptor(storageAccountUrl, jobId, outputFilesContainerSasUrl, failedFilesContainerSasUrl, k)
    {
      var taskId := "Task" + Digit(i);
      var inputFilePath := "/inputfiles/taskdata" + Digit(i) + ".txt";
      var inputFileBlobContainerUrl := storageAccountUrl + inputFilePath;
      var targetInputFileName := "input.txt";
      var taskCommandLine := "cp input.txt output.txt";

      var task := TaskSpec(taskId, taskCommandLine, [], []);
      task := task.(resourceFiles := [ResourceFile(inputFileBlobContainerUrl, targetInputFileName)]);
      task := task.(outputFiles := [
        OutputRule("output.txt",
                   BlobDestination(outputFilesContainerSasUrl, "output-" + jobId + "-" + taskId + ".txt"),
                   TaskSuccess),
        OutputRule("../std*.txt",
                   BlobDestination(failedFilesContainerSasUrl, "failed-" + jobId + "-" + taskId + ".txt"),
                   TaskFailure)]);

      InputPathIsUploadedBlob(storageAccountUrl, i);
      tasks := tasks + [task];
    }
    ListIdsDistinct(storageAccountUrl, jobId, outputFilesContainerSasUrl, failedFilesContainerSasUrl, tasks);
    ListOneRulePerCondition(storageAccountUrl, jobId, outputFilesContainerSasUrl, failedFilesContainerSasUrl, tasks);
    ListDestinationsCollisionFree(storageAccountUrl, jobId, outputFilesContainerSasUrl, failedFilesContainerSasUrl, tasks);
    ListDestinationsMentionIds(storageAccountUrl, jobId, outputFilesContainerSasUrl, failedFilesContainerSasUrl, tasks);
    ListInputsUploaded(storageAccountUrl, jobId, outputFilesContainerSasUrl, failedFilesContainerSasUrl, tasks);
  }

  /** The run's job id "jobId1234" gives the destination names output-jobId1234-Task0.txt
      through failed-jobId1234-Task2.txt. */
  lemma ExampleJobDestinations(storageAccountUrl: string, outputFilesContainerSasUrl: string,
                               failedFilesContainerSasUrl: string)
    ensures var t0 := Descriptor(storageAccountUrl, "jobId1234", outputFilesContainerSasUrl, failedFilesContainerSasUrl, 0);
            var t2 := Descriptor(storageAccountUrl, "jobId1234", outputFilesContainerSasUrl, failedFilesContainerSasUrl, 2);
            t0.id == "Task0" && t2.id == "Task2" &&
            t0.outputFiles[0].destination.path == "output-jobId1234-Task0.txt" &&
            t2.outputFiles[1].destination.path == "failed-jobId1234-Task2.txt" &&
            t0.resourceFiles[0].httpUrl == storageAccountUrl + "/inputfiles/taskdata0.txt"
  {
    assert Digit(0) == "0" && Digit(2) == "2";
    assert TaskId(0) == "Task0" && TaskId(2) == "Task2";
    assert SuccessName("jobId1234", "Task0") == "output-jobId1234-Task0.txt";
    assert FailureName("jobId1234", "Task2") == "failed-jobId1234-Task2.txt";
  }
}
