/** The Procrastinate worker server command of
    adit_radis_shared/common/management/base/procrastinate_worker.py: its
    options, the worker command line it builds, and the worker process it
    starts and, on shutdown, terminates. The process is a state of this
    model; spawning and waiting are not part of it. */
module ProcrastinateWorker {
  import opened Wrappers
  import opened Text
  import opened OpsSpec
  import opened Shlex

  /** The parsed options of the command. */
  datatype WorkerOptions = WorkerOptions(queues: string, loglevel: string, concurrency: int, deleteJobs: string)

  /** What `add_arguments` gives when no option is passed. */
  const DefaultOptions := WorkerOptions("", "warning", 1, "always")

  /** The values argparse accepts for the two options with choices. */
  predicate ValidOptions(o: WorkerOptions) {
    (o.loglevel == "warning" || o.loglevel == "info" || o.loglevel == "debug")
    && (o.deleteJobs == "always" || o.deleteJobs == "success" || o.deleteJobs == "never")
  }

  lemma DefaultsValid()
    ensures ValidOptions(DefaultOptions)
    ensures DefaultOptions.queues == "" && DefaultOptions.loglevel == "warning"
    ensures DefaultOptions.concurrency == 1 && DefaultOptions.deleteJobs == "always"
  {
  }

  /** `str(n)` for an `int`. */
  function IntToString(n: int): string {
    if n >= 0 then NatToString(n) else "-" + NatToString(-n)
  }

  /** The words of the worker command line: `-v 1` only at debug level,
      the delete-jobs policy after `worker`, `--queues` only for a non-empty
      queue list, `--concurrency` only above 1. */
  function WorkerArgs(o: WorkerOptions): (r: seq<string>)
    ensures |r| >= 4 && r[..2] == ["./manage.py", "procrastinate"]
    ensures |r| == 4 + (if o.loglevel == "debug" then 2 else 0) + (if o.queues != "" then 2 else 0)
                     + (if o.concurrency > 1 then 2 else 0)
  {
    ["./manage.py", "procrastinate"]
    + (if o.loglevel == "debug" then ["-v", "1"] else [])
    + ["worker", o.deleteJobs]
    + (if o.queues != "" then ["--queues", o.queues] else [])
    + (if o.concurrency > 1 then ["--concurrency", IntToString(o.concurrency)] else [])
  }

  /** Where each part sits: the verbosity flag right after the program,
      then `worker` and the policy, then the optional flags in the order
      queues, concurrency. */
  lemma WorkerArgsLayout(o: WorkerOptions)
    ensures var r := WorkerArgs(o);
      var v := if o.loglevel == "debug" then 2 else 0;
      && (o.loglevel == "debug" ==> r[2..4] == ["-v", "1"])
      && (o.loglevel != "debug" ==> r[2] == "worker")
      && r[2 + v..4 + v] == ["worker", o.deleteJobs]
      && (o.queues != "" ==> r[4 + v..6 + v] == ["--queues", o.queues])
      && (o.concurrency > 1 ==> r[|r| - 2..] == ["--concurrency", IntToString(o.concurrency)])
  {
    var r := WorkerArgs(o);
    var head := ["./manage.py", "procrastinate"] + (if o.loglevel == "debug" then ["-v", "1"] else []);
    var mid := ["worker", o.deleteJobs];
    var queues := if o.queues != "" then ["--queues", o.queues] else [];
    var conc := if o.concurrency > 1 then ["--concurrency", IntToString(o.concurrency)] else [];
    assert r == head + (mid + (queues + conc));
    assert r[|head|..] == mid + (queues + conc);
    assert r[|head| + 2..] == queues + conc;
    assert r[|r| - |conc|..] == conc;
  }

  /** The words of the command line before the options. */
  function WorkerFront(o: WorkerOptions): (r: seq<string>)
    ensures |r| == 4 + (if o.loglevel == "debug" then 2 else 0)
  {
    ["./manage.py", "procrastinate"] + (if o.loglevel == "debug" then ["-v", "1"] else []) + ["worker", o.deleteJobs]
  }

  lemma ProgramWordsPlain()
    ensures IsPlainWord("./manage.py") && IsPlainWord("procrastinate")
  {
  }

  lemma FlagWordsPlain()
    ensures IsPlainWord("-v") && IsPlainWord("1") && IsPlainWord("worker")
    ensures IsPlainWord("--queues") && IsPlainWord("--concurrency")
  {
  }

  /** The words before the queue list, and the concurrency words, are
      plain for options argparse accepts. */
  lemma OuterWordsPlain(o: WorkerOptions)
    requires ValidOptions(o)
    ensures AllPlain(WorkerFront(o)) && AllPlain(WorkerFront(o) + ["--queues"])
    ensures o.concurrency > 1 ==> AllPlain(["--concurrency", IntToString(o.concurrency)])
  {
    ProgramWordsPlain();
    FlagWordsPlain();
    assert IsPlainWord(o.deleteJobs);
    if o.concurrency > 1 {
      assert IsPlainWord(IntToString(o.concurrency));
    }
  }

  /** With a plain queue list (or none), `shlex.split` gives back exactly
      the words the command line was built from. */
  lemma PlainOptionsSplitBack(o: WorkerOptions)
    requires ValidOptions(o)
    requires o.queues == "" || IsPlainWord(o.queues)
    ensures ShlexSplit(Join(WorkerArgs(o), " ")) == Ok(WorkerArgs(o))
  {
    OuterWordsPlain(o);
    PlainWordsSplit(WorkerArgs(o));
  }

  /** A queue list written with a blank after its comma, such as
      `default, dicom`, reaches the worker as two words. */
  lemma BlankInQueuesSplits(o: WorkerOptions, a: string, b: string)
    requires ValidOptions(o)
    requires o.queues == a + " " + b && IsPlainWord(a) && IsPlainWord(b)
    ensures var r := WorkerArgs(o);
      var q := if o.loglevel == "debug" then 7 else 5;
      && q < |r| && r[q] == o.queues
      && ShlexSplit(Join(r, " ")) == Ok(r[..q] + [a, b] + r[q + 1..])
  {
    var r := WorkerArgs(o);
    var front := WorkerFront(o);
    var conc := if o.concurrency > 1 then ["--concurrency", IntToString(o.concurrency)] else [];
    var q := |front| + 1;
    assert r == front + ["--queues", o.queues] + conc;
    assert r[..q] == front + ["--queues"] && r[q + 1..] == conc;
    JoinSpaceInWord(r, q, a, b);
    OuterWordsPlain(o);
    var split := r[..q] + [a, b] + r[q + 1..];
    assert split == front + ["--queues"] + [a, b] + conc;
    PlainWordsSplit(split);
  }

  /** A queue list that opens a single quote without closing it (the last
      option, here) makes `shlex.split` raise: no worker is started. */
  lemma UnclosedQuoteInQueuesFails(o: WorkerOptions, a: string)
    requires ValidOptions(o) && o.concurrency <= 1
    requires o.queues == "'" + a && '\'' !in a
    ensures ShlexSplit(Join(WorkerArgs(o), " ")) == Err("No closing quotation")
  {
    var front := WorkerFront(o) + ["--queues"];
    assert WorkerArgs(o) == front + [o.queues];
    OuterWordsPlain(o);
    JoinSnoc(front, o.queues);
    assert o.queues[1..] == a;
    UnclosedQuoteFails(front, o.queues);
  }

  /** The state of the worker process. */
  datatype WorkerProcess = NoWorker | Running(argv: seq<string>) | Terminated(argv: seq<string>)

  /** A `ProcrastinateServerCommand`. */
  class ProcrastinateServerCommand {
    var worker: WorkerProcess

    /** `__init__`: no worker yet. */
    constructor ()
      ensures worker == NoWorker
    {
      worker := NoWorker;
    }

    /** `run_server`: the command line is built piece by piece, split with
        `shlex.split` and the worker started with those words; when the
        split raises, no worker is started. */
    method RunServer(o: WorkerOptions) returns (cmd: string, argv: Result<seq<string>, string>)
      modifies this
      ensures cmd == Join(WorkerArgs(o), " ")
      ensures argv == ShlexSplit(cmd)
      ensures argv.Ok? ==> worker == Running(argv.value)
      ensures argv.Err? ==> worker == old(worker)
    {
      ghost var words := ["./manage.py", "procrastinate"];
      cmd := "./manage.py procrastinate";
      assert Join(words, " ") == cmd by {
        assert words[1..] == ["procrastinate"];
      }
      if o.loglevel == "debug" {
        OptJoin(words, "-v", "1");
        cmd := cmd + Opt("-v", "1");
        words := words + ["-v", "1"];
      }
      OptJoin(words, "worker", o.deleteJobs);
      cmd := cmd + Opt("worker", o.deleteJobs);
      words := words + ["worker", o.deleteJobs];
      if o.queues != "" {
        OptJoin(words, "--queues", o.queues);
        cmd := cmd + Opt("--queues", o.queues);
        words := words + ["--queues", o.queues];
      }
      if o.concurrency > 1 {
        OptJoin(words, "--concurrency", IntToString(o.concurrency));
        cmd := cmd + Opt("--concurrency", IntToString(o.concurrency));
        words := words + ["--concurrency", IntToString(o.concurrency)];
      }
      assert words == WorkerArgs(o);
      argv := ShlexSplit(cmd);
      if argv.Ok? {
        worker := Running(argv.value);
      }
    }

    /** `on_shutdown`: its assertion fails (`false`) when no worker was
        started; otherwise the worker is terminated. */
    method OnShutdown() returns (ok: bool)
      modifies this
      ensures ok <==> old(worker) != NoWorker
      ensures !ok ==> worker == NoWorker
      ensures ok ==> worker == Terminated(old(worker).argv)
    {
      if worker == NoWorker {
        return false;
      }
      worker := Terminated(worker.argv);
      return true;
    }
  }
}
