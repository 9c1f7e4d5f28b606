/** The `retry_stalled_jobs` management command of
    adit_radis_shared/common/management/commands/retry_stalled_jobs.py:
    every stalled job is retried once with the configured priority, and the
    number retried is reported. The job manager is a class whose log of
    retries the command appends to; the asyncio plumbing is not part of
    this model. */
module RetryStalledJobs {
  import opened Text

  type JobId = nat

  /** The job manager: its stalled jobs and the retries asked of it, each
      with its priority. */
  class JobManager {
    var stalled: seq<JobId>
    var retried: seq<(JobId, int)>

    constructor (stalled: seq<JobId>)
      ensures this.stalled == stalled && retried == []
    {
      this.stalled := stalled;
      retried := [];
    }

    /** `retry_job(job, priority=priority)` */
    method RetryJob(job: JobId, priority: int)
      modifies this
      ensures retried == old(retried) + [(job, priority)] && stalled == old(stalled)
    {
      retried := retried + [(job, priority)];
    }
  }

  /** The retries for `jobs`, one per job, in order, all with `priority`. */
  function Retries(jobs: seq<JobId>, priority: int): (r: seq<(JobId, int)>)
    ensures |r| == |jobs|
    ensures forall i :: 0 <= i < |jobs| ==> r[i] == (jobs[i], priority)
  {
    seq(|jobs|, i requires 0 <= i < |jobs| => (jobs[i], priority))
  }

  /** `handle_retry_stalled_jobs` for STALLED_JOBS_RETRY_PRIORITY
      `priority`: every stalled job retried once, and their number. */
  method HandleRetryStalledJobs(manager: JobManager, priority: int) returns (count: nat)
    modifies manager
    ensures manager.retried == old(manager.retried) + Retries(old(manager.stalled), priority)
    ensures count == |old(manager.stalled)|
    ensures manager.stalled == old(manager.stalled)
  {
    var jobs := manager.stalled;
    count := 0;
    for i := 0 to |jobs|
      invariant count == i
      invariant manager.stalled == jobs
      invariant manager.retried == old(manager.retried) + Retries(jobs[..i], priority)
    {
      manager.RetryJob(jobs[i], priority);
      count := count + 1;
      assert Retries(jobs[..i + 1], priority) == Retries(jobs[..i], priority) + [(jobs[i], priority)];
    }
    assert jobs[..|jobs|] == jobs;
  }

  const Progress := "Retrying stalled jobs... "

  /** The message `handle` writes after the progress text. */
  function ResultMessage(n: nat): (r: string)
    ensures n == 0 ==> r == "No stalled jobs found"
    ensures n == 1 ==> r == "Found 1 stalled job"
    ensures n >= 2 ==> r == "Found " + NatToString(n) + " stalled jobs"
  {
    if n == 0 then "No stalled jobs found"
    else if n == 1 then "Found 1 stalled job"
    else "Found " + NatToString(n) + " stalled jobs"
  }

  /** Everything `handle` writes: the progress text, written with an
      empty ending and so no line break, then the result, which
      `OutputWrapper.write` ends with its default "\n" (the result never
      ends with one already). */
  function HandleOutput(n: nat): (r: string)
    ensures |r| == |Progress| + |ResultMessage(n)| + 1
    ensures StartsWith(r, Progress) && r[|Progress|..|r| - 1] == ResultMessage(n) && r[|r| - 1] == '\n'
    ensures '\n' !in r[..|r| - 1]
  {
    var progress, message, ending := Progress, ResultMessage(n), "\n";
    var r := progress + message + ending;
    assert r[..|progress|] == progress;
    assert r[|progress|..|r| - 1] == message;
    assert r[..|r| - 1] == progress + message;
    NoLineBreakInMessage(n);
    assert '\n' !in progress;
    r
  }

  /** None of the three messages holds a line break. */
  lemma NoLineBreakInMessage(n: nat)
    ensures '\n' !in ResultMessage(n)
  {
    var d := NatToString(n);
    assert '\n' !in d;
  }

  /** The number in the plural message reads back as the count. */
  lemma PluralReadsBack(n: nat)
    requires n >= 2
    ensures var m := ResultMessage(n);
      var digits := m[6..|m| - 13];
      && digits == NatToString(n)
      && (forall k :: 0 <= k < |digits| ==> '0' <= digits[k] <= '9')
      && ParseNat(digits) == n
  {
    var m := ResultMessage(n);
    var d := NatToString(n);
    assert |"Found "| == 6 && |" stalled jobs"| == 13;
    assert m == "Found " + d + " stalled jobs";
    assert m[6..|m| - 13] == d;
    ParseNatToString(n);
  }

  /** Different counts give different messages. */
  lemma MessagesDistinguishCounts(a: nat, b: nat)
    requires a != b
    ensures ResultMessage(a) != ResultMessage(b)
  {
    if a >= 2 && b >= 2 {
      PluralReadsBack(a);
      PluralReadsBack(b);
    } else if a < 2 && b < 2 {
      assert |ResultMessage(0)| != |ResultMessage(1)|;
    } else {
      var big := if a >= 2 then a else b;
      var small := if a >= 2 then b else a;
      PluralReadsBack(big);
      var m := ResultMessage(big);
      assert m[|m| - 1] == 's';
      if small == 1 {
        assert ResultMessage(small)[|ResultMessage(small)| - 1] == 'b';
      } else {
        assert ResultMessage(small)[0] == 'N' != m[0];
      }
    }
  }
}
