/** The loops the operations helpers run, each proved against the function
    of OpsSpec that states what it computes. Every helper variant calls
    these after it has read `.env`, so they take the values it read. */
module OpsMethods {
  import opened Wrappers
  import opened Text
  import opened OpsSpec
  import opened IpAddresses

  /** `build_compose_cmd`: the fixed part, then `cmd += f" --profile {p}"`
      for each profile in order. */
  method BuildComposeCmd(baseFile: string, envFile: string, stack: string, profiles: seq<string>) returns (cmd: string)
    ensures cmd == ComposeCmd(baseFile, envFile, stack, profiles)
  {
    cmd := "docker compose";
    cmd := cmd + Opt("-f", baseFile);
    cmd := cmd + Opt("-f", envFile);
    cmd := cmd + Opt("-p", stack);
    ghost var head := cmd;
    var i := 0;
    while i < |profiles|
      invariant 0 <= i <= |profiles|
      invariant cmd == head + Opts("--profile", profiles[..i])
    {
      assert profiles[..i + 1][..i] == profiles[..i];
      cmd := cmd + Opt("--profile", profiles[i]);
      i := i + 1;
    }
    assert profiles[..i] == profiles;
  }

  /** The `for profile in profiles: cmd += f" --profile {profile}"` loop. */
  method AppendProfiles(cmd: string, profiles: seq<string>) returns (r: string)
    ensures r == cmd + Opts("--profile", profiles)
  {
    r := cmd;
    var i := 0;
    while i < |profiles|
      invariant 0 <= i <= |profiles|
      invariant r == cmd + Opts("--profile", profiles[..i])
    {
      assert profiles[..i + 1][..i] == profiles[..i];
      r := r + Opt("--profile", profiles[i]);
      i := i + 1;
    }
    assert profiles[..i] == profiles;
  }

  /** `check_compose_up`: scan the lines of `docker compose ls` and stop at
      the first that shows the stack running. */
  method CheckComposeUp(output: string, stack: string) returns (up: bool)
    ensures up <==> ComposeUp(SplitLines(output), stack)
  {
    var lines := SplitLines(output);
    var i := 0;
    while i < |lines|
      invariant 0 <= i <= |lines|
      invariant forall j :: 0 <= j < i ==> !ShowsRunning(lines[j], stack)
    {
      if StartsWith(lines[i], stack) && Contains(lines[i], "running") {
        return true;
      }
      i := i + 1;
    }
    return false;
  }

  /** `get_latest_local_version_tag`: the first line of `git tag -l
      --sort=-creatordate` that is a version, else "0.0.0". */
  method LatestLocalVersionTag(output: string) returns (tag: string)
    ensures var tags := SplitLines(output);
      var i := FirstVersionIndex(tags);
      tag == if i < |tags| then tags[i] else NoVersion
  {
    tag := FirstVersionTag(SplitLines(output));
  }

  /** The scan over the tags, newest first. */
  method FirstVersionTag(tags: seq<string>) returns (tag: string)
    ensures var i := FirstVersionIndex(tags);
      tag == if i < |tags| then tags[i] else NoVersion
  {
    var i := 0;
    while i < |tags|
      invariant 0 <= i <= |tags|
      invariant forall j :: 0 <= j < i ==> !IsVersionTag(tags[j])
    {
      if IsVersionTag(tags[i]) {
        FirstVersionIndexAt(tags, i);
        return tags[i];
      }
      i := i + 1;
    }
    FirstVersionIndexAt(tags, i);
    return NoVersion;
  }

  /** `confirm`: prompt, read a line, lower-case it, and either answer or
      write the retry message and prompt again. The answer is `None` when
      the input ends before a line answers, where Python's `input` raises
      EOFError. `written` is everything written to standard output. */
  method Confirm(question: string, lines: seq<string>) returns (answer: Option<bool>, written: string)
    ensures var k := AnswerIndex(lines);
      && answer == (if k < |lines| then ConfirmAnswer(Lower(lines[k])) else None)
      && written == ConfirmTranscript(question, k)
  {
    var i := 0;
    written := Prompt(question);
    while i < |lines|
      invariant 0 <= i <= |lines|
      invariant forall j :: 0 <= j < i ==> ConfirmAnswer(Lower(lines[j])).None?
      invariant written == ConfirmTranscript(question, i)
    {
      var choice := Lower(lines[i]);
      if choice == "" {
        return Some(false), written;
      } else if choice in {"yes", "y", "ye", "no", "n"} {
        return Some(choice in {"yes", "y", "ye"}), written;
      }
      written := written + RetryMessage + Prompt(question);
      i := i + 1;
    }
    return None, written;
  }

  /** One turn of the `alt_names` loop: the names of one more address. */
  /** The names the loop has listed after `i` addresses. */
  function AltNamesUpTo(hostname: string, list: seq<string>, i: nat): seq<GeneralName>
    requires i <= |list|
  {
    [DnsName(hostname)] + AddressNames(list[..i])
  }

  lemma AltNamesUpToAll(hostname: string, list: seq<string>)
    ensures AltNamesUpTo(hostname, list, |list|) == [DnsName(hostname)] + AddressNames(list)
  {
    assert list[..|list|] == list;
  }

  lemma AltNamesStep(hostname: string, list: seq<string>, i: nat, altNames: seq<GeneralName>)
    requires i < |list|
    requires altNames == AltNamesUpTo(hostname, list, i) + [DnsName(list[i])]
    ensures altNames + [IpAddress(list[i])] == AltNamesUpTo(hostname, list, i + 1)
  {
    assert list[..i + 1][..i] == list[..i];
  }

  /** Where the loop stops: at the first non-address, or at the end. */
  lemma AltNamesStopAt(hostname: string, addresses: Option<seq<string>>, i: nat)
    requires i <= FirstNonAddress(addresses.GetOr([]))
    requires i < |addresses.GetOr([])| ==> !IsIpAddress(addresses.GetOr([])[i])
    ensures var list := addresses.GetOr([]);
      AltNames(hostname, addresses) == if i < |list| then Err(list[i]) else Ok([DnsName(hostname)] + AddressNames(list))
  {
  }

  /** The `alt_names` loop of `generate_self_signed_certificates`. */
  method BuildAltNames(hostname: string, addresses: Option<seq<string>>) returns (r: Result<seq<GeneralName>, string>)
    ensures r == AltNames(hostname, addresses)
  {
    var altNames := [DnsName(hostname)];
    var list := addresses.GetOr([]);
    var i := 0;
    while i < |list|
      invariant 0 <= i <= |list|
      invariant i <= FirstNonAddress(list)
      invariant altNames == AltNamesUpTo(hostname, list, i)
    {
      var address := list[i];
      altNames := altNames + [DnsName(address)];
      var accepted := IsIpAddress(address);
      if !accepted {
        AltNamesStopAt(hostname, addresses, i);
        return Err(address);
      }
      AltNamesStep(hostname, list, i, altNames);
      altNames := altNames + [IpAddress(address)];
      i := i + 1;
    }
    AltNamesStopAt(hostname, addresses, i);
    AltNamesUpToAll(hostname, list);
    return Ok(altNames);
  }
}
