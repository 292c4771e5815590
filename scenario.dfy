/**
 * A run of the plugin as the host drives it: `setup` on a partial user
 * configuration, then a pipeline start, a process failure and the pipeline
 * end reported twice, with the source's policy reading.
 */
module Scenario {
  import opened Wrappers
  import opened Config
  import opened Templates
  import opened Mail
  import opened Hooks

  /**
   * With `to = ["a@x.com"]` and `when.pipeline = "be"`: the start sends
   * "Pipeline started" from the default sender to that one recipient, with
   * the time and the start processes as body, the
   * failure (code `a`) sends nothing, and each of the two ends sends its own
   * identical "Pipeline finished".
   */
  method Run(starts: string, procs: string, now: string) returns (n: Notifier)
    ensures n.mode == AsWritten && n.email.Some?
    ensures |n.sent| == 3
    ensures n.sent[0].subject == "Pipeline started"
    ensures n.sent[0].sender == Str("pyppl-notify@no-reply.info")
    ensures n.sent[0].recipients == [Str("a@x.com")]
    ensures n.sent[0].body == "\n" + "Time: " + now + "\n" + "Start processes: " + starts + "\n"
    ensures n.sent[1].subject == "Pipeline finished" && n.sent[2] == n.sent[1]
  {
    var notify := Configure();
    var ppl := Observed(starts, procs, "", "", "", "", "", "", "");
    var proc := Observed("", "", "p1", "1", "", "", "", "", "");
    n := new Notifier(AsWritten);
    var email := StartPipeline(n, ppl, notify, now);
    FailThenEndTwice(n, email, proc, ppl, notify, now);
  }

  /**
   * The rest of the run: under policy `be` the process failure sends nothing,
   * and each of the two pipeline ends sends the same "Pipeline finished".
   */
  method FailThenEndTwice(n: Notifier, email: Email, proc: Observed, ppl: Observed, notify: Mapping, now: string)
    requires n.mode == AsWritten && n.email == Some(email)
    requires PolicyOf(notify, "pipeline") == Success(Str("be"))
    requires "from" in email.config && "to" in email.config
    modifies n
    ensures n.email == old(n.email)
    ensures |n.sent| == |old(n.sent)| + 2 && n.sent[..|old(n.sent)|] == old(n.sent)
    ensures n.sent[|old(n.sent)|].subject == "Pipeline finished"
    ensures n.sent[|old(n.sent)| + 1] == n.sent[|old(n.sent)|]
  {
    var err := n.ProcFail(proc, notify, now);
    ProcessFailureSilent(email, proc, notify, now);
    err := n.PypplPostRun(ppl, notify, now);
    PipelineHookSends(email, End, ppl, notify, now);
    err := n.PypplPostRun(ppl, notify, now);
  }

  /**
   * The first hook of the run: `pypplPreRun` opens the session and, under
   * policy `be`, sends the start mail.
   */
  method StartPipeline(n: Notifier, ppl: Observed, notify: Mapping, now: string) returns (email: Email)
    requires n.email.None? && n.sent == []
    requires PolicyOf(notify, "pipeline") == Success(Str("be")) && OpenSession(notify).Success?
    requires "from" in notify && "to" in notify
    modifies n
    ensures n.email == Some(email) && email.config == notify
    ensures |n.sent| == 1 && n.sent[0].subject == "Pipeline started"
    ensures n.sent[0].sender == notify["from"] && n.sent[0].recipients == NormalizeTo(notify["to"])
    ensures n.sent[0].body == "\n" + "Time: " + now + "\n" + "Start processes: " + ppl.starts + "\n"
  {
    var err := n.PypplPreRun(ppl, notify, now);
    email := n.email.value;
    PipelineHookSends(email, Begin, ppl, notify, now);
  }

  /**
   * `setup` on a host configuration holding that partial user configuration:
   * the merged configuration opens a session, keeps the recipient, fills in
   * the default sender and reads the user's pipeline policy.
   */
  method Configure() returns (notify: Mapping)
    ensures notify == Merge(PartialUser, DefaultConfig).value
    ensures PolicyOf(notify, "pipeline") == Success(Str("be")) && OpenSession(notify).Success?
    ensures "from" in notify && notify["from"] == Str("pyppl-notify@no-reply.info")
    ensures "to" in notify && notify["to"] == List([Str("a@x.com")])
  {
    var host := map["_notify" := Dict(PartialUser)];
    assert NotifyOf(host) == Dict(PartialUser);
    assert Merge(PartialUser, DefaultConfig).Some? by { MergeOfPartialUser(); }
    var setup := Setup(host);
    notify := setup.value["_notify"].entries;
    assert notify == Merge(PartialUser, DefaultConfig).value;
    assert
      && PolicyOf(notify, "pipeline") == Success(Str("be")) && OpenSession(notify).Success?
      && "from" in notify && notify["from"] == Str("pyppl-notify@no-reply.info")
      && "to" in notify && notify["to"] == List([Str("a@x.com")])
    by {
      MergeOfPartialUser();
      MergedConfigOpens(PartialUser);
      MergeOfPartialUserWhen();
    }
  }

  /** Under policy `be` a pipeline hook sends its headline from `from` to `to`. */
  lemma PipelineHookSends(email: Email, status: Status, ppl: Observed, notify: Mapping, now: string)
    requires PolicyOf(notify, "pipeline") == Success(Str("be")) && status != Abort
    requires "from" in email.config && "to" in email.config
    ensures var sent := Sent(Effect(Some(email), "pipeline", Pipeline, status, ppl, notify, now));
      && |sent| == 1 && sent[0].subject == Headline(Pipeline, status, ppl)
      && sent[0].sender == email.config["from"] && sent[0].recipients == NormalizeTo(email.config["to"])
      && (status == Begin ==> sent[0].body == "\n" + "Time: " + now + "\n" + "Start processes: " + ppl.starts + "\n")
  {
    SendsIffCodeInPolicy(email, "pipeline", Pipeline, status, ppl, notify, now, "be");
    ComposeHook(email, Pipeline, status, ppl, now);
    if status == Begin {
      StartBody(ppl, now);
    }
  }

  /** The body of the pipeline-start mail: the lines after its headline. */
  lemma StartBody(ppl: Observed, now: string)
    ensures Lines(FormatLines(TemplateKey("ppl", "begin"), ppl, now).value[1..])
      == "\n" + "Time: " + now + "\n" + "Start processes: " + ppl.starts + "\n"
  {
    assert TemplateKey("ppl", "begin") == "ppl_begin";
    var ls := FormatLines("ppl_begin", ppl, now).value;
    assert ls[1..] == ["", "Time: " + now, "Start processes: " + ppl.starts];
    ThreeLines("", "Time: " + now, "Start processes: " + ppl.starts);
  }

  /** Three lines, each ended by a line break. */
  lemma ThreeLines(a: string, b: string, c: string)
    ensures Lines([a, b, c]) == a + "\n" + b + "\n" + c + "\n"
  {
    assert [a, b, c][1..] == [b, c] && [b, c][1..] == [c] && [c][1..] == [];
    assert Lines([c]) == c + "\n";
    assert Lines([b, c]) == b + "\n" + (c + "\n");
    assert Lines([a, b, c]) == a + "\n" + (b + "\n" + (c + "\n"));
  }

  /** Under policy `be` the failure code `a` sends nothing and raises nothing. */
  lemma ProcessFailureSilent(email: Email, proc: Observed, notify: Mapping, now: string)
    requires PolicyOf(notify, "pipeline") == Success(Str("be"))
    requires "from" in email.config && "to" in email.config
    ensures Sent(Effect(Some(email), "pipeline", Process, Abort, proc, notify, now)) == []
  {
    SendsIffCodeInPolicy(email, "pipeline", Process, Abort, proc, notify, now, "be");
  }
}
