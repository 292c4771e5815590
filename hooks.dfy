/**
 * The event filter and dispatcher: the eight lifecycle hooks, each of which
 * sends one notification when its status code is in the `when` policy, and
 * the lazily opened mail session they share.
 */
module Hooks {
  import opened Wrappers
  import opened Config
  import opened Templates
  import opened Mail

  /**
   * Which `when` entry a hook reads. As the source is written every hook reads
   * `when['pipeline']`; `PerCategory` reads the entry of the hook's own kind.
   */
  datatype PolicyMode = AsWritten | PerCategory

  function PolicyKey(mode: PolicyMode, kind: Kind): string {
    match mode
    case AsWritten => "pipeline"
    case PerCategory =>
      match kind
      case Pipeline => "pipeline"
      case Process => "proc"
      case Job => "job"
  }

  /** What a hook can raise. */
  datatype HookError =
    | PolicyMissing(key: string)   // KeyError reading `when` or its entry
    | NotAContainer                // TypeError: indexing or `in` on a value that does not support it
    | NoSession                    // `EMAIL.send` while EMAIL is still None
    | SessionFailed(key: string)   // `Email(config)` raised KeyError
    | SendFailed(error: SendError) // `send` raised before the transport

  /** `notify.when[key]` */
  function PolicyOf(notify: Mapping, key: string): (r: Result<Value, HookError>)
    ensures r.Success? <==> "when" in notify && notify["when"].Dict? && key in notify["when"].entries
    ensures r.Success? ==> r.value == notify["when"].entries[key]
  {
    if "when" !in notify then Failure(PolicyMissing("when"))
    else if !notify["when"].Dict? then Failure(NotAContainer)
    else if key !in notify["when"].entries then Failure(PolicyMissing(key))
    else Success(notify["when"].entries[key])
  }

  /** `code in policy`: a character of a string, an element of a list, a key of a dictionary. */
  function PolicyHas(policy: Value, code: char): (r: Result<bool, HookError>)
    ensures r.Success? <==> policy.Str? || policy.List? || policy.Dict?
    ensures policy.Str? ==> r == Success(code in policy.s)
    ensures policy.List? ==> r == Success(Str([code]) in policy.items)
    ensures policy.Dict? ==> r == Success([code] in policy.entries)
  {
    match policy
    case Str(s) => Success(code in s)
    case List(items) => Success(Str([code]) in items)
    case Dict(entries) => Success([code] in entries)
    case _ => Failure(NotAContainer)
  }

  /**
   * What one hook does once the session question is settled: None when its
   * code is not in the policy, the message handed to `sendmail` when it is,
   * or the error raised on the way.
   */
  function Effect(email: Option<Email>, key: string, kind: Kind, status: Status, obj: Observed, notify: Mapping, now: string)
    : Result<Option<Message>, HookError>
  {
    var policy :- PolicyOf(notify, key);
    var fires :- PolicyHas(policy, status.Code());
    if !fires then Success(None)
    else if email.None? then Failure(NoSession)
    else match Compose(email.value, kind.ObjName(), status.Name(), obj, now)
      case Failure(e) => Failure(SendFailed(e))
      case Success(m) => Success(Some(m))
  }

  /**
   * What one hook call does, case by case: it sends exactly when the policy
   * reads, names the status code, a session exists and the message composes;
   * it stays silent exactly when the policy reads and omits the code; it
   * raises the missing-session error exactly when the code is named and no
   * session exists.
   */
  lemma EffectCases(email: Option<Email>, key: string, kind: Kind, status: Status, obj: Observed, notify: Mapping, now: string)
    ensures var r := Effect(email, key, kind, status, obj, notify, now);
      r.Success? && r.value.Some? <==>
        && PolicyOf(notify, key).Success? && PolicyHas(PolicyOf(notify, key).value, status.Code()) == Success(true)
        && email.Some? && Compose(email.value, kind.ObjName(), status.Name(), obj, now).Success?
    ensures var r := Effect(email, key, kind, status, obj, notify, now);
      r.Success? && r.value.Some? ==> r.value.value == Compose(email.value, kind.ObjName(), status.Name(), obj, now).value
    ensures var r := Effect(email, key, kind, status, obj, notify, now);
      r == Success(None) <==>
        PolicyOf(notify, key).Success? && PolicyHas(PolicyOf(notify, key).value, status.Code()) == Success(false)
    ensures var r := Effect(email, key, kind, status, obj, notify, now);
      r == Failure(NoSession) <==>
        PolicyOf(notify, key).Success? && PolicyHas(PolicyOf(notify, key).value, status.Code()) == Success(true) && email.None?
  {
  }

  /** The messages a hook adds to the send log: none, or the one it sent. */
  function Sent(e: Result<Option<Message>, HookError>): seq<Message> {
    if e.Success? && e.value.Some? then [e.value.value] else []
  }

  /** What a hook raised, if anything. */
  function Raised(e: Result<Option<Message>, HookError>): Option<HookError> {
    if e.Failure? then Some(e.error) else None
  }

  /**
   * The plugin's module state: the global EMAIL and, standing for the SMTP
   * server, the log of every message handed to `sendmail`.
   */
  class Notifier {
    const mode: PolicyMode
    var email: Option<Email>
    var sent: seq<Message>

    /** Module load: EMAIL is None and nothing has been sent. */
    constructor (mode: PolicyMode)
      ensures this.mode == mode && email == None && sent == []
    {
      this.mode := mode;
      email := None;
      sent := [];
    }

    /** The shared body of a hook: filter, then send through the existing session. */
    method Notify(kind: Kind, status: Status, obj: Observed, notify: Mapping, now: string) returns (err: Option<HookError>)
      modifies this
      ensures email == old(email)
      ensures sent == old(sent) + Sent(Effect(email, PolicyKey(mode, kind), kind, status, obj, notify, now))
      ensures err == Raised(Effect(email, PolicyKey(mode, kind), kind, status, obj, notify, now))
    {
      var e := Effect(email, PolicyKey(mode, kind), kind, status, obj, notify, now);
      if e.Failure? {
        return Some(e.error);
      }
      if e.value.Some? {
        sent := sent + [e.value.value];
      }
      err := None;
    }

    /**
     * `pypplPreRun`: opens the session if there is none, whatever the policy
     * says, reuses it otherwise, then notifies that the pipeline began.
     */
    method PypplPreRun(ppl: Observed, notify: Mapping, now: string) returns (err: Option<HookError>)
      modifies this
      ensures old(email).Some? ==> email == old(email)
      ensures old(email).None? ==> email == (if OpenSession(notify).Success? then Some(OpenSession(notify).value) else None)
      ensures email.None? ==> sent == old(sent) && err == Some(SessionFailed(OpenSession(notify).error))
      ensures email.Some? ==>
        && sent == old(sent) + Sent(Effect(email, PolicyKey(mode, Pipeline), Pipeline, Begin, ppl, notify, now))
        && err == Raised(Effect(email, PolicyKey(mode, Pipeline), Pipeline, Begin, ppl, notify, now))
    {
      if email.None? {
        var session := OpenSession(notify);
        if session.Failure? {
          return Some(SessionFailed(session.error));
        }
        email := Some(session.value);
      }
      err := Notify(Pipeline, Begin, ppl, notify, now);
    }

    /** `pypplPostRun`: notifies that the pipeline ended. */
    method PypplPostRun(ppl: Observed, notify: Mapping, now: string) returns (err: Option<HookError>)
      modifies this
      ensures email == old(email)
      ensures sent == old(sent) + Sent(Effect(email, PolicyKey(mode, Pipeline), Pipeline, End, ppl, notify, now))
      ensures err == Raised(Effect(email, PolicyKey(mode, Pipeline), Pipeline, End, ppl, notify, now))
    {
      err := Notify(Pipeline, End, ppl, notify, now);
    }

    /** `procPreRun`: notifies that a process began. */
    method ProcPreRun(proc: Observed, notify: Mapping, now: string) returns (err: Option<HookError>)
      modifies this
      ensures email == old(email)
      ensures sent == old(sent) + Sent(Effect(email, PolicyKey(mode, Process), Process, Begin, proc, notify, now))
      ensures err == Raised(Effect(email, PolicyKey(mode, Process), Process, Begin, proc, notify, now))
    {
      err := Notify(Process, Begin, proc, notify, now);
    }

    /** `procPostRun`: notifies that a process ended. */
    method ProcPostRun(proc: Observed, notify: Mapping, now: string) returns (err: Option<HookError>)
      modifies this
      ensures email == old(email)
      ensures sent == old(sent) + Sent(Effect(email, PolicyKey(mode, Process), Process, End, proc, notify, now))
      ensures err == Raised(Effect(email, PolicyKey(mode, Process), Process, End, proc, notify, now))
    {
      err := Notify(Process, End, proc, notify, now);
    }

    /** `procFail`: notifies that a process failed. */
    method ProcFail(proc: Observed, notify: Mapping, now: string) returns (err: Option<HookError>)
      modifies this
      ensures email == old(email)
      ensures sent == old(sent) + Sent(Effect(email, PolicyKey(mode, Process), Process, Abort, proc, notify, now))
      ensures err == Raised(Effect(email, PolicyKey(mode, Process), Process, Abort, proc, notify, now))
    {
      err := Notify(Process, Abort, proc, notify, now);
    }

    /** `jobPreRun`: notifies that a job began; `notify` is `job.proc.config._notify`. */
    method JobPreRun(job: Observed, notify: Mapping, now: string) returns (err: Option<HookError>)
      modifies this
      ensures email == old(email)
      ensures sent == old(sent) + Sent(Effect(email, PolicyKey(mode, Job), Job, Begin, job, notify, now))
      ensures err == Raised(Effect(email, PolicyKey(mode, Job), Job, Begin, job, notify, now))
    {
      err := Notify(Job, Begin, job, notify, now);
    }

    /** `jobPostRun`: notifies that a job ended. */
    method JobPostRun(job: Observed, notify: Mapping, now: string) returns (err: Option<HookError>)
      modifies this
      ensures email == old(email)
      ensures sent == old(sent) + Sent(Effect(email, PolicyKey(mode, Job), Job, End, job, notify, now))
      ensures err == Raised(Effect(email, PolicyKey(mode, Job), Job, End, job, notify, now))
    {
      err := Notify(Job, End, job, notify, now);
    }

    /** `jobFail`: notifies that a job failed. */
    method JobFail(job: Observed, notify: Mapping, now: string) returns (err: Option<HookError>)
      modifies this
      ensures email == old(email)
      ensures sent == old(sent) + Sent(Effect(email, PolicyKey(mode, Job), Job, Abort, job, notify, now))
      ensures err == Raised(Effect(email, PolicyKey(mode, Job), Job, Abort, job, notify, now))
    {
      err := Notify(Job, Abort, job, notify, now);
    }
  }

  /**
   * With a string policy and a session that can send, a hook sends exactly one
   * message, the one `send` builds, when its code is in the policy, and none
   * otherwise; it raises nothing either way.
   */
  lemma SendsIffCodeInPolicy(email: Email, key: string, kind: Kind, status: Status, obj: Observed, notify: Mapping, now: string, policy: string)
    requires PolicyOf(notify, key) == Success(Str(policy))
    requires HasTemplate(kind, status) && "from" in email.config && "to" in email.config
    ensures Effect(Some(email), key, kind, status, obj, notify, now).Success?
    ensures status.Code() in policy ==>
      Sent(Effect(Some(email), key, kind, status, obj, notify, now)) == [Compose(email, kind.ObjName(), status.Name(), obj, now).value]
    ensures status.Code() !in policy ==> Sent(Effect(Some(email), key, kind, status, obj, notify, now)) == []
  {
    HookTemplates(kind, status, obj, now);
    ComposeSucceedsIff(email, kind.ObjName(), status.Name(), obj, now);
  }

  /**
   * Before the session exists a hook sends nothing; it raises exactly when its
   * code is in a readable policy.
   */
  lemma NoSendWithoutSession(key: string, kind: Kind, status: Status, obj: Observed, notify: Mapping, now: string, policy: string)
    requires PolicyOf(notify, key) == Success(Str(policy))
    ensures Sent(Effect(None, key, kind, status, obj, notify, now)) == []
    ensures Raised(Effect(None, key, kind, status, obj, notify, now)) == (if status.Code() in policy then Some(NoSession) else None)
  {
  }

  /**
   * After `setup` every policy a hook may read is there: the user's entry if
   * they gave one, the default otherwise.
   */
  lemma MergedPolicy(user: Mapping, key: string)
    requires "when" in user ==> user["when"].Dict?
    requires key in DefaultWhen
    ensures var given := GetOr(user, "when", Dict(map[])).entries;
      && Merge(user, DefaultConfig).Some?
      && PolicyOf(Merge(user, DefaultConfig).value, key) == Success(if key in given then given[key] else DefaultWhen[key])
  {
    MergeFailsIff(user);
    MergeFillsWithoutOverwriting(user);
  }

  /**
   * As written, the job hooks read `when['pipeline']`: with the default
   * configuration, whose `when['job']` is empty, a job start still sends.
   */
  lemma AsWrittenJobHookIgnoresJobPolicy(email: Email, obj: Observed, now: string)
    requires "from" in email.config && "to" in email.config
    ensures var defaults := Merge(map[], DefaultConfig).value;
      && PolicyOf(defaults, "job") == Success(Str(""))
      && |Sent(Effect(Some(email), PolicyKey(AsWritten, Job), Job, Begin, obj, defaults, now))| == 1
  {
    MergeOfNothing();
    var defaults := Merge(map[], DefaultConfig).value;
    assert PolicyOf(defaults, "pipeline") == Success(Str("abe"));
    SendsIffCodeInPolicy(email, "pipeline", Job, Begin, obj, defaults, now, "abe");
  }

  /**
   * Read per category, each hook follows its own entry: with the default
   * configuration no job hook sends, and every process hook does.
   */
  lemma PerCategoryHooksFollowTheirPolicy(email: Email, status: Status, obj: Observed, now: string)
    requires "from" in email.config && "to" in email.config
    ensures var defaults := Merge(map[], DefaultConfig).value;
      && Effect(Some(email), PolicyKey(PerCategory, Job), Job, status, obj, defaults, now) == Success(None)
      && |Sent(Effect(Some(email), PolicyKey(PerCategory, Process), Process, status, obj, defaults, now))| == 1
  {
    MergeOfNothing();
    var defaults := Merge(map[], DefaultConfig).value;
    assert PolicyOf(defaults, "job") == Success(Str(""));
    assert PolicyOf(defaults, "proc") == Success(Str("abe"));
    SendsIffCodeInPolicy(email, "job", Job, status, obj, defaults, now, "");
    SendsIffCodeInPolicy(email, "proc", Process, status, obj, defaults, now, "abe");
  }
}
