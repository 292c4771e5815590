/**
 * The template store: eight fixed message templates keyed by
 * `objname + "_" + status`, their rendering over the fields of the observed
 * pipeline, process or job, and the split of the rendered text into a
 * subject line and a body.
 */
module Templates {
  import opened Wrappers

  /**
   * The attributes of the observed object that the templates read, each as
   * the text `str.format` substitutes for it.
   */
  datatype Observed = Observed(
    starts: string,   // obj.tree.starts (pipeline)
    procs: string,    // obj.procs (pipeline)
    id: string,       // obj.id (process)
    size: string,     // obj.size (process)
    ppldir: string,   // obj.ppldir (process)
    workdir: string,  // obj.workdir (process)
    procId: string,   // obj.proc.id (job)
    index: string,    // obj.index (job)
    dir: string)      // obj.dir (job)

  /** The entity kinds, with the object name the hooks pass to `send`. */
  datatype Kind = Pipeline | Process | Job {
    function ObjName(): string {
      match this
      case Pipeline => "ppl"
      case Process => "proc"
      case Job => "job"
    }
  }

  /** The statuses, with the name the hooks pass to `send` and their policy code. */
  datatype Status = Begin | End | Abort {
    function Name(): string {
      match this
      case Begin => "begin"
      case End => "end"
      case Abort => "abort"
    }

    function Code(): char {
      match this
      case Begin => 'b'
      case End => 'e'
      case Abort => 'a'
    }
  }

  /** The TEMPLATES key of a send: the object name and the status around a `_`. */
  function TemplateKey(objname: string, status: string): string {
    objname + "_" + status
  }

  /** The keys of TEMPLATES. */
  const TemplateNames: set<string> := {
    "ppl_begin", "ppl_end",
    "proc_begin", "proc_end", "proc_abort",
    "job_begin", "job_end", "job_abort"
  }

  /** The lines `ls`, each ended by a line break, as a triple-quoted template ending in one reads. */
  function Lines(ls: seq<string>): string {
    if ls == [] then "" else ls[0] + "\n" + Lines(ls[1..])
  }

  /** `TEMPLATES[name].format(obj = obj, now = now)`, or None when `name` is not a key. */
  function Format(name: string, obj: Observed, now: string): (r: Option<string>)
    ensures r.Some? <==> name in TemplateNames
  {
    match FormatLines(name, obj, now)
    case None => None
    case Some(ls) => Some(Lines(ls))
  }

  /** The lines of TEMPLATES[name] with the fields substituted. */
  function FormatLines(name: string, obj: Observed, now: string): (r: Option<seq<string>>)
    ensures r.Some? <==> name in TemplateNames
  {
    if name == "ppl_begin" then Some([
      "Pipeline started",
      "",
      "Time: " + now,
      "Start processes: " + obj.starts])
    else if name == "ppl_end" then Some([
      "Pipeline finished",
      "",
      "Time: " + now,
      "Start processes: " + obj.starts,
      "Processes:",
      obj.procs])
    else if name == "proc_begin" then Some([
      "Process " + obj.id + " started",
      "",
      "Time: " + now,
      "Size: " + obj.size,
      "Pipeline directory: " + obj.ppldir,
      "Process workdir: " + obj.workdir])
    else if name == "proc_end" then Some([
      "Process " + obj.id + " finished",
      "",
      "Time: " + now,
      "Size: " + obj.size,
      "Pipeline directory: " + obj.ppldir,
      "Process workdir: " + obj.workdir])
    else if name == "proc_abort" then Some([
      "Process " + obj.id + " failed",
      "",
      "Time: " + now,
      "Size: " + obj.size,
      "Pipeline directory: " + obj.ppldir,
      "Process workdir: " + obj.workdir])
    else if name == "job_begin" then Some([
      "Process " + obj.procId + " #" + obj.index + " started",
      "",
      "Time: " + now,
      "Job directory: " + obj.dir])
    else if name == "job_end" then Some([
      "Process " + obj.procId + " #" + obj.index + " finished",
      "",
      "Time: " + now,
      "Job directory: " + obj.dir])
    else if name == "job_abort" then Some([
      "Process " + obj.procId + " #" + obj.index + " failed",
      "",
      "Time: " + now,
      "Job directory: " + obj.dir])
    else None
  }

  /** The index of the first line break of `s`, if it has one. */
  function LineBreak(s: string): (r: Option<nat>)
    ensures r.Some? ==> r.value < |s| && s[r.value] == '\n' && '\n' !in s[..r.value]
    ensures r.None? ==> '\n' !in s
  {
    if |s| == 0 then None
    else if s[0] == '\n' then Some(0)
    else match LineBreak(s[1..])
      case None => None
      case Some(i) => assert s[..i + 1] == [s[0]] + s[1..][..i]; Some(i + 1)
  }

  /**
   * `s.split('\n', 1)` unpacked into two names: the text before the first line
   * break and the text after it; None (Python's ValueError) when there is no
   * line break.
   */
  function SplitFirstLine(s: string): (r: Option<(string, string)>)
    ensures r.None? <==> '\n' !in s
    ensures r.Some? ==> '\n' !in r.value.0 && r.value.0 + "\n" + r.value.1 == s
  {
    match LineBreak(s)
    case None => None
    case Some(i) =>
      assert s == s[..i] + "\n" + s[i + 1..];
      Some((s[..i], s[i + 1..]))
  }

  /** The first line is all that comes before the first line break. */
  lemma SplitAtFirstBreak(head: string, rest: string)
    requires '\n' !in head
    ensures SplitFirstLine(head + "\n" + rest) == Some((head, rest))
  {
    var s := head + "\n" + rest;
    var r := SplitFirstLine(s);
    assert s[|head|] == '\n';
    var (h, t) := r.value;
    assert s[|h|] == '\n';
    assert h == s[..|head|] == head;
    assert t == s[|head| + 1..] == rest;
  }

  /** A key holding a single `_` splits back into its two parts in one way only. */
  lemma KeySplitsUniquely(objname: string, status: string, a: string, b: string)
    requires '_' !in a && '_' !in b
    requires TemplateKey(objname, status) == a + "_" + b
    ensures objname == a && status == b
  {
    var w := a + "_" + b;
    assert w[|objname|] == '_';
    assert objname == w[..|a|];
    assert status == w[|a| + 1..];
  }

  /**
   * The lookup `TEMPLATES[objname + "_" + status]` succeeds for exactly the
   * eight object/status pairs of the table; `ppl` with `abort`, or any other
   * pair, fails.
   */
  lemma TemplateLookup(objname: string, status: string, obj: Observed, now: string)
    ensures Format(TemplateKey(objname, status), obj, now).Some? <==>
      || (objname == "ppl" && status in {"begin", "end"})
      || (objname in {"proc", "job"} && status in {"begin", "end", "abort"})
  {
    var key := TemplateKey(objname, status);
    if key == "ppl_begin" { KeySplitsUniquely(objname, status, "ppl", "begin"); }
    if key == "ppl_end" { KeySplitsUniquely(objname, status, "ppl", "end"); }
    if key == "proc_begin" { KeySplitsUniquely(objname, status, "proc", "begin"); }
    if key == "proc_end" { KeySplitsUniquely(objname, status, "proc", "end"); }
    if key == "proc_abort" { KeySplitsUniquely(objname, status, "proc", "abort"); }
    if key == "job_begin" { KeySplitsUniquely(objname, status, "job", "begin"); }
    if key == "job_end" { KeySplitsUniquely(objname, status, "job", "end"); }
    if key == "job_abort" { KeySplitsUniquely(objname, status, "job", "abort"); }
  }

  /** Every kind/status pair a hook sends has a template; pipeline abort has none. */
  lemma HookTemplates(kind: Kind, status: Status, obj: Observed, now: string)
    ensures Format(TemplateKey(kind.ObjName(), status.Name()), obj, now).Some? <==>
      !(kind == Pipeline && status == Abort)
  {
    TemplateLookup(kind.ObjName(), status.Name(), obj, now);
  }

  /** The fields a kind's headline substitutes hold no line break. */
  predicate HeadlineFieldsSingleLine(kind: Kind, obj: Observed) {
    match kind
    case Pipeline => true
    case Process => '\n' !in obj.id
    case Job => '\n' !in obj.procId && '\n' !in obj.index
  }

  /** Whether a pair has a template, by kind and status. */
  predicate HasTemplate(kind: Kind, status: Status) {
    !(kind == Pipeline && status == Abort)
  }

  /** The subject line each template promises. */
  function Headline(kind: Kind, status: Status, obj: Observed): string
    requires HasTemplate(kind, status)
  {
    match (kind, status)
    case (Pipeline, Begin) => "Pipeline started"
    case (Pipeline, End) => "Pipeline finished"
    case (Process, Begin) => "Process " + obj.id + " started"
    case (Process, End) => "Process " + obj.id + " finished"
    case (Process, Abort) => "Process " + obj.id + " failed"
    case (Job, Begin) => "Process " + obj.procId + " #" + obj.index + " started"
    case (Job, End) => "Process " + obj.procId + " #" + obj.index + " finished"
    case (Job, Abort) => "Process " + obj.procId + " #" + obj.index + " failed"
  }

  /**
   * Rendering then splitting gives the template's headline as the subject and
   * a body that opens with the blank line and the time, provided the fields in
   * the headline hold no line break.
   */
  lemma TemplateSubject(kind: Kind, status: Status, obj: Observed, now: string)
    requires HasTemplate(kind, status)
    requires HeadlineFieldsSingleLine(kind, obj)
    ensures var text := Format(TemplateKey(kind.ObjName(), status.Name()), obj, now);
      && text.Some?
      && SplitFirstLine(text.value).Some?
      && SplitFirstLine(text.value).value.0 == Headline(kind, status, obj)
      && "\n" + "Time: " + now + "\n" <= SplitFirstLine(text.value).value.1
  {
    var key := TemplateKey(kind.ObjName(), status.Name());
    HookTemplateLines(kind, status, obj, now);
    var ls := FormatLines(key, obj, now).value;
    HeadlineSingleLine(kind, status, obj);
    FirstLineOfLines(ls);
    assert Format(key, obj, now) == Some(Lines(ls));
  }

  /** A headline holds a line break only if one of the fields it shows does. */
  lemma HeadlineSingleLine(kind: Kind, status: Status, obj: Observed)
    requires HasTemplate(kind, status)
    requires HeadlineFieldsSingleLine(kind, obj)
    ensures '\n' !in Headline(kind, status, obj)
  {
    match kind
    case Pipeline =>
    case Process => assert '\n' !in "Process " && '\n' !in " started" && '\n' !in " finished" && '\n' !in " failed";
    case Job => assert '\n' !in "Process " && '\n' !in " #" && '\n' !in " started" && '\n' !in " finished" && '\n' !in " failed";
  }

  /** Every hook's template opens with its headline, a blank line and the time. */
  lemma HookTemplateLines(kind: Kind, status: Status, obj: Observed, now: string)
    requires HasTemplate(kind, status)
    ensures var ls := FormatLines(TemplateKey(kind.ObjName(), status.Name()), obj, now);
      && ls.Some? && |ls.value| >= 3
      && ls.value[0] == Headline(kind, status, obj) && ls.value[1] == "" && ls.value[2] == "Time: " + now
  {
    var key := TemplateKey(kind.ObjName(), status.Name());
    match (kind, status)
    case (Pipeline, Begin) => assert key == "ppl_begin";
    case (Pipeline, End) => assert key == "ppl_end";
    case (Process, Begin) => assert key == "proc_begin";
    case (Process, End) => assert key == "proc_end";
    case (Process, Abort) => assert key == "proc_abort";
    case (Job, Begin) => assert key == "job_begin";
    case (Job, End) => assert key == "job_end";
    case (Job, Abort) => assert key == "job_abort";
  }

  /** Splitting text made of lines gives the first line and the lines after it. */
  lemma FirstLineOfLines(ls: seq<string>)
    requires |ls| >= 3 && '\n' !in ls[0] && ls[1] == ""
    ensures SplitFirstLine(Lines(ls)).Some?
    ensures SplitFirstLine(Lines(ls)).value.0 == ls[0]
    ensures "\n" + ls[2] + "\n" <= SplitFirstLine(Lines(ls)).value.1
  {
    UnfoldLines(ls);
    var opening := "\n" + ls[2] + "\n";
    assert opening <= opening + Lines(ls[3..]);
    SplitAtFirstBreak(ls[0], Lines(ls[1..]));
  }

  /** The first three lines of a text whose second line is empty. */
  lemma UnfoldLines(ls: seq<string>)
    requires |ls| >= 3 && ls[1] == ""
    ensures Lines(ls) == ls[0] + "\n" + Lines(ls[1..])
    ensures Lines(ls[1..]) == ("\n" + ls[2] + "\n") + Lines(ls[3..])
  {
    assert ls[1..][1..] == ls[2..] && ls[2..][1..] == ls[3..];
    assert Lines(ls[1..]) == ls[1] + "\n" + Lines(ls[2..]);
    assert Lines(ls[2..]) == ls[2] + "\n" + Lines(ls[3..]);
  }

  /** Every template has a line break whatever its fields hold, so the split never raises. */
  lemma EveryTemplateSplits(name: string, obj: Observed, now: string)
    requires name in TemplateNames
    ensures Format(name, obj, now).Some? && SplitFirstLine(Format(name, obj, now).value).Some?
  {
    var ls := FormatLines(name, obj, now).value;
    assert Lines(ls) == ls[0] + "\n" + Lines(ls[1..]);
    assert Lines(ls)[|ls[0]|] == '\n';
  }
}
