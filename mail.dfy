/**
 * The mail client `Email`: the session it opens from the configuration, and
 * `send` up to the transport: the message it builds and hands to `sendmail`.
 */
module Mail {
  import opened Wrappers
  import opened Config
  import opened Templates

  /**
   * The mail session `EMAIL`, standing for the SMTP connection: the
   * configuration it was opened with, which every later send reads.
   */
  datatype Email = Email(config: Mapping)

  /** Python's truth value of a configuration value. */
  predicate Truthy(v: Value) {
    match v
    case Str(s) => s != ""
    case Bool(b) => b
    case Int(i) => i != 0
    case List(items) => items != []
    case Dict(entries) => entries != map[]
  }

  /** The keys `Email(config)` reads before it logs in. */
  const SessionKeys: set<string> := {"ssl", "server", "port", "username"}

  /** The key whose lookup raises first: the session reads them in this order. */
  function FirstMissingSessionKey(config: Mapping): string {
    if "ssl" !in config then "ssl"
    else if "server" !in config then "server"
    else if "port" !in config then "port"
    else if "username" !in config then "username"
    else "password"
  }

  /**
   * `Email(config)`: it reads `ssl`, `server`, `port` and `username`, and
   * `password` when the user name is not empty; a missing key raises KeyError,
   * named here.
   */
  function OpenSession(config: Mapping): (r: Result<Email, string>)
    ensures r.Success? <==> SessionKeys <= config.Keys && (Truthy(config["username"]) ==> "password" in config)
    ensures r.Success? ==> r.value.config == config
    ensures r.Failure? ==> r.error !in config && r.error in SessionKeys + {"password"}
    ensures r.Failure? ==> r.error == FirstMissingSessionKey(config)
  {
    if "ssl" !in config then Failure("ssl")
    else if "server" !in config then Failure("server")
    else if "port" !in config then Failure("port")
    else if "username" !in config then Failure("username")
    else if Truthy(config["username"]) && "password" !in config then Failure("password")
    else Success(Email(config))
  }

  /** A merged configuration always opens a session. */
  lemma MergedConfigOpens(user: Mapping)
    requires Merge(user, DefaultConfig).Some?
    ensures OpenSession(Merge(user, DefaultConfig).value).Success?
  {
    var m := Merge(user, DefaultConfig).value;
    assert forall k :: k in DefaultConfig ==> k in m;
    assert "password" in DefaultConfig;
  }

  /** `str.isspace()` for one character: the characters `str.lstrip()` removes. */
  predicate IsSpace(c: char) {
    var n := c as int;
    || 9 <= n <= 13 || 28 <= n <= 32 || n == 133 || n == 160 || n == 5760
    || 8192 <= n <= 8202 || n == 8232 || n == 8233 || n == 8239 || n == 8287 || n == 12288
  }

  /** `s.lstrip()`: the suffix of `s` that is left once its leading whitespace is removed. */
  function LStrip(s: string): (r: string)
    ensures |r| <= |s| && r == s[|s| - |r|..]
    ensures forall i :: 0 <= i < |s| - |r| ==> IsSpace(s[i])
    ensures r == [] || !IsSpace(r[0])
  {
    if |s| > 0 && IsSpace(s[0]) then LStrip(s[1..]) else s
  }

  /** `s[:n]` */
  function Take(s: string, n: nat): string {
    if |s| <= n then s else s[..n]
  }

  /** The first line starts with one of the two spellings the source recognises. */
  predicate HasSubjectPrefix(line: string) {
    Take(line, 8) in {"Subject:", "SUBJECT:"}
  }

  /**
   * The mail subject made from the first line: after a `Subject:` or
   * `SUBJECT:` prefix, the rest without its leading whitespace; any other
   * line, `subject:` included, as it is.
   */
  function StripSubject(line: string): (r: string)
    ensures HasSubjectPrefix(line) ==>
      && |r| <= |line| - 8 && r == line[|line| - |r|..]
      && (forall i :: 8 <= i < |line| - |r| ==> IsSpace(line[i]))
      && (r == [] || !IsSpace(r[0]))
    ensures !HasSubjectPrefix(line) ==> r == line
  {
    if HasSubjectPrefix(line) then LStrip(line[8..]) else line
  }

  /** Both spellings of the prefix are stripped, with the whitespace after them. */
  lemma StripSubjectExamples()
    ensures StripSubject("Subject: Foo") == "Foo"
    ensures StripSubject("SUBJECT:\t Foo") == "Foo"
  {
    assert !IsSpace('F');
    assert LStrip("Foo") == "Foo";
    assert " Foo"[1..] == "Foo" && "\t Foo"[1..] == " Foo";
    assert LStrip(" Foo") == "Foo";
    assert LStrip("\t Foo") == "Foo";
    assert Take("Subject: Foo", 8) == "Subject:" && "Subject: Foo"[8..] == " Foo";
    assert Take("SUBJECT:\t Foo", 8) == "SUBJECT:" && "SUBJECT:\t Foo"[8..] == "\t Foo";
  }

  /** Other casings of the prefix, and lines without one, are kept as they are. */
  lemma KeepSubjectExamples()
    ensures StripSubject("subject: Foo") == "subject: Foo"
    ensures StripSubject("Foo") == "Foo"
  {
    assert Take("subject: Foo", 8) == "subject:";
  }

  /** `to` as `sendmail` receives it: a list as it is, anything else as a one-element list. */
  function NormalizeTo(to: Value): (r: seq<Value>)
    ensures to.List? ==> r == to.items
    ensures !to.List? ==> r == [to]
  {
    if to.List? then to.items else [to]
  }

  /** Normalising what was already normalised changes nothing. */
  lemma NormalizeToIdempotent(to: Value)
    ensures NormalizeTo(List(NormalizeTo(to))) == NormalizeTo(to)
  {
  }

  /** What one `sendmail` call carries: sender, all recipients, subject and body. */
  datatype Message = Message(sender: Value, recipients: seq<Value>, subject: string, body: string)

  /** The errors `send` can raise before the transport. */
  datatype SendError =
    | UnknownTemplate(key: string)  // KeyError from TEMPLATES
    | NoLineBreak                   // ValueError from unpacking the split
    | MissingKey(key: string)       // KeyError from the session's configuration

  /** `Email.send(objname, obj, status)` with `now` given: the message handed to `sendmail`. */
  function Compose(email: Email, objname: string, status: string, obj: Observed, now: string): (r: Result<Message, SendError>)
    ensures r.Success? ==>
      && "from" in email.config && "to" in email.config
      && r.value.sender == email.config["from"]
      && r.value.recipients == NormalizeTo(email.config["to"])
      && '\n' !in r.value.subject
    ensures r.Failure? && r.error.MissingKey? ==> r.error.key !in email.config && r.error.key in {"from", "to"}
    ensures r.Failure? && r.error.MissingKey? && "from" !in email.config ==> r.error.key == "from"
    ensures r == Failure(UnknownTemplate(TemplateKey(objname, status))) <==> TemplateKey(objname, status) !in TemplateNames
  {
    var key := TemplateKey(objname, status);
    match Format(key, obj, now)
    case None => Failure(UnknownTemplate(key))
    case Some(text) =>
      match SplitFirstLine(text)
      case None => Failure(NoLineBreak)
      case Some((subject, body)) =>
        if "from" !in email.config then Failure(MissingKey("from"))
        else if "to" !in email.config then Failure(MissingKey("to"))
        else Success(Message(email.config["from"], NormalizeTo(email.config["to"]), StripSubject(subject), body))
  }

  /** The headlines begin with neither spelling of the prefix. */
  lemma HeadlineHasNoPrefix(kind: Kind, status: Status, obj: Observed)
    requires HasTemplate(kind, status)
    ensures !HasSubjectPrefix(Headline(kind, status, obj))
  {
    var h := Headline(kind, status, obj);
    if kind == Pipeline {
      assert h[..8] == "Pipeline";
    } else {
      assert h[..8] == "Process ";
    }
  }

  /**
   * A hook's send, from a session whose configuration has `from` and `to`,
   * builds one message: from `from`, to every recipient of `to`, with the
   * template's headline as subject and all its remaining lines, opening with
   * the time, as body; subject, line break and body are the rendered text.
   */
  lemma ComposeHook(email: Email, kind: Kind, status: Status, obj: Observed, now: string)
    requires HasTemplate(kind, status)
    requires "from" in email.config && "to" in email.config
    requires HeadlineFieldsSingleLine(kind, obj)
    ensures var r := Compose(email, kind.ObjName(), status.Name(), obj, now);
      && r.Success?
      && r.value.sender == email.config["from"]
      && r.value.recipients == NormalizeTo(email.config["to"])
      && r.value.subject == Headline(kind, status, obj)
      && "\n" + "Time: " + now + "\n" <= r.value.body
      && r.value.body == Lines(FormatLines(TemplateKey(kind.ObjName(), status.Name()), obj, now).value[1..])
      && r.value.subject + "\n" + r.value.body == Format(TemplateKey(kind.ObjName(), status.Name()), obj, now).value
  {
    TemplateSubject(kind, status, obj, now);
    HeadlineHasNoPrefix(kind, status, obj);
    HookTemplateLines(kind, status, obj, now);
    HeadlineSingleLine(kind, status, obj);
    var ls := FormatLines(TemplateKey(kind.ObjName(), status.Name()), obj, now).value;
    UnfoldLines(ls);
    SplitAtFirstBreak(ls[0], Lines(ls[1..]));
  }

  /**
   * `send` succeeds exactly when the pair has a template and the session's
   * configuration has `from` and `to`; the fields of the observed object
   * cannot make it fail.
   */
  lemma ComposeSucceedsIff(email: Email, objname: string, status: string, obj: Observed, now: string)
    ensures Compose(email, objname, status, obj, now).Success? <==>
      TemplateKey(objname, status) in TemplateNames && "from" in email.config && "to" in email.config
  {
    var key := TemplateKey(objname, status);
    if key in TemplateNames {
      EveryTemplateSplits(key, obj, now);
    }
  }
}
