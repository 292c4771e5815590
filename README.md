# pyppl-notify in Dafny

A model of `pyppl-notify`, a plugin for the PyPPL pipeline runner that sends
e-mail when a pipeline, a process or a job starts, ends or fails. The model
covers:

- **configuration** (`config.dfy`): DEFAULT_CONFIG, and `setup`, which fills
  the user's partial `_notify` dictionary from the defaults. It works one
  level deep for the nested `when` record and never overwrites what the user
  gave. `setup` is a loop over the defaults (`MergeDefaults`, `FillEntries`)
  proved against the specification function `Merge`.
- **templates** (`templates.dfy`): the eight templates keyed by
  `objname + "_" + status`. Each is rendered over a record of the observed
  object's fields. The rendered text is split at its first line break into
  subject and body.
- **mail** (`mail.dfy`): the session `Email(config)` and the key reads it
  makes. `Email.send` is modelled up to the transport: `Subject:`/`SUBJECT:`
  stripping, recipient normalisation, and the message handed to `sendmail`.
- **hooks** (`hooks.dfy`): the eight lifecycle hooks as methods of a
  `Notifier` class. The class holds the global `EMAIL` and a log of every
  message handed to `sendmail`. Each hook sends once when its code (`b`, `e`,
  `a`) is in the policy, and otherwise sends nothing. Only `pypplPreRun` opens
  the session.
- **scenario** (`scenario.dfy`): one run driven as the host would drive it.

Four behaviours of the code shape the model:

- There are eight hooks: the pipeline start and end, and the start, end and
  failure of a process and of a job.
- `pypplPreRun` opens the session whenever none exists, whatever the policy
  says; no other hook opens it.
- Every hook, including the process and job hooks, tests its code against
  `when['pipeline']`. The hooks take a `PolicyMode`: `AsWritten` is that
  reading; `PerCategory` reads the entry of the hook's own category (see
  Findings).
- The subject prefix is recognised only as exactly `Subject:` or `SUBJECT:`.

## Model

| member | source | states |
|---|---|---|
| Config.MergeDefaults | pyppl-notify.py:107-112 | the loop of `setup` succeeds exactly when `Merge` does, and then returns its dictionary; when it raises, the key it names holds a non-dictionary where the default holds a dictionary |
| Config.FillEntries | pyppl-notify.py:110-112 | the inner loop keeps every sub-key the user gave and adds each missing default sub-key |
| Config.Setup | pyppl-notify.py:106-113 | stores `Merge` of `config.get('_notify', {})` with DEFAULT_CONFIG under `_notify`; raises exactly when `_notify` or its `when` is not a dictionary, naming `_notify` when `_notify` is not one and `when` otherwise |
| Config.Merge | pyppl-notify.py:107-113 | a merge that succeeds has exactly the user's keys plus the default keys (what each key holds: MergeFillsWithoutOverwriting; merging again: MergeIdempotent) |
| Config.OnlyWhenClashes | pyppl-notify.py:67-80 | of DEFAULT_CONFIG's entries only `when` is a dictionary, so only `when` can make the merge raise |
| Config.MergeFailsIff | pyppl-notify.py:108-112 | the merge raises if and only if the user's `when` is present and is not a dictionary |
| Config.MergeFillsWithoutOverwriting | pyppl-notify.py:107-113 | after the merge the keys are the user's plus the defaults'; `when` is a dictionary holding every default sub-key; every user value is kept, top-level and inside `when`; every missing entry has its default value |
| Config.FillMissingCovered | pyppl-notify.py:111-112 | filling a dictionary that already holds every default key changes nothing |
| Config.MergeIdempotent | pyppl-notify.py:107-113 | merging the merged result again gives the same result |
| Config.FillMissingTwice | pyppl-notify.py:111-112 | filling sub-keys twice from the same defaults is the same as filling once |
| Config.MergeOfNothing | pyppl-notify.py:67-80 | an empty `_notify` merges to DEFAULT_CONFIG itself; port 25, server `localhost`, ssl false, `when.job` empty |
| Config.MergeOfPartialUser | pyppl-notify.py:107-113 | with `to = ["a@x.com"]` and `when.pipeline = "be"`, the recipient is kept and ssl, port and server take their defaults |
| Config.MergeOfPartialUserWhen | pyppl-notify.py:110-112 | that user's `when` becomes `pipeline = "be"`, `proc = "abe"`, `job = ""` |
| Templates.LineBreak | pyppl-notify.py:96 | returns the index of the first line break of the text, or nothing when the text has none |
| Templates.SplitFirstLine | pyppl-notify.py:96 | `split('\n', 1)` unpacked into two: fails exactly when the text has no line break; otherwise the subject has no line break and subject + line break + body is the text |
| Templates.SplitAtFirstBreak | pyppl-notify.py:96 | for a first part with no line break, splitting that part, a line break and a rest gives back exactly the part and the rest |
| Templates.KeySplitsUniquely | pyppl-notify.py:96 | a key `TemplateKey(objname, status)` that equals `a + "_" + b`, where neither part holds `_`, comes only from the object name `a` and the status `b` |
| Templates.FormatLines | pyppl-notify.py:9-65 | rendering finds a template exactly when the key is one of the eight TEMPLATES keys (which pairs those are: TemplateLookup; what the lines hold: HookTemplateLines) |
| Templates.Format | pyppl-notify.py:96 | `TEMPLATES[key].format(...)` gives a text exactly when the key is a TEMPLATES key, and raises KeyError otherwise |
| Templates.TemplateLookup | pyppl-notify.py:9-65 | the key `TemplateKey(objname, status)`, that is `objname + "_" + status`, finds a template if and only if the pair is `ppl`/`begin`, `ppl`/`end`, or `proc` or `job` with `begin`, `end` or `abort` |
| Templates.HookTemplates | pyppl-notify.py:9-65 | every kind/status pair a hook uses has a template; pipeline abort has none |
| Templates.HookTemplateLines | pyppl-notify.py:10-64 | every hook's template text begins with its headline line, then an empty line, then `Time: ` and the timestamp |
| Templates.FirstLineOfLines | pyppl-notify.py:96 | splitting a text of lines whose second line is empty gives the first line as subject, and a body that opens with the third line |
| Templates.UnfoldLines | pyppl-notify.py:10-14 | a template text is its first line, a line break, then the rest of its lines |
| Templates.TemplateSubject | pyppl-notify.py:10-64 | for every template, if the fields its headline shows hold no line break (none for a pipeline, the id for a process, the process id and the index for a job), the subject is the headline (for example `Pipeline started`, `Process <id> failed`) and the body opens with an empty line and `Time: <now>` |
| Templates.EveryTemplateSplits | pyppl-notify.py:96 | every template renders and splits into subject and body, whatever the fields hold |
| Mail.OpenSession | pyppl-notify.py:84-92 | `Email(config)` succeeds exactly when `ssl`, `server`, `port`, `username` are present (and `password` if the user name is not empty); on success it keeps the configuration; on failure it names the first missing key in the order the constructor reads them: `ssl`, `server`, `port`, `username`, `password` |
| Mail.MergedConfigOpens | pyppl-notify.py:84-92 | a configuration produced by `setup` always opens a session |
| Mail.LStrip | pyppl-notify.py:98 | `lstrip()` returns a suffix of its input; everything it removed is whitespace, and what is left does not start with whitespace |
| Mail.StripSubject | pyppl-notify.py:98 | after an exact `Subject:` or `SUBJECT:` prefix the subject is the rest without its leading whitespace; any other first line is kept unchanged |
| Mail.StripSubjectExamples | pyppl-notify.py:98 | `Subject: Foo` and `SUBJECT:<tab> Foo` both give `Foo` |
| Mail.KeepSubjectExamples | pyppl-notify.py:98 | `subject: Foo` and `Foo` are kept as they are |
| Mail.NormalizeTo | pyppl-notify.py:100-102 | a `to` that is not a list becomes `[to]`; a list is passed through unchanged |
| Mail.NormalizeToIdempotent | pyppl-notify.py:100-102 | normalising an already normalised recipient list changes nothing |
| Mail.HeadlineHasNoPrefix | pyppl-notify.py:98 | no template headline starts with `Subject:` or `SUBJECT:`, so the headline is the mail subject unchanged |
| Mail.Compose | pyppl-notify.py:94-103 | a message that is built comes from `from`, goes to the normalised `to` and has a one-line subject; a KeyError from TEMPLATES is raised exactly when the key is not a template key; a KeyError from the configuration names a missing key, and names `from` whenever `from` is missing, since it is read before `to` |
| Mail.ComposeHook | pyppl-notify.py:94-103 | for a hook whose headline fields hold no line break, send builds one message: the configured sender, every recipient of `to` in one call, the headline as subject, and as body every rendered line after the headline, opening with the blank line and the time; subject, line break and body give back the rendered template |
| Mail.ComposeSucceedsIff | pyppl-notify.py:94-103 | `send` succeeds if and only if the pair has a template and the session's configuration has `from` and `to` |
| Hooks.PolicyOf | pyppl-notify.py:122 | reading `when[key]` succeeds exactly when `when` is a dictionary holding `key`, and gives that entry |
| Hooks.PolicyHas | pyppl-notify.py:122 | `code in policy`: a substring test on a string, membership of the one-character string in a list, a key test on a dictionary; any other value raises TypeError |
| Hooks.EffectCases | pyppl-notify.py:122-124 | a hook sends exactly when its policy reads, names its code, a session exists and the message builds, and then sends that message; it is silent exactly when the policy reads and omits the code; it raises the missing-session error exactly when the code is named and EMAIL is None |
| Hooks.Notifier.constructor | pyppl-notify.py:8 | at load EMAIL is None and nothing has been sent |
| Hooks.Notifier.Notify | pyppl-notify.py:129-131 | the filter and the send: the session is unchanged; the log gains the message exactly when `Effect` sends one; the hook raises what `Effect` raises |
| Hooks.Notifier.PypplPreRun | pyppl-notify.py:115-124 | opens the session only when none exists, whatever the policy says, and reuses an existing one; if opening fails nothing is sent and the error is raised; otherwise it notifies the pipeline start |
| Hooks.Notifier.PypplPostRun | pyppl-notify.py:126-131 | code `e` against the policy; the session is unchanged; at most one message is appended |
| Hooks.Notifier.ProcPreRun | pyppl-notify.py:133-138 | code `b` for a process, reading `when['pipeline']` as written; the session is unchanged |
| Hooks.Notifier.ProcPostRun | pyppl-notify.py:140-145 | code `e` for a process; the session is unchanged |
| Hooks.Notifier.ProcFail | pyppl-notify.py:147-152 | code `a` for a process; the session is unchanged |
| Hooks.Notifier.JobPreRun | pyppl-notify.py:154-159 | code `b` for a job, with the job's process configuration; the session is unchanged |
| Hooks.Notifier.JobPostRun | pyppl-notify.py:161-166 | code `e` for a job; the session is unchanged |
| Hooks.Notifier.JobFail | pyppl-notify.py:168-173 | code `a` for a job; the session is unchanged |
| Hooks.SendsIffCodeInPolicy | pyppl-notify.py:122-173 | with a string policy and a session that can send, a hook sends exactly one message (the one `send` builds) when its code is in the policy, and none otherwise; it raises nothing |
| Hooks.NoSendWithoutSession | pyppl-notify.py:129-173 | before `pypplPreRun` no hook sends; a hook whose code qualifies raises, because EMAIL is None |
| Hooks.MergedPolicy | pyppl-notify.py:107-113 | after `setup`, every `when` entry a hook reads exists: the user's if given, the default otherwise |
| Hooks.AsWrittenJobHookIgnoresJobPolicy | pyppl-notify.py:157 | as written, with the default configuration, whose `when.job` is empty, a job start still sends one message |
| Hooks.PerCategoryHooksFollowTheirPolicy | pyppl-notify.py:70-74 | reading each category's own entry, with the defaults no job hook sends and every process hook sends once |
| Scenario.Configure | pyppl-notify.py:105-113 | `setup` on a host configuration whose `_notify` gives `to = ["a@x.com"]` and `when.pipeline = "be"` leaves a configuration that opens a session, keeps the recipient, has the default sender and reads policy `be` |
| Scenario.StartPipeline | pyppl-notify.py:115-124 | the first `pypplPreRun` opens the session on the merged configuration and, under policy `be`, sends `Pipeline started` whose body is the blank line, `Time: <now>` and `Start processes: <starts>` |
| Scenario.FailThenEndTwice | pyppl-notify.py:126-152 | under policy `be` a process failure adds nothing to the log, and two pipeline ends add two identical `Pipeline finished` mails |
| Scenario.Run | pyppl-notify.py:105-131 | one run with `to = ["a@x.com"]` and `when.pipeline = "be"`: the start sends `Pipeline started` from the default sender to that recipient, with the time and the start processes as its body; a process failure sends nothing; the end reported twice sends twice (no deduplication) |

## Left out

- The SMTP transport (`SMTP`, `SMTP_SSL`, `login`, `sendmail`) is not modelled. A send appends the message to the `sent` log. Connection, login and delivery failures are not modelled either.
- `MIMEText` and `msg.as_string()` are left out. The message is kept as its sender, recipients, subject and body.
- `datetime.now().strftime(...)` is left out. The timestamp is the `now` parameter of each hook.
- `logger.debug` and the `@hookimpl` registration are left out.
- `str.format` reading attributes of the host's objects is replaced by the `Observed` record. Each field holds that attribute's text; a missing attribute cannot occur.
- The `int(config['port'])` conversion and the ValueError it can raise are left out.
- Dictionaries are values. Two consequences: when the user omits `when`, the merged configuration does not alias DEFAULT_CONFIG's `when`; and when `setup` raises, the keys it already filled in the user's `_notify` are not kept.
- `ppl.config._notify` and `job.proc.config._notify` are read by attribute in the source. Here they are the `notify` dictionary handed to each hook.
- Configuration values other than strings, booleans, integers, lists and dictionaries (`None`, floats, tuples) are not modelled.
- MergeDefaults: Python visits the dictionaries in insertion order, while the model visits keys in any order. So when several keys clash, the model does not fix which one is reported. With DEFAULT_CONFIG only `when` can clash.

## Findings

| source | as written | input that shows it | evidently intended | confidence | as-written member | corrected member |
|---|---|---|---|---|---|---|
| pyppl-notify.py:136-173 | the process and job hooks test their code against `when['pipeline']` | the default configuration (`when.job` empty) and a job start: one mail is sent | each category tests its own entry, `when['proc']` or `when['job']` | high; not executed | Hooks.AsWrittenJobHookIgnoresJobPolicy | Hooks.PerCategoryHooksFollowTheirPolicy |
