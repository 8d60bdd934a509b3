# Verified model of mrDNS

mrDNS keeps DNS zones in SQLite, lets people edit them through a web UI, and deploys them as
BIND zone files to several name servers over SSH. This project models the parts where a mistake
would publish a wrong zone, lose a zone, or make secondaries ignore an update:

- **Serial** — the three SOA serial policies in real 32-bit arithmetic, against the comparison of
  section 3.2 of RFC 1982.
- **Text, ZoneText, ZoneLaws, Zone** — printing, parsing, normalising and editing zone files, for
  exactly the dialect that `Build` and `Render` emit (section 5.1 of RFC 1035). `Zone.dfy` holds
  the mutable zone object and the loops; `ZoneText.dfy` the functions they are proved against.
- **ZoneOutcomes** — what normalising, building, reading and printing give, field by field: where
  relative owners end up, which TTLs are filled in, what a line may leave out, how a file looks.
- **Settings, Acceptance, BrokenNames** — what the check of the create and settings handlers
  accepts, whatever the serial; exactly when accepted settings keep the zone's serial; and inputs
  for which they do not.
- **UnknownTypes** — records whose type the library has no name for: accepted, stored without a
  type, and exactly when a zone still builds.
- **OneRecord** — which inputs the one-record contract of the editors accepts.
- **Remote** — remote paths and shell quoting, against a model of POSIX word reading (sections
  2.2.1, 2.2.2 and 2.3 of the POSIX.1-2017 Shell Command Language).
- **Pipeline, PipelineSafety, PipelineTheorems, PipelineProgress** — the two-phase deploy as a
  step system: one program counter per target goroutine, one for the coordinator, a free
  scheduler between the barriers, and a script that says what each remote operation reports and
  what it did. An operation that reports an error may have taken effect. **PipelineCode** is the
  array-and-loop form, proved to end where every complete schedule ends.
- **Store, StoreLaws, StoreTheorems** — the three tables with one atomic step per SQL statement,
  and what statements keep over any interleaving. **StoreCode** is the store object.
- **System, SystemLaws, Agreement, SystemTheorems, SystemRestores, SystemRuns** — database,
  servers' files, clock and the deploy in flight composed into one transition system, in which
  every query, statement and pipeline run of `handleDeploy` is its own step, other requests may
  slip between any two, and the process may die anywhere. **Agreement** is about every run of it,
  with rollbacks, deletions and new creations of the zone, servers that hold anything and a clock
  that jumps: what databases, servers and snapshots then agree on. **SystemTheorems** is about the
  runs in which serials are safe. `SystemRuns` states both for a zone from its creation on, with
  no invariant assumed. **Handlers** has the request handlers over the objects, and shows that a
  deploy request is such a run; **Promotion** says exactly when it publishes; **Rollbacks** what
  a deploy after a rollback does; **GoingBack** how, outside the safe runs, a live serial goes
  back, on a concrete site that is in order.
- **RateLimiter, Diff** — the sliding-log throttle and the line-set diff.

`Seqs` holds sequence laws shared by the store and the diff.

What the code does and its comments do not say, each with an input and the exact condition:

- `internal/zone/serial.go:14-16` promises an always strictly larger serial. At 2^32-1 the next
  one is 0, and a date or unix-time jump of 2^31 or more is not an advance under RFC 1982.
  `Serial.AdvancesExactlyWhen` gives the exact condition and `Serial.DateJumpCanGoBack` an input.
- The check of the create and settings handlers (`internal/web/zones.go:101`, `170`) accepts
  settings whose names hide the zone's serial: a line break in the primary NS or the address, a
  comment sign on one line, or a zone name that spells out an SOA on lines of its own
  (`BrokenNames.LineBreakFixesSerial`, `CommentFixesSerial`, `ZoneNameFixesSerial`). Accepted
  settings carry every serial if and only if the zone name's own lines hold no SOA and neither
  other name holds a line break or a `;` (`Settings.SerialIsCarried`); all others fix it at one
  number that the names spell out (`GoingBack.FixesExactly`), every deploy starts from that
  (`GoingBack.IssuedFromNames`), and the live serial can go back (`GoingBack.SettingsTakeItBack`). With clean names under a zone name on one
  line the run theorems hold (`SystemRuns.LiveSerialsNeverDecrease`). A line break in a zone name need
  not do harm (`BrokenNames.HarmlessNameCarries`), but under one a record can be accepted that is
  the zone name's own (`BrokenNames.BrokenNameStoresBroken`).
- `remoteFinalPath` (`internal/deploy/ssh.go:172-174`) keeps the last path element only. Two zones
  have one live file in a directory if and only if their names agree after the last slash
  (`Remote.SharedNameExactly`, `Remote.LivePathsExactly`), as `x/example.com` and `example.com`
  do; creation and import refuse neither. A deploy of one then replaces the other's live file, and
  its live serial can go back (`GoingBack.SharingTakesItBack`). Deploys of all other zones leave
  it alone (`SystemLaws.ForeignFiles`).
- The record handlers look a record's type up in a table (`internal/zone/build.go:103`,
  `internal/zone/zone.go:73`) that has no entry for a type such as `TYPE65280`. The record is
  accepted and stored with an empty type (`UnknownTypes.UnknownTypeIsAccepted`), and the whole
  zone stops building (`UnknownTypes.UnknownTypeStopsBuild`). An accepted record leaves the zone
  buildable if and only if it was stored with a type (`UnknownTypes.AcceptedBuilds`).
- Restoring a snapshot does not always reproduce it: `dnsMbox` replaces only the first `@`, so an
  address holding two keeps one (`StoreTheorems.TwoAtsDoNotRestore`), and each restore and rebuild
  converts one more (`StoreTheorems.RestoreConvertsOneMore`). The round trip holds if and only if
  the address in the settings holds at most one `@` (`StoreTheorems.DeployedRestores`).
- A publish that dies after its serial update need not read dirty. After a rollback the deploy can
  issue the newest snapshot's own serial and text, and the zone then reads clean without the
  publish (`Rollbacks.HalfDoneReadsClean`); if nobody edited the zone meanwhile, it reads clean if
  and only if the newest snapshot is the text that was pushed, which every target then holds
  (`Agreement.HalfDoneExactly`).
- `internal/zone/edit.go:70-71` says exactly one record is accepted. An error after the first
  record is not looked at, so one good record followed by a malformed line is accepted
  (`OneRecord.RubbishIsAccepted`). That happens if and only if the first malformed line follows
  a single record (`OneRecord.AcceptedWithRubbish`), and never on one line
  (`OneRecord.OneLineExactly`).
- `internal/web/ratelimit.go:8` calls the limiter fixed-window. It is a sliding log.

## Model

| member | source | states |
|---|---|---|
| Serial.AdvancesExactlyWhen | internal/zone/serial.go:28-45 | For every current value and clock, including the wrap at 2^32-1, the next serial is newer under RFC 1982 if and only if the policy base is less than 2^31 ahead, and older if and only if it is more than 2^31 ahead. |
| Serial.AlwaysAdvancesThrough2147 | internal/zone/serial.go:28-50 | Through the year 2147, or before unix time 2^31, every deploy advances the serial whatever it was. |
| Serial.DateJumpCanGoBack | internal/zone/serial.go:14-16 | A concrete date and serial for which the documented "strictly larger" promise fails for secondaries. |
| Serial.DateSerialInRange | internal/zone/serial.go:47-50 | Up to the year 4294 the wrapping 32-bit sum is exactly the digits YYYYMMDD followed by 00. |
| Serial.NextSerialIsNextNat | internal/zone/serial.go:28-45 | All three policies are one rule on unbounded numbers, except that the largest serial is followed by 0. |
| Serial.PoliciesByName | internal/zone/serial.go:8-50 | For every current serial and clock: "increment" issues the successor modulo 2^32; "unixtime" the seconds modulo 2^32 if they are above the current serial, else the successor; every other string the date's digits modulo 2^32 if they are above it, else the successor. |
| Serial.BaseMonotone | internal/zone/serial.go:28-50 | The value a policy aims for never goes back while the clock does not. |
| Serial.NextNatMonotone | internal/zone/serial.go:28-45 | The next serial is monotone in both the base and the current serial, and above both. |
| Serial.ClosedFormExists | internal/zone/serial.go:28-50 | The maximum of current + n and of every deploy's base plus the deploys after it exists for every sequence of deploy times. |
| Serial.SerialClosedForm | internal/zone/serial.go:28-50 | Folding the policy over any times in any order never wraps if and only if that maximum fits 32 bits, and then ends exactly on it. |
| Serial.SerialsStrictlyIncrease | internal/zone/serial.go:28-50 | Without a wrap each deploy's serial is above all earlier ones and not behind the policy base of its own deploy. |
| Serial.DateFormIsKept | internal/zone/serial.go:38-50 | With non-decreasing dates, a start below the first day and at most 100 deploys a day, every serial issued is its own day times 100 plus the number of earlier deploys that day. |
| ZoneLaws.RenderParses | internal/zone/zone.go:31-60 | Parsing what Render prints gives the same zone, for every well-formed zone. |
| ZoneLaws.RenderInjective | internal/zone/zone.go:50-60 | Two zones of one origin that print alike are equal, so comparing texts compares zones. |
| ZoneLaws.ParseRenderParse | internal/zone/zone.go:31-60 | Whatever text parses under a zone name that is one, its zone is well formed and survives rendering and parsing again. |
| ZoneLaws.RenderScans | internal/zone/zone.go:31-60 | What Render prints reads back the same under whatever zone's name it is read. |
| ZoneLaws.BuildSoaLineExactly | internal/zone/build.go:32-36 | With names on one line, the printed SOA line reads back if and only if each name text holds exactly one name besides parentheses, and then carries every number of the settings. |
| ZoneLaws.BuildParses | internal/zone/build.go:26-49 | Building from readable settings and printable records succeeds with one SOA followed by exactly those records in order, owners defaulted and resolved, zero TTLs replaced by the zone's. |
| ZoneOutcomes.BuildsAsAsked | internal/zone/build.go:26-49 | Field by field, what a built zone holds: each setting in its place of the SOA, 3600 for a zero TTL; each row with its type and data, its own TTL or the zone's, and its owner: the zone for an empty one or "@", itself if absolute, otherwise with the zone's name behind it, just a dot at the root. |
| ZoneOutcomes.SoaNamesAsAsked | internal/zone/build.go:32-36 | The SOA's names are the primary NS and the address with its first '@' as a dot, each completed with a dot if it lacks one. |
| ZoneOutcomes.BuiltText | internal/zone/build.go:26-48 | A concrete zone is built from exactly this text. |
| ZoneOutcomes.RenderedText | internal/zone/zone.go:50-60 | A concrete zone is printed as exactly this text. |
| ZoneOutcomes.ShortLinesRead | internal/zone/zone.go:31-47 | A record line may leave out the TTL, for which the default in force stands, and the class; without a default a line without TTL is refused. |
| ZoneOutcomes.DataRecordsExactly | internal/zone/build.go:70-79 | The editable rows are all records but the SOA, with owner, TTL, type and data, in order. |
| ZoneLaws.RebuildIsFixpoint | internal/zone/build.go:26-79 | Rebuilding a built zone from its own SOA fields and data records gives it back if and only if its mailbox holds no '@'. |
| ZoneLaws.BumpIsRebuild | internal/zone/build.go:26-49 | Bumping the serial of a built zone equals building with that serial. |
| ZoneLaws.MboxFreeOfAt | internal/zone/build.go:110-115 | The DNS mailbox form is free of '@' if and only if the address held at most one. |
| ZoneLaws.MboxTakesOneAt | internal/zone/build.go:110-115 | Each conversion takes exactly one '@' away while there is one. |
| ZoneLaws.MboxFixpoint | internal/zone/build.go:110-115 | An absolute mailbox is its own DNS form if and only if it holds no '@'. |
| ZoneLaws.NormalizedIsCanonical | internal/zone/build.go:83-106 | Whatever strings come in, under a zone name on one line, a record that normalises has an absolute owner, is not an SOA and prints as exactly one line, unless the library has no name for its type; then it is stored without a type. |
| ZoneOutcomes.NormalizedOwner | internal/zone/build.go:83-106 | Whatever type and data come in, an accepted record's owner is the zone's name for an empty one or "@", itself if absolute, otherwise itself with the zone's name behind it, just a dot at the root. |
| ZoneOutcomes.NormalizesTo | internal/zone/build.go:83-106 | A readable record is accepted and stored with that owner, 3600 for a zero TTL, its type in capitals and its data without outer white space. |
| ZoneLaws.NormalizeIsIdempotent | internal/zone/build.go:83-106 | A canonical record with a TTL of its own is its own normal form. |
| ZoneLaws.NewRRWellFormed | internal/zone/edit.go:72-89 | Whatever line is given, under a zone name on one line, an accepted record is well formed. |
| UnknownTypes.BuildsExactly | internal/zone/build.go:26-49 | With safe settings, rows that the record handlers store build if and only if each has a type. |
| UnknownTypes.AcceptedBuilds | internal/zone/build.go:83-106 | Added to a zone that builds, an accepted record leaves it buildable if and only if its stored type is not empty. |
| UnknownTypes.UnknownTypeIsAccepted | internal/zone/build.go:103 | A concrete record of an unnamed type is accepted and stored with an empty type. |
| UnknownTypes.UnknownTypeStopsBuild | internal/zone/build.go:37-49 | With that record, any zone of that name that built, whatever its records, builds no more. |
| Settings.SafeExactly | internal/web/zones.go:170-173 | Settings build on their own, with the zone name on one line and no line break or comment sign in the others, if and only if the zone name is one and each name text holds one name; so what is proved of readable settings holds of what the handlers' check accepts of such names. |
| Settings.SafeIgnoresNumbers | internal/store/store.go:199-205 | Whether accepted settings are safe depends on the names only, not on defaults or the serial. |
| Settings.BrokenLineDecides | internal/zone/build.go:32-36 | With a line break or a comment sign in a name, whatever builds, with any records, has the SOA its first line spells out; BrokenIgnoresSerial adds that this line does not depend on the serial. |
| Settings.BrokenIgnoresSerial | internal/zone/build.go:32-36 | How that first line reads does not depend on the settings' serial. |
| Settings.NameSoaDecides | internal/zone/build.go:29-36 | With an SOA on the zone name's own lines, whatever builds, with any records, has that SOA. |
| Settings.SerialIsCarried | internal/web/zones.go:157-180 | Of the settings the handlers accept, those that carry every serial the zone may get are exactly those whose zone name's own lines hold no SOA and whose other names hold no line break and no comment sign. |
| Settings.SerialIsCarriedOnOneLine | internal/web/zones.go:157-180 | Under a zone name on one line the other two names alone decide. |
| Acceptance.BuildIgnoresSerial | internal/web/zones.go:101 | For every zone name, settings and records: whether they build does not depend on the serial, even where a broken name makes the numbers part of another line. |
| BrokenNames.LineBreakFixesSerial | internal/web/zones.go:157-173 | A concrete primary NS with a line break is accepted for every zone name on one line, and fixes the built serial at 5. |
| BrokenNames.CommentFixesSerial | internal/web/zones.go:157-173 | So does a concrete one on one line with a comment sign. |
| BrokenNames.ZoneNameFixesSerial | internal/web/zones.go:90-103 | A concrete zone name with an SOA of its own is accepted with any good names and fixes the built serial at 5. |
| BrokenNames.HarmlessNameCarries | internal/web/zones.go:90-103 | A concrete zone name with a line break is accepted with any good names and every serial is carried. |
| BrokenNames.BrokenNameStoresBroken | internal/zone/build.go:83-106 | Under a concrete zone name with a line break, SOA data that does not parse is accepted as the zone name's own record, with the line break in its owner. |
| GoingBack.IssuedFromNames | internal/web/zones.go:350-360 | Whenever the names of a zone do not let the serial through, the number they spell out is what every deploy starts from, whatever the zone's serial, records and targets and the clock are. |
| GoingBack.FixesExactly | internal/web/zones.go:157-180 | Accepted settings fix the serial of whatever is built at a number if and only if their names do not let the serial through and spell out that number. |
| GoingBack.SerialGoesBack | internal/web/zones.go:157-180 | For any settings whose names do not let the serial through, and any records with which the zone builds, that settings change and one deploy on which nothing goes wrong put the serial after the one the names spell out on every target, whatever was stored and live before. |
| GoingBack.SiteIsInOrder | internal/web/zones.go:90-115 | A concrete site with two zones keeps the system's invariant, with serial 100 stored and live. |
| GoingBack.SettingsTakeItBack | internal/web/zones.go:157-180 | On it, a settings change with that line break or that comment sign, and one deploy, put serial 6 in the live file. |
| GoingBack.SharedExactly | internal/deploy/ssh.go:172-174 | The files that a deploy of another zone replaces are live files of this one if and only if the two live files have one name. |
| GoingBack.SharedFileIsReplaced | internal/web/zones.go:344-373 | If they have, any deploy of the other zone on which nothing goes wrong puts its text and its serial in this zone's live file on every target. |
| GoingBack.SharingTakesItBack | internal/web/zones.go:344-373 | On the concrete site, a deploy of x/example.com takes the live serial of example.com from 100 to 7. |
| OneRecord.AcceptedAnywhere | internal/zone/edit.go:72-89 | For every zone name and input: accepted if and only if the text given to the parser holds exactly one record before its first malformed line, if any; the accepted record is that one. |
| OneRecord.AcceptedExactly | internal/zone/edit.go:72-89 | Under a zone name on one line: accepted if and only if the zone name is one and exactly one record of the input precedes its first malformed line, if any. |
| OneRecord.AcceptedWithRubbish | internal/zone/edit.go:70-89 | Every single record is accepted, and something else is if and only if the first malformed line follows a single record. |
| OneRecord.OneLineExactly | internal/zone/edit.go:70-89 | On one line, what is accepted is exactly what reads as one record, and is that record. |
| OneRecord.RubbishIsAccepted | internal/zone/edit.go:78-88 | A concrete input that is accepted and is not one record. |
| ZoneModel.Zone.FindSoa | internal/zone/zone.go:86-93 | Finds the first SOA record, or reports that there is none. |
| ZoneModel.Zone.ReadSerial | internal/zone/zone.go:96-102 | The first SOA's serial, or the error when there is no SOA. |
| ZoneModel.Zone.ReadSoaData | internal/zone/build.go:52-67 | The first SOA's fields as settings, or the error when there is no SOA. |
| ZoneModel.Zone.DataRecords | internal/zone/build.go:70-79 | All records but SOAs, in order. |
| ZoneModel.Zone.Render | internal/zone/zone.go:50-60 | Prints the text that RenderParses speaks about. |
| ZoneModel.Zone.BumpSerial | internal/zone/serial.go:17-26 | Overwrites only the first SOA's serial, and returns both: for "increment" by the successor, for "unixtime" by the seconds and for any other policy by the date if those are above it, else by the successor; without an SOA nothing changes. |
| ZoneModel.ParseContent | internal/zone/zone.go:31-47 | The line loop reads exactly what the recursive reading of the text reads, with the same errors. |
| ZoneModel.PrintRows | internal/zone/build.go:37-47 | The record loop prints the lines that BuildParses speaks about. |
| ZoneModel.Build | internal/zone/build.go:26-49 | Prints, then parses; on printable input the result is the requested zone itself. |
| ZoneModel.Zone.Add | internal/zone/edit.go:14-24 | Appends the one parsed record, or refuses a bad or SOA line and changes nothing. |
| ZoneOutcomes.AddedLine | internal/zone/edit.go:10-24 | A line with neither TTL nor class is accepted with a TTL of 3600 and its owner completed with the zone's name. |
| ZoneModel.Zone.Remove | internal/zone/edit.go:28-39 | Performs the removal that RemoveTakesFirst describes and reports whether any record other than the SOA has that owner, type and data. |
| ZoneModel.Zone.Replace | internal/zone/edit.go:43-61 | Performs the replacement that ReplaceChangesOne describes, reports whether any record other than the SOA has that owner, type and data, and errs exactly on a refused line. |
| ZoneModel.Zone.ReplaceFirst | internal/zone/edit.go:51-60 | The loop puts the record in place of the first match only. |
| ZoneModel.MatchesExactly | internal/zone/edit.go:63-68 | A record matches if and only if it is no SOA and has that owner, that type name and that data. |
| ZoneModel.RemoveTakesFirst | internal/zone/edit.go:26-39 | Removal takes out exactly the first record other than an SOA with that owner, type and data, and keeps the rest in order; without one nothing changes. |
| ZoneModel.ReplaceChangesOne | internal/zone/edit.go:41-61 | Replacement changes exactly one position, that of the first record other than an SOA with that owner, type and data; a refused line or no such record changes nothing. |
| ZoneModel.EditKeepsSoas | internal/zone/edit.go:14-68 | One edit keeps the subsequence of SOA records identical. |
| ZoneModel.SerialComesFromSoas | internal/zone/zone.go:86-102 | Whether there is an SOA, and which one is found, depends on the SOA subsequence only. |
| ZoneModel.EditsKeepSoa | internal/zone/edit.go:14-68 | Any sequence of edits keeps the SOA records, hence SOA data and serial, and keeps every record well formed. |
| Remote.QuoteRoundTrip | internal/deploy/ssh.go:162-164 | For every string, reading the quoted form by the shell's rules gives that one word. |
| Remote.QuotedArgument | internal/deploy/ssh.go:162-164 | Appending a quoted argument to any readable command adds exactly that argument. |
| Remote.CommandsParse | internal/deploy/pipeline.go:143-145 | The mv and rm command lines parse to exactly the intended argument lists for all paths. |
| Remote.CheckCommandParses | internal/deploy/pipeline.go:113-114 | The check command line parses to the configured words followed by exactly zone and path. |
| Remote.TempIsNeverLive | internal/deploy/ssh.go:172-178 | No staged temporary path is the live path of any zone in any directory. |
| Remote.TempsDiffer | internal/deploy/ssh.go:166-178 | Different suffixes give different temporary paths, whatever the directories. |
| Remote.FilesInDirectory | internal/deploy/ssh.go:172-178 | Both files of a deploy are the configured directory, a slash and one element: the last element of the zone file's name, and that with a prefix, the suffix and an ending of its own. |
| Remote.SharedNameExactly | internal/deploy/ssh.go:172-174 | The live files of two zones have one name if and only if the zone names agree after their last slash. |
| Remote.LivePathsExactly | internal/deploy/ssh.go:172-174 | In one directory two zones have one live path if and only if it has one name; with different names the paths differ in any directories. |
| Remote.SlashSharesLive | internal/deploy/ssh.go:172-174 | A zone and any zone named with something and a slash before its name share their live file. |
| PipelineSafety.ReachableInv | internal/deploy/pipeline.go:61-195 | After every schedule the targets' slots, the status and the remote files are as the program counters say. |
| PipelineTheorems.ProgressFlags | internal/deploy/result.go:32-42 | In every reachable state Verified implies Reloaded implies Moved implies Checked implies Staged, for every target. |
| PipelineTheorems.CommitBarrier | internal/deploy/pipeline.go:85-162 | In every reachable state a move was attempted, or any file but a temporary differs, only if all targets are Checked. |
| PipelineTheorems.LiveFiles | internal/deploy/pipeline.go:134-162 | In every reachable state a live file is the old one or the new content, certainly the new one once Moved, and no file other than live files and temporaries changes. |
| PipelineTheorems.StatusMeaning | internal/deploy/result.go:8-18 | Failed if and only if some check did not pass, and then no live file changed; Success if and only if all targets are Moved and Reloaded; Partial if and only if all are Checked and some is not both. |
| PipelineTheorems.AllMovedMeansLive | internal/deploy/result.go:44-56 | When AllMoved holds, every target's live file is the deployed content. |
| PipelineTheorems.ConnectionsClosedOnce | internal/deploy/pipeline.go:197-215 | On every return path each opened connection was closed exactly once, and no other was. |
| PipelineTheorems.TempsAfterReturn | internal/deploy/pipeline.go:125-147 | After an abort no temporary whose removal succeeded remains; after a commit exactly those whose move did not take effect remain. |
| PipelineTheorems.TempsAreThoseNotMoved | internal/deploy/pipeline.go:134-147 | If errors mean no effect, the temporaries left after a commit are exactly those of the targets not Moved. |
| PipelineTheorems.Confluence | internal/deploy/pipeline.go:85-162 | All complete interleavings end in the same result, connections, temporary paths and remote files. |
| PipelineProgress.CanReturn | internal/deploy/pipeline.go:61-195 | From every state a deploy can reach, some continuation returns. |
| PipelineProgress.FairReturns | internal/deploy/pipeline.go:61-195 | Whatever has happened so far, every schedule that goes on to give each goroutine more than 28 turns a target and 6 more returns: no barrier is waited at for ever. |
| PipelineProgress.FlagsExactly | internal/deploy/pipeline.go:85-184 | Every reported flag of every target, from what the operations do: all targets are named; a target counts as staged if and only if it is configured, reached and uploaded to, and as checked if it passes its check too; nothing is moved anywhere unless all are checked; if they are, each goes as far as its own operations let it. |
| PipelineProgress.MessagesExactly | internal/deploy/pipeline.go:85-160 | What each target reports in words: the first operation that failed and its error, and the trimmed output of the last check, move or reload it got to. |
| PipelineProgress.FilesWhereConfigured | internal/deploy/ssh.go:172-178 | A configured target's files lie on its host, in its directory. |
| PipelineProgress.StatusExactly | internal/deploy/pipeline.go:125-193 | Failed if and only if some target does not get through phase 1; Success if and only if all do and every move and reload reports success. |
| PipelineCode.Deployment.StageOne | internal/deploy/pipeline.go:88-121 | The phase 1 body writes slot i only and takes steps of the step system to its barrier. |
| PipelineCode.Deployment.UploadAndCheck | internal/deploy/pipeline.go:107-120 | Uploads and checks as the step system does, for slot i only. |
| PipelineCode.Deployment.CommitOne | internal/deploy/pipeline.go:137-160 | The phase 2 body moves and reloads as the step system does, for slot i only. |
| PipelineCode.Deployment.VerifyOne | internal/deploy/pipeline.go:170-182 | The phase 3 body sets Verified only on the expected serial, for slot i only. |
| PipelineCode.Deployment.StageAll | internal/deploy/pipeline.go:85-123 | Phase 1 ends at the barrier with every target parked. |
| PipelineCode.Deployment.CommitAll | internal/deploy/pipeline.go:134-162 | Phase 2 ends with every target ready to be verified if it reloaded, and not otherwise. |
| PipelineCode.Deployment.VerifyAll | internal/deploy/pipeline.go:164-184 | Phase 3 ends with the coordinator about to close connections. |
| PipelineCode.Deployment.Cleanup | internal/deploy/pipeline.go:197-207 | The removal loop is the coordinator's sweep of all targets. |
| PipelineCode.Deployment.CloseAll | internal/deploy/pipeline.go:209-215 | The close loop is the coordinator's pass over all connections. |
| PipelineCode.Deployment.SetStatus | internal/deploy/pipeline.go:188-194 | The status loop computes the status that StatusMeaning speaks about. |
| PipelineCode.Deployment.Deploy | internal/deploy/pipeline.go:61-195 | Errs exactly for no targets or a local rejection, with nothing done; otherwise its arrays, status and files are those of every complete schedule. |
| PipelineCode.Deployment.AllMoved | internal/deploy/result.go:46-56 | True exactly when there are targets and all are Moved. |
| Store.TargetsRoundTrip | internal/store/store.go:451-461 | Splitting the joined targets gives them back, for every list of non-empty, trimmed, comma-free names. |
| Store.TargetsColumn | internal/store/store.go:451 | The column holds the names with commas between them. |
| Store.TargetsSplit | internal/store/store.go:453-461 | Reading it gives what stands between commas, without outer white space, and nothing for a blank. |
| StoreLaws.ExecKeepsIntegrity | internal/store/store.go:91-124 | Every statement keeps ids increasing and every record and snapshot in an existing zone. |
| StoreLaws.RunsKeepIntegrity | internal/store/store.go:91-124 | So does any run of statements on any zones. |
| StoreLaws.Isolation | internal/store/store.go:198-305 | A statement on one zone leaves every other zone's settings, records and snapshots unchanged. |
| StoreTheorems.PruneKeepsNewest | internal/store/store.go:354-357 | Pruning by id leaves exactly the zone's newest snapshots, at most the number to keep. |
| StoreTheorems.OwnSnaps | internal/store/store.go:346-358 | Of all statements on a zone only snapshot insertion, pruning and deletion change its snapshots, and exactly how. |
| StoreTheorems.Retention | internal/store/store.go:344-384 | After any interleaving of statements on many zones, a zone's snapshots are exactly its last publishes since creation, at most the number to keep, with strictly increasing ids. |
| StoreTheorems.RetentionFromCreation | internal/store/store.go:344-384 | The same from a free zone name or an empty database, with nothing assumed of the history. |
| StoreTheorems.SortRowsSorts | internal/store/store.go:269-285 | Records come in name, type, id order, each row of the zone exactly once. |
| Seqs.TextLessExactly | internal/store/store.go:270 | Text columns compare at the first difference, where the smaller character or the end of the text comes first. |
| StoreTheorems.LastSnapshotIsNewest | internal/store/store.go:361-367 | The last snapshot is the zone's one with the largest id, if it has any. |
| StoreTheorems.DeployedIsPublished | internal/web/zones.go:350-365 | What a deploy renders from canonical rows parses to what the database builds once its serial is set to the deployed one. |
| StoreTheorems.RestoreRoundTrip | internal/store/store.go:388-426 | After restoring any published snapshot the database builds with that snapshot's serial, and renders exactly its text if and only if its mailbox holds no '@'; snapshots and targets are untouched. |
| StoreTheorems.RestoreNewestIsClean | internal/store/store.go:327-340 | Restoring the newest snapshot leaves the zone clean if and only if its mailbox holds no '@'. |
| StoreTheorems.DeployedRestores | internal/store/store.go:388-426 | A deployed text is restored exactly if and only if the address in the accepted settings it was made of held at most one '@'. |
| StoreTheorems.RestoreConvertsOneMore | internal/store/store.go:388-426 | What the database builds after a restore has one '@' less in its mailbox than the snapshot, while there is one. |
| StoreTheorems.TwoAtsDoNotRestore | internal/store/store.go:388-426 | A concrete clean zone with two '@' in its address whose snapshot, restored, builds another text and reads dirty. |
| StoreTheorems.ParsedIsStorable | internal/store/store.go:226-234 | Whatever zone file parses under a zone name that is one, what import or rollback stores is safe settings and storable records, each with a type if and only if the library names all types in the file. |
| StoreTheorems.ImportBuilds | internal/store/store.go:220-265 | Once a zone file of types the library names is imported, the database builds a zone with its serial and exactly its data records, each once, in display order, with zero TTLs filled in. |
| StoreCode.ZoneSettings.ApplyDefaults | internal/store/store.go:139-155 | Fills in 7200, 3600, 1209600, 3600 and 3600 for a zero refresh, retry, expire, minimum and TTL, in place, and keeps every other value. |
| StoreCode.Database.CreateZone | internal/store/store.go:129-137 | Adds the defaulted row under its name, or fails on an existing name and changes nothing; records and snapshots stay, and the caller's value is not touched. |
| StoreCode.Database.UpdateZoneSettings | internal/store/store.go:198-205 | Replaces the row by the defaulted settings and targets with the old serial, and touches nothing else; fails exactly when the zone is missing. |
| StoreCode.Database.UpdateSerial | internal/store/store.go:207-210 | Gives the zone that serial and keeps its other settings, all other zones, records and snapshots; fails exactly when the zone is missing, changing nothing. |
| StoreCode.Database.RemoveZone | internal/store/store.go:212-215 | The zone is gone with every record and snapshot of its own, and nothing of any other zone changed; fails exactly when it was missing, changing nothing. |
| StoreCode.Database.AddRecord | internal/store/store.go:287-294 | The zone's rows grow by this one, with an id above every record's, and no other zone changes; fails exactly when the zone is missing, changing nothing. |
| StoreCode.Database.UpdateRecord | internal/store/store.go:296-300 | Puts the record in the one row with this id in this zone and leaves every other row in its place; fails exactly when there is none, changing nothing. |
| StoreCode.Database.DeleteRecord | internal/store/store.go:302-305 | Takes away the one row with this id in this zone and keeps all others in order; fails exactly when there is none, changing nothing. |
| StoreCode.Database.ImportZone | internal/store/store.go:220-265 | Succeeds exactly on a new name and a text that parses and has an SOA, and then adds the zone's row with its defaulted settings and one row for each of its data records, in order and with new ids, and touches nothing else; otherwise changes nothing. |
| StoreCode.Database.InsertAll | internal/store/store.go:255-260 | The insert loop adds the rows in order with consecutive new ids. |
| StoreCode.Database.ListRecords | internal/store/store.go:269-285 | Returns each of the zone's rows once and no other, by name, then type, then id. |
| StoreCode.Database.InsertInOrder | internal/store/store.go:270 | Puts one row in its place among sorted ones and loses none. |
| StoreCode.Database.BuildZoneFile | internal/store/store.go:310-324 | Builds from the settings row and the rows in display order, or fails on a missing zone. |
| StoreCode.Database.IsDirty | internal/store/store.go:327-340 | Dirty if never deployed, if it does not build, or if its rendering is not the newest snapshot's text. |
| StoreCode.Database.Publish | internal/store/store.go:346-358 | Sets the zone's serial, adds the snapshot and keeps the newest ones up to the number to keep; records and other zones stay; a missing zone stops it before it changed anything. |
| StoreCode.Database.ListSnapshots | internal/store/store.go:369-384 | Returns all the zone's snapshots and no other, by falling id. |
| StoreCode.Database.Restore | internal/store/store.go:388-426 | Gives the zone the settings and data records of the parsed snapshot with this id, and touches neither its snapshots nor other zones; or errs on an unknown id or bad text and changes nothing. |
| StoreCode.Database.Replace | internal/store/store.go:407-425 | The update, the delete and the insert loop together are one restore transaction: these settings, one row for each record, nothing else. |
| SystemLaws.EditKeepsZone | internal/store/store.go:198-305 | Requests other than deploys keep the zone's integrity, storable rows, safe settings, stored serial and snapshots. |
| SystemLaws.EditKeepsSound | internal/store/store.go:198-426 | Every permitted edit, rollback, deletion and creation of the zone among them, keeps integrity, safe settings, storable rows and published snapshots. |
| SystemLaws.RenderExactly | internal/web/zones.go:350-360 | Rendering stored rows under safe settings succeeds if and only if each has a type; the job then is a faithful rendering with the policy's next serial, which short of the largest one is above the old. |
| SystemLaws.BuildDbExactly | internal/store/store.go:310-324 | A zone of stored rows with safe settings builds if and only if every one of its rows has a type. |
| SystemLaws.ForeignFiles | internal/deploy/pipeline.go:85-162 | A pipeline run for a zone whose live file has another name, wherever it stops, leaves every live file of this one alone. |
| SystemLaws.PushStep | internal/deploy/pipeline.go:85-162 | A push that stops anywhere and reports anything keeps every live file within the serial the next deploy will issue. |
| SystemLaws.ActKeepsInv | internal/web/zones.go:344-390 | Every step of handleDeploy, every request between, a crash, and the deploys of other zones whose live files have another name keep the invariant that no live file is ahead of the next serial to be issued, and move serials forward only. |
| SystemTheorems.RunKeepsInv | internal/web/zones.go:344-390 | So does every run. |
| SystemTheorems.WholeRunSerialSafety | internal/web/zones.go:344-390 | Between any two points of any run, with failed, partial, half-published and dying deploys, and deploys of all zones that do not share the live file, the stored serial and the serial in every live file never decrease, and a live file that changed carries a serial above the one stored before. |
| SystemTheorems.PublishedIsPassed | internal/web/zones.go:373-381 | At any later point each target of a published deploy holds exactly that text or a file with a greater serial. |
| SystemTheorems.NewZoneStarts | internal/store/store.go:129-137 | A newly stored zone starts such runs if and only if its settings are safe and no live serial is beyond the next one to be issued. |
| SystemTheorems.CreatedZoneStarts | internal/web/zones.go:90-115 | A zone created with safe settings starts such runs if and only if no live serial is beyond the next one, which holds where no server has a file for it. |
| SystemTheorems.ImportedZoneStarts | internal/store/store.go:220-265 | A zone already live on servers, once imported under a name that is one, starts such runs if and only if each live serial is at most the one the next deploy will issue. |
| Agreement.StepIsCoherent | internal/web/zones.go:344-445 | Every step of handleDeploy, every request between, rollback and deletion among them, a crash and any clock keep it that the deploy in flight is a faithful rendering, that once all moved every target holds its text, and that the newest snapshot after its insertion is that text. |
| Agreement.RunIsCoherent | internal/web/zones.go:344-445 | So does every run. |
| Agreement.InvIsCoherent | internal/web/zones.go:344-390 | The states in which serials are safe are among these. |
| Agreement.RollbackIsPermitted | internal/store/store.go:388-426 | A rollback to any retained snapshot is such an edit at any point. |
| Agreement.SnapshotStays | internal/store/store.go:346-358 | The snapshot that a deploy has stored stays the newest until its end unless the zone is deleted. |
| Agreement.CleanMeansCurrent | internal/store/store.go:327-340 | In any sound database, a clean zone is there and its newest snapshot carries the stored serial. |
| Agreement.CleanExactly | internal/store/store.go:327-340 | The zone is clean if and only if its newest snapshot reads as what the database builds. |
| Agreement.PublishAgreement | internal/web/zones.go:350-382 | When a deploy has published, after whatever rollbacks and over whatever files, every target's live file is the newest snapshot unless the zone was deleted since; the zone is dirty if and only if what the database builds now differs from what the deploy's own rows build. |
| Agreement.OnlyEditsEdit | internal/web/zones.go:350-382 | No step of a deploy changes the zone's records, or its settings but for the serial that it writes: an edit that slips in survives. |
| Agreement.UndisturbedDeployIsClean | internal/web/zones.go:350-382 | If nobody edits the zone between opening and publishing, it ends clean and every target holds what the database builds, whatever happened before. |
| Agreement.HalfDoneExactly | internal/store/store.go:346-358 | A publish that stops after its serial update, with the zone left alone since it was read, leaves it clean if and only if the newest snapshot already is the text that was pushed; every target then holds that snapshot. |
| SystemTheorems.PublishedIsStored | internal/store/store.go:346-358 | In the runs in which serials are safe, the newest snapshot after a publish has the stored serial. |
| SystemTheorems.AheadIsDirty | internal/store/store.go:327-358 | Whenever the stored serial is ahead of every snapshot the zone is dirty. |
| SystemTheorems.HalfDonePublishIsDirty | internal/store/store.go:346-358 | In the runs in which serials are safe, a publish that stops after its serial update leaves the zone dirty through any further steps until some deploy stores a snapshot. |
| SystemTheorems.PublishToDeletedZone | internal/store/store.go:346-358 | Publishing to a zone deleted meanwhile changes nothing, whichever statement it reaches. |
| SystemTheorems.AfterRestore | internal/store/store.go:386-426 | After a restore the next deploy passes a serial some server already has if and only if the policy base does, or the restored serial is no lower. |
| SystemRestores.EverySnapshotRestores | internal/store/store.go:388-426 | At any point of any run, rollbacks and deletions among its steps, restoring any retained snapshot gives its serial and makes the database render exactly its text if and only if its mailbox holds no '@'; under the same condition restoring the newest leaves the zone clean. |
| SystemRestores.PlainSnapshotsRestore | internal/store/store.go:388-426 | If no edit of the run gives the address a second '@', no retained snapshot's mailbox holds one, so every one restores to the letter. |
| SystemRestores.RollbackIsPlain | internal/store/store.go:388-426 | A rollback to a retained snapshot never is such an edit. |
| SystemRuns.LiveSerialsNeverDecrease | internal/web/zones.go:344-390 | From a start where serials are safe on, at every place the zone's file may lie: a serial once there stays and never decreases, and whenever the file changes between two points the new serial is above the one stored at the earlier point. |
| SystemRuns.PublishedEverywhereAlike | internal/web/zones.go:350-382 | From creation or import on, over any run and whatever files the servers held, whenever a deploy has just published and the zone was not deleted since, every target holds the newest snapshot, and the zone is dirty if and only if an edit since the deploy's reads changed what the database builds; without a deletion in the run the snapshot is there. |
| SystemRuns.StoreIsConsistentThroughout | internal/store/store.go:327-358 | From a start where serials are safe on, at every statement boundary: no orphan, no snapshot ahead of the stored serial, a half-done publish reads dirty, and a clean zone's newest snapshot carries the stored serial. |
| SystemRuns.CleanThroughout | internal/store/store.go:327-340 | From creation or import on, at every statement boundary of any run: no orphan, every snapshot a text that a deploy can have published, and clean if and only if the newest snapshot reads as what the database builds. |
| SystemRuns.SafeRunsAreRuns | internal/web/zones.go:344-390 | The runs in which serials are safe are among all runs. |
| SystemRuns.SnapshotsRestoreThroughout | internal/store/store.go:388-426 | From creation or import on, over any run: every retained snapshot restores to the letter if and only if its mailbox holds no '@', and none does if the address never holds two. |
| Handlers.Site.Prepare | internal/web/zones.go:350-360 | Reading, building, bumping and rendering give the job the system's read steps give. |
| Handlers.Site.Transmit | internal/web/zones.go:362-373 | Status, flags and files are those of a returned pipeline run, or nothing was done. |
| Handlers.Site.HandleDeploy | internal/web/zones.go:344-390 | A request takes exactly a run of the system's own steps from rest to rest; it publishes exactly when every target moved, and changes nothing if the pipeline was not run. |
| Handlers.RequestIsSafe | internal/web/zones.go:344-390 | Every deploy request keeps the system's invariant and moves serials forward only. |
| Handlers.RequestIsCoherent | internal/web/zones.go:344-390 | Every deploy request keeps database, servers and snapshots in agreement, whatever the serials are. |
| Handlers.PromotedIsClean | internal/web/zones.go:373-381 | A promoted deploy, after whatever rollbacks, leaves the zone clean, with the text the database builds in the live file of every target the zone lists. |
| Promotion.AllMovedExactly | internal/deploy/result.go:44-56 | All targets are moved if and only if every one is configured, reached, uploaded to and checked and every move reports success. |
| Promotion.PromotedExactly | internal/web/zones.go:373-381 | A deploy request is promoted if and only if that went well, whatever reloads and verification did. |
| Promotion.GoodPush | internal/deploy/pipeline.go:61-195 | With any non-empty list of configured targets and nothing going wrong, some schedule returns with the content live on every one. |
| Promotion.CanPublish | internal/web/zones.go:344-382 | From rest, whatever happened before, a zone that builds, with any non-empty list of configured targets, has a run that publishes; short of the largest serial it is one in which serials are safe. |
| Promotion.EmptySiteIsReady | internal/store/store.go:129-137 | An empty site is a start for any zone with safe settings. |
| Promotion.StartsCanPublish | internal/web/zones.go:344-382 | From every start by creation or import of a zone that builds, with any non-empty list of configured targets, there is a run that publishes, so the run theorems are about something; where serials are safe it is a safe run. |
| Rollbacks.RollbackDeploys | internal/web/zones.go:431-445 | From rest, a rollback to any retained snapshot whose mailbox holds no '@' and a deploy on which nothing goes wrong leave the zone clean, with the snapshot's text under the policy's next serial on every target. |
| Rollbacks.HalfDoneAfterRollback | internal/store/store.go:346-358 | A rollback and a deploy that dies after its serial update leave the zone clean if and only if the newest snapshot is the text that was pushed. |
| Rollbacks.HalfDoneReadsClean | internal/store/store.go:346-358 | On a concrete site, a zone deployed twice, they do. |
| Handlers.Site.HandleAddRecord | internal/web/zones.go:236-252 | Adds one row with the normalised record, or changes nothing; under a zone name on one line the rows stay storable, and rows that all have a type still do if and only if the new one does. |
| Handlers.Site.HandleUpdateRecord | internal/web/zones.go:254-273 | Puts the normalised record in the one named row and leaves every other in its place, or changes nothing; under a zone name on one line the rows stay storable, and rows that all have a type still do if and only if the new one does. |
| Handlers.Site.HandleDeleteRecord | internal/web/zones.go:275-286 | Takes away the named row, if it is there, and keeps all others in order, with no error if not; storable rows stay so, and so do rows that all have a type. |
| Handlers.Site.HandleRollback | internal/web/zones.go:431-445 | Gives the zone the settings and data records of the snapshot and touches nothing else, or changes nothing; under a zone name that is one it leaves safe settings and storable rows whatever the snapshot held. |
| Handlers.AcceptedRow | internal/web/zones.go:75-88 | What is stored of a form the check accepted, defaulted and with any serial, is safe if and only if no name holds a line break and neither the primary NS nor the address a comment sign. |
| Handlers.FormStores | internal/web/zones.go:75-88 | What is stored of a form: its texts without outer white space, each number in its own field or its default for a zero, serial zero, and targets that read back. |
| Handlers.Site.HandleCreateZone | internal/web/zones.go:90-115 | Creates exactly when the form is complete, the name free and the settings build on their own; what is stored is safe if and only if no name holds a line break and neither the primary NS nor the address a comment sign. |
| Handlers.Site.HandleUpdateSettings | internal/web/zones.go:157-180 | Changes settings, never the serial, exactly when the form is complete, the settings build on their own and the zone exists; safe under the same condition. |
| Handlers.Site.HandleImport | internal/web/zones.go:123-144 | Imports exactly when name and text are given, the name free, and the text parses with an SOA: the zone's row and one row for each data record, in order; what is stored is safe if and only if the name is one, and then the rows are storable. |
| RateLimiter.WindowBound | internal/web/ratelimit.go:21-40 | In any history the rule produces, no half-open interval of window length holds more than the maximum of allowed attempts. |
| RateLimiter.Limiter.Allow | internal/web/ratelimit.go:23-40 | An attempt is allowed if and only if fewer than the maximum of that key's attempts, out of all ever allowed, lie in its window, that is, if and only if there are not that many or the one that many back lies before the window, although old ones are pruned; other keys are untouched. |
| RateLimiter.Limiter.NeverTooMany | internal/web/ratelimit.go:23-40 | The bound holds for every key of the limiter after any calls. |
| Diff.ComputeDiff | internal/web/diff.go:8-22 | The old line set without the removed lines and with the added ones is the new line set; both lists are duplicate-free and in source order, each is the other with the texts swapped, and both are empty if and only if the line sets agree. |
| Diff.LineSet | internal/web/diff.go:24-30 | The set of a text's trimmed non-blank lines. |
| Diff.LinesExactly | internal/web/diff.go:24-30 | A text's lines are those between its line breaks, without outer white space and unless blank. |
| Diff.ListLines | internal/web/diff.go:32-44 | Each trimmed non-blank line once, where it first occurs. |
| Diff.DistinctOrder | internal/web/diff.go:32-44 | The listed lines are in the order of their first occurrence. |
| Diff.DistinctMembers | internal/web/diff.go:32-44 | The listed lines are exactly the non-blank ones. |

## Left out

- SSH, SFTP, DNS queries, `named-checkzone` and process execution: each is an operation whose report and effect a script decides in advance. A failing upload may leave any content in its temporary file; a failing command may have taken effect.
- Panics, timeouts and cancellation appear only as reported errors, with or without effect, or as a run that stops early.
- SQLite itself: each statement is one atomic step on three tables, a transaction is one step, and failures of the database itself are not modelled, other than a process that stops between two steps.
- The general zone-file grammar of `miekg/dns`, which is not in the repository: the parser reads `$ORIGIN`, `$TTL`, blank lines and one-line records `owner [ttl] IN type rdata`. Escapes, quotes, omitted owners, other classes, `$GENERATE`, `$INCLUDE` and multi-line records are malformed to it, parentheses are words of their own and not matched, a comment is read in the SOA's data only, and other rdata is an opaque token that keeps its spelling. The lengths of names and labels are not looked at, and neither are empty labels.
- Record types are those of the dialect's shape; of the numbered ones the private range 65280-65534 stands for the types without a name in the library's table, with data in the generic form, kept as a token; other `TYPE` numbers are malformed, and records without a name for their type print with class IN as all do.
- ZoneLaws.BuildParses: is stated for settings that SafeExactly shows to be those the handlers accept with clean names, and for records that print on one line with a type; BuildsExactly covers all stored rows, and BrokenLineDecides and NameSoaDecides the other settings.
- ZoneLaws.NormalizedIsCanonical: needs a zone name on one line; BrokenNameStoresBroken is an input for which it fails under another.
- Settings.SerialIsCarried: is about the dialect, in which a line break inside parentheses ends the line and a comment sign always starts a comment; in the general grammar the first hides nothing, and neither does a comment sign escaped as `\;`, with which a name carries every serial.
- Settings.SafeExactly: counts no zone name with a line break as safe, though HarmlessNameCarries shows that some are harmless to the serial.
- StoreTheorems.ParsedIsStorable: needs a zone name that is one, since what is relative in the file is completed with it; so do SystemTheorems.ImportedZoneStarts and what Handlers.Site.HandleRollback says of safety. ImportIsSafeExactly shows that an import under another name is never safe.
- OneRecord.AcceptedExactly: is about the same dialect, in which every line is an entry of its own; AcceptedAnywhere covers zone names with a line break.
- Text.TrimSpace: removes the ASCII white space only, and ToUpper changes ASCII letters only.
- Remote.TempIsNeverLive: takes the configured directory in clean form, so that joining a path is appending one element.
- Remote.CheckCommandParses: needs a configured command that the model of the shell can read; the substitution of the zone into the reload command is not modelled.
- PipelineTheorems.Confluence: needs distinct temporary suffixes of equal length, which the source draws at random.
- PipelineCode.Deployment.Deploy: runs the per-target bodies one after another; that this is every interleaving is Confluence's claim.
- SystemTheorems.WholeRunSerialSafety: covers runs whose settings changes the handler accepts with clean names, under a zone name on one line, and in which no zone is deployed whose live file has the same name; without either it is false (SettingsTakeItBack, SharingTakesItBack). It covers no rollback, deletion or re-creation of the zone, at most one deploy of it in flight, a clock that does not go back, dates up to the year 4294 and no deploy from the largest serial; AfterRestore gives the condition for what follows a rollback.
- GoingBack.SerialGoesBack: needs a zone name that is one, since the text that goes live is read back under it; IssuedFromNames does not.
- Agreement.PublishAgreement: speaks of the targets the deploy opened with; Dirty ignores the target list, so a target added later is not covered. Its runs have at most one deploy of the zone in flight, settings changes that the handler accepts with clean names under a zone name on one line, and no deploy of a zone whose live file has the same name (SharingTakesItBack).
- SystemTheorems.HalfDonePublishIsDirty: speaks of the runs of WholeRunSerialSafety; with a rollback it is false (HalfDoneReadsClean), and HalfDoneExactly is the condition.
- SystemRuns.StoreIsConsistentThroughout: speaks of the same runs; CleanThroughout is for all.
- Handlers.Site.HandleDeploy: is the handler without interference; interleavings with other requests are the runs of System.
- StoreCode.Database.Publish: does not model creation times.
- RateLimiter.Limiter.Allow: the mutex makes calls atomic, so they are modelled as a sequence with non-decreasing times.
- HTTP routing, templates, sessions, audit log, metrics, configuration, command line and the sorting of server names: plumbing around the modelled code.
- Form parsing and its defaults: the handlers take parsed values.
