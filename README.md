# ostorlab core, modelled in Dafny

This project models the parts of the ostorlab security-scanning toolkit that
carry real logic, and proves properties of them:

- the local store's vulnerability rendering, which builds the markdown for references and asset locations, and its records: the vulnerability record, the scan record with its initial progress, and the database session singleton (`models.dfy`);
- agent settings (`definitions.dfy`):
  - choosing an agent's container image from the locally listed image tags, with an optional version pin;
  - the argument checks and the optional fields of the settings message;
  - what reading that message back keeps;
  - the defaults applied when an agent group is loaded from YAML;
- the agent test doubles: a persist store of sets, and a message queue that strips the routing-key suffix (`testing_agent.dfy`);
- two command guards: `scan run link` pairs URLs with HTTP methods (`link.dfy`), and `vulnz describe` checks its parameters for each runtime kind (`describe.dfy`);
- two behaviours that only the tests pin down:
  - the CI scan run: credentials, then scan creation, then polling, then the risk-rating decision, then the console lines (`ci_scan_run.dfy`);
  - the rule that agent settings override the agent definition when the service is created (`agent_runtime.dfy`).

`wrappers.dfy` holds `Option` and `Result`. `text.dfy` holds Python's single-character `split`, `join` and `replace` on strings, with their round trip.

The source loops that build values are modelled as methods with loops. The markdown builders, `container_image`, `to_raw_proto` and `from_yaml` are among them. The CI run's implementation is not part of this model: its tests are what the model follows, and the method `RunCiScan` with its polling loop is built from what they assert. Each method is proved equal to a specification function, and the lemmas state what the source promises about that function. Objects whose fields the source updates are classes: the database session holder and the two test doubles.

The following become parameters:

- the Docker image listing, as a sequence of tag lists;
- `re.match`, as a predicate;
- version parsing, as a partial function into a rank and a printed text;
- the risk-rating order, as an ascending sequence of labels;
- the clock, as an integer;
- the API transport of the CI run, as a scripted sequence of responses, one per request.

## Model

| member | source | states |
|---|---|---|
| Models.PrepareReferencesMarkdown | src/ostorlab/runtimes/local/models/models.py:155-167 | The loop builds exactly `ReferencesMarkdown`. That is empty for None or for an empty list, and otherwise one `title: url` line per reference, in order. |
| Models.ReferencesMarkdownAt | src/ostorlab/runtimes/local/models/models.py:161-166 | Reference i adds exactly `title + ": " + url + "  \n"` at its position. A missing title or url renders as the empty string. |
| Models.ReferencesMarkdownConcat | src/ostorlab/runtimes/local/models/models.py:161-167 | Concatenating two reference lists concatenates their markdown, so each reference renders independently and in input order. |
| Models.FirstPresentSpec | src/ostorlab/runtimes/local/models/models.py:175-189 | The chosen asset kind is the first present one in the given order, and none is chosen exactly when all are absent. |
| Models.LocationHeader | src/ostorlab/runtimes/local/models/models.py:175-191 | The if/elif chain gives the header of the first present kind in the order domain, IPv4, IPv6, Android store, iOS store. It gives nothing exactly when none is present. |
| Models.PrepareVulnLocationMarkdown | src/ostorlab/runtimes/local/models/models.py:170-197 | The method builds exactly `LocationMarkdown`. That is "" for None, an unknown-asset error when no kind is present, and otherwise the header followed by the metadata lines. |
| Models.AppendMetadataLines | src/ostorlab/runtimes/local/models/models.py:193-196 | The loop appends one `type: value` line per metadata entry, in order, after the header. |
| Models.LocationMarkdownUnknown | src/ostorlab/runtimes/local/models/models.py:190-191 | A location renders as the unknown-asset error exactly when none of the five asset kinds is present. |
| Models.LaterKindsIgnored | src/ostorlab/runtimes/local/models/models.py:175-189 | Once a kind is present, changing any later kind does not change the markdown. The result is Ok exactly when the metadata is not null. |
| Models.FirstPresentAt | src/ostorlab/runtimes/local/models/models.py:175-189 | When kind i is present and every earlier kind is absent, kind i is the one chosen. |
| Models.LocationMetadataLines | src/ostorlab/runtimes/local/models/models.py:193-197 | Without metadata the output is the header alone. Each added metadata entry appends exactly its own line. |
| Models.FirstPresentSame | src/ostorlab/runtimes/local/models/models.py:175-189 | The kind chosen depends only on which assets are present, not on the metadata. |
| Models.CreateVulnerability | src/ostorlab/runtimes/local/models/models.py:223-236 | The call fails exactly when the location rendering fails, with the same error. Otherwise the record holds both renderings and every other field unchanged. |
| Models.ProgressFromName | src/ostorlab/runtimes/local/models/models.py:37-42 | A progress name is decoded to the member of that name and to no other, in both directions. |
| Models.ProgressFromValue | src/ostorlab/runtimes/local/models/models.py:37-42 | A progress value is decoded to the member with that value and to no other, in both directions. |
| Models.CreateScan | src/ostorlab/runtimes/local/models/models.py:131-132 | A new scan starts at the progress named `NOT_STARTED`, with the given title, asset and creation time. |
| Models.Database.constructor | src/ostorlab/runtimes/local/models/models.py:48-51 | A new database holder has no session. |
| Models.Database.PrepareDbSession | src/ostorlab/runtimes/local/models/models.py:91-99 | A fresh open session is made only when none exists; afterwards the held session is always returned. |
| Models.Database.Exit | src/ostorlab/runtimes/local/models/models.py:65-66 | The session is closed only when one was created, and the holder keeps it. |
| Definitions.ImageName | src/ostorlab/runtimes/definitions.py:41 | The image name is the key with every `/` replaced by `_`, position by position. No `/` is left. |
| Definitions.SplitTag | src/ostorlab/runtimes/definitions.py:47-52 | A tag containing a colon is split at its last colon: name + ":" + tag gives the tag back, and the tag part has no colon. A colon-free tag has an empty name. |
| Definitions.TagCandidate | src/ostorlab/runtimes/definitions.py:47-63 | One pass of the inner loop yields exactly the version that one tag contributes: the tag matches the image, the pin (if any) accepts it, and it parses. |
| Definitions.CollectTags | src/ostorlab/runtimes/definitions.py:46-63 | The inner loop appends the candidates of one image's tags, in listing order. |
| Definitions.ContainerImage | src/ostorlab/runtimes/definitions.py:39-69 | No candidates gives None. Otherwise the result is `image:v` followed by the first greatest candidate version. |
| Definitions.CandidatesMember | src/ostorlab/runtimes/definitions.py:53-63 | A version is a candidate exactly when some listed tag contributes it. Unparseable tags are skipped, not fatal. |
| Definitions.PinNarrowsCandidates | src/ostorlab/runtimes/definitions.py:58-63 | With a pin, the candidates form a sub-multiset of the unpinned candidates. |
| Definitions.PinMatchingAll | src/ostorlab/runtimes/definitions.py:53-63 | A pin that accepts every text selects the same candidates as no pin. |
| Definitions.MaxIndex | src/ostorlab/runtimes/definitions.py:68 | The index found holds a greatest version, and every earlier version is strictly smaller, so it is the first maximum. |
| Definitions.EncodeArg | src/ostorlab/runtimes/definitions.py:124-135 | Bytes with a type other than `binary` are refused. Binary bytes are kept verbatim. Any other value is its JSON encoding, or refused when it is not serialisable. |
| Definitions.EncodeArgsSpec | src/ostorlab/runtimes/definitions.py:122-135 | Encoding succeeds exactly when every argument does, argument by argument in order. Otherwise the error reported is the first failing argument's. |
| Definitions.RawProtoSpec | src/ostorlab/runtimes/definitions.py:115-157 | The record fails exactly when some argument is refused, reporting the first. Otherwise memory limit, redis URL and tracing URL are set exactly when given, and every other field is copied. |
| Definitions.ToRawProto | src/ostorlab/runtimes/definitions.py:109-157 | The method stops at the first refused argument and otherwise builds exactly `RawProto`. |
| Definitions.RawProtoThenFromProto | src/ostorlab/runtimes/definitions.py:72-107 | Reading back the written record loses the version and the argument descriptions, turns unset optional fields into their defaults, and returns every argument value as the bytes that were written. Everything else survives. |
| Definitions.FromProtoRoundTrip | src/ostorlab/runtimes/definitions.py:72-157 | Settings with no version, all optional fields set and only binary, description-free arguments come back unchanged. |
| Definitions.FromProto | src/ostorlab/runtimes/definitions.py:72-107 | Reading a record keeps the key, name and type of every argument, and gives no version. Every argument value comes back as bytes, without a description. Memory limit, redis URL and tracing URL are always present: the record's value when set, otherwise the default. |
| Definitions.SettingsFromYaml | src/ostorlab/runtimes/definitions.py:181-195 | An agent entry keeps its key, version and memory limit. A missing restart policy becomes `any`, missing replicas become 1, and missing args, mounts and ports become empty. Redis and tracing URLs are unset. |
| Definitions.SettingsFromYamlDefaults | src/ostorlab/runtimes/definitions.py:20-37 | The settings built from an agent entry are the dataclass defaults, overridden only by the fields the entry gives. |
| Definitions.PresentKeys | src/ostorlab/runtimes/definitions.py:200 | Joining the agent keys fails exactly when some key is missing. Otherwise it sees the keys in order. |
| Definitions.FromYaml | src/ostorlab/runtimes/definitions.py:170-201 | The result fails exactly when an agent has no key. Otherwise there is one settings record per agent, in file order, and the group name is kept. The description defaults to `Agent group : ` plus the comma-joined keys. |
| Definitions.DefaultDescriptionKeys | src/ostorlab/runtimes/definitions.py:200 | Splitting the default description after its prefix gives back exactly the agent keys, when no key contains a comma. |
| TestingAgent.AddedMembers | src/ostorlab/testing/agent.py:50-56 | After an add, a pair is a member exactly when it is the added pair or was a member before. |
| TestingAgent.AddedFrame | src/ostorlab/testing/agent.py:55 | An add creates the key's set when the key is absent and leaves every other key's set as it was. |
| TestingAgent.AddedPresent | src/ostorlab/testing/agent.py:52-53 | Adding a present value leaves storage unchanged, so adding twice is the same as adding once. |
| TestingAgent.PersistMock.SetIsMember | src/ostorlab/testing/agent.py:43-48 | The answer is true exactly when the key is stored and its set holds the value. |
| TestingAgent.PersistMock.SetAdd | src/ostorlab/testing/agent.py:50-56 | The answer is True exactly when the value was absent. The value is a member afterwards, and storage changes only by that add. |
| TestingAgent.Selector | src/ostorlab/testing/agent.py:30 | The selector is the key up to its last dot. The removed component has no dot, and a dot-free key gives "". |
| TestingAgent.SelectorStripsSuffix | src/ostorlab/testing/agent.py:29-30 | For any dot-free suffix, the selector of `selector.suffix` is exactly `selector`. |
| TestingAgent.MqMock.MqSendMessage | src/ostorlab/testing/agent.py:28-31 | Each send appends one message under its key's selector, leaving earlier messages untouched. |
| LinkCommand.RunLink | src/ostorlab/cli/scan/run/assets/link.py:21-32 | Unequal counts print the error, exit with code 2 and start no scan. Equal counts start exactly one scan, with the context's title and agent group and the paired assets. |
| LinkCommand.PairsAt | src/ostorlab/cli/scan/run/assets/link.py:27-30 | There are as many assets as URLs, and asset i holds the i-th URL and the i-th method. |
| LinkCommand.PairsUnzip | src/ostorlab/cli/scan/run/assets/link.py:28-30 | The URLs and the methods can be read back from the assets, in input order. |
| DescribeCommand.DescribeCli | src/ostorlab/cli/vulnz/describe/describe.py:21-29 | Describe is rejected exactly when the runtime is cloud without a scan id, or local with neither id, each with its own message. Otherwise it prints the fetching line and makes one call with the same ids. |
| DescribeCommand.LocalVulnIdOnly | src/ostorlab/cli/vulnz/describe/describe.py:25 | A local runtime accepts a vulnerability id alone. |
| CiScanRun.Decide | tests/cli/ci_scan/run/run_test.py:81-131 | A done scan passes exactly when its rating is on the scale and ranks at or below the threshold, with the done line. A rating above it fails with the risk line. An unknown rating fails without a line. No request is sent. |
| CiScanRun.Rank | tests/cli/ci_scan/run/run_test.py:37-50 | A label has a rank exactly when it is on the scale, and its rank is the label's first position there. |
| CiScanRun.RunCiScan | tests/cli/ci_scan/run/run_test.py:11-210 | The run, step by step over the scripted responses, is exactly the specified `CiScan` trace. |
| CiScanRun.PollScan | tests/cli/ci_scan/run/run_test.py:53-131 | The polling loop is exactly `Poll`. It makes at most `maxWaitMinutes * checksPerMinute` status queries, stopping at the first done scan. |
| CiScanRun.NoApiKey | tests/cli/ci_scan/run/run_test.py:11-20 | Without an API key nothing is sent, "API key not not provided." is printed and the run fails. |
| CiScanRun.ScanCreatedReported | tests/cli/ci_scan/run/run_test.py:23-34 | The scan request is sent first and "Scan created with id 1."-style output follows. Without a threshold the run ends with the scan created. |
| CiScanRun.InvalidThreshold | tests/cli/ci_scan/run/run_test.py:37-50 | An unknown threshold is reported after the scan has been created, and the run fails. The requests and output are exact. |
| CiScanRun.PollNeverDone | tests/cli/ci_scan/run/run_test.py:53-78 | Polls that never see `done` always fail the run, and an answered poll prints "The scan is still running.". |
| CiScanRun.TimeoutStillRunning | tests/cli/ci_scan/run/run_test.py:53-78 | A gated run whose scan stays not done reports the scan id and "still running", and fails. |
| CiScanRun.DoneDecides | tests/cli/ci_scan/run/run_test.py:81-131 | A done rating at or below the threshold passes with "Scan done with risk rating r.". One above it fails with "The scan risk rating is r.". |
| CiScanRun.CredentialsFirst | tests/cli/ci_scan/run/run_test.py:162-210 | With all four credential options, two credential requests precede the scan request, which carries their ids. "Created test credentials" is printed. |
| CiScanRun.RequestBound | tests/cli/ci_scan/run/run_test.py:53-78 | The run sends at most the credential requests, one scan request and one status query per check of the wait budget. |
| CiScanRun.PollBound | tests/cli/ci_scan/run/run_test.py:53-78 | Polling sends at most one request per remaining check. |
| CiScanRun.GateExtends | tests/cli/ci_scan/run/run_test.py:37-159 | After the scan is created, gating only appends requests and output lines, so earlier lines stay in the output. |
| AgentRuntime.ServiceFor | tests/runtimes/local/agent_runtime_test.py:34-53 | Each of memory, mounts, ports and restart policy comes from the settings when they give it, and otherwise from the agent definition. |
| AgentRuntime.SettingsOverride | tests/runtimes/local/agent_runtime_test.py:34-53 | Settings that give memory, mounts, ports and restart policy win over the definition. The first published port is the settings' first destination port. |
| AgentRuntime.DefaultSettingsFallBack | tests/runtimes/local/agent_runtime_test.py:75-87 | Default settings fall back to the definition's memory, mounts and ports. The restart policy is the settings' default `any`. |
| AgentRuntime.SettingsScenario | tests/runtimes/local/agent_runtime_test.py:19-53 | The first test's values give memory 700000, mounts `settings_mount1`, first port 40000 and `on-failure`. |
| AgentRuntime.DefinitionScenario | tests/runtimes/local/agent_runtime_test.py:60-87 | The second test's values give memory 620000, the definition's mounts, first port 30000 and `any`. |
| AgentRuntime.ServicePortsAt | tests/runtimes/local/agent_runtime_test.py:52 | There is one endpoint port per mapping, in order, and the mapping's destination port is the published port. |

## Left out

- Database I/O is not modelled: the SQLAlchemy engine, the Alembic migrations (`_migrate_local_db`, `_is_db_populated`, `alembic/env.py`), `create_db_tables`, `drop_db_tables`, and the `add`/`commit` calls in the `create` methods. The model covers only the records built and the session-holder state.
- `ScanStatus.create`: it builds a record and commits it to the database. It is not part of this model.
- `Models.CreateScan`: `datetime.now()` becomes a parameter.
- `container_image` takes its tags as input and does not call the Docker client. The warning logged for an unparseable version is left out, and so is the debug log.
- `Definitions.MaxIndex`: `version.Version` is abstract, so versions are compared only through an integer rank. Any total order given by a parse function is covered, but PEP 440 ordering itself is not.
- `Definitions.ToRawProto` and `Definitions.FromProto` build only the field record. Protobuf serialisation and parsing are left out, and so is the exception chaining of the JSON error. A proto field without presence is read as its default, and the model's `Option` on the record marks only whether the writer set it.
- `Definitions.AgentSettings`: `bus_url`, `bus_exchange_topic`, `bus_management_url`, `bus_vhost` and `mounts` are modelled as never None. The error `to_raw_proto` raises when one of them is None is therefore not modelled.
- `Models.PrepareReferencesMarkdown`: dictionary values are modelled as strings, never None. A reference whose `title` or `url` holds None renders as `None` in the source, and that case is not modelled; an absent key, which renders as empty, is. Location dictionaries are not affected, because the source renders a missing key and a None value alike as `None`.
- `Definitions.FromYaml` takes the loaded YAML as input, and the YAML loader and its schema validation are left out. Explicit `null` values do not appear in the input, because a YAML agent entry's absent key is an `Option`. `args` and `open_ports` entries are given already converted.
- `TestingAgent`: the pytest fixture and mocker patching of the agent mixins are left out. `Message.from_raw` decoding is not modelled: the emitted message holds its selector and the raw bytes.
- `LinkCommand.RunLink`: the debug log of the last asset and the runtime's own scan are left out; the model records the one `scan` call instead.
- `DescribeCommand.DescribeCli`: the runtime kind is an enumeration rather than an `isinstance` check, and `describe_vuln` itself is the recorded call.
- `CiScanRun`: the implementation module is not part of this model. The run is built from what its tests assert, so the following are left out:
  - sleeping between polls, the minute tunable, the artifact upload and the GraphQL payloads;
  - console colouring; the run's output is the sequence of console lines.
- `CiScanRun.RunCiScan`: the exact number of polls is not pinned by the tests, and no lemma states it. The model polls at most `maxWaitMinutes * checksPerMinute` times, and running out of scripted responses is a transport failure.
- `CiScanRun.Poll`: prints no line of its own at timeout, because no test shows one.
- `CiScanRun.Decide`: a rating equal to the threshold passes, because no test pins this boundary. A done rating that is not on the scale fails the run.
- `CiScanRun.CredentialRequests`: an incomplete credential pair sends no request, because no test pins this case. The model does not reject an incomplete pair before any request; no test shows either behaviour.
- `CiScanRun.Gate`: the run polls only when a threshold is given, and an unknown threshold is reported after the scan is created, as the tests for it show. The model does not check the threshold before any request; the tests show it only after scan creation.
- `CiScanRun.Rank`: the risk-rating scale is a parameter. The lemmas use only the order between ratings that the tests rely on.
- `AgentRuntime`: only the merge of memory, mounts, ports and restart policy is modelled. Docker service creation, configs, networks, the container name and the health-check and bus settings are left out.
- `AgentRuntime.ServiceFor`: the restart policy of the settings wins when non-empty. With default settings it is therefore `any`; the tests cannot tell this rule apart from falling back to the definition.
