# Ugudu core model

Ugudu runs teams of AI agents. Each agent is a team member with a role, a provider and a model. A Go daemon hosts the teams, and a small desktop shell written with Tauri keeps that daemon alive. This project models two things in Dafny:

- the desktop shell's daemon supervisor (`desktop/src-tauri/src/main.rs`, module `Daemon`). It probes the daemon's health endpoint, launches the daemon from the first candidate binary that starts, and waits for it to come up. The health probe, process spawning and sleeping are oracles given as parameters. The supervisor methods return the trace of probes, spawns and sleeps they make.
- the sequential logic of the Go backend, one module per source file:
  - the pieces that providers share, plus the Anthropic, OpenAI, OpenRouter, Groq and Ollama request builders and the rate-limit parser;
  - the tool registry, the built-in tools, the sandbox and the sandboxed registry;
  - the workspace and the project index;
  - the activity logger, the task store and the stand-up generator;
  - teams, members, the workflow and the orchestrator;
  - the specification generator;
  - the MCP server and its handlers;
  - the team manager, the logger and the HTTP API's request handling;
  - the `ugudu` command's `spec`, `config` and `activity` subcommands.

Shared helpers model Go's library functions the sources rely on. Strings are byte sequences, and `strings`, `strconv` and `path/filepath` are in `gostrings.dfy` and `filepath.dfy`. White-space trimming and case mapping are modelled for ASCII text only (see "## Left out"). The integer parsers keep Go's 64-bit range: `ParseInt64` fails outside it, `AtoiValue` is the clamped value `strconv.Atoi` returns beside a range error, and `Wrap64` is two's-complement wrap-around. Time is an integer of nanoseconds since Go's zero time (`clock.dfy`). `sort.Slice` is in `sorting.dfy`, and `tally.dfy` counts values.

Objects whose fields the Go code updates in place are classes. Examples are the registries, the task store, the activity log, teams, members, the orchestrator, the manager and the index. Their methods are proved against specification functions of the old state. Pure computations are functions with lemmas about them.

Everything the code gets from outside is a parameter: file contents, JSON decoding results, provider replies, clocks and identifiers. Effects such as a file write, a store update or a spawned process are recorded in the state or returned as results.

## Model

| member | source | states |
|---|---|---|
| Daemon.CheckDaemon | desktop/src-tauri/src/main.rs:9-14 | the probe is up exactly for a 2xx response; any transport error counts as down |
| Daemon.GetDaemonStatus | desktop/src-tauri/src/main.rs:46-52 | Ok("running") exactly when the probe is up, else Err("Daemon is not running") |
| Daemon.BinaryName | desktop/src-tauri/src/main.rs:19-23 | "ugudu.exe" on Windows, "ugudu" elsewhere |
| Daemon.Candidates | desktop/src-tauri/src/main.rs:26-31 | exactly four candidates in fixed order: /usr/local/bin, $HOME/.local/bin, $HOME/go/bin, then the bare name; an unset HOME contributes "" |
| Daemon.CandidatesDifferOnlyInName | desktop/src-tauri/src/main.rs:19-31 | the Windows and other candidates agree position by position except for the ".exe" suffix |
| Daemon.FirstLaunchable | desktop/src-tauri/src/main.rs:33-40 | the position of the first launchable candidate: every earlier one fails to spawn |
| Daemon.LaunchableExists | desktop/src-tauri/src/main.rs:33-42 | the loop stops inside the list exactly when some candidate can be launched |
| Daemon.StartDaemon | desktop/src-tauri/src/main.rs:17-43 | spawns the candidates in order, each with the single argument "daemon", and stops at the first success; Err("Could not find or start ugudu daemon") only after all four spawns failed |
| Daemon.PollsShape | desktop/src-tauri/src/main.rs:64-69 | every poll round is a 500 ms sleep followed by one probe |
| Daemon.FirstUp | desktop/src-tauri/src/main.rs:64-69 | the first successful poll, with every earlier poll down, or none |
| Daemon.EnsureDaemon | desktop/src-tauri/src/main.rs:55-72 | exact result and trace for already running, launch failure (error propagated), success on the k-th poll, and "Daemon failed to start" after 30 polls |
| Daemon.Poll | desktop/src-tauri/src/main.rs:64-71 | up exactly when some of the 30 probes answers; the trace is one sleep-and-probe round per poll made, stopping at the first probe that answers |
| Daemon.PollsCost | desktop/src-tauri/src/main.rs:64-69 | k rounds issue exactly k probes and sleep k × 500 ms |
| Daemon.EnsureDaemonCost | desktop/src-tauri/src/main.rs:55-72 | a start answered on poll k costs k + 1 probes and k × 500 ms of sleep, at most 15 s |
| Daemon.Warmup | desktop/src-tauri/src/main.rs:83-89 | the setup task probes once and, only when down, launches (result ignored) and sleeps 2 s |
| GoStrings.Wrap64 | cmd/ugudu/activity.go:181 | the 64-bit two's-complement value of an integer: unchanged inside the range, and differing from it by a multiple of 2^64 |
| GoStrings.ParseInt64 | internal/api/server.go:988 | a number exactly when the text is a decimal integer within the 64-bit range |
| GoStrings.AtoiValue | internal/provider/ratelimit.go:171-176 | the number `strconv.Atoi` leaves beside its error: the value inside the 64-bit range, 0 for text that is not a number, the nearest bound past the range |
| GoStrings.Truncate | internal/team/member.go:1329-1334 | a message that fits is kept; a longer one becomes exactly its first maxLen bytes followed by "..."; the same rule serves activity data (`internal/workspace/activity.go` lines 159-164), MCP tool output (`internal/mcp/handlers.go` lines 500-505) and `team list`, which cuts descriptions at 40 bytes (`cmd/ugudu/main.go` lines 466-468) |
| ProviderTypes.PlainMessages | internal/provider/openai.go:216-221 | one `{role, content}` entry per message, in order, nothing else |
| ProviderTypes.FunctionTools | internal/provider/openai.go:241-255 | one function entry per tool, with name, description and an object schema of the tool's parameters |
| ProviderTypes.AddSampling | internal/provider/openai.go:228-239 | max_tokens and temperature present exactly when set, stop exactly when non-empty; other keys kept and no others added |
| OpenAI.OpenAIProvider.constructor | internal/provider/openai.go:22-31 | an empty base URL falls back to https://api.openai.com/v1 |
| OpenAI.ConvertRequest | internal/provider/openai.go:215-260 | the body holds model, one plain entry per message, the sampling keys as set, and tools exactly when there are tools, one entry each |
| OpenAI.ConvertResponse | internal/provider/openai.go:262-289 | no choices gives an empty reply for the model; otherwise the first choice's content, finish reason and tool calls in order, with the usage and provider "openai" |
| Groq.ConvertRequest | internal/provider/groq.go:196-223 | model, plain messages and the sampling keys as set; never a tools key |
| Groq.ConvertResponse | internal/provider/groq.go:225-243 | no choices gives an empty reply; otherwise the first choice's content and finish reason, no tool calls, provider "groq" |
| Groq.ListModels | internal/provider/groq.go:140-147 | four models, all of provider groq, with distinct IDs |
| Ollama.OllamaProvider.constructor | internal/provider/ollama.go:19-27 | an empty base URL falls back to http://localhost:11434 |
| Ollama.ConvertRequest | internal/provider/ollama.go:212-233 | model and plain messages; an options object with the temperature exactly when one is set; no other keys |
| Ollama.RequestBody | internal/provider/ollama.go:33-71 | the body is the converted request with "stream" false for a chat and true for streaming, and never max_tokens, stop or tools |
| Ollama.ConvertResponse | internal/provider/ollama.go:235-242 | the message content with the requested model, provider "ollama", finish reason "stop", no tool calls and zero usage |
| OpenRouter.OpenRouterProvider.constructor | internal/provider/openrouter.go:25-36 | the fixed OpenRouter URL; an empty site name falls back to "Ugudu" |
| OpenRouter.RouterMessageKeys | internal/provider/openrouter.go:199-227 | role and content always; tool_call_id exactly for a tool result with an ID; tool_calls exactly for an assistant message with calls, one entry per call |
| OpenRouter.ToolCallEntries | internal/provider/openrouter.go:213-223 | one `{id, type function, function{name, arguments}}` entry per tool call, in order |
| OpenRouter.RouterMessages | internal/provider/openrouter.go:198-228 | one converted entry per message, in order |
| OpenRouter.ConvertRequest | internal/provider/openrouter.go:197-266 | model, the converted messages, the sampling keys as set and tools exactly when there are tools |
| OpenRouter.ConvertResponse | internal/provider/openrouter.go:268-295 | the same first-choice rule as OpenAI's, with provider "openrouter" |
| Anthropic.NonSystem | internal/provider/anthropic.go:469-473 | system messages are taken out of the conversation; everything kept comes from the input |
| Anthropic.SystemPromptIsLast | internal/provider/anthropic.go:470-472 | with several system messages the last one is the system prompt |
| Anthropic.NoSystemPrompt | internal/provider/anthropic.go:534-536 | without a system message there is no system prompt, so no "system" key |
| Anthropic.AssistantBlocks | internal/provider/anthropic.go:491-512 | an assistant message with calls becomes an optional text block (only for non-empty content) followed by one tool_use block per call, in order |
| Anthropic.ConvertMessagesInOrder | internal/provider/anthropic.go:466-526 | one converted entry per non-system message, in the original order |
| Anthropic.InputSchema | internal/provider/anthropic.go:550-556 | a tool's parameters are its input schema; no parameters gives the empty object schema |
| Anthropic.ConvertRequestKeys | internal/provider/anthropic.go:528-545 | model, converted messages and max_tokens (4096 unless set) always; system exactly for a non-empty prompt; temperature exactly when set; tools exactly when present; no other keys |
| Anthropic.ConvertRequestTools | internal/provider/anthropic.go:546-565 | one `{name, description, input_schema}` entry per tool, in order |
| Anthropic.AccumulateInOrder | internal/provider/anthropic.go:574-586 | the reply text is the concatenation of the text blocks in order; one tool call per tool_use block, in order, with its input encoded |
| Anthropic.ConvertResponse | internal/provider/anthropic.go:570-600 | provider "anthropic", the requested model, the stop reason, and usage total = input + output tokens |
| Anthropic.AnthropicProvider.constructor | internal/provider/anthropic.go:63-91 | default URL for an empty one; a fresh unlimited state, an empty queue of 100; callbacks registered only when given |
| Anthropic.AnthropicProvider.GetActiveRateLimit | internal/provider/anthropic.go:308-317 | the recorded limit with the latest reset time, none when no limit is recorded |
| Anthropic.AnthropicProvider.QueueAndWait | internal/provider/anthropic.go:201-227 | a full queue gives "queue full: request queue full" and changes nothing; otherwise the request joins the back of the queue and the resume worker is running |
| Anthropic.AnthropicProvider.Chat | internal/provider/anthropic.go:116-151 | limited without auto-resume: an error naming the resume time and nothing sent; limited with auto-resume: queued; a rate-limit reply is recorded and queued or returned; success clears a limit in force |
| RateLimit.RateLimitState.constructor | internal/provider/ratelimit.go:46-50 | no limits, not limited, no callbacks |
| RateLimit.RateLimitState.OnRateLimited | internal/provider/ratelimit.go:53-57 | one more callback, nothing else changed |
| RateLimit.RateLimitState.OnResume | internal/provider/ratelimit.go:60-64 | a resume callback is set, nothing else changed |
| RateLimit.RateLimitState.IsRateLimited | internal/provider/ratelimit.go:67-81 | limited exactly when the flag is set and the resume time has not passed |
| RateLimit.RateLimitState.TimeUntilResume | internal/provider/ratelimit.go:91-104 | never negative; zero when not limited; the time left exactly while limited |
| RateLimit.RateLimitState.RecordRateLimit | internal/provider/ratelimit.go:107-123 | the limit is stored under its kind, the resume time only moves later, the state is limited until the reset, and every callback is notified |
| RateLimit.RateLimitState.ClearRateLimit | internal/provider/ratelimit.go:126-137 | no limits and never limited afterwards; the resume callback fires exactly when it was limited and one is set |
| RateLimit.ParseAnthropicRateLimitError | internal/provider/ratelimit.go:152-155 | information exactly for status 429 |
| RateLimit.ParseHeaders | internal/provider/ratelimit.go:162-176 | in 64-bit arithmetic: a Retry-After outside the 64-bit range is ignored and its nanoseconds wrap around on overflow; the limit and remaining counts are 0 when unreadable and the nearest 64-bit bound past the range |
| RateLimit.ParseKind | internal/provider/ratelimit.go:157-211 | the kind is daily, weekly or monthly by the first word the lower-cased message mentions, minute otherwise; the message and hit time are recorded |
| RateLimit.ParseResetAt | internal/provider/ratelimit.go:162-221 | a reset time is always set: the next midnight, the corrected next Monday, or the next first of the month for those kinds, and with the corrected weekly reset a calendar limit always resets in the future |
| RateLimit.DailyResetIsNextMidnight | internal/provider/ratelimit.go:199-201 | the daily reset is a midnight within the next 24 hours, strictly after now |
| RateLimit.WeeklyResetIsNextMonday | internal/provider/ratelimit.go:227-234 | the corrected weekly reset is a Monday midnight strictly after now and at most 7 days away |
| RateLimit.WeeklyResetAsWrittenCanBePast | internal/provider/ratelimit.go:229-233 | as written, on a Monday between 00:00 and 01:00 the "next" reset is that Monday's midnight, already past |
| RateLimit.WeeklyResetAsWrittenExample | internal/provider/ratelimit.go:229-233 | concretely: at 00:30 on a Monday the reset computed is 30 minutes in the past |
| RateLimit.WeeklyResetsAgree | internal/provider/ratelimit.go:227-234 | the weekly reset as written and as intended are the same instant at every time except a Monday between 00:00 and 00:59 UTC |
| RateLimit.MonthlyResetIsNextFirst | internal/provider/ratelimit.go:237-246 | the first of the next month (January of the next year after December), strictly after now and at most 31 days away |
| RateLimit.ErrorText | internal/provider/ratelimit.go:254-260 | "rate limited: msg" without information, else a text starting "rate limited (kind): " |
| RateLimit.IsRateLimitError | internal/provider/ratelimit.go:263-268 | true exactly for a rate-limit error, with its information; nothing for any other error |
| RateLimit.RequestQueue.constructor | internal/provider/ratelimit.go:288-295 | an empty queue whose size is the one given, 100 when it is not positive |
| RateLimit.RequestQueue.Add | internal/provider/ratelimit.go:298-308 | a full queue refuses with "request queue full" and is unchanged; otherwise the request is appended |
| RateLimit.RequestQueue.Pop | internal/provider/ratelimit.go:311-322 | none from an empty queue; otherwise the front request, removed |
| RateLimit.RequestQueue.Clear | internal/provider/ratelimit.go:332-339 | returns every queued request in order and leaves the queue empty |
| RateLimit.AfterAdds | internal/provider/ratelimit.go:298-308 | repeated adds never exceed the bound and keep every request that fitted, in order |
| RateLimit.FifoOrder | internal/provider/ratelimit.go:298-322 | adds only ever extend the queue at the back, so earlier requests stay ahead |
| ProviderRegistry.Registry.constructor | internal/provider/registry.go:16-20 | a new registry holds no provider |
| ProviderRegistry.Registry.Register | internal/provider/registry.go:23-27 | the provider is stored under its own id, replacing any earlier one with that id; nothing else changes |
| ProviderRegistry.Registry.Get | internal/provider/registry.go:30-38 | the provider registered under the id, or "provider not found: id" exactly when there is none |
| ProviderRegistry.Registry.Has | internal/provider/registry.go:53-58 | true exactly when `Get` finds the id |
| ProviderRegistry.Registry.List | internal/provider/registry.go:41-50 | every registered provider exactly once (no two with the same id), and nothing else |
| ProviderRegistry.Registry.AutoDiscover | internal/provider/registry.go:61-90 | the registry after the discovery steps applied in the source's order |
| ProviderRegistry.DiscoveredProviders | internal/provider/registry.go:61-90 | Ollama is always registered, at OLLAMA_URL or the local default; each keyed provider is registered with its key exactly when its variable is non-empty, OpenRouter with its site name and URL |
| ProviderRegistry.DiscoveredKeepsOthers | internal/provider/registry.go:61-90 | providers under other ids are kept, and nothing but the five known ids is added |
| UguduConfig.UguduHome | internal/config/config.go:13-25 | UGUDU_HOME when set; else `.ugudu` under the user's home; else the relative `.ugudu` |
| UguduConfig.ProjectsDir | internal/config/config.go:48-60 | UGUDU_PROJECTS when set; else `ugudu_projects` under the user's home; else the relative `ugudu_projects` |
| UguduConfig.HomeChild | internal/config/config.go:28-45 | with a clean absolute UGUDU_HOME, a file name joined under the home is exactly `home/name` |
| UguduConfig.HomePaths | internal/config/config.go:28-45 | the specs, data, config-file and socket paths are `specs`, `data`, `config.yaml` and `ugudu.sock` directly under UGUDU_HOME |
| UguduConfig.Load | internal/config/config.go:120-138 | a missing file gives the empty configuration; a read error is returned; a parse error is wrapped as "parse config: ..."; else the parsed configuration |
| UguduConfig.ApplyToEnvironment | internal/config/config.go:177-190 | each of the four variables keeps a non-empty value it had and otherwise takes the configured one; every other variable is untouched |
| UguduConfig.FillGetenv | internal/config/config.go:178-189 | one fill step sets only its own variable and only when it was empty |
| UguduConfig.DefaultConfig | internal/config/config.go:193-210 | provider anthropic with claude-sonnet-4-20250514, Ollama at http://localhost:11434, the daemon on :8080, and no API keys |
| UguduConfig.DefaultConfigSetsOnlyOllama | internal/config/config.go:177-210 | applying the default configuration offers only OLLAMA_URL to the environment |
| Environment.Getenv | internal/provider/registry.go:63 | an unset variable reads as empty, a set one as its value |
| ToolCategories.GetRoleCategories | internal/tools/categories.go:106-111 | a listed role's categories; any other role gets the default list, which holds every category |
| ToolCategories.IsToolAllowedForRole | internal/tools/categories.go:114-129 | true exactly when the tool is not a categorised one or its category is among the role's |
| ToolCategories.GetAllowedToolsForRole | internal/tools/categories.go:132-147 | exactly the categorised tools the role may use, each once |
| ToolCategories.UnknownRoleAllowsEverything | internal/tools/categories.go:106-129 | a role without its own entry may use every tool |
| ToolCategories.RoleExamples | internal/tools/categories.go:22-58 | the pm may not read files, the engineer may not make HTTP requests, QA may run commands, the BA may ask colleagues, and an uncategorised tool is open to everyone |
| Communication.AskColleague | internal/tools/communication.go:28-55 | a missing role, a missing question, an absent ask function each give their error in that order; otherwise the reply carries role, question, response and asker exactly when the ask succeeds |
| Communication.AskColleagueFailure | internal/tools/communication.go:43-46 | a failed ask is reported as "ask role: cause" |
| Communication.PercentArg | internal/tools/communication.go:78-81 | the number given as percent_complete, 0 when absent or not a number |
| Communication.ProgressOf | internal/tools/communication.go:67-99 | status required; message, percentage, blockers and next steps read from the arguments with their defaults |
| Communication.CollectProgress | internal/tools/communication.go:67-99 | the loops over blockers and next steps keep only the strings, in order, as `ProgressOf` says |
| Communication.ReportProgress | internal/tools/communication.go:67-125 | the tool's result is the report outcome: the callback's error wrapped as "report progress: ...", otherwise the reply |
| Communication.ReportedWithoutFunction | internal/tools/communication.go:110-124 | with no report function a valid report is still acknowledged, echoing status, percentage (0 by default) and the string blockers |
| Communication.ProgressReplyFields | internal/tools/communication.go:116-124 | the reply says reported, and echoes the status, the percentage and the blockers |
| Communication.StringsMembership | internal/tools/communication.go:83-90 | a string appears in the reply's list exactly when it was among the collected ones |
| Communication.StatusRequired | internal/tools/communication.go:68-71 | without a status the report is refused before anything else happens |
| Documentation.SanitizedChar | internal/tools/documentation.go:345-349 | one character in: a safe one kept, a space turned into `-`, anything else dropped |
| Documentation.Sanitized | internal/tools/documentation.go:341-352 | a file name never longer than the title it comes from |
| Documentation.SanitizeFilename | internal/tools/documentation.go:341-352 | the loop appending kept characters builds exactly `Sanitized` of the name |
| Documentation.SanitizedIsSafe | internal/tools/documentation.go:345-349 | a sanitized name holds only letters, digits, `-` and `_` |
| Documentation.SanitizedKeepsSafe | internal/tools/documentation.go:345-346 | a name already made of safe characters is left unchanged |
| Documentation.SanitizedIdempotent | internal/tools/documentation.go:341-352 | sanitizing twice is sanitizing once |
| Documentation.NumberCriteria | internal/tools/documentation.go:218-223 | the loop writes each criterion as `n. text` on its own line, numbered from 1 in order |
| Documentation.BulletList | internal/tools/documentation.go:314-326 | the loop writes each item as a `- item` line in order |
| Documentation.BulletsList | internal/tools/documentation.go:316-318 | every item's `- item` line is in the list |
| Documentation.DocDraft | internal/tools/documentation.go:71-102 | title then content required, each with its error; the document has id DOC-<unix seconds>, type from the arguments or "doc", version 1.0, status draft, and its path under `docs/` named after the sanitized title |
| Documentation.CreateDoc | internal/tools/documentation.go:71-140 | the tool's result is the document outcome: the directory error "create docs directory: ...", the write error "write document: ...", otherwise the reply and the markdown file written |
| Documentation.CreateDocDefaults | internal/tools/documentation.go:82-139 | a created document is a draft of type doc unless another is given, with id DOC-<unix>, written to a safe file name, whose markdown opens with the title as a heading |
| Documentation.DocHeading | internal/tools/documentation.go:105-115 | a document's markdown opens with `# title` |
| Documentation.RequirementDraft | internal/tools/documentation.go:151-189 | title then description required; type functional, priority medium unless given; status proposed; id REQ-<unix>; rationale and the string criteria from the arguments |
| Documentation.RationaleShown | internal/tools/documentation.go:214-216 | a non-empty rationale gets its own section |
| Documentation.RationaleOmitted | internal/tools/documentation.go:201-223 | without a rationale the markdown is the header, followed by the numbered criteria section exactly when there are criteria |
| Documentation.CriteriaLast | internal/tools/documentation.go:218-223 | the numbered criteria end the markdown |
| Documentation.BuildRequirement | internal/tools/documentation.go:162-189 | the requirement built field by field and criterion by criterion is the draft |
| Documentation.WriteRequirementMarkdown | internal/tools/documentation.go:200-223 | the markdown built step by step is `RequirementMarkdown` |
| Documentation.CreateRequirement | internal/tools/documentation.go:151-236 | the tool's result is the requirement outcome: "save requirement: ..." when the JSON file cannot be written, otherwise the reply |
| Documentation.CreateRequirementDefaults | internal/tools/documentation.go:162-235 | a created requirement is proposed, functional and medium unless given, and its path is `requirements/REQ-<unix>.json` |
| Documentation.RequirementReplyFields | internal/tools/documentation.go:227-235 | the reply echoes status, type, priority and the JSON path |
| Documentation.ObjectArg | internal/tools/documentation.go:283-288 | an object argument exactly when the argument is a JSON object |
| Documentation.SpecDraft | internal/tools/documentation.go:247-292 | title then description required; version 1.0, status draft, id SPEC-<unix>; path `specs/SPEC-<unix>.json`; the string requirements and components, interfaces and data models from the arguments |
| Documentation.BuildSpec | internal/tools/documentation.go:258-292 | the spec built step by step is the draft |
| Documentation.WriteSpecMarkdown | internal/tools/documentation.go:300-326 | the markdown built step by step is `SpecMarkdown` |
| Documentation.CreateSpec | internal/tools/documentation.go:247-338 | the tool's result is the spec outcome: "save spec: ..." when the JSON file cannot be written, otherwise the reply |
| Documentation.CreateSpecDefaults | internal/tools/documentation.go:258-337 | a created spec is a 1.0 draft whose JSON and markdown live beside each other under `specs/` |
| Documentation.SpecReplyFields | internal/tools/documentation.go:330-337 | the reply echoes status, version and path |
| Documentation.SpecListsEverything | internal/tools/documentation.go:314-326 | every related requirement and every component appears as a bullet in the markdown |
| Git.BucketOf | internal/tools/git.go:66-75 | the switch's first matching case: modified when either column is M, added for A in the index, deleted for a D, untracked for `??`, no bucket otherwise |
| Git.BucketExamples | internal/tools/git.go:66-75 | `AM` is modified, `AD` added, ` D` deleted, `??` untracked, and a rename `R ` falls in no bucket |
| Git.Classify | internal/tools/git.go:66-75 | the method's answer is `BucketOf` the two status columns |
| Git.BeforeDots | internal/tools/git.go:58-59 | the branch name is the text before the first `...`, the whole text when there is none |
| Git.ParseStatus | internal/tools/git.go:36-82 | the loop over the status lines gives `StatusOf` the output: branch from the last `##` line, one list per bucket in order, short lines skipped |
| Git.BucketsPartition | internal/tools/git.go:51-76 | the four lists together hold exactly one file per classified line |
| Git.EmptyBucketsNoEntries | internal/tools/git.go:51-82 | no files are listed exactly when no line is classified |
| Git.CleanIffNoChanges | internal/tools/git.go:82 | clean holds exactly when no line of the output names a change in any bucket |
| Git.GitStatus | internal/tools/git.go:24-85 | a failed `git status --porcelain -b` gives "git status: stderr"; otherwise the parsed status |
| Git.DiffArgs | internal/tools/git.go:96-107 | `diff`, then `--staged` when staged is true, then `-- file` for a non-empty file, then the commit last when one is given |
| Git.GitDiff | internal/tools/git.go:95-134 | a failed diff gives "git diff: stderr"; otherwise the diff, its stat and whether it is empty |
| Git.AddArgs | internal/tools/git.go:153-158 | `add` followed by the string entries of the files list |
| Git.AddArgsStrings | internal/tools/git.go:154-158 | exactly the string entries are staged |
| Git.CommitOutcome | internal/tools/git.go:145-201 | message required; the listed files and then `-A` staged when asked, each failure "git add: ..."; a failed commit "git commit: stderr"; success only when every step ran |
| Git.GitCommit | internal/tools/git.go:145-201 | the tool's result is `CommitOutcome` |
| Git.CommitRejoins | internal/tools/git.go:241-249 | a parsed commit line is its five fields joined by `|`, and only the date may hold a `|` |
| Git.CommitsFromLines | internal/tools/git.go:237-251 | every commit listed comes from one line of the log |
| Git.ParseLog | internal/tools/git.go:235-251 | the loop keeps the lines with five fields, in order, as `CommitsOf` says |
| Git.LogArgs | internal/tools/git.go:212-222 | `log --format=%H\|%an\|%ae\|%s\|%ci -nN` with N 10 unless a limit is given, and `-- file` exactly for a non-empty file |
| Git.GitLog | internal/tools/git.go:211-257 | a failed log gives "git log: stderr"; otherwise the parsed commits and their count |
| Git.BranchNameNotEmpty | internal/tools/git.go:286-295 | a non-blank line gives a non-empty branch name |
| Git.CurrentIsListed | internal/tools/git.go:283-296 | the current branch is among the listed ones or empty, no listed name is empty, and a `* ` line makes the current branch non-empty |
| Git.ParseBranches | internal/tools/git.go:283-296 | the loop gives `BranchesOf` and `CurrentOf` the lines |
| Git.GitBranch | internal/tools/git.go:267-340 | list by default; create and checkout need a name, each with its own error; their git failures are wrapped as the source does; any other action is "unknown action: ..." |
| Planning.Loaded | internal/tools/planning.go:49-63 | a missing file is an empty list; an unreadable or unparsable file an error; otherwise the tasks it holds |
| Planning.FirstIndex | internal/tools/planning.go:87-91 | the position of the first task with the id, none when no task has it |
| Planning.FirstIndexUnique | internal/tools/planning.go:87-91 | the first match is the only answer |
| Planning.Saved | internal/tools/planning.go:65-75 | a failed write is reported and leaves the file as it was; otherwise the file holds the new list |
| Planning.GetFindsFirst | internal/tools/planning.go:81-93 | found exactly when some task has the id, and then it is the first such task; otherwise "task not found: id" |
| Planning.FileTaskStore.constructor | internal/tools/planning.go:45-47 | a store over the given path and file |
| Planning.FileTaskStore.Save | internal/tools/planning.go:65-75 | the write error if any; the file holds the tasks exactly when the write succeeds |
| Planning.FileTaskStore.List | internal/tools/planning.go:77-79 | the loaded tasks |
| Planning.FileTaskStore.Get | internal/tools/planning.go:81-93 | the lookup `GetResult` describes |
| Planning.FileTaskStore.Create | internal/tools/planning.go:95-113 | the result and the new file are those of `CreateOutcome` |
| Planning.FileTaskStore.Update | internal/tools/planning.go:115-129 | the result and the new file are those of `UpdateOutcome` |
| Planning.FileTaskStore.Delete | internal/tools/planning.go:131-144 | the result and the new file are those of `DeleteOutcome` |
| Planning.CreateAppends | internal/tools/planning.go:95-113 | a created task is appended after the existing ones, stamped now, with a fresh id only when it had none and status pending only when it had none; its other fields unchanged |
| Planning.FailuresKeepTheFile | internal/tools/planning.go:96-99 | when the file cannot be loaded or written, create, update and delete all fail and leave the file unchanged |
| Planning.CreateThenGet | internal/tools/planning.go:95-113 | a task created under an unused id is then found by that id |
| Planning.UpdateReplacesFirst | internal/tools/planning.go:115-129 | an unknown id is "task not found: id" and nothing changes; otherwise the first task with the id is replaced, stamped now, and every other task kept in place |
| Planning.UpdateThenGet | internal/tools/planning.go:115-129 | after an update the id reads back as the new task |
| Planning.DeleteRemovesFirst | internal/tools/planning.go:131-144 | an unknown id is "task not found: id"; otherwise the first task with the id is removed, the others kept in order |
| Planning.CreateTaskDraft | internal/tools/planning.go:159-186 | title required; the draft is pending, has no id yet, and is created by the tool's role |
| Planning.CreateTask | internal/tools/planning.go:159-198 | the tool's result and the new file are those of `CreateTaskOutcome` |
| Planning.CreateTaskStores | internal/tools/planning.go:159-198 | a new task with the title, pending, stamped now, tagged only with string tags from the arguments, is added after the existing ones and echoed |
| Planning.Overridden | internal/tools/planning.go:220-234 | the argument overrides never touch id, creator, creation time or tags |
| Planning.UpdateTask | internal/tools/planning.go:209-246 | the tool's result and the new file are those of `UpdateTaskOutcome` |
| Planning.RewriteFirst | internal/tools/planning.go:115-129 | updating a task that exists rewrites the first task with its id in place |
| Planning.UpdateTaskRewritesInPlace | internal/tools/planning.go:209-246 | the first task with the id gets the given fields, is stamped now and is echoed; no other task changes |
| Planning.Filtered | internal/tools/planning.go:266-275 | the filter never adds tasks |
| Planning.FilteredExact | internal/tools/planning.go:263-275 | a task is listed exactly when it is stored and matches the status and assignee given |
| Planning.ListTasks | internal/tools/planning.go:256-281 | a load error is "list tasks: ..."; otherwise the matching tasks in stored order and their count |
| Planning.AssignTaskOutcome | internal/tools/planning.go:292-318 | id then assignee required; an unknown task's error returned; a failed update "assign task: ..." |
| Planning.AssignTask | internal/tools/planning.go:292-318 | the tool's result and the new file are those of `AssignTaskOutcome` |
| Planning.AssignTaskReassigns | internal/tools/planning.go:303-311 | the first task with the id gets the new assignee and is stamped now |
| Planning.DelegateTaskOutcome | internal/tools/planning.go:382-420 | task id then role required; an unknown task's error returned; the delegate's failure "delegate: ..." |
| Planning.DelegateTask | internal/tools/planning.go:382-420 | the tool's result and the new file are those of `DelegateTaskOutcome` |
| Planning.DelegateReassignsEvenOnFailure | internal/tools/planning.go:399-413 | the task is reassigned and saved before the delegate runs, so the file is the same whether or not the delegate fails |
| Planning.ReportPlan | internal/tools/planning.go:329-357 | title then content required; the report path is `reports/<type>-<stamp>.md` with type general by default |
| Planning.CreateReport | internal/tools/planning.go:329-369 | the plan's errors returned; a directory failure "create report directory: ..." and a write failure "write report: ..."; success only after the file is written |
| Planning.ReportKeepsContent | internal/tools/planning.go:356-357 | the report opens with `# title` and ends with the content unchanged |
| Testing.BaseTestCommand | internal/tools/testing.go:60-68 | the command given or `go test ./...`, followed by ` -run 'pattern'` exactly when a pattern is given |
| Testing.TestCommand | internal/tools/testing.go:60-75 | the command built step by step is `TestCommandOf` the arguments |
| Testing.VerboseRewritesFirstGoTest | internal/tools/testing.go:71-75 | without verbose, or without `go test` in the command, the command is unchanged; otherwise only its first `go test` becomes `go test -v` |
| Testing.DefaultRunsEverything | internal/tools/testing.go:60 | with no arguments the command is `go test ./...` |
| Testing.TestTimeout | internal/tools/testing.go:78-81 | 300 seconds unless a timeout is given |
| Testing.TestResultsFromLines | internal/tools/testing.go:121-129 | every parsed result comes from one output line that starts with `{` and decodes |
| Testing.ParseTestResults | internal/tools/testing.go:120-129 | the loop keeps the decodable `{` lines in order, as `TestResultsOf` says |
| Testing.RunTests | internal/tools/testing.go:58-146 | the command run, passed exactly when it succeeds, stdout or else stderr as output, the error and exit code exactly on failure, results only for a `-json` command with at least one decoded line, and the artifact path only when an artifact directory is set |
| Testing.BugDraft | internal/tools/testing.go:157-200 | title then description required; id BUG-<unix>, status open, severity medium unless given, and the optional fields from the arguments |
| Testing.CreateBugReport | internal/tools/testing.go:157-218 | the tool's result is the bug-report outcome: "save bug report: ..." on a failed write, otherwise the reply |
| Testing.BugReportDefaults | internal/tools/testing.go:168-217 | a saved bug is open, medium unless a severity is given, has only string steps from the arguments, and is written to `bugs/BUG-<unix>.json` |
| Testing.VerifiedStatus | internal/tools/testing.go:253-257 | verified when the fix is confirmed, open (reopened) otherwise |
| Testing.VerifyFixPlan | internal/tools/testing.go:229-258 | bug id required; verified required as a boolean; "bug not found: id" when the file cannot be read; "parse bug report: ..." when it does not decode |
| Testing.VerifyFixChangesOnlyStatus | internal/tools/testing.go:247-262 | the stored bug is rewritten with only its status and update time changed, verified exactly when confirmed, open exactly when not |
| Testing.VerifyFix | internal/tools/testing.go:229-278 | the plan's errors returned; success only after the bug file is rewritten |
| Testing.PickedCount | internal/tools/testing.go:302-327 | as many results as the limit allows, or all usable files when there are fewer |
| Testing.PickedFromFiles | internal/tools/testing.go:308-326 | every result is a loaded file, not a directory, tagged with its own file name |
| Testing.PickResults | internal/tools/testing.go:307-327 | the loop from the last entry back to the first gives `Picked` |
| Testing.ListTestResults | internal/tools/testing.go:288-333 | a missing directory is an empty list; another read error "read tests directory: ..."; otherwise the picked results, newest entry first, at most 10 unless a limit is given, and their count |
| Tools.BuiltinMapHoldsBuiltins | internal/tools/tools.go:31-46 | the seven built-in tools are registered, each under its own name |
| Tools.Registry.constructor | internal/tools/tools.go:31-46 | a new registry holds exactly the built-in tools |
| Tools.Registry.Register | internal/tools/tools.go:49-51 | the tool is stored under its name, replacing any tool of that name; nothing else changes |
| Tools.Registry.Get | internal/tools/tools.go:54-57 | the tool registered under the name, none when there is none |
| Tools.Registry.List | internal/tools/tools.go:60-66 | every registered tool exactly once, and nothing else |
| Tools.Registry.Execute | internal/tools/tools.go:69-75 | "tool not found: name" for an unknown name, otherwise the tool's own result |
| Tools.ExecuteUnknownRunsNothing | internal/tools/tools.go:70-73 | an unknown tool name runs no tool |
| Tools.ArgString | internal/tools/tools.go:88-91 | a string argument exactly when the argument is a JSON string |
| Tools.ArgRequired | internal/tools/communication.go:29-32 | a required argument exactly when it is a non-empty JSON string |
| Tools.ArgStringOr | internal/tools/documentation.go:82-85 | the string argument when given, the default otherwise |
| Tools.ArgNumber | internal/tools/tools.go:279-282 | a number exactly when the argument is a JSON number |
| Tools.StringItemsMembership | internal/tools/planning.go:180-186 | a string is kept exactly when it is one of the list's string items |
| Tools.CollectStrings | internal/tools/planning.go:180-186 | the loop keeps the string items in order, as `StringItems` says |
| Tools.StringsArg | internal/tools/communication.go:83-90 | exactly the string items of the argument when it is a list, nothing otherwise |
| Tools.ResolveSafePathAsWritten | internal/tools/tools.go:147-172 | as written: a path under the home directory is kept; any other is cleaned, loses one leading `../` and then one `..`, and is joined under the default project |
| Tools.AsWrittenClimb | internal/tools/tools.go:167-171 | as written, `../../../x` is cut to `/../x` before the join |
| Tools.ResolveSafePathAsWrittenEscapes | internal/tools/tools.go:167-171 | as written, `../../../x` resolves to the sibling project `ugudu_projects/x`, outside the default project; the corrected version stays inside |
| Tools.DropParents | internal/tools/tools.go:168-169 | the leading `..` elements dropped, keeping the rest in order |
| Tools.ResolveSafePath | internal/tools/tools.go:147-172 | corrected: a path under the home directory is kept; any other loses every leading `..` and is joined under the default project |
| Tools.SafeRelativeNoDotDot | internal/tools/tools.go:167-169 | the relative part kept has no `..` element |
| Tools.ResolveSafePathStaysInProjects | internal/tools/tools.go:160-171 | every path not under the home directory resolves inside the default project directory |
| Tools.ResolveSafePathAgrees | internal/tools/tools.go:167-171 | for a relative path that does not climb, the correction changes nothing |
| Tools.ReadFile | internal/tools/tools.go:87-109 | path required; an invalid path "invalid path: ..."; a read failure "read file: ..."; otherwise path, content and size |
| Tools.WritePlan | internal/tools/tools.go:117-134 | path then content required; the file written is the resolved safe path with the content given; a directory failure "create directory: ..." |
| Tools.WriteFile | internal/tools/tools.go:117-144 | the plan's errors returned; "write file: ..." on a failed write; otherwise the path and the number of bytes written |
| Tools.EditPlan | internal/tools/tools.go:180-208 | path, old text and new text required in that order; the file must be readable and hold the old text, whose first occurrence is replaced |
| Tools.EditFile | internal/tools/tools.go:180-218 | the plan's errors returned; "write file: ..." on a failed write; otherwise the path and replaced |
| Tools.EditWithoutMatchWritesNothing | internal/tools/tools.go:204-206 | when the old text is not in the file the edit is "old_text not found in file" and nothing is written |
| Tools.WorkingPath | internal/tools/tools.go:233-238 | `.` and relative paths go through the safe resolution, absolute ones are used as given |
| Tools.ListFilesDir | internal/tools/tools.go:227-238 | the directory listed: the default project for no path, else the working path of the one given |
| Tools.SearchRoot | internal/tools/tools.go:406-417 | the search root: the default project for no root, else the working path of the one given |
| Tools.RunCommandSetup | internal/tools/tools.go:272-299 | command required; timeout 60 seconds unless given; the directory is the working path of the one given, the default project otherwise |
| Tools.HTTPMethod | internal/tools/tools.go:338-341 | GET unless a method is given, which is upper-cased |
| Tools.HTTPRequestSetup | internal/tools/tools.go:333-341 | url required; the method and the url to request |
| Tools.HTTPMethodUpper | internal/tools/tools.go:340 | the method sent has no lower-case letter |
| SandboxedTools.OperationType | internal/tools/sandboxed_registry.go:117-135 | write exactly for the ten writing tools, read for every other tool |
| SandboxedTools.OperationTypeMutating | internal/tools/sandboxed_registry.go:117-135 | the sandbox treats a tool's operation as mutating exactly when it is a writing tool |
| SandboxedTools.ResolveToolPath | internal/tools/sandboxed_registry.go:138-149 | without a sandbox the path is kept; an absolute path goes through the sandbox's absolute resolution, a relative one through its relative resolution |
| SandboxedTools.WithinHasPrefix | internal/tools/sandboxed_registry.go:138-149 | a path inside a directory starts with it |
| SandboxedTools.WriteToolPathsStayInSandbox | internal/tools/sandboxed_registry.go:100-108 | under isolation a writing tool's path that resolves lies under the sandbox directory |
| SandboxedTools.PathKeysDistinct | internal/tools/sandboxed_registry.go:103 | the five path keys are distinct |
| SandboxedTools.CopyArgs | internal/tools/sandboxed_registry.go:94-97 | the clone equals the arguments |
| SandboxedTools.SandboxedRegistry.constructor | internal/tools/sandboxed_registry.go:25-38 | the workspace's sandbox for the role, none without a workspace |
| SandboxedTools.SandboxedRegistry.Get | internal/tools/sandboxed_registry.go:41-48 | a tool exactly when the role may use it and the base registry has it |
| SandboxedTools.SandboxedRegistry.List | internal/tools/sandboxed_registry.go:51-62 | a listing of the base tools the role may use, each once |
| SandboxedTools.SandboxedRegistry.SandboxArgs | internal/tools/sandboxed_registry.go:92-114 | the arguments with each non-empty path key replaced by its resolution when that succeeds |
| SandboxedTools.SandboxedRegistry.Execute | internal/tools/sandboxed_registry.go:65-89 | a forbidden tool gives "tool name is not available for role role" and runs nothing; an allowed one runs on the sandboxed arguments; the callback sees each call with its result |
| SandboxedTools.SandboxedRegistry.Names | internal/tools/sandboxed_registry.go:202-205 | the names of the tools, in order |
| SandboxedTools.SandboxedRegistry.GetAllowedToolNames | internal/tools/sandboxed_registry.go:200-207 | the names of a listing of the allowed tools |
| SandboxedTools.SandboxedRegistry.FormatToolsForPrompt | internal/tools/sandboxed_registry.go:210-222 | "No tools available." for an empty listing, otherwise the header and one `- name: description` line per tool |
| SandboxedTools.SandboxedRegistry.ListToolNames | internal/tools/sandboxed_registry.go:225-236 | "none" for an empty listing, otherwise the names joined by ", " |
| SandboxedTools.FilterAllowed | internal/tools/sandboxed_registry.go:52-61 | exactly the tools the role may use, each once |
| SandboxedTools.ToolLinesHaveEach | internal/tools/sandboxed_registry.go:218-220 | every listed tool has its line in the prompt text |
| SandboxedTools.GetAgreesAcrossRoles | internal/tools/sandboxed_registry.go:41-48 | two roles allowed a tool see the same tool |
| SandboxedTools.UncategorisedToolVisible | internal/tools/sandboxed_registry.go:41-48 | a tool outside every category is visible to every role |
| SandboxedTools.NoSandboxKeepsArgs | internal/tools/sandboxed_registry.go:76-78 | without a sandbox the arguments are passed unchanged |
| SandboxedTools.SandboxKeepsOtherKeys | internal/tools/sandboxed_registry.go:92-114 | keys other than the path keys are passed unchanged |
| SandboxedTools.WriteToolArgsInSandbox | internal/tools/sandboxed_registry.go:100-110 | under isolation, each path argument of a writing tool is either left as given (resolution failed) or lies under the sandbox directory |
| Sandbox.ListAllowedPaths | internal/workspace/sandbox.go:163-167 | the sandbox directory, then the source directory, then each shared path in order |
| Sandbox.ToRelativePath | internal/workspace/sandbox.go:170-199 | the loop over sandbox, source and shared paths gives the path relative to the first one it starts with and is relative to, or the path itself |
| Sandbox.FirstExisting | internal/workspace/sandbox.go:102-107 | a path found is one of the bases joined with the path, and it exists; nothing found means none of them exists |
| Sandbox.ResolveReadPath | internal/workspace/sandbox.go:88-111 | sandbox first, then source, then the shared paths; the sandbox path with "file not found" when none exists |
| Sandbox.ResolvePath | internal/workspace/sandbox.go:49-71 | the method's answer is `Resolution`: no isolation passes the path through; an absolute path is made relative first; a cleaned path starting with `..` is outside the sandbox; writes go to the sandbox, reads through the fall-back |
| Sandbox.FirstPrefix | internal/workspace/sandbox.go:135-142 | the first shared path the path starts with, none when it starts with none |
| Sandbox.ResolveAbsolutePath | internal/workspace/sandbox.go:114-145 | the loop's answer is `AbsoluteResolution`: anything under the sandbox allowed; under source or a shared path read-only; anything else access denied |
| Sandbox.IsReadable | internal/workspace/sandbox.go:148-154 | readable exactly when the read resolution succeeds and names an existing file |
| Sandbox.ReadableIsAllowed | internal/workspace/sandbox.go:148-167 | under isolation a readable path lies inside one of the allowed directories |
| Sandbox.IsWritable | internal/workspace/sandbox.go:157-160 | writable exactly when the write resolution succeeds |
| Sandbox.IsolationNonePassesThrough | internal/workspace/sandbox.go:51-53 | without isolation both resolutions pass every path through unchanged |
| Sandbox.OutsideSandboxExactly | internal/workspace/sandbox.go:56-64 | under isolation the outside-sandbox error comes exactly for a path whose cleaned relative form climbs with `..` |
| Sandbox.WritesStayInSandbox | internal/workspace/sandbox.go:66-85 | under isolation every successful write resolution lies inside the sandbox directory |
| Sandbox.ReadFound | internal/workspace/sandbox.go:88-107 | a successful read of a non-climbing path lies inside one of the bases and exists |
| Sandbox.ReadsStayInAllowed | internal/workspace/sandbox.go:88-111 | successful reads lie inside an allowed directory and exist; a missing file reports the sandbox path |
| Sandbox.AbsoluteWritesOnlyInSandbox | internal/workspace/sandbox.go:114-145 | under isolation an absolute write is allowed exactly under the sandbox directory |
| Sandbox.AbsoluteReadsUnderAllowed | internal/workspace/sandbox.go:114-145 | under isolation an absolute read is allowed exactly under one of the allowed directories |
| ProjectConfig.NewProjectConfig | internal/workspace/config.go:62-86 | API version "ugudu/v1", kind "Project", the given name, source path and team, created and updated now, no shared paths, sandbox isolation with 30-day artifact retention, log level "info" kept 90 days |
| ProjectConfig.Validate | internal/workspace/config.go:120-150 | the first failing check in order (name, source path, source existence, each shared path, isolation mode) with its message; no error exactly when the configuration is `Valid` |
| ProjectConfig.Stamped | internal/workspace/config.go:104-105 | saving sets the update time and changes nothing else |
| ProjectConfig.Load | internal/workspace/config.go:89-101 | a read failure and a parse failure each reported with their prefix; otherwise the parsed configuration |
| ProjectConfig.Save | internal/workspace/config.go:104-117 | the stamped configuration encoded, its directory created and the file written, each failure reported in that order; on success the bytes written |
| ProjectConfig.SaveThenLoad | internal/workspace/config.go:89-117 | with an encoding the parser inverts, loading what was saved gives the stamped configuration |
| ProjectConfig.NewProjectConfigValid | internal/workspace/config.go:62-86 | a new configuration validates exactly when its name and source path are set and the source path exists |
| ProjectConfig.StampedKeepsValidity | internal/workspace/config.go:104-150 | saving never changes whether a configuration validates |
| Workspace.Workspace.constructor | internal/workspace/workspace.go:36-41 | the project's name, directory and configuration, with no sandbox cached |
| Workspace.Workspace.GetSandbox | internal/workspace/workspace.go:140-159 | the sandbox for the role from the current configuration; a cached one is returned unchanged, otherwise the new one is cached under the role and nothing else changes |
| Workspace.Workspace.SandboxPathUnderProject | internal/workspace/workspace.go:162-164 | a role's sandbox is `<project>/workspaces/<role>` |
| Workspace.Workspace.TasksPathUnderProject | internal/workspace/workspace.go:167-169 | the task file is `<project>/tasks/tasks.json` |
| Workspace.Workspace.ActivityPathUnderProject | internal/workspace/workspace.go:172-174 | a role's activity log is `<project>/activity/<role>.log` |
| Workspace.Workspace.ArtifactPathUnderProject | internal/workspace/workspace.go:177-179 | an artifact type's directory is `<project>/artifacts/<type>` |
| Workspace.NameError | internal/workspace/workspace.go:47-52 | a project name is accepted exactly when it is non-empty and has neither '/' nor '\\' |
| Workspace.InitDirsUnderProject | internal/workspace/workspace.go:76-84 | the project directory, then tasks, activity, the three artifact directories and workspaces beneath it, in that order |
| Workspace.New | internal/workspace/workspace.go:21-42 | a missing project directory and a configuration that does not load are errors; otherwise the workspace of that directory and configuration with no sandbox cached |
| Workspace.FirstFailure | internal/workspace/workspace.go:86-90 | the first directory that fails to be created, with its error, every earlier one made; none when all are made |
| Workspace.MakeDirs | internal/workspace/workspace.go:86-90 | the loop stops at `FirstFailure` and has made exactly the directories before it |
| Workspace.FirstFailurePrefix | internal/workspace/workspace.go:86-90 | what the loop leaves is a prefix of the directories, each one made |
| Workspace.InitError | internal/workspace/workspace.go:45-115 | the checks on the name, the source path and the project directory, then directory creation, saving the configuration, the task file and the index, each failure with its message in that order; no error only when all succeed |
| Workspace.InitCreated | internal/workspace/workspace.go:66-90 | nothing is created when a check fails; otherwise the directories before the first failing one |
| Workspace.Init | internal/workspace/workspace.go:45-115 | fails exactly with `InitError`, leaves exactly `InitCreated`, and on success is a fresh workspace with the new configuration and no sandbox cached |
| Workspace.InitLeavesPrefix | internal/workspace/workspace.go:66-107 | a failed `Init` leaves behind a prefix of its directories, each one made |
| Workspace.Delete | internal/workspace/workspace.go:118-137 | a missing project, an index update failure and a removal failure each reported in that order; no error exactly when all succeed |
| Projects.Find | internal/workspace/projects.go:120-125 | the first entry with the name, every earlier one named otherwise; none when no entry has it |
| Projects.FindProject | internal/workspace/projects.go:120-125 | the search loop finds exactly `Find`'s index |
| Projects.SaveKeepsProjects | internal/workspace/projects.go:76-98 | saving never changes the list in memory; the file then holds that list, and a failed save leaves the file as it was |
| Projects.LoadMissingIsEmpty | internal/workspace/projects.go:52-61 | with no index file, loading starts an empty list and writes it out; the error is the save's |
| Projects.LoadStored | internal/workspace/projects.go:52-73 | a readable, decodable file becomes the list; a read failure and a decoding failure are reported with their prefixes and change nothing |
| Projects.AddKeepsNamesUnique | internal/workspace/projects.go:100-113 | a name already present is refused and nothing changes; otherwise the entry is appended and saved; names stay unique |
| Projects.RemoveSplicesOut | internal/workspace/projects.go:116-128 | a missing name is an error; otherwise the first entry with it is cut out, the others keep their order, and with unique names the name is gone |
| Projects.GetFinds | internal/workspace/projects.go:131-142 | found exactly when some entry has the name, and then it is that entry; otherwise "project not found" |
| Projects.UpdateReplaces | internal/workspace/projects.go:155-168 | a missing name is an error; otherwise the entry with that name is replaced, stamped now, in place, every other entry unchanged |
| Projects.ProjectIndex.constructor | internal/workspace/projects.go:38-40 | an empty index over the given file |
| Projects.ProjectIndex.SaveUnsafe | internal/workspace/projects.go:76-98 | the new state and error are `Saving`'s |
| Projects.ProjectIndex.Load | internal/workspace/projects.go:52-73 | the new state and error are `Loading`'s |
| Projects.ProjectIndex.Add | internal/workspace/projects.go:100-113 | the new state and error are `AddStep`'s |
| Projects.ProjectIndex.Remove | internal/workspace/projects.go:116-128 | the new state and error are `RemoveStep`'s |
| Projects.ProjectIndex.Get | internal/workspace/projects.go:131-142 | the answer is `GetResult` on the list |
| Projects.ProjectIndex.List | internal/workspace/projects.go:145-152 | a copy of the list, in order |
| Projects.ProjectIndex.Update | internal/workspace/projects.go:155-168 | the new state and error are `UpdateStep`'s |
| Projects.CorruptIndexOverwritten | internal/workspace/projects.go:35-49 | as written, a corrupt index file is reported once, then treated as an empty index, so the next add overwrites the file with only the new project |
| Projects.FailedLoadReportedAgain | internal/workspace/projects.go:35-49 | with the load made once only when it succeeds, a failed load is reported again by every later call and the file is never overwritten |
| Projects.IndexStepsAgree | internal/workspace/projects.go:35-49 | until a load has failed, the once-only index step as written and as intended give the same state and error |
| Projects.LoadedOnce | internal/workspace/projects.go:35-49 | after a successful load the index is loaded and every later call reuses it without error |
| Projects.GlobalIndex.constructor | internal/workspace/projects.go:29-32 | no index loaded yet, over the given file |
| Projects.GlobalIndex.GetProjectIndex | internal/workspace/projects.go:35-49 | the new state and error are `GetProjectIndexStep`'s |
| Projects.GlobalIndex.AddProjectToIndex | internal/workspace/projects.go:171-184 | a load failure is returned; otherwise the entry, with no team and stamped now, is added as `AddStep` does |
| Projects.GlobalIndex.RemoveProjectFromIndex | internal/workspace/projects.go:187-194 | a load failure is returned; otherwise the name is removed as `RemoveStep` does |
| Projects.GlobalIndex.ListProjects | internal/workspace/projects.go:197-204 | a load failure, or the loaded list |
| Projects.GlobalIndex.GetProject | internal/workspace/projects.go:207-213 | a load failure, or `GetResult` on the loaded list |
| Activity.NewActivityEntry | internal/workspace/activity.go:40-50 | a successful entry of the kind, agent and role, stamped now, with the given ID, no task, no data, no error and zero duration |
| Activity.WithTask | internal/workspace/activity.go:53-56 | only the task ID changes |
| Activity.WithData | internal/workspace/activity.go:59-62 | the key is added or overwritten with the value; every other key and field is kept |
| Activity.WithError | internal/workspace/activity.go:65-71 | the entry is marked failed; a non-nil error's text is recorded, a nil one leaves the error text as it was |
| Activity.Milliseconds | internal/workspace/activity.go:74-77 | `Duration.Milliseconds`: whole milliseconds truncated toward zero, for negative durations too |
| Activity.WithDuration | internal/workspace/activity.go:74-77 | only the duration changes, to the whole milliseconds of the nanoseconds given |
| Activity.SanitizeArgs | internal/workspace/activity.go:135-156 | the loop over the arguments builds exactly `Sanitized` |
| Activity.SanitizedArgs | internal/workspace/activity.go:135-156 | the same keys; each sensitive key redacted, each other string over 1000 bytes cut to its first 1000 and "...", everything else kept |
| Activity.SanitizedIdempotent | internal/workspace/activity.go:135-164 | sanitizing again changes nothing |
| Activity.ToolCallActivity | internal/workspace/activity.go:80-85 | a successful tool-call entry holding exactly the tool's name and its sanitized arguments |
| Activity.DelegationActivity | internal/workspace/activity.go:88-94 | a successful delegation entry for the task holding exactly the target role and the message |
| Activity.TaskUpdateActivity | internal/workspace/activity.go:97-103 | a successful task-update entry for the task holding exactly the old and new status |
| Activity.MessageActivity | internal/workspace/activity.go:106-112 | a successful message entry holding exactly the direction, the peer and the content cut to 500 bytes |
| Activity.ProgressActivity | internal/workspace/activity.go:115-121 | a successful progress entry for the task holding exactly the status and the percentage |
| Activity.ErrorActivity | internal/workspace/activity.go:124-132 | a failed error entry holding exactly the context, with the error's text when there is one |
| ActivityLog.QueryActivityLog | internal/workspace/activity_logger.go:127-190 | the scanning loop gives exactly `QueryLog` on the file |
| ActivityLog.Cap | internal/workspace/activity_logger.go:179-182 | with a positive limit no more than that many entries are kept |
| ActivityLog.QueryWindow | internal/workspace/activity_logger.go:137-189 | on a scannable file the answer is the entries that pass the filters, less the first `Offset`, cut to `Limit`; malformed lines are skipped |
| ActivityLog.NoLimitKeepsEveryMatch | internal/workspace/activity_logger.go:178-181 | a limit of 0 or less cuts nothing: every matching entry past the offset is returned |
| ActivityLog.QueryFilters | internal/workspace/activity_logger.go:128-183 | every entry returned passes the time window, type and task filters; a missing file gives no entries; one that cannot be opened is an error |
| ActivityLog.ExchangeNewest | internal/workspace/activity_logger.go:234-238 | one pass of the inner loop puts the newest remaining entry at position i, as a permutation |
| ActivityLog.SortActivityEntries | internal/workspace/activity_logger.go:231-240 | the entries end newest first and are a permutation of the input |
| ActivityLog.MergeLogs | internal/workspace/activity_logger.go:204-217 | the loop gives `Merged`: the query results of each `.log` file that is not a directory, in directory order, with failing files skipped |
| ActivityLog.QueryProjectActivity | internal/workspace/activity_logger.go:193-228 | a missing directory gives no entries, an unreadable one an error; otherwise the merged entries newest first, cut to the limit, the ones kept at least as new as the ones cut |
| ActivityLog.PrefixOfSorted | internal/workspace/activity_logger.go:222-225 | the entries kept by the limit stay newest first and none is older than an entry cut |
| ActivityLog.AsLines | internal/workspace/activity_logger.go:58-69 | each buffered entry becomes one line that decodes back to it |
| ActivityLog.ActivityLogger.constructor | internal/workspace/activity_logger.go:39-45 | a logger for the role and file, with the file's existing lines, nothing buffered and no entry counted |
| ActivityLog.ActivityLogger.Log | internal/workspace/activity_logger.go:49-81 | an entry without a role takes the logger's; a failed write of the entry or of the newline is reported and counts nothing; otherwise the entry is buffered, counted, and every tenth entry flushes the buffer |
| ActivityLog.ActivityLogger.Flush | internal/workspace/activity_logger.go:84-92 | a failed flush is reported and moves nothing; otherwise the buffered entries reach the file, in order, and the sync's error is returned |
| ActivityLog.ActivityLogger.Close | internal/workspace/activity_logger.go:95-103 | as `Flush`, with the close's error returned and the flush failure labelled "flush on close" |
| ActivityLog.ActivityLogger.Query | internal/workspace/activity_logger.go:106-114 | the buffer is flushed (its error ignored) and the answer is `QueryLog` on the file as it then is |
| ActivityLog.NewActivityLogger | internal/workspace/activity_logger.go:25-46 | a failure creating the directory and one opening the file are reported in that order; otherwise a fresh logger on the role's activity path |
| ActivityLog.TrackEntries | internal/workspace/activity_logger.go:270-293 | the loop's counters, first and last instants are exactly `Track` over the entries |
| ActivityLog.SummarizeActivity | internal/workspace/activity_logger.go:254-302 | the summary is `Summary` of the entries |
| ActivityLog.TrackFields | internal/workspace/activity_logger.go:270-293 | the one-pass loop agrees with the separate counts by type and by role, the earliest and latest instants, the successes and the positive durations |
| ActivityLog.EarliestLatest | internal/workspace/activity_logger.go:266-292 | the earliest and latest instants bound every entry and each is the first entry's or some entry's instant |
| ActivityLog.SummaryCounts | internal/workspace/activity_logger.go:255-276 | the total is the number of entries, and the counts by type and by role each add up to it; no entries means empty maps |
| ActivityLog.SummaryTypes | internal/workspace/activity_logger.go:274-276 | a type is counted exactly when some entry has it, and its count is how many entries have it |
| ActivityLog.SummaryInstants | internal/workspace/activity_logger.go:262-292 | for entries, the first and last instants bound them all and are some entry's instants |
| ActivityLog.SummaryAverage | internal/workspace/activity_logger.go:282-299 | the average of the positive durations is at least 1 ms when there is one, and 0 when there is none |
| TaskStore.LoadOnce | internal/workspace/task_store.go:62-83 | a loaded store is not read again; a missing file loads as no tasks and a stored one as its tasks; loading fails exactly when the file cannot be read or decoded, and a second load after success changes nothing |
| TaskStore.SaveKeepsMemory | internal/workspace/task_store.go:86-97 | saving never changes the tasks in memory; a successful save stores them, a failed one leaves the file as it was |
| TaskStore.FirstIndex | internal/workspace/task_store.go:158-162 | the first task with the ID, every earlier one with another ID; none when no task has it |
| TaskStore.FindTask | internal/workspace/task_store.go:214-215 | the search loop finds exactly `FirstIndex`'s index |
| TaskStore.FilterByStatus | internal/workspace/task_store.go:122-128 | the loop keeps exactly `WithStatus` |
| TaskStore.FilterByAssignee | internal/workspace/task_store.go:140-146 | the loop keeps exactly `AssignedTo` |
| TaskStore.WithStatusExactly | internal/workspace/task_store.go:122-128 | the tasks kept are exactly those with the status, each as often as in the store |
| TaskStore.AssignedToExactly | internal/workspace/task_store.go:140-146 | the tasks kept are exactly those assigned to the role, each as often as in the store |
| TaskStore.LoadErrorsChangeNothing | internal/workspace/task_store.go:104-105 | when loading fails, creating, updating, deleting and listing return that error and change nothing |
| TaskStore.CreateAppends | internal/workspace/task_store.go:167-203 | the task is appended with a generated ID when it has none, stamped now, "pending" when it has no status, every other field kept; the append stays in memory even when the save fails; the creation entry is logged only after a successful save with a logger |
| TaskStore.CreatedEntryRecords | internal/workspace/task_store.go:195-199 | the creation entry is a task update by the creator from "" to the task's status, with action "created" and the title |
| TaskStore.TaskIdShape | internal/workspace/task_store.go:176-178 | a generated ID is "TASK-" followed by one to six digits |
| TaskStore.UpdateReplacesFirst | internal/workspace/task_store.go:206-235 | a missing ID is an error; otherwise the first task with the ID is replaced, stamped now, in place, every other task unchanged; a status change is logged only after a successful save with a logger |
| TaskStore.DeleteRemovesFirst | internal/workspace/task_store.go:238-254 | a missing ID is an error; otherwise the first task with the ID is cut out, the others keep their order, and nothing is logged |
| TaskStore.AddCommentAppends | internal/workspace/task_store.go:257-280 | a missing ID is an error; otherwise the task gets one more comment with a generated ID, the author, the content and now, and is stamped now, nothing else changing |
| TaskStore.GetFindsFirst | internal/workspace/task_store.go:150-164 | found exactly when some task has the ID, and then it is a stored task with that ID; otherwise "task not found"; the store is only loaded |
| TaskStore.CountTasks | internal/workspace/task_store.go:300-319 | the counting loop gives exactly `StatsOf` |
| TaskStore.CountedAllIsCounts | internal/workspace/task_store.go:308-319 | the one-pass counts agree with separate counts of statuses, priorities, assignees and overdue tasks |
| TaskStore.StatsProperties | internal/workspace/task_store.go:292-322 | the total is the number of tasks and the status counts add up to it; a status, a non-empty priority or a non-empty assignee is counted exactly when some task has it; no more tasks are overdue than there are, and none when none is |
| TaskStore.TaskStore.constructor | internal/workspace/task_store.go:47-59 | a store on the project's task file, with or without a logger, not loaded |
| TaskStore.TaskStore.Load | internal/workspace/task_store.go:62-83 | the new state is `Loading`'s; a failure changes nothing |
| TaskStore.TaskStore.Save | internal/workspace/task_store.go:86-97 | the new state and error are `Saving`'s |
| TaskStore.TaskStore.List | internal/workspace/task_store.go:100-111 | the new state and answer are `ListStep`'s |
| TaskStore.TaskStore.ListByStatus | internal/workspace/task_store.go:114-129 | the new state and answer are `ListByStatusStep`'s |
| TaskStore.TaskStore.ListByAssignee | internal/workspace/task_store.go:132-147 | the new state and answer are `ListByAssigneeStep`'s |
| TaskStore.TaskStore.Get | internal/workspace/task_store.go:150-164 | the new state and answer are `GetStep`'s |
| TaskStore.TaskStore.Create | internal/workspace/task_store.go:167-203 | the new state, error and created task are `CreateStep`'s |
| TaskStore.TaskStore.Update | internal/workspace/task_store.go:206-235 | the new state, error and stored task are `UpdateStep`'s |
| TaskStore.TaskStore.Delete | internal/workspace/task_store.go:238-254 | the new state and error are `DeleteStep`'s |
| TaskStore.TaskStore.AddComment | internal/workspace/task_store.go:257-280 | the new state and error are `AddCommentStep`'s |
| TaskStore.TaskStore.Stats | internal/workspace/task_store.go:292-322 | the new state and answer are `StatsStep`'s |
| Standup.DaysBack | internal/workspace/standup.go:85-89 | the days since Monday lie between 0 and 6 |
| Standup.PeriodBounds | internal/workspace/standup.go:75-96 | the period ends now and starts at a midnight no later: today's for the daily and any unknown period, the Monday of this week's for the weekly one, which is less than seven days back and is today exactly on a Monday |
| Standup.Keep | internal/workspace/standup_generator.go:68-82 | filtering never gives more entries than there are |
| Standup.KeepExactly | internal/workspace/standup_generator.go:68-82 | the entries kept are exactly those that pass the test |
| Standup.GenerateTeamSummary | internal/workspace/standup_generator.go:61-92 | the loop gives exactly `TeamSummaryOf` |
| Standup.TeamTallyCounts | internal/workspace/standup_generator.go:64-85 | the loop's counters are the roles seen, the tool calls, the successful tool calls, the delegations and the total tool-call duration |
| Standup.TeamSummaryCounts | internal/workspace/standup_generator.go:61-92 | active members are the distinct roles, none exactly for no entries; tool calls, delegations and duration are those counts; the success rate is a percentage, 0 without tool calls |
| Standup.MemberTallyCounts | internal/workspace/standup_generator.go:125-164 | tool calls split into successes and failures; the delegation count and the counts of tasks moved to completed and to in progress are the matching entries' counts |
| Standup.MemberTallyCollects | internal/workspace/standup_generator.go:139-162 | the blockers are the non-empty error texts in order, and the tool counts count each tool name the calls carry |
| Standup.MemberTallyAgent | internal/workspace/standup_generator.go:126-128 | the agent ID is the first non-empty one among the entries, "" when there is none |
| Standup.ErrorTextsPresent | internal/workspace/standup_generator.go:159-162 | there is a blocker exactly when some error entry has a non-empty text |
| Standup.MemberReportMeans | internal/workspace/standup_generator.go:117-194 | the report is for the role; tool calls are successes plus failures; "blocked" exactly when an error entry has a text, "idle" exactly without entries; at most five top tools, each with its true count; at most the first five entries as recent activity |
| Standup.GenerateSingleMemberReport | internal/workspace/standup_generator.go:117-194 | the report is `MemberReportFor` the role and its entries |
| Standup.CountEntry | internal/workspace/standup_generator.go:126-163 | one pass of the loop is `MemberStep` |
| Standup.CollectUsages | internal/workspace/standup_generator.go:167-170 | one usage per counted tool, with its count, no tool twice |
| Standup.TopTools | internal/workspace/standup_generator.go:171-177 | the five most used tools, or all when fewer, ordered by count, each with its count, and no tool left out used more than one kept |
| Standup.SortedTools | internal/workspace/standup_generator.go:171-177 | any ordering by count of the usages, cut to five, meets `TopToolsOf` |
| Standup.LeftOutCountLess | internal/workspace/standup_generator.go:171-176 | after ordering by count, no tool cut off is used more than a tool kept |
| Standup.GroupedByRole | internal/workspace/standup_generator.go:97-100 | the groups are keyed by exactly the roles seen, and each holds that role's entries in order |
| Standup.GroupByRole | internal/workspace/standup_generator.go:97-100 | the loop builds exactly `Grouped` |
| Standup.ReportEach | internal/workspace/standup_generator.go:102-106 | one report per group, each the report of its role's entries |
| Standup.GenerateMemberReports | internal/workspace/standup_generator.go:95-114 | one report per role seen, in increasing role order, each the report of that role's entries |
| Standup.GroupedReports | internal/workspace/standup_generator.go:102-111 | sorting the per-group reports by role gives `MemberReportsOf` |
| Standup.SortedReports | internal/workspace/standup_generator.go:108-111 | sorting by role keeps the same reports and puts the roles in strictly increasing order |
| Standup.GenerateTaskSummary | internal/workspace/standup_generator.go:197-229 | the loop gives exactly `TaskSummaryOf`, with today the instant truncated to a whole day |
| Standup.TaskSummaryCounts | internal/workspace/standup_generator.go:197-229 | the total and the counts by status are the numbers of tasks with each status; the period and today counts are the completed tasks updated after each instant; the counts by assignee count the non-empty assignees |
| Standup.TaskSummaryBounds | internal/workspace/standup_generator.go:205-221 | completed today and completed in the period never exceed completed, today never exceeds the period when the period starts first, and the four status counts add up to no more than the total |
| Standup.CountCompleted | internal/workspace/standup_generator.go:236-241 | the loop counts the completed tasks |
| Standup.CountSuccessful | internal/workspace/standup_generator.go:248-253 | the loop counts the successful tool calls |
| Standup.CountCommits | internal/workspace/standup_generator.go:260-267 | the loop counts the `git_commit` tool calls |
| Standup.ExtractHighlights | internal/workspace/standup_generator.go:232-274 | the highlights are `HighlightsOf` the three counts |
| Standup.HighlightLines | internal/workspace/standup_generator.go:243-271 | at most three lines: the completed-task line exactly when some task is completed, the operations line exactly for more than ten successful tool calls, the commit line exactly when a commit was made, each with its count |
| Standup.ListSet | internal/workspace/standup_generator.go:308-311 | the set's members listed once each |
| Standup.ExtractBlockers | internal/workspace/standup_generator.go:277-314 | the blockers listed once each, exactly the members of `BlockerSet` |
| Standup.BlockersAre | internal/workspace/standup_generator.go:280-306 | a blocker is a blocked task's line, an error text cut to 100 bytes, or a failed tool call's error cut to 100 bytes after "Tool error: ", and nothing else |
| Standup.EntryBlockersShort | internal/workspace/standup_generator.go:290-304 | no blocker an entry gives is longer than 115 bytes |
| Standup.Titles | internal/workspace/standup_generator.go:324-331 | one title per task |
| Standup.SuggestNextSteps | internal/workspace/standup_generator.go:317-346 | the steps are `NextStepsOf` the titles of the high-priority pending tasks and of the tasks in progress |
| Standup.NextStepsShape | internal/workspace/standup_generator.go:333-345 | one or two steps; only the default exactly when both lists are empty; two exactly when both are not |
| Standup.NextStepsFor | internal/workspace/standup_generator.go:317-346 | the default step exactly when no task is high-priority pending or in progress; two steps exactly when there is one of each; each list names at most three titles, each a matching task's |
| Team.DefaultSettingsOrdered | internal/team/team.go:86-115 | minimal allows fewer tokens and less history than low, low fewer than normal, and every unknown mode gets the normal settings |
| Team.WithDefaultsComplete | internal/team/team.go:132-149 | after defaulting the API version, kind, every role's count and visibility are set; values already set are kept and no other role field changes |
| Team.WithDefaultsIdempotent | internal/team/team.go:132-149 | filling in the defaults a second time changes nothing |
| Team.RolesWithDefaults | internal/team/team.go:141-149 | the loop over the roles leaves every role defaulted and the role names unchanged |
| Team.LoadSpec | internal/team/team.go:118-152 | a read error and a parse error each with their prefix; otherwise the parsed specification with its defaults |
| Team.RoleMemberIdsShape | internal/team/team.go:188-192 | a single-instance role's only member ID is the role name; a larger role has one ID per instance, each the role name followed by '-' |
| Team.RoleMemberRecords | internal/team/team.go:188-223 | the loop puts the role's records into the map one at a time in creation order, giving `Added`, and lists their IDs in order |
| Team.RoleAdded | internal/team/team.go:188-223 | adding a role's members keeps the map keyed by ID with every member idle, keeps every earlier key, stores every listed ID, changes nothing for a role with no instances, and leaves each entry either as it was or the record of one of the role's members |
| Team.Team.constructor | internal/team/team.go:164-177 | a team with the specification's name and client-facing list, no members, tasks or queued messages |
| Team.Team.SetTokenMode | internal/team/team.go:68-73 | the mode is stored and nothing else changes |
| Team.Team.GetTokenMode | internal/team/team.go:76-83 | the stored mode, or "normal" when none is set |
| Team.Team.GetTokenSettings | internal/team/team.go:86-115 | the specification's token settings when they name a mode, otherwise the built-in settings of the current mode |
| Team.Team.CreateMembers | internal/team/team.go:180-224 | fails exactly when some role's provider is not registered, naming such a role; otherwise every role with a positive count has its member IDs listed and every member is a record some role creates at some position |
| Team.BuildMembers | internal/team/team.go:180-224 | the member loop over the member map and the role lists: an error exactly when some role's provider is not registered, naming such a role; otherwise every role with a positive count lists its member IDs, and every member is idle, keyed by its ID and built by some role; every listed ID is always a member |
| Team.Team.DefaultClientFacing | internal/team/team.go:226-233 | an empty client-facing list becomes the roles with visibility "client", each once; a non-empty one is kept |
| Team.Team.GetMemberByRole | internal/team/team.go:422-437 | none exactly when the role has no members; otherwise its first idle member, or its first member when none is idle |
| Team.FirstIdle | internal/team/team.go:428-432 | the position of the first idle member: every earlier member is busy |
| Team.Team.RouteMessage | internal/team/team.go:485-501 | a message to "client" is appended to the client queue, any other to the internal queue, and dropped when that queue is at its capacity of 100 or 1000 |
| Team.Team.AddTask | internal/team/team.go:459-463 | the task stored under its ID and nothing else changed |
| Team.Team.GetTask | internal/team/team.go:466-470 | present exactly when a task has that ID, and then that task |
| Team.Team.TaskStatus | internal/team/team.go:562-587 | the number of pending tasks, of tasks in progress or assigned, of completed tasks, and the total |
| Team.CountsWithinTotal | internal/team/team.go:562-587 | the three status counts never add up to more than the total |
| TeamMember.DisplayName | internal/team/member.go:66-72 | "Name (Title)" exactly when the name is set and differs from the title; otherwise the title alone; the MCP team status (`internal/mcp/handlers.go` lines 156-161) and `team ps` (`cmd/ugudu/main.go` lines 509-514) show members by the same rule |
| TeamMember.UnnamedMemberShowsTitle | internal/team/member.go:45-72 | a member created without a name takes its role title and shows only that title |
| TeamMember.IndexOf | internal/team/member.go:1308-1315 | the least position where `sub` occurs, which is 0 for an empty `sub`, or -1 when it does not occur |
| TeamMember.Trim | internal/team/member.go:1317-1327 | the input with leading and then trailing ' ', '\t' and '\n' removed |
| TeamMember.TrimmedIsInner | internal/team/member.go:1317-1327 | the trimmed text is one contiguous piece of the input, starting after its leading blanks, with no blank at either end |
| TeamMember.TrimmedIdempotent | internal/team/member.go:1317-1327 | trimming twice is trimming once |
| TeamMember.SplitLines | internal/team/member.go:907-920 | the pieces between '\n' bytes, in order, with no trailing empty piece |
| TeamMember.LinesShape | internal/team/member.go:907-920 | no piece contains '\n', and only the empty text has no pieces |
| TeamMember.LinesJoin | internal/team/member.go:907-920 | joining the pieces with '\n' gives back the text, except for a final '\n' |
| TeamMember.BodyTask | internal/team/member.go:886-900 | a task only when the colon is past offset 0 and the role and content are both non-empty |
| TeamMember.LineTask | internal/team/member.go:877-900 | a task only from a trimmed line of at least two bytes that starts with '-' |
| TeamMember.LineTaskTrimmed | internal/team/member.go:877-900 | a parsed task's role and content are trimmed and non-empty |
| TeamMember.TasksAreTrimmed | internal/team/member.go:873-904 | at most one task per line, each with a trimmed, non-empty role and content |
| TeamMember.ParseTaskBody | internal/team/member.go:886-900 | the colon split of one line gives the task the line's body stands for |
| TeamMember.ParseTaskLine | internal/team/member.go:877-900 | one pass of the loop gives the task the line stands for, if any |
| TeamMember.ParseParallelTasks | internal/team/member.go:873-904 | the tasks of the text's lines, in order, skipping lines that give none |
| TeamMember.ParseResponse | internal/team/member.go:825-870 | markers in priority order: parallel delegation only when a task parses, then "DELEGATE TO " with a colon past offset 0, then "ASK " (CLIENT or client gives a question, else a delegation), then "COMPLETE:"; a reply with no marker is answered with the untouched text |
| TeamMember.Conversation.constructor | internal/team/member.go:45-63 | an empty context with sequence number 0 |
| TeamMember.Conversation.AddToContext | internal/team/member.go:349-367 | one message appended, the sequence number incremented and saved with it, then only the last `limit` messages kept |
| TeamMember.Conversation.RestoreContext | internal/team/member.go:333-346 | the context becomes the history's role and content pairs, with the sequence number equal to their count |
| TeamMember.Conversation.ClearContext | internal/team/member.go:381-387 | the context emptied and the sequence number reset to 0 |
| TeamMember.Conversation.GetContextMessages | internal/team/member.go:370-378 | a copy of the current context |
| TeamMember.WindowKeepsNewest | internal/team/member.go:363-366 | a context over its limit is cut to exactly `limit` messages, ending with the newest |
| Workflow.Story.constructor | internal/team/workflow.go:240-270 | a new story in the backlog with the given fields, no member, timestamps, artifacts or questions |
| Workflow.Story.UpdateStatus | internal/team/workflow.go:407-420 | the new status; the start time set only on the first move to in progress, the completion time on every move to done |
| Workflow.Story.AddArtifact | internal/team/workflow.go:423-434 | one artifact appended, nothing else changed |
| Workflow.Story.AskQuestion | internal/team/workflow.go:437-454 | the question returned is pending, unanswered, stamped now, carries the given ID, content, asking role and member and target role, and has the story's ID as context; it is appended to the story's questions |
| Workflow.LinkStoryOnlyFirst | internal/team/workflow.go:253-260 | linking appends the story ID to the first requirement with the ID and changes no other requirement; with no such requirement nothing changes |
| Workflow.StoriesWithRoleExact | internal/team/workflow.go:379-390 | the role filter keeps exactly the stories assigned to the role |
| Workflow.StoriesWithStatusExact | internal/team/workflow.go:393-404 | the status filter keeps exactly the stories with that status |
| Workflow.Project.constructor | internal/team/workflow.go:168-199 | a project in phase initiated with client "client", no requirements, stories or questions, and one message from the client to the PM |
| Workflow.Project.AddRequirement | internal/team/workflow.go:221-237 | exactly one requirement with no stories appended, and the update time set |
| Workflow.Project.CreateStory | internal/team/workflow.go:240-270 | a fresh backlog story appended, and its ID linked to the first requirement with the given ID, if any |
| Workflow.Project.AskQuestion | internal/team/workflow.go:273-308 | one "question" message logged always; the question queued as pending only when it is put to the client |
| Workflow.Project.AnswerQuestion | internal/team/workflow.go:311-341 | the first pending question with the ID marked answered and an "answer" message sent to its asker; an unknown ID is the error "question not found: " and changes nothing |
| Workflow.Project.SetPhase | internal/team/workflow.go:344-359 | the phase set and one status update from "system" to "all" naming it |
| Workflow.Project.AddCommunication | internal/team/workflow.go:362-376 | one message appended to the log and the update time set |
| Workflow.Project.GetStoriesForRole | internal/team/workflow.go:379-390 | the stories assigned to the role, in order |
| Workflow.Project.GetReadyStories | internal/team/workflow.go:393-404 | the stories whose status is ready, in order |
| Workflow.ProjectManager.constructor | internal/team/workflow.go:160-165 | no projects |
| Workflow.ProjectManager.CreateProject | internal/team/workflow.go:168-199 | a fresh project stored under its ID |
| Workflow.ProjectManager.GetProject | internal/team/workflow.go:202-206 | present exactly when a project has the ID, and then that project |
| Workflow.ProjectManager.ListProjects | internal/team/workflow.go:209-218 | every stored project, and nothing else |
| Orchestrator.BracketSliceExact | internal/team/orchestrator.go:638-642 | a JSON slice is found exactly when some ']' follows some '['; it runs from the first '[' to the last ']' |
| Orchestrator.RequirementsInShape | internal/team/orchestrator.go:635-664 | nothing without a bracket slice or when it fails to decode; otherwise one requirement per decoded element, in order, with its fields, a fresh ID, the author and no stories |
| Orchestrator.StoriesInShape | internal/team/orchestrator.go:666-702 | nothing without a bracket slice or when it fails to decode; otherwise one backlog story per decoded element, in order, with its fields and a fresh ID |
| Orchestrator.ParseRequirements | internal/team/orchestrator.go:635-664 | the loop appends exactly the requirements the decoded slice stands for |
| Orchestrator.ParseStories | internal/team/orchestrator.go:666-702 | the loop appends exactly the backlog stories the decoded slice stands for |
| Orchestrator.NoMarkerNoQuestions | internal/team/orchestrator.go:536-558 | no question is collected from text without a "Questions for Client" line |
| Orchestrator.HeadingEndsSection | internal/team/orchestrator.go:553-555 | a "##" heading inside the questions section ends it: nothing after it is collected |
| Orchestrator.BulletNeverEmpty | internal/team/orchestrator.go:547-551 | a trimmed line starting with '-' always leaves non-empty question text, so the empty-question test never skips one |
| Orchestrator.QuestionsAreBullets | internal/team/orchestrator.go:536-558 | every collected question is non-empty and is the bullet text of a line that starts with '-' |
| Orchestrator.ExtractClientQuestions | internal/team/orchestrator.go:538-557 | the scan collects exactly the questions of the section, stopping at its closing heading |
| Orchestrator.ParseAndAddQuestions | internal/team/orchestrator.go:536-558 | each collected question, in order, queued as pending for the client with the project as context, and one "question" message logged for each |
| Orchestrator.FormatArtifacts | internal/team/orchestrator.go:704-714 | "(none)" for no artifacts, else one "- type: path" line per artifact |
| Orchestrator.FormatAcceptanceCriteria | internal/team/orchestrator.go:716-726 | "(none specified)" for no criteria, else one "- criterion" line per criterion |
| Orchestrator.CriteriaLinesRead | internal/team/orchestrator.go:716-726 | read back line by line, the criteria text gives one "- " line per criterion, in order |
| Orchestrator.ArtifactLinesRead | internal/team/orchestrator.go:704-714 | read back line by line, the artifacts text gives one "- type: path" line per artifact, in order |
| Orchestrator.ConsiderAnalysis | internal/team/orchestrator.go:346-392 | the PM's analysis text, or "" when the call failed; its client questions are asked only when it mentions "Questions for Client" |
| Orchestrator.RunPlanningPhase | internal/team/orchestrator.go:71-111 | without a PM only the planning phase is announced; otherwise the analysis is broadcast, the BA's (or, without one, the PM's) requirements are stored in order, and the project is blocked exactly when a client question is pending |
| Orchestrator.StoreRequirements | internal/team/orchestrator.go:97-100 | each requirement added in order with a fresh ID and no stories |
| Orchestrator.LinkAllKeepsRequirements | internal/team/orchestrator.go:124-133 | linking the new stories never adds, drops, renames or reorders requirements |
| Orchestrator.StoreDrafts | internal/team/orchestrator.go:124-133 | one fresh backlog story per draft, in order, each linked to its requirement |
| Orchestrator.StoreNext | internal/team/orchestrator.go:125-132 | the next draft stored as a fresh backlog story after the earlier ones and linked to its requirement |
| Orchestrator.RunTaskBreakdownPhase | internal/team/orchestrator.go:114-141 | the phase announced, then one backlog story per draft of the PM's reply (none without a PM or when the call failed) |
| Orchestrator.RunExecutionPhase | internal/team/orchestrator.go:144-201 | with no engineers nothing is assigned; otherwise story i goes to the i-th engineer, modulo the pool size, of its role's pool (backend, frontend, or all engineers) and becomes ready; a story whose pool is empty is left as it was |
| Orchestrator.RunReviewPhase | internal/team/orchestrator.go:283-303 | without a QA member the project goes from review straight to complete; otherwise each story in review whose review succeeds gets a QA message and becomes done, and the project ends complete |
| Orchestrator.ReviewStories | internal/team/orchestrator.go:294-298 | the stories in review with a successful review, in order, each get one message to the PM and become done; the others are untouched |
| Orchestrator.StillPendingExact | internal/team/orchestrator.go:589-601 | the pending filter keeps exactly the questions still pending, and is empty exactly when none is |
| Orchestrator.Orchestrator.constructor | internal/team/orchestrator.go:39-47 | no active project and an empty project manager |
| Orchestrator.Orchestrator.StartProject | internal/team/orchestrator.go:50-68 | a fresh project named "project-" plus the first eight characters of the uuid, described by the client's request, stored and made active |
| Orchestrator.Orchestrator.ProvideAnswer | internal/team/orchestrator.go:561-586 | an error without an active project or for an unknown question; otherwise only the first question with the ID changes, answered by the client and stamped now, one "answer" message to its asker is appended, and the breakdown resumes exactly when no question is still pending and the project is blocked |
| Orchestrator.Orchestrator.GetPendingQuestions | internal/team/orchestrator.go:589-601 | nothing without an active project, otherwise its questions still pending, in order |
| SpecGen.NewGenerator | internal/specgen/specgen.go:20-28 | the given model, or "claude-sonnet-4-20250514" when none is given |
| SpecGen.Fence | internal/specgen/specgen.go:234-240 | the position of a "```" fence, and none exactly when the reply has no "```" |
| SpecGen.FenceFirst | internal/specgen/specgen.go:234-240 | the fence is the first "```json" when there is one; a reply without "```" has no block |
| SpecGen.BlockSpanLocated | internal/specgen/specgen.go:242-256 | the block starts at the first "{" after the fence and ends at the reply's last "}" |
| SpecGen.ExtractSpecAccepts | internal/specgen/specgen.go:232-274 | a spec exactly when the block decodes as a wrapper holding a spec, or else as a bare spec with at least one role; never without a fenced, braced block |
| SpecGen.QuestionIsNoSpec | internal/specgen/specgen.go:232-240 | a reply with no backquote never yields a spec |
| SpecGen.FormatSpecPreview | internal/specgen/specgen.go:276-306 | the heading with the team's name and description, one line per role in order, then the legend |
| SpecGen.FormatRoleLine | internal/specgen/specgen.go:284-299 | one role's line: its visibility mark, the joined names of a role of several with names, else its name, else its title, and its title |
| SpecGen.RoleLinesShow | internal/specgen/specgen.go:283-300 | every role's line occurs in the role section |
| SpecGen.PreviewShowsEveryRole | internal/specgen/specgen.go:276-306 | the preview contains every role's line |
| SpecGen.TruncateToFits | internal/specgen/specgen.go:308-313 | never longer than `maxLen`; unchanged exactly when it fits; a cut result is exactly `maxLen` long, ends in "..." and is not cut again |
| SpecGen.TruncateToExamples | internal/specgen/specgen_test.go:130-148 | the package's table cases: short, cut, exact fit and empty |
| SpecGen.RenderAppend | internal/specgen/specgen.go:316-379 | writing two runs of lines writes their texts one after the other |
| SpecGen.WriteItems | internal/specgen/specgen.go:327-329 | one "- x" line per element, in order |
| SpecGen.WritePersona | internal/specgen/specgen.go:357-362 | the block scalar marker, then each line of the persona indented six spaces |
| SpecGen.WriteRole | internal/specgen/specgen.go:334-375 | one role's entry written as its block of lines |
| SpecGen.WriteRoles | internal/specgen/specgen.go:332-376 | one entry per role, in order |
| SpecGen.ToYaml | internal/specgen/specgen.go:316-379 | the fixed header, the client-facing list, then one entry per role in order |
| SpecGen.RoleBlockKeys | internal/specgen/specgen.go:333-375 | a role's keys in order: title, "names" or "name" when it has names, visibility, count above one, model, persona, can_delegate for a non-empty list, reports_to when set |
| SpecGen.ListIndent | internal/specgen/specgen.go:327-329 | every line of a list is at the list's indent |
| SpecGen.PersonaRoundTrip | internal/specgen/specgen.go:357-362 | the persona lines, each at six spaces with no '\n', give back the persona when stripped and joined |
| SpecGen.ConversationState.constructor | internal/specgen/specgen.go:126-155 | a state with the given messages and completion flag |
| SpecGen.LatestSpecIsLatest | internal/specgen/specgen.go:178-193 | the spec found is that of the newest assistant message carrying one; none exactly when no assistant message carries one |
| SpecGen.GetGeneratedSpec | internal/specgen/specgen.go:178-193 | "conversation not complete" for an incomplete conversation; otherwise the newest spec, or "no spec found in conversation" |
| SpecGen.LatestAfterReply | internal/specgen/specgen.go:147-153 | a stored reply carrying a spec becomes the latest spec, and an earlier spec keeps the conversation complete |
| SpecGen.LatestAfterPrompt | internal/specgen/specgen.go:159 | storing a user's message never changes the latest spec |
| SpecGen.StartConversation | internal/specgen/specgen.go:126-155 | the system prompt and the opening message (the input, or the greeting when it is empty) sent; on an error no state; otherwise the reply stored, the conversation complete exactly when the reply carries a spec, and the preview or the reply shown |
| SpecGen.ContinueConversation | internal/specgen/specgen.go:158-175 | the user's message stored even when the call fails; a reply carrying a spec completes the conversation, and a complete conversation stays complete |
| SpecGen.ForceGenerate | internal/specgen/specgen.go:196-216 | the fixed request appended and sent; the spec of the reply, else "failed to generate spec"; a spec returned is the conversation's latest |
| McpServer.RegisteredKeyedByName | internal/mcp/server.go:70-352 | exactly the seventeen listed tools are registered, each under its own name with its own handler |
| McpServer.TextContentReadBack | internal/mcp/server.go:488-517 | a tools/call result reads back as the text it was built with, flagged as an error exactly when it was built as one |
| McpServer.CallReplyCases | internal/mcp/server.go:451-520 | error -32602 for undecodable params and for an unknown tool; otherwise a result flagged as an error exactly when the handler failed, carrying "Error: " and the failure, the handler's string, or the indented JSON of its value |
| McpServer.AnswerShape | internal/mcp/server.go:391-413 | only the initialized notification goes unanswered; every reply is well formed and carries the request's ID; an unknown method gets -32601 "Method not found" |
| McpServer.Server.constructor | internal/mcp/server.go:52-68 | a stopped server with every tool registered |
| McpServer.Server.Register | internal/mcp/server.go:70-352 | one tool filed under its name, the rest unchanged |
| McpServer.Server.RegisterTools | internal/mcp/server.go:70-352 | the tool map filled with every listed tool under its own name |
| McpServer.Server.HandleToolsList | internal/mcp/server.go:432-449 | one entry per registered tool, each once, with its name, description and input schema |
| McpServer.Server.HandleMessage | internal/mcp/server.go:391-430 | initialize gets the protocol version "2024-11-05" and the server's name and version; tools/list and tools/call their replies; the initialized notification nothing; any other method -32601 |
| McpServer.Server.Run | internal/mcp/server.go:355-389 | the server marked running; one reply, in order, for each complete line that decodes and needs one; a read error reported as "read error: " |
| McpServer.AnsweredBound | internal/mcp/server.go:366-386 | at most one reply per line |
| McpServer.UnterminatedIgnored | internal/mcp/server.go:366-373 | input with no newline gets no reply |
| McpHandlers.StringArg | internal/mcp/handlers.go:49-50 | the argument's string, or "" when it is missing or not a string |
| McpHandlers.ArgCheckMatchesSchema | internal/mcp/handlers.go:45-557 | a handler refuses its arguments exactly when an argument that the tool's input schema lists as required (`internal/mcp/server.go` lines 70-352) is missing or empty |
| McpHandlers.HandleTool | internal/mcp/server.go:523-539 | a tool that needs the daemon fails with "daemon not running. Start it with: ugudu daemon" when none can be reached; then missing arguments are refused; otherwise the daemon's answer |
| McpHandlers.TruncateReal | internal/mcp/handlers.go:469-471 | Go's conversion of a float to int: truncation toward zero |
| McpHandlers.CommunicationsLimit | internal/mcp/handlers.go:468-471 | 20 unless the `limit` argument is a number, which is then truncated toward zero |
| McpHandlers.SpecialistDescription | internal/mcp/handlers.go:591-604 | the known specialist's description, and "Domain specialist" exactly for an unknown one |
| McpHandlers.IndentWidth | internal/mcp/handlers.go:315 | the leading run of spaces and tabs |
| McpHandlers.FirstNameLine | internal/mcp/handlers.go:311-314 | the first line whose trimmed text starts with "name:", or none |
| McpHandlers.ReplaceTeamNameInSpec | internal/mcp/handlers.go:309-320 | the loop rewrites only the first name line and stops; `team create` uses the same rewrite (`cmd/ugudu/main.go` lines 307-319) |
| McpHandlers.RenameChangesOneLine | internal/mcp/handlers.go:309-320 | only the first name line changes, keeping its indentation and naming the team; text without a name line comes back unchanged |
| McpHandlers.RenameKeepsLineCount | internal/mcp/handlers.go:309-320 | for a team name without a newline the rewritten spec has the same lines, with the name line rewritten |
| McpHandlers.FormatTeamStatus | internal/mcp/handlers.go:129-174 | the team heading, one line per listed member in order, then the legend |
| McpHandlers.FormatMemberLine | internal/mcp/handlers.go:150-168 | one member's line: the client or internal mark, the display name and the status |
| McpHandlers.StatusShowsEveryMember | internal/mcp/handlers.go:129-174 | every member the daemon lists gets its line in the status text |
| Manager.InstanceName | internal/manager/manager.go:160-163 | the given name when it is non-empty, else the spec's own name |
| Manager.SaveTeam | internal/manager/store.go:114-123 | a new row is stopped; an existing row gets the new spec path and keeps its status; no other row changes |
| Manager.UpdateStatus | internal/manager/store.go:126-132 | only an existing row changes, and only its status |
| Manager.RestoredKeys | internal/manager/manager.go:381-402 | after restoring, a name is registered exactly when it was before or a restorable row carries it, so a row with an empty spec path is never registered; each team is filed under its saved name |
| Manager.AutoStartedRestored | internal/manager/manager.go:404-414 | a team is started again only if it was restored and saved as running |
| Manager.Lookup | internal/manager/manager.go:291-300 | the team when the name is registered, else "team not found: " and the name |
| Manager.Manager.constructor | internal/manager/manager.go:62-87 | no teams, over the store's rows |
| Manager.Manager.CreateTeam | internal/manager/manager.go:124-151 | the team takes its spec's name; a spec that fails to load, a taken name or a failed build is an error and changes nothing; otherwise the team is registered stopped and saved |
| Manager.Manager.CreateTeamWithName | internal/manager/manager.go:154-186 | as `CreateTeam`, with a non-empty given name overriding the spec's |
| Manager.Created | internal/manager/manager.go:154-186 | a load failure is "load spec: ", a taken name is "team X already exists", a build failure "create team: "; success exactly when none of these happens, under the instance name |
| Manager.Manager.StartTeam | internal/manager/manager.go:237-254 | an unknown name is "team not found: "; a failed start is "start team: " and changes nothing; otherwise the team runs and its row says "running" |
| Manager.Manager.StopTeam | internal/manager/manager.go:257-270 | an unknown name is "team not found: "; otherwise the team is stopped and its row says "stopped" |
| Manager.Manager.DeleteTeam | internal/manager/manager.go:273-288 | an unknown name is "team not found: "; otherwise exactly that entry is removed, from the registry and from the store |
| Manager.Manager.GetTeam | internal/manager/manager.go:291-300 | the lookup of the name in the registry |
| Manager.Manager.ListTeams | internal/manager/manager.go:303-312 | every registered team once |
| Manager.Manager.Status | internal/manager/manager.go:335-358 | the team count equals the number of registered teams, each listed once, with the providers and the data directory |
| Manager.Manager.RestoreTeams | internal/manager/manager.go:375-419 | a failed listing is returned and changes nothing; otherwise each restorable row is registered under its saved name and the ones saved as running are started afterwards |
| Logger.Rank | internal/logger/logger.go:16-21 | the four levels in the order debug, info, warn, error |
| Logger.ParseLevel | internal/logger/logger.go:45-56 | "debug" gives debug, "warn" or "warning" warn, "error" error, in any case; every other string gives info |
| Logger.ParseLevelIgnoresCase | internal/logger/logger.go:45-46 | the level of a string is the level of its lower-case form |
| Logger.LevelName | internal/logger/logger.go:81-107 | each level's label is upper case and at least four letters long |
| Logger.EnabledBounds | internal/logger/logger.go:81-107 | a debug logger writes at every level, an error logger writes only errors, and an info logger writes every level except debug |
| Logger.UnpairedIgnored | internal/logger/logger.go:72-76 | a trailing key without a value adds no field |
| Logger.PairsKeys | internal/logger/logger.go:67-76 | the derived fields are the stored ones plus every string key of a pair, and a stored field no pair names keeps its value |
| Logger.LastPairWins | internal/logger/logger.go:72-76 | a later pair for a key replaces the value of an earlier one |
| Logger.Timestamp | internal/logger/logger.go:113 | eight characters "HH:MM:SS" whose digit pairs read back as the hour, minute and second |
| Logger.StoredTextShows | internal/logger/logger.go:118-121 | every stored field appears as " key=value" in the stored-fields text, whatever the map's order |
| Logger.RenderedShowsFields | internal/logger/logger.go:109-131 | a written line starts with the timestamp, the level label and the message, and shows every stored field |
| Logger.Logger.constructor | internal/logger/logger.go:32-43 | the parsed level, the given writer and no fields |
| Logger.Logger.Derived | internal/logger/logger.go:60-64 | a logger sharing a level and writer with its own fields |
| Logger.Logger.With | internal/logger/logger.go:59-79 | a fresh logger on the same level and writer whose fields are the stored ones updated by each string-keyed pair |
| Logger.Logger.StoredFields | internal/logger/logger.go:118-121 | the text lists each stored field once, in some order of the keys |
| Logger.Logger.InlineFields | internal/logger/logger.go:124-128 | the text of the string-keyed pairs, in the order given, a trailing key ignored |
| Logger.Logger.Log | internal/logger/logger.go:109-131 | a level below the logger's writes nothing; otherwise exactly one rendered line is appended to the shared writer |
| Logger.Logger.Debug | internal/logger/logger.go:82-86 | a line is written only by a debug logger |
| Logger.Logger.Info | internal/logger/logger.go:89-93 | a line is written unless the logger is at warn or error |
| Logger.Logger.Warn | internal/logger/logger.go:96-100 | a line is written unless the logger is at error |
| Logger.Logger.Error | internal/logger/logger.go:103-107 | a line is always written |
| Api.Cors | internal/api/server.go:59-71 | every answer carries the three CORS headers; a preflight is a bare 200 whatever the handler, any other method the handler's status and body with its other headers kept |
| Api.PreflightIgnoresHandler | internal/api/server.go:65-68 | the preflight answer does not depend on the wrapped handler |
| Api.ChatTarget | internal/api/server.go:616-623 | an explicit target wins; otherwise the team's first client-facing role, or none |
| Api.PlanChat | internal/api/server.go:588-623 | a method other than POST, an undecodable body, or a missing team or message is each its own error; otherwise the request goes on with its team, message and target, directly addressed exactly when a target was named |
| Api.FilteredMembers | internal/api/server.go:928-941 | a task is listed exactly when it is in the project and passes both filters; the listing is no longer than the tasks |
| Api.NoFilterListsAll | internal/api/server.go:928-941 | with neither filter every task is listed, in order |
| Api.FilterTasks | internal/api/server.go:928-946 | the filtered tasks and their count |
| Api.ListLimit | internal/api/server.go:986-995 | the parsed limit when it is positive, else 10; never below 1 |
| Api.ListLimitExamples | internal/api/server.go:986-995 | an absent, zero, negative or malformed limit gives 10; "25" gives 25 |
| Api.TokenModeFor | internal/api/server.go:1075-1086 | "normal", "low" and "minimal" name themselves, the empty mode means normal, anything else is refused |
| Api.HandleTokenMode | internal/api/server.go:1053-1091 | each refusal has its own status and message and leaves the team as it was; a valid mode is set on the team, nothing else of it changes, and the answer echoes the mode |
| Api.MaskKey | internal/api/server.go:1103-1108 | as long as the key, stars in all but the last four bytes, which are kept; a key of four bytes or fewer is all stars |
| Api.Take | internal/api/server.go:1167-1193 | a field is replaced only by a non-empty supplied value |
| Api.NothingSuppliedKeepsSettings | internal/api/server.go:1160-1193 | an update that supplies nothing non-empty saves the loaded config as it was |
| Api.MergeIdempotent | internal/api/server.go:1160-1193 | applying the same update twice saves what applying it once does |
| Api.AnthropicOnly | internal/api/server.go:1167-1169 | an update with only an Anthropic key changes only that key |
| Api.SettingsView | internal/api/server.go:1096-1135 | five providers are shown; a provider is configured exactly when its key, or Ollama's URL, is set; keys are shown masked to their own length and the Ollama URL as it is |
| Api.ActivityLimitAsWritten | internal/api/server.go:878-887 | as the handler is written: 50 without a limit parameter, 0 whenever the parameter parses |
| Api.ActivityLimitAsWrittenDropsRequest | internal/api/server.go:882-887 | as written, every positive limit a client asks for becomes 0 |
| Api.ActivityLimitAsWrittenReturnsAll | internal/api/server.go:882-887 | as written, a client asking for n entries of a readable log gets every matching entry past the offset, more than n whenever more than n match past the offset |
| Api.ActivityLimit | internal/api/server.go:878-887 | as intended: the parsed limit when the parameter parses, else 50 |
| Api.ActivityLimitHonoursRequest | internal/api/server.go:882-887 | as intended, a client asking for n entries gets a limit of n |
| CliSpec.ParseTeamType | cmd/ugudu/spec.go:574-587 | choices 1 to 4 give dev, trading, research and support; any other answer gives custom |
| CliSpec.ParseProvider | cmd/ugudu/spec.go:589-602 | choices 2 to 4 give openai, ollama and groq; any other answer gives anthropic |
| CliSpec.DefaultModel | cmd/ugudu/spec.go:604-617 | each named provider's model; any other provider gets the Anthropic model |
| CliSpec.ChosenProviderHasModel | cmd/ugudu/spec.go:162-164 | whatever is chosen, the provider the menu gives has a non-empty default model |
| CliSpec.Assemble | cmd/ugudu/spec.go:619-763 | one role per preset entry |
| CliSpec.AssembledWellFormed | cmd/ugudu/spec.go:619-763 | a preset whose entries have distinct IDs, known visibilities and reporting and delegation names among its own IDs becomes a well-formed role list |
| CliSpec.PresetsWellFormed | cmd/ugudu/spec.go:619-759 | each of the four presets is well formed, and its first role is client-facing and reports to no one |
| CliSpec.NoPresetOtherwise | cmd/ugudu/spec.go:760-761 | any other team type has no preset roles |
| CliSpec.DevWellFormed | cmd/ugudu/spec.go:621-658 | the dev preset's entries are well formed, led by a client-facing role |
| CliSpec.TradingWellFormed | cmd/ugudu/spec.go:659-694 | the trading preset's entries are well formed, led by a client-facing role |
| CliSpec.ResearchWellFormed | cmd/ugudu/spec.go:695-723 | the research preset's entries are well formed, led by a client-facing role |
| CliSpec.SupportWellFormed | cmd/ugudu/spec.go:724-759 | the support preset's entries are well formed, led by a client-facing role |
| CliSpec.Answer | cmd/ugudu/spec.go:565-571 | a blank answer gives the default; otherwise the trimmed answer, which trimming again leaves alone |
| CliSpec.TrimSpaceTrimmed | cmd/ugudu/spec.go:566 | a string without leading or trailing white space is its own trim |
| CliSpec.Input.constructor | cmd/ugudu/spec.go:565 | standard input as a script of lines, none read yet |
| CliSpec.Input.ReadLine | cmd/ugudu/spec.go:565 | the next line, or an empty one once input is exhausted; the script does not change |
| CliSpec.Input.Prompt | cmd/ugudu/spec.go:558-572 | the answer to the next line, or the default once input is exhausted |
| CliSpec.Title | cmd/ugudu/spec.go:785 | the default title has the ID's length, each word's first letter upper-cased and every other letter kept |
| CliSpec.RoleCount | cmd/ugudu/spec.go:796-799 | the parsed count when it is a positive 64-bit integer, 1 for a malformed or non-positive one, the largest 64-bit integer past it |
| CliSpec.CollectedAppend | cmd/ugudu/spec.go:773-823 | appending a role of the shape the loop asks for keeps every collected role well shaped |
| CliSpec.AskRole | cmd/ugudu/spec.go:785-815 | a role with the given ID, a title, a known visibility, a count of at least 1, no delegates and no provider; only an internal role after the first reports to anyone |
| CliSpec.CollectRoles | cmd/ugudu/spec.go:773-823 | every collected role is well shaped, and the loop ends with no roles exactly when input runs out before the first role, where the source asks again forever |
| CliSpec.OtherIdsMembers | cmd/ugudu/spec.go:828-832 | a client role's delegates are exactly the other roles' IDs |
| CliSpec.WithDelegation | cmd/ugudu/spec.go:825-836 | each client role delegates to every other role; internal roles are unchanged |
| CliSpec.SetUpDelegation | cmd/ugudu/spec.go:825-836 | the roles with delegation set up |
| CliSpec.BuildCustomRoles | cmd/ugudu/spec.go:765-839 | every custom role has a count of at least 1 and a known visibility; client roles delegate to every other role and report to no one, internal roles delegate to no one |
| CliSpec.OtherIdsSameIds | cmd/ugudu/spec.go:825-836 | the delegates depend only on the roles' IDs |
| CliSpec.ClientIdsMembers | cmd/ugudu/spec.go:146-151 | an ID is client-facing exactly when some client role has it |
| CliSpec.ClientFacing | cmd/ugudu/spec.go:146-151 | the client roles' IDs, in order |
| CliSpec.Filled | cmd/ugudu/spec.go:167-172 | a role with no provider gets the chosen provider and model; the others are kept |
| CliSpec.FillProvider | cmd/ugudu/spec.go:167-172 | the roles with the provider filled in |
| CliSpec.FilledKeepsTeam | cmd/ugudu/spec.go:146-172 | after the fill every role has a provider, and the IDs and client-facing list are unchanged |
| CliSpec.ClientIdsFilled | cmd/ugudu/spec.go:146-172 | filling providers keeps the client-facing list |
| CliSpec.DefaultsConsistent | cmd/ugudu/spec.go:98-121 | the `-y` team is well formed and lists as client-facing exactly its one client role |
| Cli.GetClient | cmd/ugudu/main.go:88-93 | the remote client exactly when a host is given, over "http://" and the host; otherwise the given socket, or the located one when the flag is empty (as `internal/daemon/client.go` lines 25-58 do), and "daemon not running (no socket found)" when there is neither |
| Cli.SocketFlagWins | internal/daemon/client.go:27-29 | an explicit socket makes the located one irrelevant |
| Cli.RequireDaemon | cmd/ugudu/main.go:96-110 | the client exactly when it is built and answers the ping; a missing daemon and a silent one give their own messages, each naming `ugudu daemon` and the cause |
| Cli.ResolveSpecPath | cmd/ugudu/main.go:322-330 | an argument with a slash or a ".yaml" suffix is made absolute; a bare name is "<name>.yaml" in the specs directory |
| Cli.JoinAllRooted | cmd/ugudu/main.go:329 | joining onto an absolute directory gives an absolute path |
| Cli.ResolvedIsAbsolute | cmd/ugudu/main.go:322-330 | with an absolute working directory and specs directory, every spec argument resolves to an absolute path |
| CliConfig.MaskKey | cmd/ugudu/config.go:292-297 | a key of eight bytes or fewer shows as "****"; a longer one as its first four bytes, "..." and its last four |
| CliConfig.MaskKeyHidesMiddle | cmd/ugudu/config.go:292-297 | two long keys that agree in their first and last four bytes mask alike, so the mask reveals nothing else |
| CliConfig.MaskIfSecret | cmd/ugudu/config.go:299-304 | the value is masked exactly when the key contains "api_key" or "secret" |
| CliConfig.ApiKeysMasked | cmd/ugudu/config.go:299-304 | the three API-key settings are echoed masked |
| CliConfig.OtherKeysShown | cmd/ugudu/config.go:299-304 | the four other settable keys are echoed as given |
| CliConfig.Set | cmd/ugudu/config.go:244-266 | the seven listed keys are accepted and any other is "Unknown key: " and the key |
| CliConfig.SetGet | cmd/ugudu/config.go:244-266 | a set key reads back as the value, every other settable key and the OpenAI base URL are unchanged |
| CliConfig.ConfigSet | cmd/ugudu/config.go:228-274 | a directory error, a load error, an unknown key and a save error each stop the command with its own message; otherwise the saved configuration is the loaded one with the key set, confirmed as "Set key = value" with a secret masked |
| CliConfig.MaskSet | cmd/ugudu/config.go:186-194 | a key that is set is masked; an empty one stays empty |
| CliConfig.Shown | cmd/ugudu/config.go:178-199 | without `--show-secrets` the three API keys are masked; everything else, and everything with the flag, is shown as loaded |
| CliConfig.ShownKeysShort | cmd/ugudu/config.go:184-195 | no masked API key shows more than eleven bytes |
| CliConfig.ChosenDefaults | cmd/ugudu/config.go:120-133 | choices 2 to 4 give OpenAI, Ollama and Groq with their models; any other answer gives Anthropic's Claude Sonnet 4 |
| CliConfig.Wizard | cmd/ugudu/config.go:75-145 | each answered API key and the Ollama URL replace the default, the chosen provider and model are set, and the daemon listens on ":" and the port, 8080 when none is given |
| CliConfig.WizardDefaults | cmd/ugudu/config.go:75-145 | skipping every question gives the default configuration |
| CliActivity.ScanInt | cmd/ugudu/activity.go:177-180 | reading "%d": an integer only when it fits in 64 bits |
| CliActivity.ScanItoa | cmd/ugudu/activity.go:177-180 | a decimal number that fits in 64 bits reads back as itself |
| CliActivity.ParseDuration | cmd/ugudu/activity.go:173-186 | without a "d" suffix the standard parser's answer; with one, "invalid day format: " and the number text when it does not scan, else that many days, wrapped to 64 bits |
| CliActivity.DaysRoundTrip | cmd/ugudu/activity.go:173-182 | "<n>d" is n days, for every n a duration can hold |
| CliActivity.TrailingTextIgnored | cmd/ugudu/activity.go:178 | text after the day count is ignored: "3xd" is three days |
| CliActivity.TooManyDaysWrap | cmd/ugudu/activity.go:181 | a day count past what a duration holds wraps to a negative duration |
| CliActivity.QueryFor | cmd/ugudu/activity.go:47-70 | a `--since` that fails to parse is "Invalid duration: " and the cause; otherwise the limit, the task filter, one type when a type is given, and a since instant that lies the duration before now |
| CliActivity.SinceDays | cmd/ugudu/activity.go:52-59 | `--since <n>d` looks back exactly n days from now |
| CliActivity.Specific | cmd/ugudu/activity.go:137-164 | only the six known kinds have a kind-specific detail |
| CliActivity.Labelled | cmd/ugudu/activity.go:138-159 | a detail exactly when the key holds a string, shown after its label |
| CliActivity.FormatActivityDetails | cmd/ugudu/activity.go:136-171 | the kind-specific detail when there is one; otherwise some data entry as "key: value", or "" without data |
| CliActivity.DetailsDetermined | cmd/ugudu/activity.go:166-169 | with at most one data entry the fallback detail is determined, for all that map order is not |
| CliActivity.Cell | cmd/ugudu/activity.go:126-128 | details are at most 50 bytes: longer ones are cut to 47 and "..." |
| CliActivity.Status | cmd/ugudu/activity.go:120-123 | "OK" exactly for a successful entry, "FAIL" exactly for a failed one |
| CliActivity.PrintActivityTable | cmd/ugudu/activity.go:113-134 | one row per entry in order: local time "HH:MM:SS", role, type, details cut to fit, status |
| CliActivity.CellsFit | cmd/ugudu/activity.go:126-128 | every row's details fit in 50 bytes |
| FilePath.ExtIsSuffix | internal/workspace/activity_logger.go:206 | a non-empty extension starts with a dot and ends the name |
| FilePath.ExtLog | internal/workspace/activity_logger.go:206 | a name's extension is ".log" exactly when the name ends in ".log" |
| FilePath.CleanIdempotent | internal/tools/tools.go:167 | cleaning a cleaned path changes nothing |
| FilePath.CleanNotEmpty | internal/workspace/sandbox.go:61 | a cleaned path is never empty |
| FilePath.JoinStaysWithin | internal/tools/tools.go:171 | joining a path without ".." elements onto a clean absolute directory stays inside it |
| FilePath.CleanedJoinStaysWithin | internal/workspace/sandbox.go:61-64 | a cleaned path that does not start with ".." stays inside the clean absolute directory it is joined onto |
| FilePath.ChildPath | internal/workspace/workspace.go:65 | joining a plain name onto a clean absolute directory is the directory, a slash and the name |
| FilePath.GrandchildPath | internal/workspace/workspace.go:80-82 | joining two plain names onto a clean absolute directory is the directory and the two names, slash-separated |
| FilePath.ChildWithin | internal/workspace/workspace.go:78-83 | a directory's child stays inside it |
| FilePath.GrandchildWithin | internal/workspace/workspace.go:80-82 | a directory's grandchild stays inside it |
| FilePath.JoinSplit | internal/mcp/handlers.go:310-319 | splitting a join on its separator gives back the parts, when no part holds the separator |
| Clock.DaysIn | internal/provider/ratelimit.go:233 | every month of the proleptic Gregorian calendar has 28 to 31 days |
| Clock.WholeYear | internal/provider/ratelimit.go:233 | the twelve months together make up the year's length |
| Clock.Weekday | internal/provider/ratelimit.go:229 | a day number's weekday is one of seven, Sunday being 0 |
| Clock.WeekdayOf | internal/provider/ratelimit.go:229 | `Weekday()` of a clock reading is one of seven |
| Clock.TimeOfDay | internal/provider/ratelimit.go:200 | the time since midnight is less than a day |
| Clock.Instant | internal/provider/ratelimit.go:200-233 | a reading's instant lies within its own day |
| Clock.InstantNotNegative | internal/provider/ratelimit.go:200-233 | no reading lies before Go's zero time |
| Clock.NextMonthLater | internal/provider/ratelimit.go:238-245 | the first of the next month, the year rolling over after December, lies after today and at most 31 days ahead |
| Sorting.SortSlice | internal/workspace/standup_generator.go:109-173 | the slice ends ordered by the comparison and is a permutation of what it held: the reports by role, the tool usages by falling count |
| Sorting.PlaceFirst | internal/workspace/standup_generator.go:171-173 | one more position is settled, the array remaining a permutation |
| Sorting.Exchange | internal/workspace/standup_generator.go:171-173 | an exchange keeps the settled prefix and the array a permutation |
| Sorting.PrefixFirst | internal/workspace/standup_generator.go:174-176 | after sorting, every element kept by a cut to the first n comes no later than any element cut off |
| Sorting.SortedPrefix | internal/workspace/standup_generator.go:174-176 | a prefix of a sorted slice is sorted |
| Sorting.SamePermutation | internal/workspace/standup_generator.go:171-173 | a permutation has the same length and the same elements |
| Sorting.DistinctElements | internal/workspace/standup_generator.go:167-170 | a sequence has no repeated element exactly when no element occurs twice in its multiset |
| Tally.Bump | internal/workspace/activity_logger.go:275-276 | `m[k]++` counts one more `k`, a missing key starting at 0, and leaves every other count alone |
| Tally.CountsSnoc | internal/workspace/activity_logger.go:274-277 | counting one value more bumps that value's count |
| Tally.CountsOccurrences | internal/workspace/activity_logger.go:274-277 | the counts have a key for exactly the values that occur, each holding its number of occurrences |
| Tally.DistinctValues | internal/workspace/activity_logger.go:274-277 | the distinct values are exactly the values that occur, each once |
| Tally.SumOverBump | internal/workspace/activity_logger.go:275 | one bump adds one to a sum over distinct keys that include the bumped key, and nothing otherwise |
| Tally.CountsSum | internal/workspace/activity_logger.go:274-277 | the counts add up to the number of values counted |
| OpenAI.ConvertChoices | internal/provider/openai.go:262-289 | the reply follows the first choice, or is empty for the model when there is none |
| OpenRouter.RouterEntry | internal/provider/openrouter.go:199-227 | the entry of one message is its converted form |
| TaskStore.WhereExactly | internal/workspace/task_store.go:114-147 | a filter keeps exactly the tasks it accepts, each as often as it is stored, never more tasks than there are, and all of them when it accepts all |
| TaskStore.OverdueAtMost | internal/workspace/task_store.go:317-319 | no more tasks are overdue than there are tasks |
| TaskStore.OverdueNone | internal/workspace/task_store.go:317-319 | with no task overdue the count is 0 |
| ActivityLog.Swap | internal/workspace/activity_logger.go:236 | exchanges the two entries and nothing else |
| Team.FirstIdleIs | internal/team/team.go:428-432 | the first idle member's position is the one before which every member is busy |
| Standup.TaskCountsBounded | internal/workspace/standup_generator.go:197-229 | tasks completed today or in the period are among the completed ones, and those of today among those of the period when the period starts no later than today |
| Standup.SortedToolsDistinct | internal/workspace/standup_generator.go:167-173 | sorting the usages keeps each tool once |
| Standup.AddReport | internal/workspace/standup_generator.go:103-106 | one more role gets its report, after those already made |
| Workspace.InitDirs | internal/workspace/workspace.go:77-84 | seven directories, the project directory first |
| Testing.TestResultsOf | internal/tools/testing.go:120-129 | no more results than output lines |
| Git.CommitsOf | internal/tools/git.go:235-251 | no more commits than log lines |
| Git.EntryCount | internal/tools/git.go:51-76 | no more classified files than status lines |
| Workflow.LinkStory | internal/team/workflow.go:253-260 | as many requirements as before |

## Left out

- Daemon: the real HTTP request, process spawning and the asynchronous `tokio::time::sleep(...).await` waits (main.rs:65 and :87) become oracles and trace events. The Tauri builder, its plugins and the window setup are not modelled, because they are framework wiring.
- Daemon.CheckDaemon: a probe has no time-out. `reqwest::get` uses the default client, which sets no total time-out, so a daemon that accepts the connection and never answers makes the probe, and with it `ensure_daemon`, wait forever. The model's probe always returns, so `EnsureDaemon` always ends after at most 30 polls.
- Daemon.Warmup: the warm-up runs in a detached task (`tauri::async_runtime::spawn`, main.rs:83-89), concurrently with any `ensure_daemon` command the frontend sends (main.rs:55-72). Both can see the probe down and both can call `start_daemon`, so the daemon can be launched twice. The model gives `Warmup` and `EnsureDaemon` as separate sequential traces and does not model their interleaving.
- Floating point is not modelled: temperatures and cost figures are left out, and stand-up success rates are exact `real` quotients.
- Goroutines, channels, mutexes and `sync.WaitGroup` are not modelled. Every operation is modelled as one sequential step. A lock only makes its body atomic, so locking wrappers (for example `ProjectIndex.Save` around `saveUnsafe`) are modelled by their bodies.
- Projects: a failure of `json.MarshalIndent` in `saveUnsafe` is not modelled, because marshalling the index's own plain structs cannot fail.
- TaskStore: the data race of `load` writing the map while only a read lock is held is not modelled, because the model is sequential.
- Standup: `Generate` and `FormatReport` are left out, because they only assemble text and call the clock.
- Standup: the comment on the recent-activity list says "last 5", but the code takes the first 5. The model follows the code.
- Standup: `sort.Slice` is not stable, so when tools tie, `TopTools` may pick any of them. The model proves only the order and the counts.
- Standup: `avgDuration` is never assigned in the source, so it stays 0 in the model. `SuccessRate` is a `real`, so `float64` rounding is not modelled.
- Team: `Start`, `Stop`, `Ask`, `AskMember`, `routeInternal`, the persistence callbacks, `SetWorkspace` and `ListMembers` are left out. They are goroutine and channel plumbing around the members.
- Member: `getEffectiveMaxTokens`, `getEffectiveModel` and `getContextLimit` are left out. The context limit they produce is a parameter of `AddToContext`.
- Member: `run`, the `handle*` methods and `buildSystemPrompt` are left out, because they are the goroutine loop and provider calls. The conversation's `saved` field stands for the `SaveMemberContext` callback.
- Orchestrator: `executeStory`, `buildStoryPrompt`, `handleEngineerQuestions`, `GetProjectStatus` and the prompt texts are left out. So are the goroutines and the WaitGroup that run stories in parallel. The replies of chat calls are parameters.
- SpecGen: the wording of the system prompt is not modelled. Only the structure of what is parsed and generated is.
- Manager: `Ask`, `AskMember`, `createPersistenceCallbacks`, `Start` and `Stop` are left out. They are forwarding, callback wiring or the daemon loop.
- Manager: the auto-start goroutine sleeps 100 ms before starting teams. The model returns the list of teams to start instead.
- Manager: store errors are logged and ignored, as in the source. The SQLite store in `store.go` is an abstract map of rows, and SQL is left out.
- SandboxedTools: `RegisterRoleTools` and `SetCommunicationFuncs` are left out, because they only wire callbacks.
- CliActivity: `fmt.Sscanf` ignores trailing text after the number, and this is modelled. Multiplying a 64-bit duration can wrap, and this is written out explicitly.
- CliActivity: Go's `%v` formatting, local time and `time.ParseDuration` are parameters. Lengths count bytes, not display characters. The `tabwriter` column layout is left out.
- CliConfig: `EnsureDirectories`, `Load` and `Save` are parameters given by their results. Every printed line except the `config set` confirmation is left out.
- Logger: Go iterates map fields in random order, so a rendered line is specified for every ordering of the stored fields (`IsOrdering`, `Renders`), and nothing is proved about output order. The mutex is left out. The default writer is standard output, so written lines are the logger's `out` sequence.
- Api: the chat loop, websockets and the handlers not listed in the table are left out. These cover routing, JSON marshalling and HTTP plumbing.
- Api: after settings are saved, the source calls `ApplyToEnvironment` and `AutoDiscover` again. That re-discovery is left out.
- Cli: a failing `os.Getwd` makes the current directory "", and this is modelled. Only the `spec`, `config` and `activity` subcommands and the client helpers are modelled. The `project`, `conversation`, `standup` and `debug` subcommands are left out, because they print what the daemon returns.
- CliSpec: reading from standard input at end of file hangs in the source. The model shows this as the `hangs` flag. `generateTeamYAML` is left out. Title-casing assumes ASCII separators.
- CliSpec: the rest of `spec new` is left out: the overwrite and save confirmations (cmd/ugudu/spec.go:91, 188 and 401) and writing the YAML file. They are terminal and file I/O around the modelled steps.
- The daemon's HTTP client, `embed.go` and `websocket.go` are not part of this model.
- GoStrings.IsSpace, GoStrings.TrimSpace, GoStrings.ToLower, GoStrings.ToUpper: only ASCII is modelled. `IsSpace` and `TrimSpace` know the six ASCII white-space bytes (tab, newline, vertical tab, form feed, carriage return, space). Go decodes UTF-8 and also trims the other `unicode.IsSpace` runes: U+0085, U+00A0, U+1680, U+2000 to U+200A, U+2028, U+2029, U+202F, U+205F and U+3000. `ToLower` and `ToUpper` map only A to Z and a to z. Go applies Unicode case mapping to every rune (for example É to é, or the Kelvin sign to k), and its mapping replaces invalid UTF-8 with U+FFFD. So these functions agree with Go on ASCII text only. The same limit holds wherever they are used: the answers and the "another role?" reply read by CliSpec, the blank skipping of `CliActivity.Blanks`, the git output parsers, the MCP and orchestrator line parsers, `RateLimit.KindFromMessage` and `Mentions`, the HTTP method check of the tools, and `Logger.ParseLevel`.
- ParseAnthropicRateLimitError: the weekly reset is the corrected `NextWeeklyReset`, not the as-written `nextWeeklyReset` that ratelimit.go:205 calls. `WeeklyResetsAgree` proves the two are equal except on a Monday between 00:00 and 00:59 UTC, where the program's reset is that day's midnight, already past (first row of the Findings table).
- ParseResetAt: its weekly clause and its "in the future" clause hold for the corrected weekly reset. For the program as written they fail on a Monday before 01:00 UTC, as `WeeklyResetAsWrittenCanBePast` shows, and hold at every other time by `WeeklyResetsAgree`.
- Tools.ResolveSafePath: `os.MkdirAll(projectsDir, 0755)` at tools.go:163-164 creates `~/ugudu_projects/default` on every call except one whose absolute path already lies under home. The model is a pure function and does not model this directory creation. The same holds for `Tools.ResolveSafePathAsWritten`.
- WritePlan: paths go through the corrected `ResolveSafePath`, not the as-written `resolveSafePath` of tools.go:129. `ResolveSafePathAgrees` proves the two equal on every relative path whose cleaned form does not start with "..". On a climbing path such as "../../../x" the program escapes the default project and the model does not (second Findings row).
- WriteFile: inherits the corrected path of `WritePlan`, as above.
- EditPlan: reads and writes at the corrected `ResolveSafePath`, not at the as-written path tools.go:197 uses. They differ only on climbing paths, as for `WritePlan`.
- EditFile: inherits the corrected path of `EditPlan`, as above.
- EditWithoutMatchWritesNothing: the file it reads is at the corrected `ResolveSafePath`, as for `EditPlan`.
- WorkingPath: relative paths go through the corrected `ResolveSafePath`, while tools.go:235, 292 and 414 call the as-written one. They differ only on climbing paths.
- ListFilesDir: its directory is the corrected resolution, as for `WorkingPath`.
- SearchRoot: its root is the corrected resolution, as for `WorkingPath`.
- RunCommandSetup: its working directory is the corrected resolution, as for `WorkingPath` (tools.go:292 and 298).
- GetProjectIndex: the `GlobalIndex` class follows the corrected `GetProjectIndexStep`, where a failed load is reported on every call. In the program (projects.go:35-49), calls after a failed load get the unloaded, empty index and no error. `IndexStepsAgree` proves the two steps equal until a load has failed (third Findings row, `CorruptIndexOverwritten`).
- AddProjectToIndex: after a failed load the model reports the load error again, while the program adds to the empty index and saves it over the unreadable file, as above.
- RemoveProjectFromIndex: after a failed load the model reports the load error again, while the program removes from the empty index and saves it over the file, as above.
- ListProjects: after a failed load the model reports the load error again, while the program lists nothing and reports no error, as above.
- GetProject: after a failed load the model reports the load error again, while the program answers "project not found", as above.
- ActivityLog.ActivityLogger.Log: the `bufio.Writer` of activity_logger.go writes its 4096-byte buffer to the file by itself once the buffer is full, and that write can fail inside `Log`. The model keeps every logged entry buffered until `Flush`, so `Log` never fails because of an automatic buffer-full write; it still returns the "write activity entry:", "write newline:" and "flush activity log:" errors of its own outcomes. Errors of a `bufio.Writer` are also sticky: after one failed write, every later `Write` and `Flush` returns that same error (activity_logger.go:63-77). The model takes a fresh `WriteOutcome` and flush error on each call, so after a failure a later `Log` can succeed and a `Flush` can persist entries the program never writes.
- Standup.PeriodBounds: midnights are taken in UTC, as multiples of a day. The source builds them in `now.Location()` (standup.go:82 and 90), so in another zone the start is local midnight, and across a daylight-saving change a day lasts 23 or 25 hours.
- TeamMember.Conversation.AddToContext: the context limit is a `nat`. A negative `context_history` from a spec, which makes the source's slice expression panic, cannot be expressed.
- ProjectConfig.SaveThenLoad: the YAML codec is a parameter, and the lemma assumes it round-trips on the stamped configuration (`parse(marshal(x)) == Ok(x)`). It proves the file plumbing around the codec, not the codec itself.

## Findings

| source | as written | input that shows it | evidently intended | confidence | as-written member | corrected member |
|---|---|---|---|---|---|---|
| internal/provider/ratelimit.go:227-234 | on a Monday, a week is added only when the hour is past 0, so between 00:00 and 01:00 the "next" weekly reset is that Monday's midnight | Monday 00:30 gives a reset 30 minutes in the past | the first Monday midnight strictly after now | not executed | RateLimit.WeeklyResetAsWrittenCanBePast | RateLimit.WeeklyResetIsNextMonday |
| internal/tools/tools.go:166-171 | only one leading `../` and then one `..` are trimmed after cleaning | `../../../x` resolves to `~/ugudu_projects/x`, outside the default project | every leading `..` is dropped, so the path stays inside the default project | not executed | Tools.ResolveSafePathAsWrittenEscapes | Tools.ResolveSafePathStaysInProjects |
| internal/workspace/projects.go:35-49 | the index loads under `sync.Once`, so a load error is reported once and afterwards the empty, unloaded index is handed out | a corrupt index file: the first call fails, the second succeeds, and the next add overwrites the file with a single project | a failed load stays failed for every caller and the file is not overwritten | not executed | Projects.CorruptIndexOverwritten | Projects.FailedLoadReportedAgain |
| internal/api/server.go:882-887 | the limit is checked with `json.Number(limit).Int64()`, but the parsed value is discarded and the never-assigned `var l int` is stored, so the limit becomes 0. A limit of 0 switches the cut off (activity_logger.go:179 and :223), so the handler returns every matching entry | `?limit=10` gives limit 0, and the query then returns all matching entries, more than 10 when more match | the parsed number becomes the limit | not executed | Api.ActivityLimitAsWrittenDropsRequest | Api.ActivityLimitHonoursRequest |
