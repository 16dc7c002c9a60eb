# switchboard-mcp in Dafny

switchboard-mcp is an MCP server that gathers "agent" definitions written for three ecosystems and serves each one as a callable tool. The ecosystems are:

- Anthropic-style Markdown agents with YAML front matter (`*.agent.md`);
- VS Code chat modes (`*.chatmode.md`);
- Codex agents: any `*.toml` file (extension in any ASCII case), with an optional prompt in the sibling `<stem>.prompt.md`.

Each definition goes through the same pipeline:

1. It is parsed into one `AgentConfig`.
2. Its name is turned into a tool-safe identifier (`safe_name`).
3. Its vendor tool tokens are rewritten through per-ecosystem tables into capability toggles or MCP tool references (the tool map).
4. Its model and provider tokens are rewritten through an alias table (the model map).
5. MCP servers found in Claude, VS Code and other client configurations are attached. Optionally each server is probed first, and only servers that offer a referenced tool are kept.

The resulting agents are deduplicated and registered by tool name. Each call to a tool runs the agent in process against the Codex engine, with a derived profile, and collects stdout and stderr from the engine's event stream.

The model follows the crate module by module:

- pure parsing and mapping code are Dafny functions with lemmas about them;
- the loops in the loader, the discovery merge and the runner's event drain are methods with loop invariants, each proved equal to a specification function;
- `dedupe_tool_names` works in place on an `array`;
- the MCP handler is a class whose registry is a `map` field.

Outside inputs are parameters:

- file contents and directory listings;
- environment variables;
- the YAML, TOML and JSON decoders, and the names the codex enums accept;
- the probe results;
- the Codex engine.

Every function, method and lemma that has a contract is listed below. Plain definitional functions without a contract name, in their doc comment, the Rust function and lines they follow (for example `Naming.ToolPrefixFor`, `Handler.Description`, `Handler.ToolFor`, `CodexRunner.ConfigFor`, `CodexRunner.OverridesFor`, `CodexRunner.DrainSpec`).

## Model

| member | source | states |
|---|---|---|
| `Naming.Sanitize` | crates/switchboard-mcp/src/model/naming.rs:5-12 | one output character per input character: an ASCII letter or digit lowercased, anything else `_` |
| `Naming.TrimUnderscores` | crates/switchboard-mcp/src/model/naming.rs:13 | a non-empty trimmed result has no `_` at either end |
| `Naming.TrimUnderscoresStrips` | crates/switchboard-mcp/src/model/naming.rs:13 | `trim_matches('_')`: the result is the input with a prefix and a suffix cut off, and each of the two consists only of `_` |
| `Naming.ComputeSafeName` | crates/switchboard-mcp/src/model/naming.rs:4-14 | the character loop followed by the trim yields exactly `SafeName(name)` |
| `Naming.SafeNameAlphabet` | crates/switchboard-mcp/src/model/naming.rs:4-14 | a safe name contains only `a`-`z`, `0`-`9` and `_` |
| `Naming.SafeNameEdges` | crates/switchboard-mcp/src/model/naming.rs:13 | a non-empty safe name neither starts nor ends with `_` |
| `Naming.SafeNameIdempotent` | crates/switchboard-mcp/src/model/naming.rs:4-14 | applying `safe_name` to a safe name changes nothing |
| `Naming.SafeNameWithoutAlnum` | crates/switchboard-mcp/src/model/naming.rs:6-13 | a name without any ASCII letter or digit yields the empty identifier |
| `Naming.SafeNameKeepsRuns` | crates/switchboard-mcp/src/model/naming.rs:6-13 | runs of separators are not collapsed: "a  b" becomes "a__b" |
| `Naming.ToolNameForShape` | crates/switchboard-mcp/src/model/naming.rs:41-43 | a tool name is the prefix followed by the safe name, which uses only the safe alphabet and has no `_` at either end |
| `Strings.AsciiLower` | crates/switchboard-mcp/src/model/naming.rs:8 | same length; each character is lowercased if it is an ASCII capital and otherwise kept |
| `Strings.AsciiLowerIdempotent` | crates/switchboard-mcp/src/modelmap/load.rs:46 | lowercasing twice is lowercasing once |
| `Strings.BlankIffTrimEmpty` | crates/switchboard-mcp/src/parser/anthropic_frontmatter.rs:53 | a string trims to "" exactly when every character is white space |
| `Strings.TrimIdempotent` | crates/switchboard-mcp/src/parser/anthropic_frontmatter.rs:54 | trimming a trimmed string changes nothing |
| `Strings.Split` | crates/switchboard-mcp/src/parser/anthropic_frontmatter.rs:52 | `str::split` by a separator class: always at least one piece |
| `Strings.SplitProps` | crates/switchboard-mcp/src/parser/anthropic_frontmatter.rs:52 | one piece more than there are separators, and no piece contains a separator |
| `Strings.SplitJoin` | crates/switchboard-mcp/src/parser/anthropic_frontmatter.rs:52 | joining separator-free pieces with a separator and splitting gives the pieces back |
| `Strings.Tokens` | crates/switchboard-mcp/src/parser/anthropic_frontmatter.rs:51-55 | every token is non-empty, is its own trim, and contains no separator |
| `Strings.TokensOfJoin` | crates/switchboard-mcp/src/parser/anthropic_frontmatter.rs:51-55 | tokens written out with "," between them are read back as exactly those tokens |
| `Strings.SplitOnce` | crates/switchboard-mcp/src/parser/vscode_chatmode.rs:162 | `split_once`: the parts around the first occurrence of the pattern, or nothing when it does not occur |
| `Paths.FileName` | crates/switchboard-mcp/src/parser/anthropic_frontmatter.rs:88 | a file name is never empty, ".", ".." and contains no `/` |
| `Paths.FileNameOfChild` | crates/switchboard-mcp/src/parser/anthropic_frontmatter.rs:88 | the file name of `dir/name` is `name` |
| `Paths.ExtensionOfChild` | crates/switchboard-mcp/src/parser/codex_toml.rs:17 | the extension of `dir/stem.ext` is `ext` |
| `Frontmatter.FirstNonBlank` | crates/switchboard-mcp/src/parser/anthropic_frontmatter.rs:96-102 | the index of the first non-blank line, every earlier line blank; none only when all lines are blank |
| `Frontmatter.FindDelimiter` | crates/switchboard-mcp/src/parser/anthropic_frontmatter.rs:114-123 | the first line at or after the start that trims to `---`, none before it; none only when no such line exists |
| `Frontmatter.ScanFirstNonBlank` | crates/switchboard-mcp/src/parser/anthropic_frontmatter.rs:96-102 | the scan with early exit finds `FirstNonBlank` |
| `Frontmatter.ScanHeader` | crates/switchboard-mcp/src/parser/anthropic_frontmatter.rs:114-123 | the scan finds the closing delimiter and its buffer holds each header line followed by a newline |
| `Frontmatter.SplitScan` | crates/switchboard-mcp/src/parser/anthropic_frontmatter.rs:96-145 | over the lines of a file, the two scans give the empty-file, missing-frontmatter and unterminated errors and the header/body split exactly as `SplitLines` states them |
| `Frontmatter.SplitFrontmatter` | crates/switchboard-mcp/src/parser/anthropic_frontmatter.rs:94-145 | the two scans give exactly the split stated on the file's lines |
| `Frontmatter.SplitEmptyFile` | crates/switchboard-mcp/src/parser/anthropic_frontmatter.rs:103-105 | the split fails as an empty file exactly when every line is blank |
| `Frontmatter.SplitMissingFrontmatter` | crates/switchboard-mcp/src/parser/anthropic_frontmatter.rs:106-111 | it fails for a missing opening `---` exactly when the first non-blank line is not a delimiter |
| `Frontmatter.SplitUnterminated` | crates/switchboard-mcp/src/parser/anthropic_frontmatter.rs:124-129 | it fails as unterminated exactly when no delimiter follows the opening one |
| `Frontmatter.SplitOk` | crates/switchboard-mcp/src/parser/anthropic_frontmatter.rs:113-145 | otherwise the header is the lines strictly between the two delimiters and the body is the later lines joined by newlines |
| `Frontmatter.DelimiterTolerance` | crates/switchboard-mcp/src/parser/anthropic_frontmatter.rs:106 | surrounding white space around `---` is tolerated, `----` is not a delimiter |
| `Frontmatter.DecodeToolsField` | crates/switchboard-mcp/src/parser/anthropic_frontmatter.rs:30-37 | the untagged field: missing or null is `Empty`, a string `Single`, a list `List` exactly when every item is a string; booleans, numbers and mappings fail |
| `Frontmatter.DecodeOptString` | crates/switchboard-mcp/src/parser/anthropic_frontmatter.rs:24-25 | an optional string: missing or a plain null is none; a string, number or boolean scalar is kept as its text; a sequence or mapping makes the header fail to decode |
| `Frontmatter.DecodeProvider` | crates/switchboard-mcp/src/parser/anthropic_frontmatter.rs:26-27 | two of the spellings `model_provider`, `provider`, `modelProvider` together fail; none is no provider; a value comes from one of them |
| `Frontmatter.IntoVecOfJoined` | crates/switchboard-mcp/src/parser/anthropic_frontmatter.rs:49-56 | round trip: separator-free tokens joined by "," read back unchanged |
| `Frontmatter.IntoVecCommasOnlyOfJoined` | crates/switchboard-mcp/src/parser/anthropic_frontmatter.rs:71-79 | round trip for tags: trimmed items without commas, inner spaces included, read back unchanged |
| `AnthropicFrontmatter.SupportsAgentFile` | crates/switchboard-mcp/src/parser/anthropic_frontmatter.rs:87-92 | every `dir/stem.agent.md` with a stem free of `/` is accepted |
| `AnthropicFrontmatter.RefusesOtherFiles` | crates/switchboard-mcp/src/parser/anthropic_frontmatter.rs:87-92 | `example.chatmode.md` and a bare `agent.md` are refused |
| `AnthropicFrontmatter.DecodeFields` | crates/switchboard-mcp/src/parser/anthropic_frontmatter.rs:15-28 | decoding fails exactly when the header is not a mapping, lacks a scalar `name`, or has a present field of the wrong shape; otherwise each field is what the header holds, a scalar read as its text, or its default |
| `AnthropicFrontmatter.PlainScalarsReadAsText` | crates/switchboard-mcp/src/parser/anthropic_frontmatter.rs:15-28 | `name: 123`, `description: true` and `model: 4.1` decode to the texts "123", "true" and "4.1" |
| `AnthropicFrontmatter.EmptyDescriptionListName` | crates/switchboard-mcp/src/parser/anthropic_frontmatter.rs:15-28 | an empty `description:` decodes to "", and a list under `name` refuses the header |
| `AnthropicFrontmatter.ParsedFromHeader` | crates/switchboard-mcp/src/parser/anthropic_frontmatter.rs:131-168 | a parsed agent takes its name and description from the header as scalar text, its instructions are the trimmed body, and it has run settings exactly when the header gives a model or a provider, holding just those two |
| `AnthropicFrontmatter.Parse` | crates/switchboard-mcp/src/parser/anthropic_frontmatter.rs:94-169 | the parse method computes `ParseSpec`: split, then decode, then assemble |
| `AnthropicFrontmatter.SplitErrorsPropagate` | crates/switchboard-mcp/src/parser/anthropic_frontmatter.rs:103-129 | a split error is returned as it is, before the YAML decoder is consulted |
| `AnthropicFrontmatter.ParsedShape` | crates/switchboard-mcp/src/parser/anthropic_frontmatter.rs:158-168 | a parsed agent never has toggles, an instructions file or servers, always has instructions, and its tools are bare |
| `AnthropicFrontmatter.TagsKeepInnerSpaces` | crates/switchboard-mcp/src/parser/anthropic_frontmatter.rs:177-189 | the header of the tags test gives the tags "deep research", "demo", "another tag" |
| `AnthropicFrontmatter.ToolsStringBecomesBareRefs` | crates/switchboard-mcp/src/parser/anthropic_frontmatter.rs:195-212 | `tools: plan apply_patch` gives the bare references `plan` and `apply_patch` |
| `AnthropicFrontmatter.ToolsListKept` | crates/switchboard-mcp/src/parser/anthropic_frontmatter.rs:214-232 | a YAML list of tools is kept as it is |
| `AnthropicFrontmatter.ModelMappedIntoRun` | crates/switchboard-mcp/src/parser/anthropic_frontmatter.rs:236-249 | `model: sonnet` gives run settings whose model is "sonnet" and nothing else |
| `AnthropicFrontmatter.DuplicateProviderRejected` | crates/switchboard-mcp/src/parser/anthropic_frontmatter.rs:26-27 | `provider` and `modelProvider` in one header fail to decode |
| `VscodeChatmode.SupportsChatmodeFile` | crates/switchboard-mcp/src/parser/vscode_chatmode.rs:63-68 | every `dir/stem.chatmode.md` with a stem free of `/` is accepted |
| `VscodeChatmode.DeriveNameFromFilename` | crates/switchboard-mcp/src/parser/vscode_chatmode.rs:155-159 | the file stem with a trailing ".chatmode" removed, the stem itself when it has none, "agent" without a stem |
| `VscodeChatmode.DerivedNameIsStem` | crates/switchboard-mcp/src/parser/vscode_chatmode.rs:155-159 | `dir/stem.chatmode.md` is named `stem` |
| `VscodeChatmode.ParseVscodeToolRef` | crates/switchboard-mcp/src/parser/vscode_chatmode.rs:161-172 | text before the first "::" is the server key and the rest the tool, both trimmed; without "::" a trimmed bare tool |
| `VscodeChatmode.ToolRefRoundTrip` | crates/switchboard-mcp/src/parser/vscode_chatmode.rs:161-172 | a trimmed key without `:` joined to a trimmed tool by "::" parses back to that pair |
| `VscodeChatmode.BareToolRefKept` | crates/switchboard-mcp/src/parser/vscode_chatmode.rs:167-171 | a trimmed entry without "::" stays a bare reference to itself |
| `VscodeChatmode.DecodeFields` | crates/switchboard-mcp/src/parser/vscode_chatmode.rs:15-28 | decoding fails exactly when the header is not a mapping, has no scalar `description`, or has a present field of the wrong shape; the description is the scalar's text |
| `VscodeChatmode.NullNameNumericDescription` | crates/switchboard-mcp/src/parser/vscode_chatmode.rs:15-28 | `name: ~` decodes to no name and `description: 42` to "42"; `name: false` decodes to the name "false" |
| `VscodeChatmode.ParsedFromHeader` | crates/switchboard-mcp/src/parser/vscode_chatmode.rs:107-151 | a parsed chat mode takes its description from the header and its name from the header unless absent or null, else from the file name; instructions and run settings as for `.agent.md` files |
| `VscodeChatmode.Parse` | crates/switchboard-mcp/src/parser/vscode_chatmode.rs:70-152 | the parse method computes `ParseSpec`: split, then decode, then assemble |
| `VscodeChatmode.SplitErrorsPropagate` | crates/switchboard-mcp/src/parser/vscode_chatmode.rs:79-105 | split errors are those of `.agent.md` files and come before any decoding |
| `VscodeChatmode.DescriptionRequired` | crates/switchboard-mcp/src/parser/vscode_chatmode.rs:19 | a header without `description` is refused |
| `VscodeChatmode.TagsSplitOnWhitespace` | crates/switchboard-mcp/src/parser/vscode_chatmode.rs:144 | tags are split at white space too, so "deep research" is two tags |
| `VscodeChatmode.ParsedShape` | crates/switchboard-mcp/src/parser/vscode_chatmode.rs:141-151 | a parsed chat mode never has toggles, an instructions file or servers, and always has instructions |
| `CodexToml.SupportsTomlFile` | crates/switchboard-mcp/src/parser/codex_toml.rs:16-21 | `dir/stem.toml` is accepted in any case of the extension, `dir/stem.md` is not |
| `CodexToml.DecodeRun` | crates/switchboard-mcp/src/parser/codex_toml.rs:103-109 | the run decodes exactly when every known key has its field's type and every enum setting names a variant; each of the thirteen decoded fields is the value written under its key, or none when absent |
| `CodexToml.OptEnumFacts` | crates/switchboard-mcp/src/parser/codex_toml.rs:103 | an enum setting decodes exactly when it is absent or a string naming a variant, and then holds that string |
| `CodexToml.RunIgnoresUnknownKeys` | crates/switchboard-mcp/src/parser/codex_toml.rs:103-109 | writing a key the run struct does not name leaves the decoded run unchanged |
| `CodexToml.RunRejected` | crates/switchboard-mcp/src/parser/codex_toml.rs:102-117 | a non-table `[run]`, one with a mistyped known key, or one whose sandbox mode names no variant gives no run settings |
| `CodexToml.MapToolsToToggles` | crates/switchboard-mcp/src/parser/codex_toml.rs:172-180 | every one of the four toggles is set, none is left unset (what each holds: `TogglesOfEmpty`, `TogglesOfOne`, `TogglesOfConcat`) |
| `CodexToml.HasConcat` | crates/switchboard-mcp/src/parser/codex_toml.rs:173 | a token is listed in a concatenation exactly when it is listed in either half |
| `CodexToml.TogglesOfConcat` | crates/switchboard-mcp/src/parser/codex_toml.rs:172-180 | the policy of a concatenated list is the pointwise "or" of the two halves' policies |
| `CodexToml.TogglesOfEmpty` | crates/switchboard-mcp/src/parser/codex_toml.rs:172-180 | the empty list sets every toggle to false |
| `CodexToml.TogglesOfOne` | crates/switchboard-mcp/src/parser/codex_toml.rs:172-180 | a one-token list turns on exactly the toggles whose token, or dashed spelling, it equals ignoring ASCII case |
| `CodexToml.TogglesOfMixedCase` | crates/switchboard-mcp/src/parser/codex_toml.rs:173 | "Apply-Patch" turns on only apply_patch and "PLAN" only the plan tool |
| `CodexToml.ParseSpec` | crates/switchboard-mcp/src/parser/codex_toml.rs:23-31 | a document that does not decode is `InvalidToml`; a decoded one fails exactly when `name` is not a string, and then with the missing-name error |
| `CodexToml.Parse` | crates/switchboard-mcp/src/parser/codex_toml.rs:23-169 | removing the known keys one at a time gives `ParseSpec`, and the keys left over are exactly the unknown ones |
| `CodexToml.TakeKnownKeys` | crates/switchboard-mcp/src/parser/codex_toml.rs:29-125 | removing the eight known keys one after another yields for each the value the original table holds under it, and leaves exactly the table's other keys |
| `CodexToml.DescriptionDefault` | crates/switchboard-mcp/src/parser/codex_toml.rs:34-37 | a missing or non-string description becomes "Agent" |
| `CodexToml.InstructionsFallback` | crates/switchboard-mcp/src/parser/codex_toml.rs:69-99 | a non-string instructions file is dropped; inline text wins; the sibling prompt is used only without an instructions file and inline text |
| `CodexToml.CodexHasNoToolRefs` | crates/switchboard-mcp/src/parser/codex_toml.rs:121-167 | Codex agents never carry tool references, and their servers are the `mcp_servers` value as written |
| `CodexToml.UnknownKeysIgnored` | crates/switchboard-mcp/src/parser/codex_toml.rs:149-156 | adding a key `parse` does not know changes nothing |
| `CodexToml.ToolsArrayExample` | crates/switchboard-mcp/src/parser/codex_toml.rs:126-131 | in a `tools` array, non-string items are skipped and "PLAN", "Apply-Patch" turn on plan and apply_patch |
| `CodexToml.ToolsSkipNonStrings` | crates/switchboard-mcp/src/parser/codex_toml.rs:126-131 | a non-string item of a `tools` array changes no toggle, wherever it sits |
| `CodexToml.CodexTags` | crates/switchboard-mcp/src/parser/codex_toml.rs:40-65 | tags are none when absent or of another type; an array gives its string items in order, none exactly when it has no string item; a string gives its non-empty trimmed separator-free pieces; tags are never an empty list |
| `Values.JsonStringsConcat` | crates/switchboard-mcp/src/mcp/discovery.rs:222-229 | the string items of `a + b` are those of `a` followed by those of `b` |
| `Values.JsonStringsOne` | crates/switchboard-mcp/src/mcp/discovery.rs:226 | a single item is kept exactly when it is a string |
| `Values.TomlStringsConcat` | crates/switchboard-mcp/src/parser/codex_toml.rs:42-45 | the string items of `a + b` are those of `a` followed by those of `b` |
| `Values.TomlStringsOne` | crates/switchboard-mcp/src/parser/codex_toml.rs:44 | a single item is kept exactly when it is a string |
| `Values.TomlStringsEmpty` | crates/switchboard-mcp/src/parser/codex_toml.rs:42-48 | a TOML array yields no string exactly when none of its items is a string |
| `DiscoveryEntries.ParseStdioLikeFields` | crates/switchboard-mcp/src/mcp/discovery.rs:220-247 | an entry is accepted exactly when `command` is a string; `args` keeps the string items of an array (else none), `env` the string values of an object (else none); the origin is a bare Claude origin |
| `DiscoveryEntries.ParseClaudeServerRefuses` | crates/switchboard-mcp/src/mcp/discovery.rs:254-266 | an entry is accepted exactly when it has no `type` "http" in any case, no `url` field and a command; then it parses as a stdio entry |
| `DiscoveryEntries.JsonStringsOfStrings` | crates/switchboard-mcp/src/mcp/discovery.rs:222-229 | `args` made only of strings are kept as they are, in order |
| `DiscoveryEntries.JsonStringsSkipsOthers` | crates/switchboard-mcp/src/mcp/discovery.rs:226 | a number among the `args` is skipped |
| `DiscoveryEntries.ClaudeServerRejectsHttpAndUrl` | crates/switchboard-mcp/src/mcp/discovery.rs:255-265 | "HTTP" in any case, or a `url` field even when null, rejects a Claude entry that has a command; `type: "stdio"` does not; a stdio-like source ignores `url` |
| `Discovery.MergeEntries` | crates/switchboard-mcp/src/mcp/discovery.rs:68-76 | the merge loop in any key order: every accepted entry stamped with the origin, put over `out` (insert) or under it (`or_insert`) |
| `Discovery.MergeStep` | crates/switchboard-mcp/src/mcp/discovery.rs:74 | one insertion of a new key, over `out` or under it, equals merging the entries with that key added |
| `Discovery.ObjectAt` | crates/switchboard-mcp/src/mcp/discovery.rs:64 | the object under a key, only when the file decoded to an object holding an object there, and then exactly that object |
| `Discovery.ParsedOrEmpty` | crates/switchboard-mcp/src/mcp/discovery.rs:64-66 | every server is stored under its own key, and a missing servers object gives nothing |
| `Discovery.MergeClaudeProject` | crates/switchboard-mcp/src/mcp/discovery.rs:57-78 | the entries of `.mcp.json` overwrite those already in the map |
| `Discovery.StringList` | crates/switchboard-mcp/src/mcp/discovery.rs:117-132 | a list field of the project block exists exactly when it is an array |
| `Discovery.RemoveAll` | crates/switchboard-mcp/src/mcp/discovery.rs:137-141 | removing each disabled key in turn removes exactly the set of disabled keys |
| `Discovery.MergeProjectBlock` | crates/switchboard-mcp/src/mcp/discovery.rs:103-143 | the project block's servers after the enabled and disabled lists |
| `Discovery.MergeClaudeUser` | crates/switchboard-mcp/src/mcp/discovery.rs:80-160 | `out` extended with the project-scoped servers, global ones filling only keys the project does not have |
| `Discovery.MergeVscodeMcp` | crates/switchboard-mcp/src/mcp/discovery.rs:167-195 | the entries of a VS Code file overwrite those already in the map |
| `Discovery.MergeCursorMcp` | crates/switchboard-mcp/src/mcp/discovery.rs:197-218 | the entries of the Cursor file only fill keys not already present |
| `Discovery.DiscoverStdioServers` | crates/switchboard-mcp/src/mcp/discovery.rs:26-54 | the five merges in their order give `DiscoverSpec` |
| `Discovery.ParsedConsistent` | crates/switchboard-mcp/src/mcp/discovery.rs:72-74 | each source stores every server under its own key |
| `Discovery.DiscoverKeysConsistent` | crates/switchboard-mcp/src/mcp/discovery.rs:26-54 | every discovered server is stored under its own key |
| `Discovery.MergeOrder` | crates/switchboard-mcp/src/mcp/discovery.rs:32-51 | on any five maps merged in this way, later inserts win and the last step only fills gaps |
| `Discovery.DiscoverPrecedence` | crates/switchboard-mcp/src/mcp/discovery.rs:26-54 | a key is discovered exactly when some source has it, and comes from the VS Code user file, else the VS Code project file, else `~/.claude.json`, else `.mcp.json`, else Cursor |
| `Discovery.DiscoverSpecShape` | crates/switchboard-mcp/src/mcp/discovery.rs:26-54 | the discovered map is Cursor's entries under the four inserting sources applied in order |
| `Discovery.ProjectFilter` | crates/switchboard-mcp/src/mcp/discovery.rs:116-141 | a project server survives exactly when the enabled list is absent or names it ignoring case, and the disabled list does not name it exactly |
| `Discovery.GlobalUnderProject` | crates/switchboard-mcp/src/mcp/discovery.rs:145-157 | global entries never replace project-scoped ones and are not filtered, so a global server survives where the project has none |
| `Discovery.EnabledIgnoresCaseDisabledDoesNot` | crates/switchboard-mcp/src/mcp/discovery.rs:135-139 | "GitHub" in the allow list keeps "github"; "GitHub" in the deny list does not remove it |
| `Discovery.NothingToMerge` | crates/switchboard-mcp/src/mcp/discovery.rs:61-66 | a missing or undecodable file, or one without its servers object, leaves the map unchanged |
| `Discovery.VscodeServersKeyPreferred` | crates/switchboard-mcp/src/mcp/discovery.rs:174-178 | with both keys `servers` is used and `mcpServers` ignored; `mcpServers` alone is used too |
| `Discovery.VscodeServersKeyParsed` | crates/switchboard-mcp/src/mcp/discovery.rs:293-318 | the test file yields server `switchboard` with its command, no args, RUST_LOG=info and a VS Code origin |
| `ToolMapTypes.VscodeMapContents` | crates/switchboard-mcp/src/toolmap/types.rs:56-92 | the VS Code table holds exactly seven tools: edit and new to apply_patch, search, fetch and githubRepo to web_search, runCommands to terminal access, memory to the npx memory server |
| `ToolMapTypes.VscodeAliasesContents` | crates/switchboard-mcp/src/toolmap/types.rs:93-108 | the ten VS Code placeholders: only "Find Usages" is renamed (to "usages"), and none of them leads to a mapped tool |
| `ToolMapTypes.AnthropicMapContents` | crates/switchboard-mcp/src/toolmap/types.rs:110-118 | the Anthropic table maps the four toggles by their own names and the six terminal tools to terminal access, and holds only built-ins |
| `ToolMapTypes.AnthropicAliasesContents` | crates/switchboard-mcp/src/toolmap/types.rs:120-137 | the seven Claude aliases: the editing family to apply_patch, both web tools to web_search, TodoWrite to plan; every target is in the table |
| `ToolMapApply.ServerOut` | crates/switchboard-mcp/src/toolmap/apply.rs:61-75 | at most one server definition per reference, and one exactly when custom servers are allowed and the bare reference maps to a server tool |
| `ToolMapApply.ApplyMapping` | crates/switchboard-mcp/src/toolmap/apply.rs:8-93 | the single loop over the references computes `ApplySpec`: new references, toggles and servers together |
| `ToolMapApply.RefOutCases` | crates/switchboard-mcp/src/toolmap/apply.rs:27-82 | a namespaced reference is kept; a bare one is dropped exactly when its resolved name is a built-in toggle, becomes the namespaced server tool it maps to, or stays bare under its alias-resolved name |
| `ToolMapApply.CodexUsesAnthropicTable` | crates/switchboard-mcp/src/toolmap/apply.rs:18-22 | VS Code agents use the VS Code table; Codex agents are rewritten exactly as Anthropic ones |
| `ToolMapApply.ApplyChangesRefsAndRun` | crates/switchboard-mcp/src/toolmap/apply.rs:8-93 | without references the agent is unchanged and no server is returned; otherwise only references and run change, the run becomes present, references vanish only when all are consumed, and no server is returned unless allowed |
| `ToolMapApply.ApplyStep` | crates/switchboard-mcp/src/toolmap/apply.rs:27-84 | one more reference extends each of the three results by that reference's contribution |
| `ToolMapApply.RefsConcat` | crates/switchboard-mcp/src/toolmap/apply.rs:27-84 | the rewrite works reference by reference: the output for `a + b` is that for `a` followed by that for `b` |
| `ToolMapApply.NamespacedKeptInPlace` | crates/switchboard-mcp/src/toolmap/apply.rs:29-32 | a namespaced reference keeps its place among the outputs of its neighbours |
| `ToolMapApply.AllNamespacedUnchanged` | crates/switchboard-mcp/src/toolmap/apply.rs:29-32 | references that are all namespaced come out unchanged |
| `ToolMapApply.NoServersUnlessAllowed` | crates/switchboard-mcp/src/toolmap/apply.rs:61 | without `allow_custom_servers` no server definition is returned |
| `ToolMapApply.ServersFromMappedRefs` | crates/switchboard-mcp/src/toolmap/apply.rs:50-75 | each returned server is the definition of a server destination some bare reference maps to, marked as the mapping's |
| `ToolMapApply.RunAfterFields` | crates/switchboard-mcp/src/toolmap/apply.rs:41-49 | each toggle is switched on exactly when some reference hits it and otherwise keeps its value; the other run settings are untouched |
| `ToolMapApply.VscodeEditSearch` | crates/switchboard-mcp/src/toolmap/apply.rs:121-131 | VS Code "edit" and "search" switch on apply_patch and web_search and leave no reference and no server |
| `ToolMapApply.AnthropicAliasesToToggles` | crates/switchboard-mcp/src/toolmap/apply.rs:133-143 | Claude's Edit, WebFetch and TodoWrite switch on apply_patch, web_search and plan and leave no reference |
| `ToolMapApply.VscodeRunCommandsConsumed` | crates/switchboard-mcp/src/toolmap/apply.rs:145-155 | VS Code "runCommands" is consumed without setting any toggle |
| `ToolMapApply.AnthropicTerminalConsumed` | crates/switchboard-mcp/src/toolmap/apply.rs:157-167 | Claude's Bash and Grep are consumed without setting any toggle |
| `ToolMapApply.VscodeMemoryServer` | crates/switchboard-mcp/src/toolmap/apply.rs:50-75 | VS Code "memory" becomes `memory::memory` and, when allowed, yields the npx memory server marked "toolmap default" |
| `ToolMapApply.VscodeUnmappedKeptResolved` | crates/switchboard-mcp/src/toolmap/apply.rs:77-80 | an unmapped VS Code tool stays bare under its resolved name: "Find Usages" becomes "usages" |
| `ModelMapDefault.InsertLowered` | crates/switchboard-mcp/src/modelmap/default.rs:6-14 | inserting pairs under their lowercased alias keeps every earlier key and adds each lowercased alias |
| `ModelMapDefault.DefaultProviderAliasesContents` | crates/switchboard-mcp/src/modelmap/default.rs:4-16 | the five built-in pairs collapse to exactly three keys: openai, anthropic and claude, naming openai, anthropic, anthropic |
| `ModelMapDefault.DefaultModelProviders` | crates/switchboard-mcp/src/modelmap/default.rs:18-51 | every built-in model token names provider openai |
| `ModelMapDefault.DefaultModelTokensLower` | crates/switchboard-mcp/src/modelmap/default.rs:27-48 | every built-in token is stored in lower case, so a lowercased lookup can find it |
| `ModelMapDefault.DefaultModelTokensEntries` | crates/switchboard-mcp/src/modelmap/default.rs:27-48 | sonnet, opus and auto go to gpt-5, haiku to gpt-5-mini, and gpt-4.1, gpt-4o, gpt-5-mini, o3-mini to themselves |
| `ModelMapLoad.BuildModelMap` | crates/switchboard-mcp/src/modelmap/load.rs:21-54 | `BuiltFrom`: the token table is each entry stored under its token and then its aliases, in file order; the provider aliases are the built-ins overlaid with the file's lowercased aliases in the order they were visited, which visits each key once |
| `ModelMapLoad.InsertProviderAliases` | crates/switchboard-mcp/src/modelmap/load.rs:33-38 | the provider aliases are the built-ins overlaid with each file alias lowercased, in an order that visits every key of the file exactly once |
| `ModelMapLoad.InsertKeysProps` | crates/switchboard-mcp/src/modelmap/load.rs:26-29 | storing under several keys: exactly those lowercased keys are added and hold the target, every other key is as before |
| `ModelMapLoad.InsertEntryProps` | crates/switchboard-mcp/src/modelmap/load.rs:23-31 | adding an entry: its lowercased token and aliases now name its canonical target, every other key is unchanged |
| `ModelMapLoad.ByTokenKeys` | crates/switchboard-mcp/src/modelmap/load.rs:21-32 | every key of the token table is lower case and comes from some entry of the file; no built-in token is merged in |
| `ModelMapLoad.LastEntryWins` | crates/switchboard-mcp/src/modelmap/load.rs:23-31 | a later entry overwrites earlier ones for each key it is stored under and leaves other keys alone |
| `ModelMapLoad.InsertLoweredProps` | crates/switchboard-mcp/src/modelmap/load.rs:33-38 | every key comes from the table or a pair; a key holds the value of the last pair lowering to it; untouched keys keep their value |
| `ModelMapLoad.ProviderAliasesOverlay` | crates/switchboard-mcp/src/modelmap/load.rs:33-38 | when no two file aliases differ only in case, whatever the visiting order, each file alias names its own provider and the built-ins it does not hit survive |
| `ModelMapLoad.BuiltMapProps` | crates/switchboard-mcp/src/modelmap/load.rs:21-41 | any map `build_model_map` makes of a file, in any visiting order: lowercase tokens drawn from the file's entries only; the built-in provider aliases when the file has none; otherwise, with no two aliases differing only in case, each file alias overlays the built-ins and the others survive |
| `ModelMapLoad.TestMappingFile` | crates/switchboard-mcp/src/modelmap/load.rs:60-77 | the test file stores "GPT-4.1" as "gpt-4.1" on openai and "OpenAI" as the alias "openai" |
| `ModelMapApply.MapRun` | crates/switchboard-mcp/src/modelmap/apply.rs:9-43 | only the model and provider change; a known model is replaced by its canonical name; its canonical provider is set when none is left after normalizing, or when overriding |
| `ModelMapApply.ApplyToAgent` | crates/switchboard-mcp/src/modelmap/apply.rs:4-46 | the sequential updates of the copied run, written back, compute `ApplySpec` |
| `ModelMapApply.ApplyTouchesOnlyRun` | crates/switchboard-mcp/src/modelmap/apply.rs:4-46 | an agent without run settings is unchanged; otherwise only the model and provider of its run can change |
| `ModelMapApply.KnownModelRemapped` | crates/switchboard-mcp/src/modelmap/apply.rs:21-26 | a model the map knows, in any ASCII case, becomes its canonical name |
| `ModelMapApply.StrictIsLogOnly` | crates/switchboard-mcp/src/modelmap/apply.rs:33-42 | the `strict` option changes nothing, it only chooses a log level |
| `ModelMapApply.UnknownModelKept` | crates/switchboard-mcp/src/modelmap/apply.rs:33-42 | an unknown model is kept and the provider is at most normalized |
| `ModelMapApply.ExistingProviderKept` | crates/switchboard-mcp/src/modelmap/apply.rs:27-31 | a provider the agent names survives a known model unless overriding or normalizing is on |
| `ModelMapApply.MapsModelAndSetsProvider` | crates/switchboard-mcp/src/modelmap/apply.rs:71-94 | "GPT-4.1" without provider becomes gpt-4.1 on openai |
| `ModelMapApply.ProviderAliasNormalization` | crates/switchboard-mcp/src/modelmap/apply.rs:96-113 | provider "Claude" is normalized to anthropic |
| `ModelMapApply.DefaultsOnClaudeAgent` | crates/switchboard-mcp/src/modelmap/apply.rs:9-32 | with the built-in tables, "Sonnet" on "Claude" becomes gpt-5 on anthropic, and on openai when overriding |
| `LoaderNames.DecimalString` | crates/switchboard-mcp/src/loader.rs:609 | the decimal digits of a count: never empty, at least two digits from ten on |
| `LoaderNames.DecimalStringInjective` | crates/switchboard-mcp/src/loader.rs:609 | different counts print differently |
| `LoaderNames.DedupeToolNames` | crates/switchboard-mcp/src/loader.rs:603-615 | the pass over the records, in place, leaves exactly `DedupeSpec`: same records in the same order, only tool names changed |
| `LoaderNames.NextName` | crates/switchboard-mcp/src/loader.rs:606-613 | one step bumps or starts the count of the name and picks the record's deduplicated name, keeping the per-name counts exact |
| `LoaderNames.CountStep` | crates/switchboard-mcp/src/loader.rs:606-613 | a name seen before becomes `name_k` with its new count k; a new name is kept and counted once |
| `LoaderNames.DedupeKeepsFirst` | crates/switchboard-mcp/src/loader.rs:611 | the first record with a name keeps it |
| `LoaderNames.DedupeOfDistinct` | crates/switchboard-mcp/src/loader.rs:603-615 | distinct tool names are left alone |
| `LoaderNames.DedupeRenamesRepeats` | crates/switchboard-mcp/src/loader.rs:607-610 | the k-th record with a name, k >= 2, becomes `name_k` |
| `LoaderNames.DedupeSeparatesRepeats` | crates/switchboard-mcp/src/loader.rs:603-615 | two records with the same original name never end up with the same name |
| `LoaderNames.DedupeNotDistinct` | crates/switchboard-mcp/src/loader.rs:603-615 | the result need not be distinct: a, a, a_2 become a, a_2, a_2 |
| `LoaderNames.LoweredSet` | crates/switchboard-mcp/src/loader.rs:623 | each member is the lowercase form of some token |
| `LoaderNames.BuildAllowedSet` | crates/switchboard-mcp/src/loader.rs:617-626 | the loop inserts exactly the lowercased filter tokens |
| `LoaderNames.AllowedSetShape` | crates/switchboard-mcp/src/loader.rs:617-626 | every allowed token is non-empty, lower case and free of commas and white space |
| `LoaderNames.MatchAgent` | crates/switchboard-mcp/src/loader.rs:628-642 | the name checks, then the tags with early return, decide exactly `Matches`: lowercased name, safe name or some lowercased tag is allowed |
| `LoaderNames.Retained` | crates/switchboard-mcp/src/loader.rs:400 | keeping the matching agents never adds any |
| `LoaderNames.RetainedMembers` | crates/switchboard-mcp/src/loader.rs:400 | an agent survives exactly when it was there and matches |
| `LoaderNames.FilterKeeps` | crates/switchboard-mcp/src/loader.rs:397-401 | a missing or blank filter keeps every agent; otherwise exactly the matching ones remain |
| `LoaderNames.AllowedSetExample` | crates/switchboard-mcp/src/loader.rs:617-626 | "Research,demo" allows exactly "research" and "demo" |
| `LoaderNames.FilterByTagExample` | crates/switchboard-mcp/src/loader.rs:628-642 | with that set, "Deep Research" tagged "Demo" is kept and untagged is dropped |
| `LoaderServers.NamespacedKeysMembers` | crates/switchboard-mcp/src/loader.rs:309-313 | a key is a namespaced key exactly when some `server::tool` reference names it |
| `LoaderServers.AttachSpec` | crates/switchboard-mcp/src/loader.rs:722-757 | attaching changes only the agent's servers |
| `LoaderServers.AttachMcpServersToAgent` | crates/switchboard-mcp/src/loader.rs:722-757 | the reference loop with its `has_bare` flag computes `AttachSpec` |
| `LoaderServers.AttachSelects` | crates/switchboard-mcp/src/loader.rs:730-756 | without limiting, every discovered server; with it, all of them after a bare reference, exactly the discovered servers the `server::tool` references name otherwise, and no change for an agent without references |
| `LoaderServers.AttachAll` | crates/switchboard-mcp/src/loader.rs:391-395 | every agent, in order, gets its own `AttachSpec` |
| `LoaderServers.RefSelection` | crates/switchboard-mcp/src/loader.rs:772-815 | a reference only ever selects servers whose inventory lists its tool: `server::tool` selects its server exactly when that server lists the tool; a bare tool selects every server listing it when at most one does or the fallback is on, and none when several do without the fallback |
| `LoaderServers.SelectedKeysMembers` | crates/switchboard-mcp/src/loader.rs:772-816 | the selected keys are exactly those some reference selects |
| `LoaderServers.GateSpec` | crates/switchboard-mcp/src/loader.rs:759-838 | gating changes only the agent's servers, and attaches only discovered servers |
| `LoaderServers.InsertPresent` | crates/switchboard-mcp/src/loader.rs:807-811 | adding the listed keys that are discovered, one at a time, adds exactly their discovered entries |
| `LoaderServers.SelectFor` | crates/switchboard-mcp/src/loader.rs:773-814 | one loop iteration adds exactly the discovered servers the reference selects |
| `LoaderServers.GateByInventory` | crates/switchboard-mcp/src/loader.rs:759-838 | the loop and the final fallback compute `GateSpec` |
| `LoaderServers.GateSelects` | crates/switchboard-mcp/src/loader.rs:766-837 | unless the fallback to everything applies, an agent gets exactly the discovered servers some reference selects |
| `LoaderServers.GateKeepsListedTool` | crates/switchboard-mcp/src/loader.rs:774-779 | a `server::tool` reference whose server lists the tool keeps that server |
| `LoaderServers.GateUniqueBare` | crates/switchboard-mcp/src/loader.rs:795-799 | a bare tool listed by exactly one discovered server attaches that server |
| `LoaderServers.GateAmbiguousFallbackAll` | crates/switchboard-mcp/src/loader.rs:800-811 | with the fallback on, a bare tool listed by several servers attaches every discovered one of them |
| `LoaderServers.GateNothingSelected` | crates/switchboard-mcp/src/loader.rs:831-837 | an agent with no references, or none selecting a discovered server, gets every discovered server, or none when limited to its references |
| `LoaderServers.GateAll` | crates/switchboard-mcp/src/loader.rs:382-390 | every agent, in order, gets its own `GateSpec` |
| `LoaderServers.Candidates` | crates/switchboard-mcp/src/loader.rs:300-321 | the candidate set built agent by agent and reference by reference is `AllCandidates` |
| `LoaderServers.TakeUpTo` | crates/switchboard-mcp/src/loader.rs:335-338 | taking up to the cap yields a subset of the candidates of size min(candidates, cap) |
| `LoaderServers.EnumerateInventory` | crates/switchboard-mcp/src/loader.rs:339-364 | probing the chosen servers, in any order, builds `InventoryFor`; failures add nothing in either mode |
| `LoaderServers.PrunedServers` | crates/switchboard-mcp/src/loader.rs:370-372 | after pruning, a server survives exactly when it was chosen and its probe succeeded, so every survivor is some agent's candidate |
| `LoaderServers.CandidateFromRefs` | crates/switchboard-mcp/src/loader.rs:303-321 | a candidate comes from an agent that has a bare reference or names that server |
| `LoaderServers.SkipSelfSettingExamples` | crates/switchboard-mcp/src/loader.rs:188-190 | unset turns skipping on; "FALSE" and "0" turn it off, "no" does not |
| `LoaderServers.SkipSelf` | crates/switchboard-mcp/src/loader.rs:191-213 | only removes servers, and keeps every server under its own key |
| `LoaderServers.SkipSelfKeeps` | crates/switchboard-mcp/src/loader.rs:193-213 | exactly the servers that do not look like Switchboard survive |
| `LoaderServers.SkipSelfByCommand` | crates/switchboard-mcp/src/loader.rs:195-201 | a command whose file name starts with "switchboard-mcp" in any case drops the server whatever its key |
| `LoaderServers.SkipSelfByKey` | crates/switchboard-mcp/src/loader.rs:200-201 | a server keyed "SwitchBoard" is dropped; one keyed "github" run by `npx` is kept |
| `LoaderServers.OrInsertAllConcat` | crates/switchboard-mcp/src/loader.rs:260-262 | inserting two lists of servers is inserting the first, then the second |
| `LoaderServers.OrInsertAllProps` | crates/switchboard-mcp/src/loader.rs:260-262 | existing entries are kept; the keys are those of the map and of the servers |
| `LoaderServers.OrInsertAllFirstWins` | crates/switchboard-mcp/src/loader.rs:260-262 | a new key gets the first server carrying it |
| `LoaderServers.OrInsertAllConsistent` | crates/switchboard-mcp/src/loader.rs:261 | inserting servers under their own keys keeps the map consistent |
| `LoaderServers.MergeCustoms` | crates/switchboard-mcp/src/loader.rs:260-262 | the merge loop over one agent's custom servers computes `OrInsertAll` |
| `LoaderServers.ApplyToolMappings` | crates/switchboard-mcp/src/loader.rs:244-265 | every agent is rewritten by its provider's mapping, and the custom servers of all agents, in order, are added only where their key is new |
| `LoaderServers.ServerTableFields` | crates/switchboard-mcp/src/loader.rs:654-677 | the table carries back the command, the arguments when there are any and the environment when it is not empty |
| `LoaderServers.ConvertAttached` | crates/switchboard-mcp/src/loader.rs:696-700 | the first loop keeps exactly the attached servers whose table decodes |
| `LoaderServers.InsertAll` | crates/switchboard-mcp/src/loader.rs:708-710 | every embedded entry is inserted, replacing a converted one of the same name |
| `LoaderServers.ConvertServersForAgent` | crates/switchboard-mcp/src/loader.rs:689-720 | the two loops compute `ConvertSpec` |
| `LoaderServers.EmbeddedWins` | crates/switchboard-mcp/src/loader.rs:689-720 | an embedded server wins over an attached one of the same name; other keys come from the attached servers whose table decodes |
| `LoaderVariant.ParseFile` | crates/switchboard-mcp/src/loader.rs:517-546 | a configuration only from a file the variant's parser supports; an unsupported or refused file gives none |
| `LoaderVariant.LoadEntry` | crates/switchboard-mcp/src/loader.rs:505-583 | a non-file or unreadable entry, or one the parser skips, adds nothing; otherwise the resolved agent of the parsed file |
| `LoaderVariant.LoadEntries` | crates/switchboard-mcp/src/loader.rs:504-575 | the loop over one listing yields exactly the agents `FromEntries` states: one per readable, supported file its parser accepts, in listing order |
| `LoaderVariant.LoadVariant` | crates/switchboard-mcp/src/loader.rs:487-587 | directories in order, entries in listing order, a missing directory skipped, the first unlistable directory or unreadable entry aborting: `LoadSpec` |
| `LoaderVariant.LoadSpecFailure` | crates/switchboard-mcp/src/loader.rs:499-505 | loading fails exactly when some directory cannot be listed or has an unreadable entry, and then with the error of the first such directory |
| `LoaderVariant.LoadErrorPersists` | crates/switchboard-mcp/src/loader.rs:504 | once a prefix of the directories fails, the whole load fails with that error |
| `LoaderVariant.ResolveShape` | crates/switchboard-mcp/src/loader.rs:549-583 | every resolved agent: of this variant, non-blank description, tool name prefix plus safe name, no servers yet, and no toggles left for engine-native agents |
| `LoaderVariant.DescriptionDefaulted` | crates/switchboard-mcp/src/loader.rs:549-552 | a blank description becomes "Agent '<name>': Execute tasks via Codex"; any other is kept |
| `LoaderVariant.TogglesFolded` | crates/switchboard-mcp/src/loader.rs:554-572 | for engine-native agents with toggles, a set toggle overrides the run setting, an unset one keeps it, nothing else in the run changes; other agents are untouched |
| `LoaderVariant.FromEntriesSources` | crates/switchboard-mcp/src/loader.rs:504-584 | every agent of a listing comes from a readable, supported regular file of it, named by prefix and safe name, and there are no more agents than entries |
| `LoaderVariant.UnsupportedSkipped` | crates/switchboard-mcp/src/loader.rs:545-547 | an entry the parser does not support adds nothing, whatever its content |
| `Loader.InitialServers` | crates/switchboard-mcp/src/loader.rs:177-222 | discovery when enabled, then the self-skip unless turned off; every server stored under its own key |
| `Loader.LoadModelMap` | crates/switchboard-mcp/src/loader.rs:267-295 | a model map exactly when mapping is enabled: the map `build_model_map` makes of the file's decoded table (in the order it visited the provider aliases) when the file loads, the built-in one when it does not |
| `Loader.InstructionsPrecedence` | crates/switchboard-mcp/src/loader.rs:644-652 | a readable, non-blank instructions file wins and its text is never blank; no file, an unreadable one or a blank one falls back to the inline text |
| `Loader.PreparedOf` | crates/switchboard-mcp/src/loader.rs:404-431 | one prepared agent per remaining agent |
| `Loader.LoadAgents` | crates/switchboard-mcp/src/loader.rs:152-172 | the enabled variants loaded in the order engine, Anthropic, VS Code and concatenated, the first failure aborting: `LoadAll` |
| `Loader.Dedupe` | crates/switchboard-mcp/src/loader.rs:174 | the in-place deduplication on the agent list computes `DedupeSpec` |
| `Loader.DiscoverServers` | crates/switchboard-mcp/src/loader.rs:177-222 | discovery and the self-skip compute `InitialServers` |
| `Loader.MapTools` | crates/switchboard-mcp/src/loader.rs:244-265 | the tool-mapping step runs only when enabled |
| `Loader.AttachServers` | crates/switchboard-mcp/src/loader.rs:296-396 | with servers: enumerate and gate, or attach; nothing without servers; the servers probed are a legitimate `take(cap)` of the candidates |
| `Loader.RetainMatching` | crates/switchboard-mcp/src/loader.rs:401 | the retain loop keeps exactly `Retained` |
| `Loader.FilterAgents` | crates/switchboard-mcp/src/loader.rs:398-402 | the filter step computes `ApplyFilter` |
| `Loader.PrepareAgents` | crates/switchboard-mcp/src/loader.rs:403-431 | one prepared agent per agent, in order, with instructions, converted servers and mapped run settings: `PreparedOf` |
| `Loader.PrepareAll` | crates/switchboard-mcp/src/loader.rs:144-485 | the stages in the order of the Rust function compute `PrepareSpec` for a legitimate enumeration pick and, on success, the model map in force (`ModelMapFor`) |
| `Loader.LoadFailure` | crates/switchboard-mcp/src/loader.rs:152-172 | preparing fails exactly when an enabled variant fails to load |
| `Loader.PreparedAreFiltered` | crates/switchboard-mcp/src/loader.rs:398-431 | one prepared agent per survivor; a non-blank filter keeps exactly the matching agents, a missing or blank one keeps all |
| `Loader.LoadedShape` | crates/switchboard-mcp/src/loader.rs:574-583 | loaded agents carry no servers yet, are of their variant and are named by its prefix |
| `Loader.LoadAllShape` | crates/switchboard-mcp/src/loader.rs:152-172 | after loading every variant, agents carry no servers and are named by their own variant's prefix |
| `Loader.AttachedFromServers` | crates/switchboard-mcp/src/loader.rs:296-396 | after attaching or gating, every agent's servers come from the remaining server set |
| `Loader.ServersComeFromPipeline` | crates/switchboard-mcp/src/loader.rs:177-396 | an agent only gets servers that were discovered, not skipped as Switchboard itself, merged from the mapping, and enumerated successfully when enumerating |
| `Loader.DedupedPrefixed` | crates/switchboard-mcp/src/loader.rs:174 | deduplication keeps every tool name starting with its prefix and the safe name |
| `Loader.StagesKeepPrefixed` | crates/switchboard-mcp/src/loader.rs:244-396 | the mapping and attaching stages keep the tool names |
| `Loader.ToolNamesPrefixed` | crates/switchboard-mcp/src/loader.rs:144-431 | every prepared tool name starts with its variant's prefix followed by the agent's safe name |
| `Loader.DedupedNameStartsWith` | crates/switchboard-mcp/src/loader.rs:609 | a deduplicated name starts with the original name |
| `Loader.MappedKeepsName` | crates/switchboard-mcp/src/loader.rs:252-263 | the tool mapping changes neither the agent's name, its tool name nor its source |
| `Handler.RegistryEntries` | crates/switchboard-mcp/src/handler.rs:33-42 | every agent's tool name is registered, and each entry is an agent of that tool name |
| `Handler.RegistryLastWins` | crates/switchboard-mcp/src/handler.rs:35-37 | an agent whose tool name does not recur later is the one the registry keeps |
| `Handler.RegistryOfDistinct` | crates/switchboard-mcp/src/handler.rs:33-42 | with distinct tool names every agent gets its own entry |
| `Handler.UntaggedDescription` | crates/switchboard-mcp/src/handler.rs:55-68 | no tags, an empty list or a single empty tag add nothing |
| `Handler.DescriptionLayout` | crates/switchboard-mcp/src/handler.rs:55-68 | a description is the fixed prefix and the agent's description, followed only by a " [tags: …]" suffix when the tags print as something |
| `Handler.UnknownToolFirst` | crates/switchboard-mcp/src/handler.rs:161-165 | an unknown tool is refused as method-not-found before any argument is looked at |
| `Handler.ValidationOrder` | crates/switchboard-mcp/src/handler.rs:167-225 | `task` is checked first, then `cwd`, then whether `cwd` is absolute, each with its own error; a call passes exactly when all three hold |
| `Handler.PayloadOfRun` | crates/switchboard-mcp/src/handler.rs:234-274 | a valid call reaches the engine with the agent's settings; its payload has the run's stdout and is ok exactly when the run shut down, and is `{false, ""}` when the run cannot start |
| `Handler.PayloadIgnoresStderr` | crates/switchboard-mcp/src/handler.rs:251-263 | stderr never reaches the payload |
| `Handler.KeyOrder` | crates/switchboard-mcp/src/handler.rs:50-51 | the map's iteration visits each tool name exactly once |
| `Handler.AgentsServerHandler.constructor` | crates/switchboard-mcp/src/handler.rs:33-42 | the registry holds every agent under its tool name, a later one replacing an earlier one |
| `Handler.AgentsServerHandler.ToolDefinitions` | crates/switchboard-mcp/src/handler.rs:45-99 | one tool per registry entry, with distinct names, each described by its agent and requiring the string arguments `task` and `cwd`; the registry holds one agent per distinct tool name |
| `Handler.AgentsServerHandler.CallTool` | crates/switchboard-mcp/src/handler.rs:151-275 | the call branch computes `CallSpec` |
| `Handler.AgentsServerHandler.HandleRequest` | crates/switchboard-mcp/src/handler.rs:104-289 | initialize switches to the negotiated protocol or fails with its error; list returns one tool per registry entry, as `ToolDefinitions` states; call returns `CallSpec` as a result or an error; other and custom requests are method-not-found with their messages |
| `Handler.SingleAgentSchema` | crates/switchboard-mcp/src/handler.rs:340-362 | a handler over one agent lists one tool whose schema requires `task` and `cwd` |
| `CodexRunner.BuildProfile` | crates/switchboard-mcp/src/codex_runner.rs:92-119 | the profile built field by field from the run settings is the profile of that agent |
| `CodexRunner.ProfileInventsNothing` | crates/switchboard-mcp/src/codex_runner.rs:92-119 | an agent without run settings gets the empty profile, and every field the profile sets holds the run's own value for that field |
| `CodexRunner.ProfileRoundTrip` | crates/switchboard-mcp/src/codex_runner.rs:92-119 | every profile arises from run settings, and projecting run settings into a profile loses only the sandbox mode and the four tool toggles |
| `CodexRunner.PrepareConfig` | crates/switchboard-mcp/src/codex_runner.rs:89-124 | the prepared configuration is the base configuration with the agent's profile selected and its servers overlaid |
| `CodexRunner.ProfileSelected` | crates/switchboard-mcp/src/codex_runner.rs:69-120 | the selected profile is the agent's safe name, the profile under that name holds the agent's run settings, and every other base profile is kept |
| `CodexRunner.ServersOverwrite` | crates/switchboard-mcp/src/codex_runner.rs:122-124 | the server table is the union of base and attached keys, an attached server replaces the base entry under its key, and other base entries stay |
| `CodexRunner.BuildOverrides` | crates/switchboard-mcp/src/codex_runner.rs:126-150 | an empty or relative cwd is an error with the message "cwd must be an absolute path"; otherwise the overrides of that agent and cwd are returned |
| `CodexRunner.BaseInstructionsNonBlank` | crates/switchboard-mcp/src/codex_runner.rs:139-143 | base instructions are set exactly when the agent has instructions that are not blank, and then they are those instructions verbatim |
| `CodexRunner.OverridesCopyRun` | crates/switchboard-mcp/src/codex_runner.rs:127-150 | the overrides select the agent's profile and cwd, carry the sandbox mode and the four tool toggles of the run settings, and leave them unset without run settings |
| `CodexRunner.CollectSnoc` | crates/switchboard-mcp/src/codex_runner.rs:179-229 | one more event appends exactly its own part to a buffer |
| `CodexRunner.CollectAppend` | crates/switchboard-mcp/src/codex_runner.rs:179-229 | the buffer after two runs of events is the buffer of the first followed by that of the second |
| `CodexRunner.FirstShutdown` | crates/switchboard-mcp/src/codex_runner.rs:212-216 | the position found holds ShutdownComplete and no earlier event does; none is found only when no event is ShutdownComplete |
| `CodexRunner.DrainEvents` | crates/switchboard-mcp/src/codex_runner.rs:179-229 | the drain loop yields the buffers of the events up to the first ShutdownComplete, or of all events followed by the receive failure line |
| `CodexRunner.OkIffShutdown` | crates/switchboard-mcp/src/codex_runner.rs:181-364 | the run is ok exactly when a ShutdownComplete arrives, and its status is 0 when ok and 1 otherwise |
| `CodexRunner.AfterShutdownIgnored` | crates/switchboard-mcp/src/codex_runner.rs:212-216 | events after the first ShutdownComplete, and whatever failure would have followed, do not change the output |
| `CodexRunner.FirstShutdownAt` | crates/switchboard-mcp/src/codex_runner.rs:212-216 | a ShutdownComplete with none before it is the first shutdown |
| `CodexRunner.DiagnosticsStayOffStdout` | crates/switchboard-mcp/src/codex_runner.rs:217-229 | error, stream error and background events leave stdout unchanged wherever they occur |
| `CodexRunner.OutputStaysOffStderr` | crates/switchboard-mcp/src/codex_runner.rs:197-211 | task completion and agent messages leave stderr unchanged wherever they occur |
| `CodexRunner.TaskMessageOnStdout` | crates/switchboard-mcp/src/codex_runner.rs:197-201 | a task completion with a final message appends that message and a newline to stdout |
| `CodexRunner.ExecTask` | crates/switchboard-mcp/src/codex_runner.rs:55-378 | exec_task loads the base configuration, checks the cwd, launches the engine and drains its events, failing with the first error met |
| `CodexRunner.RelativeCwdRefused` | crates/switchboard-mcp/src/codex_runner.rs:129-134 | once the base configuration loads, a relative or empty cwd is refused before the engine is launched |
| `CodexRunner.EngineSeesAgent` | crates/switchboard-mcp/src/codex_runner.rs:152-177 | with an accepted cwd the engine receives the agent's configuration and overrides, a launch failure is returned as is, and otherwise the result is the drained output |

## Left out

- Probing a server is the function `Environment.probe` from a server to its tool names, where `None` stands for a failed or timed-out probe; `LoaderServers.InventoryFor` applies it to each chosen key's discovered server. A function gives each server one fixed outcome, which assumes each server is probed at most once per run (the chosen keys form a set). Not modelled: spawning the enumerator subprocess, its timeout, and running probes concurrently in a `JoinSet`. Completion order cannot change the result, because outcomes are collected into a map. `enum_strict` only changes what is logged.
- Logging is not modelled: `tracing` calls, `summarize_tools`, and the per-agent summary in `crates/switchboard-mcp/src/loader.rs:434-482`. They produce no output the caller sees.
- File input is not modelled. File reads, directory scans, environment variables and the home directory are fields of an environment value the loader receives.
- The YAML, TOML and JSON text decoders are parameters that yield value trees. Deciding whether a plain YAML scalar is null, a boolean or a number is the decoder's part; the tree keeps the scalar's text. Typing the tree into the front-matter structs is modelled. So is the conversion of an embedded server to the engine's server type a parameter.
- Iteration over a `HashMap` or `HashSet`, where its order matters, is a ghost order or a nondeterministic choice. This covers the `take(enum_max_servers)` cap and the order of tool definitions.
- `canonicalize` of the working directory is an input key, and `expand_home` is not modelled. Both are file-system operations.
- `ModelMap::from_toml_str` and `load_from_file`: reading the file and TOML decoding are not modelled. The loader receives the file's table as already decoded into a `RawMappingFile`, or none when reading or decoding fails, and builds the map from it with `BuildModelMap`.
- The Codex engine is `Engine`, a parameter:
  - its base configuration load (`find_codex_home`, `load_config_as_toml`);
  - `Config::load_from_base_config_with_overrides`;
  - the conversation launch and submission.
- Event streams are finite: a finite list of events followed by the message of a receive failure. A stream that never ends is not modelled.
- `enforce_compatible_protocol_version` is a parameter, and the JSON serialization of the call payload is not modelled. `handle_notification` and `handle_error` only log and are not modelled.
- Reading the sibling `<stem>.prompt.md` of a Codex `<stem>.toml` is the `prompt` parameter. `instructions_file` paths are kept as strings.
- The five enum-typed run fields (approval policy, reasoning effort, reasoning summary, verbosity, sandbox mode) are codex enums defined outside switchboard-mcp. Their accepted serialized names are the parameter `CodexToml.RunTokens`, and a decoded field holds the accepted string rather than an enum value.
- `Path::is_absolute` is modelled as "starts with `/`". Windows path rules are not modelled.
- CodexToml.MapToolsToToggles: its own contract states only that every toggle is set. What the toggles hold is stated by `CodexToml.TogglesOfEmpty`, `CodexToml.TogglesOfOne` and `CodexToml.TogglesOfConcat`, which together determine the policy of every list.
- CodexToml.Parse: all eight known keys are taken out of the table before `name` is checked. The Rust code returns the missing-name error right after removing `name`. The table is local to `parse`, so the result and the left-over keys are the same either way.
- The error of an unreadable directory entry carries no path, as the bare I/O error the Rust code propagates; its message text is not modelled.
- In five places the code differs from the system's documented design. The model follows the code:
  - `safe_name` maps every character that is not an ASCII letter or digit to `_` and does not collapse runs of them (`crates/switchboard-mcp/src/model/naming.rs:6-13`, `Naming.SafeNameKeepsRuns`).
  - A bare token mapped to a server tool becomes a namespaced reference even when `allow_custom_servers` is off; only the server definition is then withheld (`crates/switchboard-mcp/src/toolmap/apply.rs:50-75`, `ToolMapApply.RefOutCases`, `ToolMapApply.NoServersUnlessAllowed`).
  - Agents whose tool names collide are renamed with `_2`, `_3`, … suffixes (`LoaderNames.DedupeToolNames`), not dropped. The handler registry keeps its last entry under a name.
  - A bare tool reference listed by several probed servers is ambiguous. It attaches none of them, or all of them under `enum_fallback_all`. No precedence picks one server.
  - The `enum_max_servers` cap applies to the servers probed, not to the servers attached. It takes the first candidate keys in `HashSet` order, not a stable discovery order.
