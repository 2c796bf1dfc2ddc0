# Online code compiler: sandbox runner, language catalogue and editor keys

The system is a browser code editor with a small backend. This model covers three of its parts.

- **Sandbox runner** (`runCodeInDocker`). It takes a language key and the submitted code. It checks the key against its run table of five toolchains (as written the check also accepts names every JavaScript object inherits; see "## Findings"). Then it creates a workspace `~/sandbox-runs/run-<uuid>` and writes the code to `code-<uuid><extension>` in it. It launches one `docker run` with fixed isolation flags: the workspace mounted at `/app`, 256 MB of memory, no network, half a CPU and at most 64 processes. It returns the captured stdout and stderr and removes the workspace in a `finally`.
- **Language catalogue** (`getAllLanguages`). A constant list of five numbered entries. Each entry gives a display name and a file extension.
- **Editor keys and status bar** (`handleKeyDown`, `handleLanguageChange`, status-bar counts):
  - auto-pairs brackets and quotes;
  - deletes an empty pair on Backspace;
  - steps over a closer the user types onto;
  - opens an indented line on Enter between brackets;
  - switches language;
  - counts lines and characters.

Module layout:

| file | module | what it holds |
|---|---|---|
| `wrappers.dfy` | `Wrappers` | `Option` |
| `texts.dfy` | `Texts` | `Joined`, the pieces of a text joined with a separator |
| `languages.dfy` | `Languages` | the run table, JavaScript's property lookup on it, the per-language commands, uuid-shaped names |
| `isolation.dfy` | `Isolation` | the `docker run` command line and its isolation flags |
| `sandbox.dfy` | `Sandbox` | the host filesystem as a value (`FsState`), the run as a function of it (`Run`, `RunAsWritten`), and the `Host` class whose `RunCodeInDocker` method does the same thing step by step and is proved equal to `Run` |
| `catalogue.dfy` | `Catalogue` | the language list and how it matches the run table |
| `editor.dfy` | `Editor` | key handling as a function (`KeyDown`) of the text, the selection and the key; the language switch; the line count |

Things outside the model are parameters.

- **Environment.** An `Environment` value supplies:
  - the home directory;
  - the two random uuids;
  - which filesystem step throws, if one does;
  - how the container run settles.
- **Fresh uuids.** Properties that need fresh names require `FreshEnvironment`: both uuids have the 8-4-4-4-12 lower-case hexadecimal shape, and the workspace path is not already taken.
- **Selection.** Editor selections satisfy `selStart <= selEnd <= |value|`, which the text area guarantees.

## Model

| member | source | states |
|---|---|---|
| Languages.Key | code-compiler-backend/src/runners/runCode.ts:11-33 | No contract: the five own keys of the run table, one per toolchain. `ResolveKey` states that resolving inverts it |
| Languages.ObjectPrototypeMembers | code-compiler-backend/src/runners/runCode.ts:50 | No contract: the member names an object literal inherits from Object.prototype, which the lookup on this line also finds. See `JsLookup` |
| Languages.Resolve | code-compiler-backend/src/runners/runCode.ts:10-39 | A key resolves exactly when it is one of the five own keys of the run table, and to the toolchain named by that key |
| Languages.ResolveKey | code-compiler-backend/src/runners/runCode.ts:10-39 | Resolving inverts naming: each toolchain is found under its own key and under no other |
| Languages.JsLookup | code-compiler-backend/src/runners/runCode.ts:50-51 | Indexing the table object gives a config exactly for own keys, and a truthy non-config exactly for names inherited from Object.prototype; every other key is undefined |
| Languages.OwnLookup | code-compiler-backend/src/runners/runCode.ts:50-51 | The lookup the guard intends: never inherited, and a config exactly for own keys |
| Languages.LookupsDifferOnPrototypeMembers | code-compiler-backend/src/runners/runCode.ts:50-51 | The two lookups disagree on a key if and only if it is an inherited member name |
| Languages.Extension | code-compiler-backend/src/runners/runCode.ts:12-34 | No contract: the extension column of the run table. `SourceFileName` and `Catalogue.CatalogueMatchesRunTable` state its uses |
| Languages.DockerImage | code-compiler-backend/src/runners/runCode.ts:13-35 | No contract: the image column of the run table. `Isolation.DockerCommandFlagsInOrder` places it in the command |
| Languages.Command | code-compiler-backend/src/runners/runCode.ts:14-37 | No contract: the body is the five command templates. See `JavaRunsStem`, `JavaRunsFileStem` and `Isolation.DockerCommandFlagsInOrder` |
| Languages.ReplaceFirst | code-compiler-backend/src/runners/runCode.ts:31 | No contract: JavaScript's `replace` with a string pattern and a replacement free of `$` patterns (the source passes ""), which replaces only the first occurrence. See `ReplaceFirstAfterPlainPrefix` |
| Languages.ReplaceFirstAfterPlainPrefix | code-compiler-backend/src/runners/runCode.ts:31 | `replace` with a string pattern replaces the first occurrence: when the pattern's first character is absent before it, that occurrence is the one replaced |
| Languages.IsUuid | code-compiler-backend/src/runners/runCode.ts:53-60 | No contract: the shape of a `randomUUID()` string, 36 lower-case hexadecimal digits and dashes in the 8-4-4-4-12 layout. See `NoDotInStem` |
| Languages.SourceFileName | code-compiler-backend/src/runners/runCode.ts:53 | The file name is "code-", then the uuid, then the toolchain's extension, with exactly their combined length |
| Languages.NoDotInStem | code-compiler-backend/src/runners/runCode.ts:53 | A uuid-shaped name has no '.' before its extension |
| Languages.JavaRunsStem | code-compiler-backend/src/runners/runCode.ts:30-31 | For a stem without '.', the Java command compiles `<stem>.java` and runs class `<stem>` |
| Languages.JavaRunsFileStem | code-compiler-backend/src/runners/runCode.ts:27-31 | For every generated Java file name, the command compiles the file and runs the class named by the file's stem |
| Isolation.IsolationFlags | code-compiler-backend/src/runners/runCode.ts:68-74 | No contract: the flags of the template in their order. See `DockerCommandFlagsInOrder` |
| Isolation.DockerCommand | code-compiler-backend/src/runners/runCode.ts:68-76 | No contract: the body is the template, with each line continuation giving five spaces between tokens. See `DockerCommandFlagsInOrder` |
| Isolation.JoinedInOrder | code-compiler-backend/src/runners/runCode.ts:68-76 | Joining the template's tokens keeps every token, in order and without overlap |
| Isolation.DockerCommandFlagsInOrder | code-compiler-backend/src/runners/runCode.ts:68-76 | For every language and workspace, the command carries `--rm`, the `/app` workdir, the 256m memory cap, `--network none`, the workspace mount, the .5 CPU share and the 64-process cap, then the image, then the language's command, in that order |
| Sandbox.Render | code-compiler-backend/src/runners/runCode.ts:56-72 | No contract: `path.join` rendered as text with `/` separators, as it appears in the `-v` mount argument. `Run` passes it to `Isolation.DockerCommand`, and `SuccessfulRunStagesAndCleansUp` states the launch |
| Sandbox.BaseDir | code-compiler-backend/src/runners/runCode.ts:56 | No contract: `~/sandbox-runs`, the home directory with one more segment. `RunDir` places workspaces one level below it |
| Sandbox.RunDir | code-compiler-backend/src/runners/runCode.ts:56-60 | The workspace lies one level below `~/sandbox-runs` and is named `run-<uuid>` |
| Sandbox.FilesWithin | code-compiler-backend/src/runners/runCode.ts:72 | The files the mount exposes are exactly the files at or below the workspace, with their contents |
| Sandbox.MakeDirectory | code-compiler-backend/src/runners/runCode.ts:57 | A recursive mkdir makes the path and all its ancestors exist, adds no other directory, and keeps files, modes and launches |
| Sandbox.ChangeMode | code-compiler-backend/src/runners/runCode.ts:58 | chmod sets the one path's mode and changes nothing else |
| Sandbox.WriteFile | code-compiler-backend/src/runners/runCode.ts:64-65 | writeFile stores the given content and mode for the one path (`Setup` passes 0o644) and changes nothing else |
| Sandbox.RemoveTree | code-compiler-backend/src/runners/runCode.ts:87 | A forced recursive rm leaves no directory, file or mode entry at or below the path, keeps every other directory, file and mode with its content, and keeps the launch log |
| Sandbox.Setup | code-compiler-backend/src/runners/runCode.ts:56-65 | No contract: the five set-up steps in order, stopping at the one that throws. See `SetupKeepsValid`, `SetupKeepsLaunches`, `FreshSetupHoldsOnlySource` and `Host.Stage` |
| Sandbox.RunWith | code-compiler-backend/src/runners/runCode.ts:46-89 | No contract: the routine for a given lookup of the key. See `LaunchIffResult`, `RunKeepsValid` and `CleanupOnceTried` |
| Sandbox.RunAsWritten | code-compiler-backend/src/runners/runCode.ts:46-89 | No contract: `RunWith` with the JavaScript lookup, as written. See `PrototypeKeyLeaksWorkspace` and `RunVersionsAgree` |
| Sandbox.Run | code-compiler-backend/src/runners/runCode.ts:46-89 | No contract: `RunWith` with the own-key lookup. See `SuccessfulRunStagesAndCleansUp`, `FaultBeforeTryLeavesWorkspace` and `Host.RunCodeInDocker` |
| Sandbox.OrElse | code-compiler-backend/src/runners/runCode.ts:83-84 | `x \|\| fallback` gives `x` when it is present and non-empty, and the fallback when it is missing or empty |
| Sandbox.Normalize | code-compiler-backend/src/runners/runCode.ts:78-85 | A successful run passes both streams through. A rejected run: stdout is empty exactly when the captured one is missing or empty, and otherwise is the captured one; stderr is the captured one when non-empty, and otherwise the error message |
| Sandbox.FailureVisibleInStderr | code-compiler-backend/src/runners/runCode.ts:84 | A rejection with a message never returns an empty stderr |
| Sandbox.RunVersionsAgree | code-compiler-backend/src/runners/runCode.ts:50-51 | Outside the inherited member names, the routine as written and the corrected routine give the same state and result |
| Sandbox.UnknownKeyAllocatesNothing | code-compiler-backend/src/runners/runCode.ts:50-51 | With the intended own-key guard, an unknown key fails with "Unsupported language" and leaves the host state untouched |
| Sandbox.UnknownKeyRejectedAsWritten | code-compiler-backend/src/runners/runCode.ts:50-51 | As written, an unknown key that is not an inherited member name fails with "Unsupported language" and leaves the host state untouched |
| Sandbox.SupportedKeyAccepted | code-compiler-backend/src/runners/runCode.ts:50-51 | A supported key is never reported as unsupported |
| Sandbox.LaunchIffResult | code-compiler-backend/src/runners/runCode.ts:78-88 | The container is launched exactly once when the run returns streams, and not at all when it fails; earlier launches are kept |
| Sandbox.SetupKeepsLaunches | code-compiler-backend/src/runners/runCode.ts:56-65 | The workspace set-up launches nothing |
| Sandbox.MakeDirectoryKeepsValid | code-compiler-backend/src/runners/runCode.ts:57 | mkdir keeps the filesystem well formed: directories closed under ancestors, every file inside a directory |
| Sandbox.RemoveTreeKeepsValid | code-compiler-backend/src/runners/runCode.ts:87 | rm keeps the filesystem well formed |
| Sandbox.SetupKeepsValid | code-compiler-backend/src/runners/runCode.ts:56-65 | The set-up keeps the filesystem well formed, whichever step throws |
| Sandbox.RunKeepsValid | code-compiler-backend/src/runners/runCode.ts:46-89 | A whole run, on any path through it, keeps the filesystem well formed |
| Sandbox.BaseLeavesWorkspaceFree | code-compiler-backend/src/runners/runCode.ts:56-61 | Creating the base directory puts nothing at or below a fresh workspace path |
| Sandbox.FreshSetupHoldsOnlySource | code-compiler-backend/src/runners/runCode.ts:56-87 | After a fault-free set-up, a fresh workspace holds exactly the source file with the submitted code. Removing it gives back the earlier files, and the directories as they were once the base existed |
| Sandbox.SuccessfulRunStagesAndCleansUp | code-compiler-backend/src/runners/runCode.ts:46-89 | For a fresh workspace on a well-formed host, with a supported key and no fault, the container is launched once with the isolation command, on a workspace holding only `code-<uuid><extension>` with the code. The result is the normalised outcome. Afterwards the files are as before and only the base directory remains |
| Sandbox.CleanupOnceTried | code-compiler-backend/src/runners/runCode.ts:78-88 | For any lookup, earlier state and names, fresh or not: a run that returns streams leaves no directory and no file at or below the workspace |
| Sandbox.FaultBeforeTryLeavesWorkspace | code-compiler-backend/src/runners/runCode.ts:56-88 | A throwing set-up step fails the run with that step and launches nothing. From the workspace's chmod on, the workspace stays on disk |
| Sandbox.EarlyFaultCreatesNoWorkspace | code-compiler-backend/src/runners/runCode.ts:56-61 | A fault before the workspace is created leaves no directory and no file at or below it |
| Sandbox.PrototypeKeyLeaksWorkspace | code-compiler-backend/src/runners/runCode.ts:50-76 | As written, every inherited member name ("toString", say) passes the guard. The code is written to `code-<uuid>undefined`, the command template throws outside the `try`, nothing is launched, and the workspace is left behind |
| Sandbox.PrototypeKeyRejected | code-compiler-backend/src/runners/runCode.ts:50-51 | With the intended guard, every inherited member name is rejected and nothing is touched |
| Sandbox.Host.Mkdir | code-compiler-backend/src/runners/runCode.ts:57 | Succeeds unless told to fail; on success the state is `MakeDirectory` of the old one, otherwise it is unchanged |
| Sandbox.Host.Chmod | code-compiler-backend/src/runners/runCode.ts:58 | Succeeds unless told to fail; on success the state is `ChangeMode` of the old one, otherwise it is unchanged |
| Sandbox.Host.Write | code-compiler-backend/src/runners/runCode.ts:65 | Succeeds unless told to fail; on success the state is `WriteFile` of the old one, otherwise it is unchanged |
| Sandbox.Host.Exec | code-compiler-backend/src/runners/runCode.ts:79 | Returns the settled outcome and appends one launch: the command and the files of the mounted workspace |
| Sandbox.Host.Rm | code-compiler-backend/src/runners/runCode.ts:87 | The new state is `RemoveTree` of the old one |
| Sandbox.Host.Stage | code-compiler-backend/src/runners/runCode.ts:56-65 | Runs the five set-up steps in order, stops at the throwing one, reports success exactly when none throws, and leaves the state `Setup` describes |
| Sandbox.Host.RunCodeInDocker | code-compiler-backend/src/runners/runCode.ts:46-89 | The new host state and the result are exactly those of `Run` on the old state, so every `Run` lemma above holds of the method |
| Catalogue.AllLanguages | code-compiler-backend/src/runners/getLanguages.ts:1-29 | Five entries, with ids 1 to 5 in order |
| Catalogue.EntriesDistinct | code-compiler-backend/src/runners/getLanguages.ts:2-28 | Ids, names and extensions each identify one entry |
| Catalogue.ExtensionsStartWithDot | code-compiler-backend/src/runners/getLanguages.ts:2-28 | Every extension is a dot followed by at least one character |
| Catalogue.ToolchainOf | code-compiler-backend/src/runners/getLanguages.ts:2-28 | An entry's toolchain has the entry's extension; when none is found, no toolchain has that extension |
| Catalogue.CatalogueMatchesRunTable | code-compiler-backend/src/runners/getLanguages.ts:2-28 | Every entry has a run-table toolchain, every toolchain is listed, and no two entries share one: the catalogue and the run table correspond one to one |
| Editor.Closer | code-compiler-frontend/src/App.tsx:40-47 | Exactly the three brackets and three quotes have a closer; keys and closers are single characters |
| Editor.ClosingKeys | code-compiler-frontend/src/App.tsx:104-111 | No contract: the six closers the editor steps over. See the closing-key lemmas |
| Editor.CharAt | code-compiler-frontend/src/App.tsx:82-83 | `value[i]` is the one-character string at `i` inside the text, and undefined outside it, including at -1 |
| Editor.PairOf | code-compiler-frontend/src/App.tsx:87-88 | No contract: the closer of the character before the cursor, or nothing when there is none or it opens no pair. See the backspace lemmas |
| Editor.IsWhitespace | code-compiler-frontend/src/App.tsx:138 | No contract: the characters `\s` matches, that is ECMAScript's WhiteSpace and LineTerminator sets. See `LeadingWhitespace` |
| Editor.LeadingWhitespace | code-compiler-frontend/src/App.tsx:138-139 | `/^(\s*)/` captures the longest prefix made only of ECMAScript whitespace and line terminators |
| Editor.Split | code-compiler-frontend/src/App.tsx:136 | `split` always yields at least one piece |
| Editor.SplitCount | code-compiler-frontend/src/App.tsx:450 | Splitting yields one piece more than there are separators |
| Editor.SplitJoin | code-compiler-frontend/src/App.tsx:136 | Joining the pieces with the separator gives the text back, and no piece holds the separator |
| Editor.CurrentLineIsLastLine | code-compiler-frontend/src/App.tsx:136-137 | The last piece is a line-break-free suffix of the text. It is preceded by a line break unless it is the whole text, and it is the whole text exactly when the text has no line break |
| Editor.CurrentLine | code-compiler-frontend/src/App.tsx:136-137 | No contract: the last piece of the text before the cursor split at line breaks. See `CurrentLineIsLastLine` and `EnterCopiesCurrentLine` |
| Editor.KeyDown | code-compiler-frontend/src/App.tsx:35-158 | Selections stay within the text; a key the editor takes over leaves a collapsed selection; a key it does not take leaves text and selection unchanged |
| Editor.TypePairInserts | code-compiler-frontend/src/App.tsx:66-70 | An opener or quote with nothing selected inserts itself and its closer, with the cursor between them |
| Editor.TypePairWraps | code-compiler-frontend/src/App.tsx:62-65 | An opener or quote over a selection wraps the selection, and the cursor lands just before the closer |
| Editor.BackspaceDeletesPair | code-compiler-frontend/src/App.tsx:81-101 | Backspace is taken over exactly when the cursor is collapsed between an opener and its closer; it then deletes both, and the cursor moves back one |
| Editor.TypePairThenBackspace | code-compiler-frontend/src/App.tsx:52-101 | Backspace right after auto-pairing restores the text and the cursor |
| Editor.ClosingKeySkips | code-compiler-frontend/src/App.tsx:104-121 | `)`, `]` or `}` is taken over exactly when the cursor is collapsed on the same character; the cursor then steps over it and the text is unchanged |
| Editor.TypeOpenerThenCloser | code-compiler-frontend/src/App.tsx:52-121 | Typing an opener and then its closer gives the same text as plain typing, with the cursor after both |
| Editor.QuotesAlwaysPair | code-compiler-frontend/src/App.tsx:52-121 | A quote is always paired and never stepped over, since the pairing branch comes first |
| Editor.EnterBetweenBrackets | code-compiler-frontend/src/App.tsx:124-157 | Enter is taken over exactly between `{}`, `[]` or `()`. It inserts a line break, the current indentation plus two spaces, another line break and the current indentation; the cursor ends on the new line. The selection's end plays no part |
| Editor.OpenIndentedLine | code-compiler-frontend/src/App.tsx:136-154 | Opening a line is always taken over, leaves a collapsed cursor inside the text, and grows the text by four characters plus twice the copied indentation |
| Editor.OpenedLineCounts | code-compiler-frontend/src/App.tsx:142-148 | Opening a line adds exactly two lines to the line count, because the copied indentation holds no line break |
| Editor.EnterCopiesCurrentLine | code-compiler-frontend/src/App.tsx:136-139 | The line whose indentation Enter copies is the text between the last line break before the cursor and the cursor |
| Editor.EnterAddsTwoLines | code-compiler-frontend/src/App.tsx:142-148 | A handled Enter adds exactly two lines to the status-bar count, and four characters plus twice the copied indentation |
| Editor.OtherKeysUntouched | code-compiler-frontend/src/App.tsx:35-158 | Every key outside the four branches is left to the browser |
| Editor.Initial | code-compiler-frontend/src/App.tsx:26-33 | No contract: the opening state, with language "javascript", its starting text and an empty output. See `LanguageChangeForgets` |
| Editor.DefaultCode | code-compiler-frontend/src/App.tsx:26-28 | No contract: the built-in starting texts, with one entry for "javascript". See `LanguageChange` and `PlaceholderIsOneLine` |
| Editor.LanguageChange | code-compiler-frontend/src/App.tsx:159-166 | Selects the language and clears the output. It loads the built-in starting text when one exists, and otherwise the comment `// <language> code here` |
| Editor.LanguageChangeForgets | code-compiler-frontend/src/App.tsx:159-166 | The result does not depend on the earlier state, switching is idempotent, and switching to "javascript" restores the opening state |
| Editor.CatalogueSelectionsGetPlaceholder | code-compiler-frontend/src/App.tsx:159-166 | Every catalogue name the selector offers loads its one-line placeholder |
| Editor.PlaceholderIsOneLine | code-compiler-frontend/src/App.tsx:163 | The placeholder for a name without line breaks counts as one line |
| Editor.LineCount | code-compiler-frontend/src/App.tsx:450 | The line count is one more than the number of line breaks |
| Editor.CharCount | code-compiler-frontend/src/App.tsx:451 | No contract: the length of the text. See `HandledKeyCharCount` |
| Editor.HandledKeyCharCount | code-compiler-frontend/src/App.tsx:35-158 | After a key the editor takes over, the character count grows by two for pairing, shrinks by two for deleting a pair, is unchanged for stepping over a closer, and grows by four plus twice the copied indentation for opening a line |

## Left out

- Container execution: the container, its image pulls and what the submitted program does are not modelled. How the run settles (`ExecOk` or `ExecErr` with optional streams and a message) is an input.
- The 10-second `timeout` passed to `execAsync` is not modelled. A run that times out appears only as an `ExecErr` outcome, with nothing to tell it apart from other failures.
- Memory, CPU and process limits: only their presence on the command line is modelled, not their enforcement.
- The filesystem is abstract: paths are segment lists, `os.homedir()` is an input, and `path.join` is rendered with `/` only. A step that throws is taken to leave no partial effect.
- Whether a filesystem step throws is an input (`env.fault`) and is not tied to the host state. `fs.mkdir` over an existing file, or `fs.writeFile` into a missing directory, would throw in Node; `Valid` does not exclude a path that is both a file and a directory, and such a step succeeds in the model.
- Sandbox.RemoveTree: `fs.rm(..., { force: true })` is taken never to fail. A failure in the `finally` would replace the result with the rm error; that is not modelled.
- Permission bits are recorded as numbers; what they allow is not modelled.
- `randomUUID` is an input. Its randomness, and the chance that it collides with an existing workspace, are replaced by the `FreshEnvironment` precondition.
- Concurrency between simultaneous runs sharing `~/sandbox-runs` is not modelled.
- Errors thrown by the runner reach the HTTP controller in `compileCode.ts`. The Express app, its routes and its JSON responses are not part of this model.
- Editor.KeyDown: a key named like an Object.prototype member (`pairs["toString"]` is truthy) is treated as unpaired. Keyboard key values never take such names, so `Closer` looks up the six own entries only.
- Editor.LanguageChange: a language named like an Object.prototype member is treated as having no starting text. Selector values are the catalogue names, so the lookup covers the own key "javascript" only.
- The browser's own handling of a key the editor does not take over is not modelled. Neither is the `setTimeout` that moves the cursor after React re-renders; the new selection is returned as part of the result.
- Text positions count characters, not UTF-16 code units. The character count (`Editor.CharCount`) is therefore the number of characters, which differs from `code.length` for characters outside the Basic Multilingual Plane.
- The rest of the frontend is not part of this model: rendering, theme, copy, download, clearing the output, the mocked `handleRun` output, and the language store's HTTP fetch.

## Findings

| source | as written | input that shows it | evidently intended | confidence | as-written member | corrected member |
|---|---|---|---|---|---|---|
| code-compiler-backend/src/runners/runCode.ts:50-51 | `languageConfigs[language]` also finds names inherited from Object.prototype. These are truthy, so `!config` lets them through. The workspace is created and `code-<uuid>undefined` is written. `config.command(filename)` then throws a TypeError at line 76, outside the `try`, so the workspace is never removed | language "toString" (or "constructor", "valueOf", ...) | Reject every key that is not one of the table's own five with "Unsupported language", before touching the filesystem | not executed | Sandbox.PrototypeKeyLeaksWorkspace | Sandbox.PrototypeKeyRejected |

`Sandbox.RunAsWritten` models the routine as written, and `Sandbox.Run` models it with the own-key guard. `Sandbox.RunVersionsAgree` shows the two differ only on inherited member names. `Sandbox.Host.RunCodeInDocker` implements `Run`.
