# Fake-completion validators, modelled in Dafny

The repository holds eight Python scripts that scan the Kotlin sources of an
Android project for signs of "fake completion": functions with empty bodies,
TODO markers, mock data, simulated delays, local URLs, navigation targets
without a screen, injected types without a provider, and so on. Each script
records issues with a severity level, decides a verdict and writes a report.
This project models the scanning rules, the issue lists they build, the
verdicts and the report statistics of each script:

| script | Dafny module(s) | file(s) |
|---|---|---|
| `smart-validator.py` | `SmartValidation`, `KotlinPatterns` | `smart_validator.dfy`, `kotlin_patterns.dfy` |
| `intelligent-validator-v4.py` | `IntelligentV4`, `IntelligentV4Patterns` | `intelligent_validator_v4.dfy`, `intelligent_validator_v4_patterns.dfy` |
| `intelligent-validator-v5.py` | `IntelligentV5`, `IntelligentV5Parse`, `IntelligentV5Text` | `intelligent_validator_v5*.dfy` |
| `intelligent-validator-v6.py` | `IntelligentV6` | `intelligent_validator_v6.dfy` |
| `recursive-validator.py` | `RecursiveValidator`, `RecursivePatterns` | `recursive_validator.dfy`, `recursive_patterns.dfy` |
| `validator-v6-patch.py` | `ValidatorV6Patch` | `validator_v6_patch.dfy` |
| `docs/sop/validate/scripts/validator-v5-fixed.py` | `ValidatorV5Fixed` | `validator_v5_fixed.dfy` |
| `docs/sop/validate/scripts/weighted-comment-check.py` | `WeightedComment` | `weighted_comment_check.dfy` |

`Text` and `Seqs` (in `text.dfy`) hold the string and sequence operations
every script uses: substring search, `strip`, `split`/`join`, case mapping,
filtering and counting.

How the Python becomes Dafny:

- Each validator object becomes a `class`. Its lists, dicts and sets become
  `seq`, `map` and `set` fields that the methods reassign. Each method states
  its whole new state against a specification function of the old state and
  its inputs. The lemmas about those functions state what the rules
  promise: which items are reported, and that every such item is reported.
- The file system is an input. A walk becomes the list of paths it yields,
  in walk order. Reading a file becomes a lookup in a map from path to text;
  a path missing from the map is a file that cannot be read. Where the
  script lets that error escape, the model returns a crash flag or a
  `Raised` outcome, and the contract says which issues were recorded before it.
- Each regular expression becomes a recogniser: a predicate or function
  that decides the pattern at one position, plus a search over the
  positions. The doc comment of each recogniser explains why only one way of
  matching can succeed, so the recogniser agrees with the backtracking
  engine. `\s`, `\w`, upper- and lower-casing and `IGNORECASE` are taken
  over ASCII.
- Where a script iterates a `set`, Python's iteration order is not
  specified. The model returns that order as a ghost sequence, and the
  contracts hold for every order.
- Floating-point scores become exact `real` arithmetic.

## Model

| member | source | states |
|---|---|---|
| KotlinPatterns.QuotedCalls | smart-validator.py:243-246 | `findall` of `navigate\s*\(\s*["']([^"']+)["']` (and of the `composable` one) yields only non-empty arguments, every character of which is in the argument class, so none is a quote |
| KotlinPatterns.QuotedCallsFound | smart-validator.py:243-246 | every argument found is the argument of a call matched at some position of the text |
| KotlinPatterns.StripLineComments | smart-validator.py:129 | `re.sub(r'//.*', '', body)` never lengthens the text |
| KotlinPatterns.StripLineCommentsClean | smart-validator.py:129 | after line comments are removed no `//` is left |
| SmartValidation.FuncMatchAt | smart-validator.py:95-97 | a header match at a position has a non-empty name and a body group of the pattern's shape, ending after the position |
| SmartValidation.FuncMatches | smart-validator.py:95-97 | `re.finditer` over the text: every match has a name and a well-formed body group |
| SmartValidation.Describe | smart-validator.py:97-115 | the record of a match keeps its name, file and body |
| SmartValidation.Describes | smart-validator.py:97-115 | one record per match, in match order |
| SmartValidation.ChainIssues | smart-validator.py:178-212 | the if/elif chain gives at most one issue: empty implementation (CRITICAL) exactly when the body is empty, TODO (MAJOR) exactly when it is not empty but has a marker, fake implementation (CRITICAL) exactly when neither holds and a fake pattern matches |
| SmartValidation.ViewModelIssues | smart-validator.py:214-238 | for an API-calling function of a ViewModel file, a missing UI update and a missing error handling are each reported (MAJOR) exactly when the body lacks them; no other function gets either |
| SmartValidation.FunctionIssues | smart-validator.py:173-238 | at most one chain issue, and every issue is about this function, at line 0 |
| SmartValidation.CommonIssues | smart-validator.py:250-288 | at most three issues: a hard-coded delay (MINOR) exactly when a literal delay of three or more digits occurs, a local URL (CRITICAL) exactly when a local address and `://` both occur, and a debug print (MINOR) exactly when `println(` occurs and the early return for a local address without `://` was not taken |
| SmartValidation.MissingScreenIssues | smart-validator.py:370-383 | one BLOCKER per route, in route order |
| SmartValidation.LevelCount | smart-validator.py:449-452 | the count is zero exactly when no issue has that level |
| SmartValidation.LevelCountsSum | smart-validator.py:449-452 | the four level counts add up to the number of issues |
| SmartValidation.FunctionIssuesIncluded | smart-validator.py:97-121 | every function's issues appear in its file's issue list |
| SmartValidation.ExpressionFunctionsReportedEmpty | smart-validator.py:123-126 | a single-expression function (body group `=`) is always reported as an empty implementation |
| SmartValidation.KeyInjective | smart-validator.py:117-118 | distinct names of one file get distinct `file::name` keys |
| SmartValidation.RecordLastWins | smart-validator.py:117-118 | storing a file's functions keeps, for each name, the last function of that name |
| SmartValidation.RecordKeys | smart-validator.py:117-118 | storing adds exactly the keys `file::name` of the file's functions |
| KotlinPatterns.NoDoubleSlashLineText | smart-validator.py:129 | a body without `//` is unchanged by the line-comment removal |
| SmartValidation.CleanVerdict | smart-validator.py:134-139 | the last tests of `is_empty_function` accept exactly the texts made of braces and whitespace |
| SmartValidation.EmptyIffBracesAndSpace | smart-validator.py:123-141 | a body without comments is empty exactly when it is made of braces and whitespace |
| SmartValidation.ReturnBodyIsNotEmpty | smart-validator.py:123-141 | `{ return x }` is not an empty body |
| SmartValidation.OneLineCommentIgnored | smart-validator.py:130 | a body holding only a one-line block comment is empty |
| SmartValidation.MultiLineCommentKept | smart-validator.py:130 | a block comment spanning lines is kept, so that body is not empty (`re.DOTALL` is passed as the replacement count) |
| SmartValidation.OneLineCommentStripped | smart-validator.py:130 | a one-line block comment between braces is removed |
| SmartValidation.MultiLineCommentUnstripped | smart-validator.py:130 | a block comment holding a line break is left in place |
| SmartValidation.TodoMarkerIgnoresCase | smart-validator.py:143-149 | the TODO-marker test does not depend on case |
| SmartValidation.TodoCommentIsTodoMarker | smart-validator.py:190-212 | the `//\s*TODO` fake pattern never decides an issue: whenever it matches, the TODO branch comes first |
| SmartValidation.ScanCallsMembers | smart-validator.py:243-248 | a route is gathered exactly when some file passes it to `navigate` (or `composable`) |
| SmartValidation.MissingScreenOnce | smart-validator.py:372-383 | each missing route is reported exactly once, and nothing else is |
| SmartValidation.SmartValidator.constructor | smart-validator.py:33-38 | a new validator has no issues, functions, screens or navigation targets |
| SmartValidation.SmartValidator.AddIssue | smart-validator.py:442-444 | appends the issue and changes nothing else |
| SmartValidation.SmartValidator.CheckFunctionIssues | smart-validator.py:173-238 | appends exactly the function's issues |
| SmartValidation.SmartValidator.CheckViewModel | smart-validator.py:214-238 | appends exactly the view-model issues |
| SmartValidation.SmartValidator.ExtractFunctions | smart-validator.py:92-121 | stores every match under `file::name` and appends the issues of every match, in match order |
| SmartValidation.SmartValidator.RecordFunctions | smart-validator.py:97-121 | the loop over the described matches stores and checks each one |
| SmartValidation.SmartValidator.ExtractNavigation | smart-validator.py:240-248 | the file's navigation targets and composable routes join the gathered sets |
| SmartValidation.SmartValidator.CheckCommonIssues | smart-validator.py:250-288 | appends exactly the file's common issues, with the early return |
| SmartValidation.SmartValidator.AnalyzeFile | smart-validator.py:74-90 | a read file updates the functions, the issues and both route sets as the three steps say |
| SmartValidation.SmartValidator.ScanProject | smart-validator.py:60-72 | the scan of the found files, in order, gives the union of their routes, their functions and all their issues |
| SmartValidation.SmartValidator.CheckNavigationCompleteness | smart-validator.py:370-383 | one BLOCKER per navigation target that no composable defines, each once |
| SmartValidation.SmartValidator.GenerateReport | smart-validator.py:446-511 | the verdict is success exactly when there is no BLOCKER or CRITICAL issue; the level counts add up to the total; the first 50 issues are listed |
| KotlinPatterns.QuotedCallAt | smart-validator.py:243-246 | a call with a quoted argument yields a non-empty argument free of quotes, and the match ends after its start |
| KotlinPatterns.ReturnAt | smart-validator.py:157-162 | `return\s+` matches only where `return` stands, and the returned text starts after it |
| SmartValidation.ScanCallsSound | smart-validator.py:243-248 | every collected target comes from a call in one of the files |
| SmartValidation.ScanCallsComplete | smart-validator.py:243-248 | every call in every file is collected |
| SmartValidation.TodoCommentHasMarker | smart-validator.py:190-212 | a `// todo` comment, in any case, makes the body hold a TODO marker |
| IntelligentV4Patterns.BraceBodyAt | intelligent-validator-v4.py:99-100 | `\{([^}]*)\}` captures the text between the opening brace and the first `}` |
| IntelligentV4Patterns.FunAt | intelligent-validator-v4.py:99-100 | a header match at a position has a non-empty name and a body holding no `}` |
| IntelligentV4Patterns.FunMatchesFound | intelligent-validator-v4.py:99-100 | every match of `re.finditer` is the header pattern's match at some position |
| IntelligentV4Patterns.BodyStopsAtFirstBrace | intelligent-validator-v4.py:99-100 | every captured body runs up to the first `}` after the opening brace |
| IntelligentV4Patterns.FirstFakeFrom | intelligent-validator-v4.py:261-273 | the first pattern of the list, from a given index, that occurs in the body, or none |
| IntelligentV4Patterns.FirstFake | intelligent-validator-v4.py:261-273 | a fake pattern is reported exactly when some pattern of the list occurs in the lower-cased body, and the one reported occurs |
| IntelligentV4Patterns.ClosingLineFrom | intelligent-validator-v4.py:439-443 | the lazy `(.*?)\n\s*\}` ends at the first closing line |
| IntelligentV4Patterns.NamedBodyAt | intelligent-validator-v4.py:439-443 | a body match of the named function ends at a closing line, with none before it |
| IntelligentV4Patterns.NamedBodyFrom | intelligent-validator-v4.py:439-443 | `re.search` returns the match at some position after the start |
| IntelligentV4Patterns.ExtractedBodyStops | intelligent-validator-v4.py:439-443 | no line of the extracted body starts with `}` after whitespace |
| IntelligentV4Patterns.InjectAt | intelligent-validator-v4.py:400 | an injection match yields a non-empty type name |
| IntelligentV4Patterns.ProvideAt | intelligent-validator-v4.py:401 | a provider match yields a non-empty provided name |
| IntelligentV4Patterns.LastProvideFun | intelligent-validator-v4.py:401 | the greedy `.*` picks the last `fun provide` start on the annotation's line |
| IntelligentV4Patterns.ProvidesNeedsSameLine | intelligent-validator-v4.py:401 | an `@Provides` alone on its line provides nothing |
| IntelligentV4.Analyze | intelligent-validator-v4.py:109-119 | the facts of a match keep its name and file, and say it has an implementation exactly when the body holds a non-whitespace character |
| IntelligentV4.FactsDependOnBody | intelligent-validator-v4.py:112-117 | two matches of one file with the same body get the same facts except the name |
| IntelligentV4.KeyInjective | intelligent-validator-v4.py:121 | distinct names of one file get distinct `file::name` keys |
| IntelligentV4.PutLookup | intelligent-validator-v4.py:121 | after `d[key] = v` the key maps to `v` and every other key to what it mapped to before |
| IntelligentV4.PutOrder | intelligent-validator-v4.py:121 | assignment keeps the insertion order of the keys present and adds a new key at the end |
| IntelligentV4.PutUnique | intelligent-validator-v4.py:121 | the table never holds a key twice |
| IntelligentV4.StoreLastWins | intelligent-validator-v4.py:121 | for each name, the table keeps the facts of the last function of that name in the file |
| IntelligentV4.StoreOthers | intelligent-validator-v4.py:121 | keys that no function of the file produces keep their facts |
| IntelligentV4.StoreOrder | intelligent-validator-v4.py:121 | storing keeps the keys unique and the earlier keys in their places |
| IntelligentV4.BlankIffNoImplementation | intelligent-validator-v4.py:112 | a body is blank exactly when the facts say it has no implementation |
| IntelligentV4.EmptyIssuesCount | intelligent-validator-v4.py:123-133 | a file gets one issue per blank body |
| IntelligentV4.EmptyIssuesIff | intelligent-validator-v4.py:123-133 | the file's issues are exactly the CRITICAL empty-implementation issues of its blank bodies |
| IntelligentV4.ParsedOrder | intelligent-validator-v4.py:85-90 | parsing more files keeps the keys unique and the earlier keys in their places |
| IntelligentV4.ViewModelRule | intelligent-validator-v4.py:153-182 | an API-calling item of a ViewModel key gets a CRITICAL issue when it updates no UI state and a MAJOR one when it handles no error, independently; no other item gets either |
| IntelligentV4.RepositoryRule | intelligent-validator-v4.py:184-200 | a Repository item whose name mentions saving or updating and whose body saves nothing gets a CRITICAL issue; no other item does |
| IntelligentV4.GatheredIff | intelligent-validator-v4.py:207-220 | a route is gathered exactly when some readable Kotlin file yields it |
| IntelligentV4.MissingScreenIssues | intelligent-validator-v4.py:222-233 | one BLOCKER per missing route, in route order |
| IntelligentV4.FirstBlocked | intelligent-validator-v4.py:240-243 | the first item whose file the check opens and cannot read; every item before it is readable or not opened |
| IntelligentV4.ApiIssue | intelligent-validator-v4.py:240-273 | at most one issue; when there is one it is CRITICAL with confidence 0.8, about an API-calling item of a readable file, and names the first fake pattern in the lower-cased extracted body |
| IntelligentV4.ApiIssueIff | intelligent-validator-v4.py:240-273 | an API issue is raised exactly for an API-calling item whose file was read, holds `suspend` and the item's name, and whose extracted body shows a fake pattern |
| IntelligentV4.AsyncIssue | intelligent-validator-v4.py:312-331 | a MAJOR missing-coroutine-scope issue exactly for a `suspend` key in a readable ViewModel file that mentions neither `viewModelScope` nor `lifecycleScope` |
| IntelligentV4.AsyncRule | intelligent-validator-v4.py:312-331 | over the table, the issues are exactly those of such items |
| IntelligentV4.LevelCount | intelligent-validator-v4.py:470-473 | the count is zero exactly when no issue has that level |
| IntelligentV4.LevelCountsSum | intelligent-validator-v4.py:470-473 | the four level counts add up to the number of issues |
| IntelligentV4.StoreMatches | intelligent-validator-v4.py:102-133 | the loop over a file's matches gives the stored table and the blank-body issues |
| IntelligentV4.CollectIssues | intelligent-validator-v4.py:155-200 | a rule's loop over the table yields the rule's issues in table order |
| IntelligentV4.FindFakePattern | intelligent-validator-v4.py:261-273 | the loop returns the first fake pattern found |
| IntelligentV4.ApiCheck | intelligent-validator-v4.py:241-273 | the check of one readable item yields that item's API issue |
| IntelligentV4.ApiScan | intelligent-validator-v4.py:238-273 | the scan crashes exactly when some API-calling item's file cannot be read, and keeps the issues of the items before it |
| IntelligentV4.AsyncScan | intelligent-validator-v4.py:314-331 | the scan crashes exactly when some `suspend` item's file cannot be read, and keeps the issues of the items before it |
| IntelligentV4.GatherBoth | intelligent-validator-v4.py:406-416 | crashes exactly when a Kotlin file cannot be read; otherwise yields the union of both patterns' finds over all files |
| IntelligentV4.MissingScreenOrder | intelligent-validator-v4.py:223-233 | one BLOCKER per missing route, each route once |
| IntelligentV4.IntelligentValidator.constructor | intelligent-validator-v4.py:47-51 | a new validator has no issues and no functions |
| IntelligentV4.IntelligentValidator.ParseKotlinFile | intelligent-validator-v4.py:92-136 | a readable file stores its matches and records its blank bodies; an unreadable one changes nothing |
| IntelligentV4.IntelligentValidator.AnalyzeCodeStructure | intelligent-validator-v4.py:85-90 | parses every Kotlin file in walk order |
| IntelligentV4.IntelligentValidator.CheckViewModelCompleteness | intelligent-validator-v4.py:153-182 | appends exactly the ViewModel rule's issues, in table order |
| IntelligentV4.IntelligentValidator.CheckRepositoryCompleteness | intelligent-validator-v4.py:184-200 | appends exactly the Repository rule's issues, in table order |
| IntelligentV4.IntelligentValidator.CheckNavigationCompleteness | intelligent-validator-v4.py:202-233 | raises with the issues unchanged exactly when a file cannot be read; otherwise one BLOCKER per navigated route that no composable defines |
| IntelligentV4.IntelligentValidator.CheckApiCompleteness | intelligent-validator-v4.py:235-273 | appends the API issues of the items before the first unreadable one, and raises exactly when there is one |
| IntelligentV4.IntelligentValidator.AnalyzeSemanticCompleteness | intelligent-validator-v4.py:138-151 | the four rules in order, raising exactly when a file they read cannot be read |
| IntelligentV4.IntelligentValidator.CheckAsyncOperations | intelligent-validator-v4.py:312-331 | appends the async issues of the items before the first unreadable one, and raises exactly when there is one |
| IntelligentV4.IntelligentValidator.VerifyDependencyInjection | intelligent-validator-v4.py:397-430 | one MAJOR issue naming the injected names without a provider when there are any; raises exactly when a file cannot be read |
| IntelligentV4.IntelligentValidator.GenerateReport | intelligent-validator-v4.py:467-537 | the verdict is success exactly when there is no BLOCKER or CRITICAL issue; the level counts add up to the total; the first 20 issues are listed |
| IntelligentV4.IntelligentValidator.Validate | intelligent-validator-v4.py:53-83 | always raises: an I/O error exactly when a file that a phase reads cannot be read, otherwise at the undefined `check_state_management`, after recording the parse, semantic and async issues |
| IntelligentV4.Run | intelligent-validator-v4.py:539-542 | the script always raises before a report is written |
| IntelligentV4.Lookup | intelligent-validator-v4.py:121 | a key is absent exactly when no stored function carries it |
| IntelligentV4Patterns.ProvideFunAt | intelligent-validator-v4.py:401 | `fun\s+provide(\w+)` yields a non-empty group, and the match ends after its start |
| IntelligentV5Text.MatchHeader | intelligent-validator-v5.py:174-184 | a header matched at the start of a line has a non-empty name of word characters |
| IntelligentV5Text.StripBlockComments | intelligent-validator-v5.py:277-285 | removing comments never lengthens the body |
| IntelligentV5Text.CleanBodyHasNoLineComment | intelligent-validator-v5.py:277-285 | a cleaned body holds no `//` |
| IntelligentV5Text.NoOpenerBlockCommentsText | intelligent-validator-v5.py:282 | a text without `/*` is unchanged by the block-comment removal |
| IntelligentV5Text.CommentFreeVerdict | intelligent-validator-v5.py:255-284 | on a body without comments, single-expression or not, the implementation test passes exactly when the stripped body is not `""`, `{}` or `{ }`: no placeholder block can match it |
| IntelligentV5Text.BodyWithoutOpeningBrace | intelligent-validator-v5.py:263-275 | a block body is implemented exactly when it is non-empty and its cleaned text is not an empty block |
| IntelligentV5Text.TodoBlockIsPlaceholder | intelligent-validator-v5.py:271-273 | a block holding only a TODO comment counts as a placeholder, so it is not implemented |
| IntelligentV5Text.DropTrailingComment | intelligent-validator-v5.py:214 | `re.sub(r'//.*$', '', s)` leaves a text without a trailing comment unchanged and cuts the comment on the last line otherwise |
| IntelligentV5Text.SingleExpressionWithoutComment | intelligent-validator-v5.py:206-214 | without a `//` after the first `=`, a single-expression body is the stripped text after that `=` |
| IntelligentV5Text.SingleExpressionDropsComment | intelligent-validator-v5.py:206-214 | a trailing comment is cut from a single-expression body, so the body is shorter than the text after `=` |
| IntelligentV5Text.CommentPatternsNeverShow | intelligent-validator-v5.py:328-337 | the `// TODO` and `// FIXME` patterns can never match a cleaned body |
| IntelligentV5Parse.PackageAt | intelligent-validator-v5.py:126 | a package match yields a non-empty name |
| IntelligentV5Parse.DeclarationAt | intelligent-validator-v5.py:130 | a class, interface or object declaration yields a non-empty name |
| IntelligentV5Parse.ContextOf | intelligent-validator-v5.py:117-132 | the context built for a file records that file's path |
| IntelligentV5Parse.SignatureEnd | intelligent-validator-v5.py:192-200 | the signature loop stays within the file's lines |
| IntelligentV5Parse.BodyEnd | intelligent-validator-v5.py:217-230 | the brace loop always takes the first body line and stays within the file's lines |
| IntelligentV5Parse.FunctionAt | intelligent-validator-v5.py:186-249 | the record of a header keeps its name, file, 1-based line and context; its signature is the joined signature lines; it is single-expression exactly when its signature holds `=` |
| IntelligentV5Parse.Parse | intelligent-validator-v5.py:169-253 | the functions of a file are found in strictly increasing line order |
| IntelligentV5Parse.BlockBodyStartsAfterSignature | intelligent-validator-v5.py:217-230 | a block body is the lines right after the signature, joined |
| IntelligentV5Parse.BalancedHeaderTakesNextLine | intelligent-validator-v5.py:217-230 | a header whose braces balance on its own line takes the next line as its body |
| IntelligentV5Parse.ParseKotlinFunctions | intelligent-validator-v5.py:164-253 | the header, parenthesis and brace loops compute the functions of the file |
| IntelligentV5Parse.ScanLines | intelligent-validator-v5.py:169-251 | the header loop over the lines computes the functions of the file |
| IntelligentV5Parse.ScanLine | intelligent-validator-v5.py:169-251 | one pass of the header loop records what the scan records at that line and moves forward |
| IntelligentV5Parse.ScanFunction | intelligent-validator-v5.py:186-249 | the signature and body loops for one header compute its record and where the scan resumes |
| IntelligentV5Parse.CollectBody | intelligent-validator-v5.py:223-230 | the brace loop collects the block body |
| IntelligentV5Parse.AsWrittenRecordsNothing | intelligent-validator-v5.py:233-246 | as written, parsing fails exactly when a function would have been found, and otherwise finds nothing: no file ever contributes a function |
| IntelligentV5.ShouldCheckCases | intelligent-validator-v5.py:287-307 | a function is skipped exactly in the four cases of the filter |
| IntelligentV5.SuspiciousIssuesFacts | intelligent-validator-v5.py:324-355 | a suspicious pattern is reported exactly when it shows in the body and is not excluded; each report sits at the function, with confidence 0.8 and the pattern's level |
| IntelligentV5.ImplementationIssuesFacts | intelligent-validator-v5.py:309-355 | an unimplemented function yields exactly one CRITICAL empty-implementation issue; an implemented one yields only suspicious-pattern issues |
| IntelligentV5.RegisterKeys | intelligent-validator-v5.py:153-155 | registering adds exactly one key `path::name` per function and keeps the old keys |
| IntelligentV5.RecordContextsKeys | intelligent-validator-v5.py:108-137 | every file gets a context and nothing else is added |
| IntelligentV5.RecordContextsFacts | intelligent-validator-v5.py:108-137 | with distinct paths, each file's context is built from its own text |
| IntelligentV5.MissingRouteIssuesAt | intelligent-validator-v5.py:450-460 | the i-th issue reports the i-th missing route as a BLOCKER |
| IntelligentV5.DiMatchAt | intelligent-validator-v5.py:579-600 | an injection match yields a non-empty captured type |
| IntelligentV5.DiCaptures | intelligent-validator-v5.py:579-600 | `re.findall` yields only non-empty types |
| IntelligentV5.NeededTypesFacts | intelligent-validator-v5.py:570-600 | the needed types are free of repeats and are exactly the injected ones |
| IntelligentV5.UnprovidedFacts | intelligent-validator-v5.py:605-619 | the unprovided types are free of repeats and are exactly the needed ones without a provider |
| IntelligentV5.MissingProvidersExact | intelligent-validator-v5.py:605-619 | exactly the injected types that nobody provides and the framework does not supply are reported, each once |
| IntelligentV5.FilterOutcomeFacts | intelligent-validator-v5.py:658-686 | the filter raises exactly when some issue reaches the data-class rule; otherwise it keeps, in order, the issues no rule drops |
| IntelligentV5.FilterRaises | intelligent-validator-v5.py:658-686 | the raising half of the filter's outcome |
| IntelligentV5.FilterKeeps | intelligent-validator-v5.py:658-686 | the keeping half of the filter's outcome |
| IntelligentV5.FailurePersists | intelligent-validator-v5.py:658-686 | once a prefix of the issues makes the filter raise, the whole list does |
| IntelligentV5.UnanchoredIssuesKept | intelligent-validator-v5.py:662-684 | issues not tied to an analysed file, such as the navigation and injection ones, always pass |
| IntelligentV5.LevelCountZero | intelligent-validator-v5.py:710-712 | no issue has a level exactly when its count is zero |
| IntelligentV5.LevelCountsSum | intelligent-validator-v5.py:710-712 | the five level counts add up to the number of issues |
| IntelligentV5.ReportVerdict | intelligent-validator-v5.py:747-769 | success holds exactly when there is no BLOCKER or CRITICAL issue, exactly when the critical list is empty; the list holds at most 20 issues, all BLOCKER or CRITICAL |
| IntelligentV5.BlockerCount | intelligent-validator-v5.py:747-769 | the BLOCKER and CRITICAL lists are as long as their counts |
| IntelligentV5.IntelligentValidatorV5.constructor | intelligent-validator-v5.py:66-74 | a new validator has no issues, functions or contexts |
| IntelligentV5.IntelligentValidatorV5.AddIssue | intelligent-validator-v5.py:688-691 | appends the issue and changes nothing else |
| IntelligentV5.IntelligentValidatorV5.BuildCodeContext | intelligent-validator-v5.py:108-137 | records one context per file |
| IntelligentV5.IntelligentValidatorV5.CheckFunctionImplementation | intelligent-validator-v5.py:309-355 | appends exactly the function's implementation issues |
| IntelligentV5.IntelligentValidatorV5.CheckPatterns | intelligent-validator-v5.py:336-355 | the pattern loop appends the suspicious issues in pattern order |
| IntelligentV5.IntelligentValidatorV5.AnalyzeKotlinFile | intelligent-validator-v5.py:144-162 | registers every function the corrected scanner `Parse` finds (see Findings; as written none is found) and appends the issues of those that need checking |
| IntelligentV5.IntelligentValidatorV5.RecordFunctions | intelligent-validator-v5.py:153-159 | the loop over one file's functions, as the corrected scanner `Parse` finds them (see Findings; as written the list is always empty) |
| IntelligentV5.IntelligentValidatorV5.AnalyzeCodeIntelligently | intelligent-validator-v5.py:139-142 | every file with a context is analysed, in file order, with the corrected scanner `Parse` (see Findings) |
| IntelligentV5.IntelligentValidatorV5.AnalyzeFile | intelligent-validator-v5.py:141-162 | one pass of the file loop: a file without a context is skipped; functions are found by the corrected scanner `Parse` (see Findings) |
| IntelligentV5.IntelligentValidatorV5.CheckNavigationCompleteness | intelligent-validator-v5.py:420-460 | one BLOCKER per navigation target that no NavHost declares, each once |
| IntelligentV5.IntelligentValidatorV5.ReportMissingRoutes | intelligent-validator-v5.py:450-460 | one issue per missing route, each once |
| IntelligentV5.IntelligentValidatorV5.MissingRouteOrder | intelligent-validator-v5.py:450-460 | the loop over the missing routes visits each once |
| IntelligentV5.IntelligentValidatorV5.ValidateDependencyInjection | intelligent-validator-v5.py:567-619 | one MAJOR issue per injected type without a provider |
| IntelligentV5.IntelligentValidatorV5.ReportMissing | intelligent-validator-v5.py:605-619 | the loop over the needed types reports the unprovided ones in order |
| IntelligentV5.IntelligentValidatorV5.FilterFalsePositives | intelligent-validator-v5.py:658-686 | on success the kept issues replace the list; when the data-class rule raises, the list is unchanged |
| IntelligentV5.IntelligentValidatorV5.GenerateComprehensiveReport | intelligent-validator-v5.py:707-788 | the verdict, the file, function and issue counts, the per-level counts and the critical list |
| IntelligentV5.IntelligentValidatorV5.LevelStats | intelligent-validator-v5.py:710-712 | the per-level tally over the issues, with every level present |
| IntelligentV5Text.TrailingCommentFrom | intelligent-validator-v5.py:214 | the first `//` comment that runs to the end of the text at or after a position, or none when there is none |
| IntelligentV5.SuspiciousIssues | intelligent-validator-v5.py:336-355 | at most one issue per pattern |
| IntelligentV5.MissingRouteIssues | intelligent-validator-v5.py:450-460 | one issue per missing route |
| IntelligentV5.ProviderIssues | intelligent-validator-v5.py:605-619 | one MAJOR issue per type without a provider, in order |
| IntelligentV5.PathsIff | intelligent-validator-v5.py:108-137 | the paths a context build can key on are exactly the paths of the files |
| IntelligentV5.FunReturnAt | intelligent-validator-v5.py:587-600 | a provider function yields a non-empty word as its return type |
| IntelligentV5.TypeAnnotationAt | intelligent-validator-v5.py:579-584 | a type annotation yields a non-empty word |
| IntelligentV5.InjectTargetAt | intelligent-validator-v5.py:580 | `constructor` or `lateinit var` followed by spaces ends after its start |
| IntelligentV6.Deduction | intelligent-validator-v6.py:625-631 | each issue takes off a positive number of points, at most 20 |
| IntelligentV6.WeightsSumToOne | intelligent-validator-v6.py:612-618 | the five perspective weights add up to 1 |
| IntelligentV6.TotalDeduction | intelligent-validator-v6.py:633-635 | a perspective's total deduction is never negative |
| IntelligentV6.DeductionsNonNegative | intelligent-validator-v6.py:633-635 | a sum of deductions is never negative |
| IntelligentV6.DimensionScore | intelligent-validator-v6.py:633-638 | a perspective score lies in [0, 100] and is 100 exactly when nothing is deducted |
| IntelligentV6.Dimensions | intelligent-validator-v6.py:621-638 | every perspective gets its score |
| IntelligentV6.CompositeBounds | intelligent-validator-v6.py:641-646 | the weighted health score lies in [0, 100] |
| IntelligentV6.NoIssuesFullHealth | intelligent-validator-v6.py:621-646 | with no issues every score and the health score are 100 |
| IntelligentV6.ScoresIgnoreOrder | intelligent-validator-v6.py:621-644 | reordering the issues changes no score |
| IntelligentV6.MoreIssuesNeverHigher | intelligent-validator-v6.py:633-637 | one more issue never raises a score, and leaves the other perspectives' scores unchanged |
| IntelligentV6.LevelCountsSum | intelligent-validator-v6.py:1024-1029 | the five level counts add up to the number of issues |
| IntelligentV6.TallyCounts | intelligent-validator-v6.py:1052-1056 | the per-perspective dictionary holds exactly the levels that occur, with their counts |
| IntelligentV6.PaddedTally | intelligent-validator-v6.py:1052-1056 | padding a perspective's tally with the severe levels gives its level counts |
| IntelligentV6.CountsComplete | intelligent-validator-v6.py:1052-1056 | a dictionary of exactly the occurring levels, padded, is the perspective's counts |
| IntelligentV6.EmptyFunAt | intelligent-validator-v6.py:341-344 | an empty-function match yields a non-empty name |
| IntelligentV6.TodoAt | intelligent-validator-v6.py:362 | a task-comment match yields TODO, FIXME or XXX |
| IntelligentV6.TodoMarkers | intelligent-validator-v6.py:362 | `re.findall` yields only TODO, FIXME or XXX |
| IntelligentV6.EmptyFunctionIssues | intelligent-validator-v6.py:346-359 | at most one issue per empty function found |
| IntelligentV6.EmptyFunctionRule | intelligent-validator-v6.py:346-359 | the rule never reports an allowed name, reports every other name once, always as a DEVELOPER MAJOR issue |
| IntelligentV6.TodoIssues | intelligent-validator-v6.py:363-374 | one issue per task marker |
| IntelligentV6.LowCoverageIff | intelligent-validator-v6.py:445-457 | the ratio test `tests / max(sources, 1) < 0.3` holds exactly when `10 * tests < 3 * max(sources, 1)` |
| IntelligentV6.CoverageRule | intelligent-validator-v6.py:445-457 | one CRITICAL coverage issue exactly when the ratio is under 0.3 |
| IntelligentV6.UntestedNotSevere | intelligent-validator-v6.py:460-473 | no untested-component issue is severe |
| IntelligentV6.TallyLevels | intelligent-validator-v6.py:1024-1029 | the counting loop: a level is a key exactly when an issue has it, with its count |
| IntelligentV6.PadLevels | intelligent-validator-v6.py:1045-1048 | reading every level of the default dictionary adds the missing levels with count zero |
| IntelligentV6.EmptyFunctionReport | intelligent-validator-v6.py:346-359 | the loop over one file's empty-function names computes the rule's issues |
| IntelligentV6.TodoReport | intelligent-validator-v6.py:363-374 | the loop over one file's task markers computes one MINOR issue each |
| IntelligentV6.IntelligentValidatorV6.constructor | intelligent-validator-v6.py:67-79 | a new validator has no issues, risks, strengths or dimension scores and a score of 100 |
| IntelligentV6.IntelligentValidatorV6.AddIssue | intelligent-validator-v6.py:656-659 | appends the issue and changes nothing else |
| IntelligentV6.IntelligentValidatorV6.CheckFileCompleteness | intelligent-validator-v6.py:335-377 | appends one file's empty-function and task-marker issues |
| IntelligentV6.IntelligentValidatorV6.CheckCodeCompleteness | intelligent-validator-v6.py:328-377 | appends the completeness issues of every file, in order |
| IntelligentV6.IntelligentValidatorV6.CheckTestCoverage | intelligent-validator-v6.py:430-473 | appends the coverage issue and the untested-component issues |
| IntelligentV6.IntelligentValidatorV6.CheckKeyComponents | intelligent-validator-v6.py:459-473 | one MAJOR QA issue for every key component that no test file name mentions |
| IntelligentV6.IntelligentValidatorV6.ScorePerspective | intelligent-validator-v6.py:633-637 | the loop computes the perspective's score |
| IntelligentV6.IntelligentValidatorV6.EvaluateSystemHealth | intelligent-validator-v6.py:609-654 | scores every perspective, the health score lies in [0, 100], and the risks and strengths are those the thresholds call for |
| IntelligentV6.IntelligentValidatorV6.RecordRisks | intelligent-validator-v6.py:648-654 | a quality risk when the health score is below 60, a testing risk when the QA score is below 50, and an architecture strength when the ARCHITECT score is above 80 |
| IntelligentV6.IntelligentValidatorV6.ScoreDimensions | intelligent-validator-v6.py:621-638 | the perspective loop scores every perspective |
| IntelligentV6.IntelligentValidatorV6.GenerateComprehensiveReport | intelligent-validator-v6.py:1021-1139 | release is allowed exactly when there is no SHOWSTOPPER and fewer than three CRITICAL issues; the level and perspective counts; the first 20 severe issues |
| IntelligentV6.IntelligentValidatorV6.LevelStats | intelligent-validator-v6.py:1024-1048 | the per-level counts, with every level present |
| IntelligentV6.IntelligentValidatorV6.PerspectiveStats | intelligent-validator-v6.py:1050-1057 | the per-perspective level counts |
| IntelligentV6.IntelligentValidatorV6.CountPerspective | intelligent-validator-v6.py:1052-1056 | one perspective's level counts, padded with the severe levels once it has any issue |
| IntelligentV6.IntelligentValidatorV6.TallyPerspective | intelligent-validator-v6.py:1025-1029 | the levels of the perspective's issues with their counts, and whether there is any |
| IntelligentV6.EmptyBodyAfter | intelligent-validator-v6.py:341-344 | the empty braces end after the start |
| IntelligentV6.Names | intelligent-validator-v6.py:440-462 | the name of every test file, in order |
| IntelligentV6.PerspectiveLevelCount | intelligent-validator-v6.py:1052-1056 | one perspective's count of a level never exceeds the count over all perspectives |
| WeightedComment.LayerIgnoresFileName | docs/sop/validate/scripts/weighted-comment-check.py:84-95 | the layer depends on the directories of a path only: appending a file name without `/` never changes it |
| WeightedComment.GetWeight | docs/sop/validate/scripts/weighted-comment-check.py:125-138 | every class weight lies in [0.5, 1.5] |
| WeightedComment.WeightTable | docs/sop/validate/scripts/weighted-comment-check.py:125-138 | the weights a class can get; test classes alone weigh 0.5 and classes outside the layers weigh 1.0 |
| WeightedComment.ClassTypeInLayer | docs/sop/validate/scripts/weighted-comment-check.py:97-123 | each class kind belongs to one layer, and the first name test of that layer decides |
| WeightedComment.MatchClass | docs/sop/validate/scripts/weighted-comment-check.py:189 | a class declaration yields a non-empty name |
| WeightedComment.MatchMethod | docs/sop/validate/scripts/weighted-comment-check.py:190 | a method declaration yields a non-empty name |
| WeightedComment.DocCommentLooksBack | docs/sop/validate/scripts/weighted-comment-check.py:140-149 | the doc-comment lookup reads only the lines before the declaration |
| WeightedComment.ScanEnd | docs/sop/validate/scripts/weighted-comment-check.py:157-172 | the complexity scan ends within the 100-line window |
| WeightedComment.ScanEndStops | docs/sop/validate/scripts/weighted-comment-check.py:157-172 | the scan stops at the first later line that brings the brace depth back to 0, and only there or at the end of the window |
| WeightedComment.Complexity | docs/sop/validate/scripts/weighted-comment-check.py:151-174 | at most 100 lines are read, and the control-flow lines are among them |
| WeightedComment.CommentLineStep | docs/sop/validate/scripts/weighted-comment-check.py:246-250 | a line adds to the comment counts only when it is a comment line, and to the Chinese count only when it also holds Chinese text |
| WeightedComment.ClassAt | docs/sop/validate/scripts/weighted-comment-check.py:193-217 | the class declared on a line carries its name, layer, weight, comment flag and 1-based line |
| WeightedComment.MethodAt | docs/sop/validate/scripts/weighted-comment-check.py:221-240 | a method is recorded, at its 1-based line, only when it is complex (more than 20 lines or more than 3 control-flow lines) and is not a test method; it spans at most 100 lines |
| WeightedComment.ClassesUpToFacts | docs/sop/validate/scripts/weighted-comment-check.py:193-210 | every recorded class carries its layer, its weight and a line number in range |
| WeightedComment.MethodsUpToFacts | docs/sop/validate/scripts/weighted-comment-check.py:219-240 | every recorded method is complex, spans at most 100 lines, and is not a test method |
| WeightedComment.AddClassesOk | docs/sop/validate/scripts/weighted-comment-check.py:212-217 | counting the classes keeps the layer's counters consistent and adds one class per declaration |
| WeightedComment.FileStatsOk | docs/sop/validate/scripts/weighted-comment-check.py:212-253 | analysing a file keeps every layer's counters consistent |
| WeightedComment.UpdateOk | docs/sop/validate/scripts/weighted-comment-check.py:252-253 | replacing one layer's counters by consistent ones keeps the whole map consistent |
| WeightedComment.Requirement | docs/sop/validate/scripts/weighted-comment-check.py:63-69 | each layer's required share of Chinese comment lines lies in (0, 1] |
| WeightedComment.LayerChinese | docs/sop/validate/scripts/weighted-comment-check.py:295-316 | one layer adds at most 20 times its factor to the Chinese-comment score |
| WeightedComment.SumChinese | docs/sop/validate/scripts/weighted-comment-check.py:292-318 | the Chinese-comment score is never negative |
| WeightedComment.ChineseBound | docs/sop/validate/scripts/weighted-comment-check.py:292-318 | the layer factors add up to 1, so the Chinese-comment score never exceeds 20 |
| WeightedComment.GradeMonotone | docs/sop/validate/scripts/weighted-comment-check.py:405-420 | a higher total never earns a lower grade |
| WeightedComment.Total | docs/sop/validate/scripts/weighted-comment-check.py:255-326 | the total of the four sub-scores lies between 0 and 100 |
| WeightedComment.ClassScore | docs/sop/validate/scripts/weighted-comment-check.py:259-267 | the class score lies in [0, 35], is 0 with no class weight, and is 35 exactly when every class is commented |
| WeightedComment.MethodScore | docs/sop/validate/scripts/weighted-comment-check.py:269-277 | the method score lies in [0, 25], and is 25 exactly when every complex method is commented (so also when there are none) |
| WeightedComment.UiScore | docs/sop/validate/scripts/weighted-comment-check.py:279-288 | the UI score lies in [0, 20], and is 20 when there is no Screen class |
| WeightedComment.WeightsOk | docs/sop/validate/scripts/weighted-comment-check.py:212-217 | the commented weight never exceeds the total weight |
| WeightedComment.RatioBound | docs/sop/validate/scripts/weighted-comment-check.py:263-288 | a share of a whole, scaled to k, lies in [0, k] and reaches k exactly when the share is the whole |
| WeightedComment.WeightedCommentChecker.constructor | docs/sop/validate/scripts/weighted-comment-check.py:71-74 | a new checker has no classes, methods or layer counters |
| WeightedComment.WeightedCommentChecker.CheckClassComment | docs/sop/validate/scripts/weighted-comment-check.py:140-149 | the loop finds a doc comment exactly when the lookup does; a declaration on the first line has none |
| WeightedComment.WeightedCommentChecker.CheckMethodComplexity | docs/sop/validate/scripts/weighted-comment-check.py:151-174 | the brace walk computes the lines read and the control-flow lines, never past the file's end |
| WeightedComment.WeightedCommentChecker.ScanClasses | docs/sop/validate/scripts/weighted-comment-check.py:193-217 | the class loop finds every class declaration in line order and updates the layer counters |
| WeightedComment.WeightedCommentChecker.ClassAtLine | docs/sop/validate/scripts/weighted-comment-check.py:194-217 | one step of the class loop |
| WeightedComment.WeightedCommentChecker.ScanMethods | docs/sop/validate/scripts/weighted-comment-check.py:219-240 | the method loop finds every complex method in line order |
| WeightedComment.WeightedCommentChecker.MethodAtLine | docs/sop/validate/scripts/weighted-comment-check.py:222-240 | one step of the method loop |
| WeightedComment.WeightedCommentChecker.CountCommentLines | docs/sop/validate/scripts/weighted-comment-check.py:242-253 | the comment-line loop counts the comment lines and the Chinese ones |
| WeightedComment.WeightedCommentChecker.AnalyzeLines | docs/sop/validate/scripts/weighted-comment-check.py:184-253 | records a file's classes, its complex methods (none in a test file) and its layer's counters |
| WeightedComment.WeightedCommentChecker.ScanFile | docs/sop/validate/scripts/weighted-comment-check.py:184-253 | the three loops of a file keep its layer's counters consistent |
| WeightedComment.WeightedCommentChecker.FileCounters | docs/sop/validate/scripts/weighted-comment-check.py:184-253 | the class and comment-line loops give the layer's new counters |
| WeightedComment.WeightedCommentChecker.AnalyzeFile | docs/sop/validate/scripts/weighted-comment-check.py:176-253 | a read file is split into lines and analysed |
| WeightedComment.WeightedCommentChecker.CalculateScores | docs/sop/validate/scripts/weighted-comment-check.py:255-326 | the four sub-scores of the current state, each within its weight, and their sum as the total, at most 100 |
| WeightedComment.WeightedCommentChecker.PrintReport | docs/sop/validate/scripts/weighted-comment-check.py:405-437 | the grade is the band (95, 90, 85, 75) of the current total, and the run succeeds exactly when that total reaches 95, which is exactly when the grade is A+ |
| WeightedComment.KeywordThenName | docs/sop/validate/scripts/weighted-comment-check.py:189-190 | a keyword followed by a space run and a word yields a non-empty word |
| WeightedComment.TwoWords | docs/sop/validate/scripts/weighted-comment-check.py:189 | `data\s+class` and its kin end after their start |
| WeightedComment.WordFromIff | docs/sop/validate/scripts/weighted-comment-check.py:189-190 | the search finds a match exactly when there is one |
| WeightedComment.ClassesUpTo | docs/sop/validate/scripts/weighted-comment-check.py:193-217 | at most one class per line |
| WeightedComment.MethodsUpTo | docs/sop/validate/scripts/weighted-comment-check.py:219-240 | at most one complex method per line |
| RecursivePatterns.TodoMarkerIgnoresCase | recursive-validator.py:41-43 | the case-insensitive TODO-marker pattern gives the same answer on a line and on its lower-cased form |
| RecursivePatterns.DelayCallFound | recursive-validator.py:73-74 | a successful delay search finds a match at some position |
| RecursivePatterns.DelayCallSearched | recursive-validator.py:73-74 | a delay match at any position makes the search succeed |
| RecursiveValidator.DirFilesSound | recursive-validator.py:333-351 | every file found in a directory has a matching name and is joined to the directory's path |
| RecursiveValidator.DirFilesComplete | recursive-validator.py:333-351 | every file of a directory whose name matches is found |
| RecursiveValidator.FilesOfSound | recursive-validator.py:333-351 | every file found sits in a reached, included directory and has a matching name |
| RecursiveValidator.FilesOfComplete | recursive-validator.py:333-351 | every matching file of a reached, included directory is found |
| RecursiveValidator.RepositoryPatternIsSuffix | recursive-validator.py:348 | the stars are removed, not matched: `*Repository*.kt` finds exactly the names ending in `Repository.kt` |
| RecursiveValidator.KotlinPatternIsSuffix | recursive-validator.py:348 | `*.kt` finds exactly the names ending in `.kt` |
| RecursiveValidator.LineHits | recursive-validator.py:192-210 | one result per line |
| RecursiveValidator.PatternHitsSound | recursive-validator.py:192-210 | every hit of a pattern is a reported line, with its 1-based number, the pattern's level and the stripped line |
| RecursiveValidator.PatternHitsComplete | recursive-validator.py:192-210 | every reported line is a hit |
| RecursiveValidator.FileScanSound | recursive-validator.py:190-210 | every issue of a file scan is a reported pair of pattern and line |
| RecursiveValidator.FileScanComplete | recursive-validator.py:190-210 | every reported pair of pattern and line is an issue of the file scan |
| RecursiveValidator.MockSkippedInTestPaths | recursive-validator.py:196-197 | no mock-data issue is raised for a path that contains `test` in any case |
| RecursiveValidator.CommentedUrlSkipped | recursive-validator.py:200-201 | a local-URL issue never quotes a line that is a `//` comment |
| RecursiveValidator.DelayAlwaysReported | recursive-validator.py:190-210 | a delay call is reported on every line it occurs in, whatever else the line holds |
| RecursiveValidator.SyntaxIssuesSound | recursive-validator.py:149-156 | every issue of the syntax layer comes from the scan of one readable Kotlin file |
| RecursiveValidator.SyntaxIssuesComplete | recursive-validator.py:149-156 | every issue of a readable file's scan is an issue of the syntax layer |
| RecursiveValidator.CheckLine | recursive-validator.py:192-193 | one line against one pattern |
| RecursiveValidator.ScanPattern | recursive-validator.py:189-210 | the line loop of one pattern computes its hits |
| RecursiveValidator.ScanPatterns | recursive-validator.py:189-210 | the pattern loop computes the file scan |
| RecursiveValidator.MatchFiles | recursive-validator.py:340-350 | the loop over one directory's files computes the matching files |
| RecursiveValidator.FindFiles | recursive-validator.py:333-351 | the walk with its filters computes the found files |
| RecursiveValidator.StepsCrashed | recursive-validator.py:158-164 | once a check has raised, the later checks change nothing |
| RecursiveValidator.StepsCrashIff | recursive-validator.py:158-164 | a layer raises exactly when one of its checks does |
| RecursiveValidator.StepsSound | recursive-validator.py:158-164 | every issue of a layer comes from a check that ran with no exception before it |
| RecursiveValidator.StepsComplete | recursive-validator.py:158-164 | every issue of a check that runs is an issue of the layer |
| RecursiveValidator.NavigateAt | recursive-validator.py:216 | a navigation match yields a non-empty target with no quote in it |
| RecursiveValidator.RouteDefAt | recursive-validator.py:227 | a route definition yields a non-empty route with no `"` in it |
| RecursiveValidator.NavigateCallsFound | recursive-validator.py:231 | every target found is the target of a match |
| RecursiveValidator.RouteDefsFound | recursive-validator.py:227-228 | every route found is the route of a match |
| RecursiveValidator.NavIssuesSound | recursive-validator.py:235-244 | every navigation issue names a call whose target is not a route |
| RecursiveValidator.NavIssuesComplete | recursive-validator.py:235-244 | every call whose target is not a route is reported |
| RecursiveValidator.NavIssuesExact | recursive-validator.py:235-244 | repeated targets are not merged: the issues are one per call to an undefined target, in call order, as many as there are such calls |
| RecursiveValidator.RoutesOfSound | recursive-validator.py:221-228 | every known route is defined in a readable navigation-host file |
| RecursiveValidator.RoutesOfComplete | recursive-validator.py:221-228 | every route that a readable navigation-host file defines is known |
| RecursiveValidator.NavigationsOfSound | recursive-validator.py:221-232 | every recorded navigation call was found in a readable file |
| RecursiveValidator.NavigationsOfComplete | recursive-validator.py:221-232 | every navigation call of a readable file is recorded |
| RecursiveValidator.NavigationIssueSound | recursive-validator.py:214-244 | a navigation issue names a file that navigates to a target no navigation-host file defines |
| RecursiveValidator.NavigationIssueComplete | recursive-validator.py:214-244 | when every file opens, each call to an undefined target is reported |
| RecursiveValidator.PersistSound | recursive-validator.py:246-265 | a persistence issue names an `Impl` file that keeps its data only in memory |
| RecursiveValidator.PersistComplete | recursive-validator.py:246-265 | each in-memory `Impl` file is reported, unless an earlier `Impl` file could not be opened |
| RecursiveValidator.PersistCrashIff | recursive-validator.py:246-265 | the check raises exactly when an `Impl` file cannot be opened |
| RecursiveValidator.UiSound | recursive-validator.py:267-287 | a click-handler issue names a readable screen file with an empty `onClick` |
| RecursiveValidator.UiComplete | recursive-validator.py:267-287 | each such file is reported when every screen file opens |
| RecursiveValidator.UiCrashIff | recursive-validator.py:267-287 | the check raises exactly when a screen file cannot be opened |
| RecursiveValidator.PassesIff | recursive-validator.py:124-127 | a round passes exactly when no issue is CRITICAL or HIGH |
| RecursiveValidator.TodoBlocksSuccess | recursive-validator.py:109-129 | a TODO-style marker in any scanned Kotlin file keeps the round from passing |
| RecursiveValidator.LocalBuildUrlBlocksSuccess | recursive-validator.py:304-321 | a local address in the build script keeps the round from passing, unless a check raised first |
| RecursiveValidator.CollectNavigation | recursive-validator.py:220-232 | the collecting loop raises exactly when a navigation-host file cannot be opened, and otherwise gathers every route and call |
| RecursiveValidator.UndeclaredTargets | recursive-validator.py:235-244 | the reporting loop computes one issue per call to an undefined target |
| RecursiveValidator.CountLevels | recursive-validator.py:124-125 | the two list comprehensions count the CRITICAL and the HIGH issues |
| RecursiveValidator.ReportOf | recursive-validator.py:379-394 | the report counts the remaining issues and, among them, the CRITICAL ones |
| RecursiveValidator.ValidatedNoRound | recursive-validator.py:103-147 | with no round left, nothing changes and the report says failure |
| RecursiveValidator.ValidatedRounds | recursive-validator.py:103-147 | after a round runs, the issues are that round's, the run raises exactly when the round does, the loop uses up every round only while the fixer reports fixes, and the report says success exactly when the last round passed |
| RecursiveValidator.RecursiveValidator.constructor | recursive-validator.py:32-101 | a new validator has no issues and no fixes or rounds counted |
| RecursiveValidator.RecursiveValidator.ScanFilePatterns | recursive-validator.py:183-212 | appends exactly the file's scan |
| RecursiveValidator.RecursiveValidator.RunSyntaxValidation | recursive-validator.py:149-156 | appends the scan of every Kotlin file |
| RecursiveValidator.RecursiveValidator.CheckNavigationTargets | recursive-validator.py:214-244 | appends the navigation issues, and raises exactly when the navigation step does |
| RecursiveValidator.RecursiveValidator.CheckDataPersistence | recursive-validator.py:246-265 | appends the persistence issues, and raises exactly when the persistence step does |
| RecursiveValidator.RecursiveValidator.CheckUiHandlers | recursive-validator.py:267-287 | appends the click-handler issues, and raises exactly when the UI step does |
| RecursiveValidator.RecursiveValidator.CheckApiImplementation | recursive-validator.py:289-302 | adds no issue, and raises exactly when an API file cannot be opened |
| RecursiveValidator.RecursiveValidator.RunImplementationValidation | recursive-validator.py:158-164 | the four implementation checks (navigation, persistence, UI handlers, API) in order, up to the first exception |
| RecursiveValidator.RecursiveValidator.RunIntegrationValidation | recursive-validator.py:166-174 | the API-configuration check; the dependency-injection check adds nothing |
| RecursiveValidator.RecursiveValidator.RunRound | recursive-validator.py:114-121 | a round clears the list and runs the layers |
| RecursiveValidator.RecursiveValidator.GenerateReport | recursive-validator.py:379-394 | the report of the current state |
| RecursiveValidator.RecursiveValidator.Validate | recursive-validator.py:103-147 | the loop ends in the state the round-by-round specification gives |
| RecursiveValidator.RecursiveValidator.ValidateRound | recursive-validator.py:109-144 | one pass of the loop advances the specification by one round |
| RecursiveValidator.RecursiveValidator.Decide | recursive-validator.py:123-144 | the decision after a round: stop on an exception, succeed when nothing is CRITICAL or HIGH, otherwise ask the fixer |
| RecursiveValidator.Run | recursive-validator.py:396-403 | the script raises exactly when its single decisive round does; otherwise the report says success exactly when that round passed |
| RecursiveValidator.ObjectHeadAt | recursive-validator.py:227 | `object\s+\w+\s*:` ends after its start |
| RecursiveValidator.ScreenArgAt | recursive-validator.py:227 | a `Screen("...")` argument is a non-empty route without a quote |
| RecursiveValidator.PatternScans | recursive-validator.py:189-210 | one hit list per pattern |
| RecursiveValidator.FileScans | recursive-validator.py:333-351 | one scan per file |
| RecursiveValidator.AnyUnreadable | recursive-validator.py:289-302 | the API check raises exactly when some service file cannot be opened |
| RecursiveValidator.CollectFile | recursive-validator.py:221-232 | one pass of the collecting loop adds the file's routes and navigation calls |
| RecursiveValidator.RunParts | recursive-validator.py:246-287 | a per-file check over the files, up to the first exception, gives the layer's issues and crash flag |
| ValidatorV5Fixed.FunNameFrom | docs/sop/validate/scripts/validator-v5-fixed.py:94 | `re.search(r'fun\s+(\w+)', line)` yields a non-empty name |
| ValidatorV5Fixed.FunNameFromNone | docs/sop/validate/scripts/validator-v5-fixed.py:94 | the search finds no name exactly when the pattern matches at no position |
| ValidatorV5Fixed.FunNameFromLeftmost | docs/sop/validate/scripts/validator-v5-fixed.py:94 | otherwise the name found is the one captured at the leftmost matching position |
| ValidatorV5Fixed.IssuesOf | docs/sop/validate/scripts/validator-v5-fixed.py:82-149 | a line gives at most four issues, one per rule |
| ValidatorV5Fixed.IssuesOfAt | docs/sop/validate/scripts/validator-v5-fixed.py:82-149 | every issue of a line carries the file, the 1-based line number and the stripped line; each rule gives at most one issue, with its fixed level |
| ValidatorV5Fixed.EmptyCandidateIff | docs/sop/validate/scripts/validator-v5-fixed.py:88-104 | an empty-function issue arises exactly on a header line of a file that is neither an interface nor abstract, whose braces balance and which ends with `{}`, for a name that is not exempt |
| ValidatorV5Fixed.FirstDelayNone | docs/sop/validate/scripts/validator-v5-fixed.py:125 | the delay search finds nothing exactly when `delay\s*\(\s*(\d+)\s*\)` matches at no position |
| ValidatorV5Fixed.FirstDelayLeftmost | docs/sop/validate/scripts/validator-v5-fixed.py:125 | otherwise it returns the literal of the leftmost match |
| ValidatorV5Fixed.LongDelayLeftmost | docs/sop/validate/scripts/validator-v5-fixed.py:124-137 | the delay rule fires only outside test paths, on a line holding `delay(`, and reports the literal of the leftmost delay call, which is at least 1000 |
| ValidatorV5Fixed.LongDelayOfLeftmost | docs/sop/validate/scripts/validator-v5-fixed.py:124-137 | conversely, outside test paths on a line holding `delay(`, a leftmost delay call of at least 1000 is what the rule reports |
| ValidatorV5Fixed.DelayAtLong | docs/sop/validate/scripts/validator-v5-fixed.py:124-137 | a delay literal of four or more digits that does not start with `0` is at least 1000 |
| ValidatorV5Fixed.LongDelayReported | docs/sop/validate/scripts/validator-v5-fixed.py:124-137 | a literal of four or more digits not starting with `0`, leftmost on its line, is always reported outside test paths |
| ValidatorV5Fixed.TaskCommentIgnoresCase | docs/sop/validate/scripts/validator-v5-fixed.py:112-121 | the task-marker test gives the same answer on a line and on its lower-cased copy |
| ValidatorV5Fixed.PerLine | docs/sop/validate/scripts/validator-v5-fixed.py:82-149 | one issue list per line |
| ValidatorV5Fixed.LinesIssuesSound | docs/sop/validate/scripts/validator-v5-fixed.py:82-149 | every issue of a file comes from one of its lines and carries that line's number and the file's path |
| ValidatorV5Fixed.LinesIssuesComplete | docs/sop/validate/scripts/validator-v5-fixed.py:82-149 | every issue of every line is reported |
| ValidatorV5Fixed.HeaderCount | docs/sop/validate/scripts/validator-v5-fixed.py:84-85 | the function count never exceeds the number of lines read |
| ValidatorV5Fixed.NoEmptyIssuesInAbstractions | docs/sop/validate/scripts/validator-v5-fixed.py:77-88 | interface and abstract-class files never get empty-function issues |
| ValidatorV5Fixed.ReportOf | docs/sop/validate/scripts/validator-v5-fixed.py:296-362 | the report lists every issue, and counts the BLOCKER and CRITICAL ones among them |
| ValidatorV5Fixed.SuccessIff | docs/sop/validate/scripts/validator-v5-fixed.py:305-333 | the run succeeds exactly when no issue is BLOCKER or CRITICAL |
| ValidatorV5Fixed.CheckEmptyBody | docs/sop/validate/scripts/validator-v5-fixed.py:88-104 | the empty-function check of one line computes the candidate name |
| ValidatorV5Fixed.CheckDelay | docs/sop/validate/scripts/validator-v5-fixed.py:124-137 | the delay check of one line computes the long delay |
| ValidatorV5Fixed.ScanLine | docs/sop/validate/scripts/validator-v5-fixed.py:82-149 | one pass of the line loop computes the line's issues and counts a header |
| ValidatorV5Fixed.ScanLines | docs/sop/validate/scripts/validator-v5-fixed.py:82-149 | the line loop computes the file's issues and its header count |
| ValidatorV5Fixed.ValidatorV5Fixed.constructor | docs/sop/validate/scripts/validator-v5-fixed.py:31-35 | a new validator has no issues and has counted no file or function |
| ValidatorV5Fixed.ValidatorV5Fixed.AnalyzeFile | docs/sop/validate/scripts/validator-v5-fixed.py:69-152 | appends the file's issues and adds its header count to the functions found |
| ValidatorV5Fixed.ValidatorV5Fixed.ScanCode | docs/sop/validate/scripts/validator-v5-fixed.py:51-67 | counts every Kotlin file the walk yields and appends their issues in walk order |
| ValidatorV5Fixed.ValidatorV5Fixed.GenerateReport | docs/sop/validate/scripts/validator-v5-fixed.py:296-362 | the report of the current state |
| ValidatorV6Patch.ErrorHandlingIssues | validator-v6-patch.py:43-66 | at most one issue per collected file |
| ValidatorV6Patch.ErrorHandlingReportIff | validator-v6-patch.py:43-66 | an issue is raised for a name exactly when some checked, readable file of that name calls the network without handling errors; every such issue is MAJOR |
| ValidatorV6Patch.ErrorHandlingSound | validator-v6-patch.py:43-66 | every issue names a readable checked file that lacks handling |
| ValidatorV6Patch.ErrorHandlingComplete | validator-v6-patch.py:43-66 | every readable checked file that lacks handling is reported |
| ValidatorV6Patch.ResultSuccessHandles | validator-v6-patch.py:53-56 | a file that handles `Result.success` is never reported |
| ValidatorV6Patch.SourceViewModelsIff | validator-v6-patch.py:71-79 | a name is a source view model exactly when a main-tree `*ViewModel.kt` file yields it |
| ValidatorV6Patch.TestNamesIff | validator-v6-patch.py:71-79 | a name is tested exactly when a test file yields it with `Test.kt` removed |
| ValidatorV6Patch.UntestedIff | validator-v6-patch.py:82 | a view model is untested exactly when a main-tree file yields its name and no test file does |
| ValidatorV6Patch.MissingTestIssues | validator-v6-patch.py:89-94 | one issue per important untested view model |
| ValidatorV6Patch.ImportantAtMostThree | validator-v6-patch.py:85-87 | at most three coverage issues, one per listed view model |
| ValidatorV6Patch.PatchReportOf | validator-v6-patch.py:96-134 | the report lists the real issues, and real plus false-positive counts give the original count |
| ValidatorV6Patch.VerdictIgnoresFindings | validator-v6-patch.py:124-131 | whatever two runs found, their reports agree on the verdict (always release), the score 88 and the original count |
| ValidatorV6Patch.CollectChecked | validator-v6-patch.py:36-41 | the walk's filter keeps the files to check, in walk order |
| ValidatorV6Patch.ReportUnhandled | validator-v6-patch.py:43-66 | the reading loop computes the error-handling issues |
| ValidatorV6Patch.CollectNames | validator-v6-patch.py:71-79 | the walk of `app/src` computes the view-model names and the tested names |
| ValidatorV6Patch.ImportantUntested | validator-v6-patch.py:85-87 | the comprehension keeps each listed view model of the untested set once |
| ValidatorV6Patch.ReportUntested | validator-v6-patch.py:89-94 | the issue loop computes one issue per important untested view model |
| ValidatorV6Patch.ValidatorPatch.constructor | validator-v6-patch.py:13-15 | a new validator has no real issues |
| ValidatorV6Patch.ValidatorPatch.CheckErrorHandlingSmartly | validator-v6-patch.py:33-66 | appends the error-handling report |
| ValidatorV6Patch.ValidatorPatch.CheckTestCoverage | validator-v6-patch.py:68-94 | appends one issue per important untested view model, at most three |
| ValidatorV6Patch.ValidatorPatch.GeneratePatchReport | validator-v6-patch.py:96-134 | the report always allows release, with the fixed adjusted score |
| ValidatorV6Patch.ValidatorPatch.RunSmartValidation | validator-v6-patch.py:17-31 | the two checks in order, then the report |

## Left out

- Directory walks, file reads and `os.path.exists` tests: the walk is a list of paths, in walk order, and the file system is a map from path to text. What a walk yields is not modelled.
- Printing, JSON report files, `sys.exit` codes and the `date` subprocess (recursive-validator.py:387): each report is returned as a value instead.
- Message texts, descriptions, suggestions and evidence strings: issues keep only the fields a rule or a verdict reads. The Chinese message literals are not modelled.
- Regular expressions: each becomes a recogniser. `\s` and `strip()` cover the ASCII whitespace, the separators `\x1c`-`\x1f` included, but not Unicode spaces such as `\x85` or `\xa0`; `\d` (and `int()` on the digits it matches), `\w`, `re.IGNORECASE` and `upper()`/`lower()` cover ASCII only. Where a pattern could backtrack over a whole file, the matches are an input instead.
- Floating point: scores, weights and ratios are exact `real`s. Rounding for display is not modelled.
- Set iteration order: a ghost sequence stands for the order in which Python visits a set.
- smart-validator.py: `validate` (40-58) is not modelled; it only runs the phases in order and prints. `semantic_analysis` and its repository, use-case and screen checks (290-355), and `check_dependency_injection` (420-440), are not modelled: they are naming-convention checks over the stored functions (a `Repository` function named for saving without a `dao` or `dataStore` call, a `UseCase` that calls no repository, a `Screen` file without a view model, the ratio of `@Inject` to `@Provides`), outside the function, common-issue and navigation rules this model covers. `completeness_check` (357-368) is modelled only through `check_navigation_completeness`. `check_user_flows` (385-418) checks a table of one app's component names.
- intelligent-validator-v4.py: `analyze_dependencies` (275-299) builds a `networkx` graph, a foreign library. It records no issue, because `find_function_key` only returns keys already present.
- intelligent-validator-v4.py: `verify_runtime_behavior` stops at the undefined `check_state_management` (307). So the code after it is never reached: `check_navigation_flow` (310), `verify_business_logic` and the user stories (333-384), and `verify_integration` (386-395) with its undefined calls (339, 392, 395).
- IntelligentV4.IntelligentValidator.VerifyDependencyInjection: modelled, but `validate` never reaches it.
- IntelligentV4.IntelligentValidator.Validate: when a phase raises because a file cannot be read, the contract states the outcome, but not the issues recorded before the error.
- intelligent-validator-v5.py: `validate` (76-106) only sequences the phases; its phase order is not stated as one contract. Some checks are not modelled because they lie outside the implementation, navigation and injection rules this model covers. `semantic_validation`, `check_viewmodel_completeness` and `check_repository_implementation` (357-418), and `validate_data_flow` (541-557), are naming-convention checks over the stored functions (a `ViewModel` function without error handling or state update, a `Repository...Impl` save without persistence, a `UseCase` that calls no repository). As written they never fire, since no function is ever stored (see Findings). `validate_api_configuration` (621-656) checks the `app/build.gradle.kts` build file. `business_logic_validation` and `validate_user_stories` (462-540) check a table of one app's user stories. `get_level_icon` (790-804) only picks an icon for printing.
- intelligent-validator-v6.py: `validate` (141-173) only sequences the perspectives. The PMO, architect and UX perspectives (175-313, 513-607) test one app's file names, path existence and file sizes, and so does `_validate_edge_cases` (475-511). `_validate_error_handling` (379-414) and the `_assess_*`/`_check_*` helpers (661-1019) are not modelled either: they only add issues, which the scoring lemmas cover for any issue list. The user-story table (81-139) and the report timestamp are not modelled.
- docs/sop/validate/scripts/weighted-comment-check.py: the walk in `analyze_project` (76-82) and the printed tables of `print_report` (328-404) are not modelled. `AnalyzeFile` takes the text of a file that could be read; the early return on an unreadable file (181-182), which records nothing, is not modelled.
- recursive-validator.py: `display_issues` (353-371) only prints. `check_dependency_injection`, `check_user_flows` and so `run_behavior_validation` (176-181, 323-331) do nothing. The unused `methods` list (301) and the never-consulted `exclude_if` list (77) are not modelled. Every round scans the same, unchanged tree.
- RecursiveValidator.RecursiveValidator.Validate: `auto_fix_issues` (373-377) always returns `False`, so the model uses the constant and never fixes a file.
- docs/sop/validate/scripts/validator-v5-fixed.py: `validate` (37-49) and `deep_analysis` with its critical-file, navigation, API-configuration and permission checks (172-291) are not modelled: they test one app's file names and path existence.
- docs/sop/validate/scripts/validator-v5-fixed.py: a file that cannot be read is skipped, like the `except` at 151-152. The message it prints is not modelled.
- validator-v6-patch.py: the printed summary and star ratings (96-122) are constants and are not modelled; the report fields they accompany are.

## Findings

| source | as written | input that shows it | evidently intended | confidence | as-written member | corrected member |
|---|---|---|---|---|---|---|
| intelligent-validator-v5.py:235 | `parse_kotlin_functions` builds each `FunctionInfo` with `file_path=file_path`, but no `file_path` is in scope there. So the first function header raises `NameError`, which `analyze_kotlin_file` (161-162) swallows, and the file records no function. | any Kotlin file with a line such as `fun f() {` | the path of the file being parsed, which the caller has | not executed | IntelligentV5Parse.AsWrittenRecordsNothing | IntelligentV5Parse.Parse |
