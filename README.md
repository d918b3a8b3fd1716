# A Dafny model of the WPS contract-formatting add-in

The add-in runs inside WPS/Word. It turns AI-generated JSON into checked, ordered edits on a
document, and it turns a contract into a fill-in form of content controls.

The formatting pipeline has four stages. The **compiler** recovers a command plan from the
model's text. The **five-phase validator** checks the plan against the **skill registry**. The
**execution engine** runs each command through the layer skills (structure detection, text and
paragraph, page and section, table, content editing). The **comparison log** records what
changed. Around that pipeline sit several other parts:
- the chat pane's session and retry logic;
- keyword intent routing;
- the runtime configuration;
- the store of skill candidates learned from successful custom code;
- on the form side, the AI-output parser and checker;
- the local bridge that normalises what the chat-completion API returns;
- document chunking and variable de-duplication;
- the add-in's task pane (pinyin tags, the unfilled-field checker, batch embedding);
- the WPS adapter's action queue and its search-based placement of content controls.

One Dafny module models each source file, in the form the source takes:
- Pure logic becomes datatypes, functions and lemmas.
- Loops become methods with invariants, proved against a specification function.
- Objects whose fields change become classes with `modifies` clauses. These are the
  structure cache, the action-queue statistics, the comparison log, the chat session, the
  candidate store, the configuration store, the tag set, the add-in's task pane, the checker, the
  table and the document.

The document host, `JSON.parse`, `parseFloat`, `new Date`, the host's text search and the
network are never called. Each is either a parameter (an oracle) or outside the model. Shared
modules:
- `Wrappers`: Option and Result;
- `Text`: string helpers, with ASCII-only case folding;
- `JsonValue`: a JSON or JavaScript value with truthiness and own-property lookup;
- `Seqs`: folds, maps and distinctness.

## Model

| member | source | states |
|---|---|---|
| Text.IntRoundTrip | format-validator.js:161 | `Number` reads the decimal string of every integer back as that integer, so a numeric-string operand compares by its value |
| Text.FractionRead | skills/layer2-text-paragraph.js:206 | `Number` reads a one-digit decimal fraction such as `"1.5"` as its value |
| Text.WordIsNaN | runtime-config.js:48 | a string that starts with a letter after its blanks reads as NaN, so it compares false both ways |
| Text.StringLessIrreflexive | ai-skill.js:273 | `<` on two strings never holds between a string and itself |
| Text.StringLessTransitive | ai-skill.js:273 | `<` on strings, first differing code point decides and a proper prefix is smaller, is transitive |
| JsonValue.JsLessOrder | ai-skill.js:273 | `<` on values is irreflexive, and transitive on values that are all strings or all not strings |
| FormatCompiler.FirstOpenFence | format-compiler.js:65 | the leftmost position at or after `from` where the opening fence pattern `^```json\s*\n?` (multiline) matches, or none when it matches nowhere |
| FormatCompiler.LastTerminatorIn | format-compiler.js:65 | the last line terminator inside a range, where the trailing `\s*$` of the closing-fence pattern backs off to |
| FormatCompiler.FirstCloseFence | format-compiler.js:65 | the leftmost position where the closing fence pattern `\n?```\s*$` (multiline) matches, with the end of that match |
| FormatCompiler.FirstCloseFenceFrom | format-compiler.js:65 | a position where the closing fence matches, with no match before it, is the one found |
| FormatCompiler.FencedBodyRecovered | format-compiler.js:65 | stripping the fences from "```json\n" + body + "\n```" gives back the body when it starts with a non-blank and holds no backtick |
| FormatCompiler.GreedySlice | format-compiler.js:69 | `/\{[\s\S]*\}/` yields a slice that begins with `{` and ends with `}` |
| FormatCompiler.FindBalancedEnd | format-compiler.js:77-95 | the inner scan loop from a `{` returns exactly the position the depth/inString/escaped automaton closes at |
| FormatCompiler.StringSkipped | format-compiler.js:83-89 | a double-quoted string is skipped as a unit: the braces in it do not count and an escaped quote does not end it |
| FormatCompiler.ScanEndIsClosingBrace | format-compiler.js:90-93 | a balanced end, when found, is a `}` after the opening brace |
| FormatCompiler.ScanFromClosing | format-compiler.js:90-93 | with depth at least 1 the scan can only stop on a `}` at or after where it started |
| FormatCompiler.ScanCandidateAt | format-compiler.js:75-95 | the scan offers at most one slice per start position, and that slice is brace-delimited |
| FormatCompiler.ScanCandidatesBraced | format-compiler.js:75-95 | every slice the brace scan offers begins with `{` and ends with `}` |
| FormatCompiler.FirstParseIsFirst | format-compiler.js:75-96 | the scan fails exactly when every candidate is rejected by the parser; otherwise it returns the parse of a candidate all of whose predecessors were rejected |
| FormatCompiler.AttemptJsonFix | format-compiler.js:61-99 | `_attemptJsonFix` returns the fence-stripped parse, else the greedy-slice parse, else the first brace-scan candidate that parses, else null |
| FormatCompiler.ScanForObject | format-compiler.js:75-98 | the outer scan loop returns the first candidate that parses, abandoning a start whose balanced slice fails |
| FormatCompiler.FirstParseAfterFailures | format-compiler.js:93 | candidates the parser rejects do not change which later candidate is accepted |
| FormatCompiler.CleanedTriedFirst | format-compiler.js:65-66 | a fence-stripped text that parses wins over every slice |
| FormatCompiler.BuildCommand | format-compiler.js:35-43 | a command gets `cmd_{i+1}` when its id is falsy, `{}` params when falsy, its skill as description when falsy, and `_index = i`; a null raw command throws |
| FormatCompiler.BuildAll | format-compiler.js:35-43 | the `map` succeeds exactly when no raw command is null, and then yields one built command per raw command, in order |
| FormatCompiler.SizeValue | format-compiler.js:108-113 | a string size becomes the table value if present, else its non-zero parseFloat value, else 12 |
| FormatCompiler.NormalizeSizeKey | format-compiler.js:108-113 | one size line obeys its rule and changes no other key |
| FormatCompiler.NormalizeFontKey | format-compiler.js:116-124 | one font line obeys its rule and changes no other key |
| FormatCompiler.SizeKeysFrame | format-compiler.js:108-113 | the size lines leave every key outside their list alone |
| FormatCompiler.FontKeysFrame | format-compiler.js:116-124 | the font lines leave every key outside their list alone |
| FormatCompiler.SizeKeysRule | format-compiler.js:108-113 | with distinct keys, each size key ends up obeying its rule after all the lines have run |
| FormatCompiler.FontKeysRule | format-compiler.js:116-124 | with distinct keys, each font key ends up obeying its rule after all the lines have run |
| FormatCompiler.UnitKeysDistinct | format-compiler.js:108-124 | the five normalised keys are pairwise different |
| FormatCompiler.NormalizeUnits | format-compiler.js:104-125 | `_normalizeUnits` keeps object params objects and leaves non-object params unchanged |
| FormatCompiler.UnitsSizes | format-compiler.js:108-113 | after `_normalizeUnits`, a string `fontSize`/`size` is a point value and a non-string size is untouched |
| FormatCompiler.UnitsFonts | format-compiler.js:116-124 | `zhFont`/`enFont`/`fontName` are replaced exactly when the name is a key of FONT_NAME_MAP |
| FormatCompiler.UnitsOtherKeys | format-compiler.js:104-125 | every other parameter is left as it was |
| FormatCompiler.NormalizeTarget | format-compiler.js:130-148 | exempt skills keep their params, an existing truthy target is kept, and any other command with object params gets `{type:'document'}` with no other key changed; id, skill, description and index never change |
| FormatCompiler.CommandItems | format-compiler.js:35 | `parsed.commands \|\| []` throws on null parsed output |
| FormatCompiler.NormalizeCommands | format-compiler.js:46-49 | the in-place loop normalises every command in order, stopping at the first throw |
| FormatCompiler.Compile | format-compiler.js:21-56 | `compile` returns exactly the specified compilation of its input |
| FormatCompiler.UnrecoverableIsParseError | format-compiler.js:24-31 | input that neither parses nor can be repaired yields exactly `{plan: null, commands: [], errors: [PARSE_ERROR]}` |
| FormatCompiler.CompiledCommands | format-compiler.js:35-55 | on success there are no errors, one command per raw command, the plan defaults to `''`, and each command keeps its position as `_index` |
| FormatCompiler.TargetDefaults | format-compiler.js:130-148 | exempt skills never get a target, a truthy target is kept, and any other command ends up targeting the whole document |
| FormatValidator.GatherMembers | format-validator.js:57-67 | an issue is in the folded error (warning) list exactly when the per-command check of some command before `n` reports it |
| FormatValidator.StructureOf | format-validator.js:57-67 | the structure check of one command never warns |
| FormatValidator.ValidateStructure | format-validator.js:51-68 | the loop's errors are the per-command structure issues of all commands, in command order (an empty list gives none) |
| FormatValidator.StructureFlags | format-validator.js:59-66 | command `i` gets MISSING_SKILL iff its skill is not a non-empty string, and MISSING_PARAMS iff its params are not an object |
| FormatValidator.StructureWarnsNothing | format-validator.js:51-68 | the structure phase produces no warnings |
| FormatValidator.TargetIssues | format-validator.js:193-220 | at most one issue: INVALID_TARGET iff the type is not one of the ten known target types, MISSING_TARGET_PARAM iff a known type lacks its required index/from/to/text/role |
| FormatValidator.MissingParams | format-validator.js:91-101 | MISSING_PARAM is reported for exactly the required schema keys absent from the params |
| FormatValidator.InvalidEnums | format-validator.js:104-117 | INVALID_ENUM is reported for exactly the given params whose schema entry is an enum not listing the value |
| FormatValidator.ValidateSemantics | format-validator.js:73-136 | no registry gives no findings; otherwise the findings are the per-command semantic checks of all commands in order |
| FormatValidator.UnknownSkillOnly | format-validator.js:83-88 | a command whose skill is not registered gets exactly one UNKNOWN_SKILL error and nothing else |
| FormatValidator.KnownSkillChecks | format-validator.js:90-134 | for a registered skill: MISSING_PARAM for a key iff the schema requires it and it is absent; INVALID_ENUM for a key iff its value breaks the enum; every warning is UNUSUAL_VALUE |
| FormatValidator.MaskWithoutSkillsCalls | format-validator.js:252 | code without any `skills.` occurrence is left unchanged by the masking |
| FormatValidator.SkillsCallMasked | format-validator.js:252 | `skills.` followed by a maximal word run becomes `SKILLS_CALL`, and masking continues on the rest |
| FormatValidator.WordRunOver | format-validator.js:252 | the `\w+` run at a position has exactly the length of the maximal word-character run there |
| FormatValidator.BannedFound | format-validator.js:253-260 | at most one UNSAFE_CODE issue per banned API |
| FormatValidator.BannedFoundMembers | format-validator.js:253-260 | UNSAFE_CODE names an API iff it is banned and occurs in the masked code; every issue is UNSAFE_CODE with a banned API |
| FormatValidator.ScanBannedApis | format-validator.js:253-260 | the loop reports the banned-API issues of the masked code in list order |
| FormatValidator.ValidateCustomCodeSafety | format-validator.js:225-266 | the findings are the per-command safety checks of all commands in order |
| FormatValidator.SafetyOfUsableCode | format-validator.js:244-264 | for custom.execute code of at most 2000 chars: UNSAFE_CODE for an API iff it is banned and occurs outside `skills.xxx` calls, and exactly one CUSTOM_CODE warning |
| FormatValidator.FetchOutsideHelperRejected | format-validator.js:226-259 | code calling `fetch(` with no `skills.` helper call is rejected as unsafe |
| FormatValidator.FirstRule | format-validator.js:323-346 | the first matching policy rule, if any, lies in the scanned range |
| FormatValidator.FirstRuleIsFirst | format-validator.js:323-346 | the rule found matches and no earlier rule does; none found means no rule matches |
| FormatValidator.MatchPolicyRule | format-validator.js:323-346 | the loop with `break` finds the first matching rule |
| FormatValidator.CheckPolicy | format-validator.js:311-358 | one command's policy findings agree with the policy specification |
| FormatValidator.ValidateCustomFallbackPolicy | format-validator.js:283-360 | the findings are the per-command policy checks of all commands in order |
| FormatValidator.TableStyleAlwaysRejected | format-validator.js:326-335 | when the first matching rule is table style, CUSTOM_NOT_FALLBACK is the only error whatever the description says |
| FormatValidator.OtherCategoryNeedsReason | format-validator.js:272-343 | for another category there is no error iff the description names a built-in skill and a limitation, and then CUSTOM_FALLBACK_ACCEPTED is warned |
| FormatValidator.PolicyTableOrder | format-validator.js:284-309 | the table-style rule is first in the policy table and no other rule has its code |
| FormatValidator.NoRuleNoError | format-validator.js:323-346 | custom code matching no policy pattern gets no policy error |
| FormatValidator.ScopeTextHolds | format-validator.js:315-321 | the policy patterns see a string description as the first line of the scope text and a string `params.code` as its last line |
| FormatValidator.ValidateFeasibility | format-validator.js:141-188 | no host: no findings; no open document: exactly NO_DOCUMENT; otherwise the per-command feasibility checks in order |
| FormatValidator.FeasibilityMeaning | format-validator.js:156-187 | per command: no target, no findings; at most one error and one warning; TARGET_OUT_OF_RANGE iff the count field of a paragraph_index, paragraph_range or table_index target exceeds its count; EMPTY_SELECTION iff a selection target meets an empty selection; LARGE_RANGE iff an all_paragraphs target meets more than 200 paragraphs |
| FormatValidator.ParagraphIndexRange | format-validator.js:161-164 | a paragraph_index target gets TARGET_OUT_OF_RANGE iff its index, read as `Number` reads it (numeric strings by their value), exceeds the paragraph count; an index that reads as NaN never does |
| FormatValidator.ParagraphIndexText | format-validator.js:161-164 | an index written as the decimal string of k, such as `"5"`, is out of range iff k exceeds the paragraph count |
| FormatValidator.Phases | format-validator.js:26-43 | five phases, in the order structure, semantics, safety, policy, feasibility |
| FormatValidator.Validate | format-validator.js:17-46 | the validation result equals the phase-by-phase specification |
| FormatValidator.RunPhasesStopsAtFirstError | format-validator.js:26-45 | valid iff no phase has errors; when valid, warnings are all phases' warnings; otherwise the errors are those of the first failing phase and the warnings those gathered up to it |
| FormatValidator.CompileErrorsPassThrough | format-validator.js:22-24 | compile errors are returned as-is, invalid, with no warnings |
| FormatValidator.EmptyPlanValid | format-validator.js:52-55 | an empty command list with a usable host is valid with no issues |
| SkillRegistry.Entry | skills/format-skill-registry.js:80-82 | the stored entry carries the definition's own `id` when it has one (the spread overrides), else the id passed; its params are the definition's and no `execute` is attached yet |
| SkillRegistry.Define | skills/format-skill-registry.js:80-82 | after `defineSkill` the id maps to its entry and every other key is unchanged |
| SkillRegistry.NoOwnIds | skills/format-skill-registry.js:86-472 | no built-in definition carries an `id` of its own |
| SkillRegistry.DefineAllEntries | skills/format-skill-registry.js:80-82 | after a run of definitions the table holds exactly the old keys plus the defined ids, each defined entry under its own id without `execute`, other entries untouched |
| SkillRegistry.DefineAllKeeps | skills/format-skill-registry.js:80-82 | a property of parameter schemas held by the table and by every definition holds for the resulting table |
| SkillRegistry.BuiltinEntries | skills/format-skill-registry.js:78-472 | the built-in table has exactly the 44 defined skill ids, each entry's id is its key, none has `execute` |
| SkillRegistry.BuiltinEnumsNonEmpty | skills/format-skill-registry.js:166-472 | every enum parameter of every built-in skill lists its allowed values |
| SkillRegistry.EnumsNonEmptyAt | skills/format-skill-registry.js:166-472 | each definition's enum parameters list their allowed values |
| SkillRegistry.DefineAllLast | skills/format-skill-registry.js:80-82 | the last definition of an id is the one the table keeps |
| SkillRegistry.DefineAllUntouched | skills/format-skill-registry.js:80-82 | a key no definition names keeps its entry |
| SkillRegistry.CustomExecuteRequires | skills/format-skill-registry.js:464-472 | `custom.execute` is registered and requires string `code` and `description` |
| SkillRegistry.MarginsDefinedOnce | skills/format-skill-registry.js:346-357 | `page.margins.set` is defined once, at position 31 of the 44 definitions |
| SkillRegistry.FindFirst | skills/format-skill-registry.js:13-75 | a key lookup returns the value of the first entry carrying that key |
| SkillRegistry.MarginsParamsRequired | skills/format-skill-registry.js:350-353 | the four margins top, bottom, left, right are required numbers |
| SkillRegistry.MarginsRequire | skills/format-skill-registry.js:346-357 | the registered `page.margins.set` requires all four margins as numbers |
| SkillRegistry.AlignmentBijective | skills/format-skill-registry.js:45-50 | the alignment map sends left, center, right, justify one-to-one onto 0 to 3 |
| SkillRegistry.LineSpacingRules | skills/format-skill-registry.js:53-57 | multiple, exact, atLeast map to 5, 4, 3 |
| SkillRegistry.FontSizesDecreasing | skills/format-skill-registry.js:13-22 | sixteen Chinese size names whose point sizes strictly decrease from 42 to 5 |
| SkillRegistry.RoleDetectCoverage | skills/format-skill-registry.js:60-75 | fourteen distinct roles, each finding its own detection skill |
| SkillRegistry.RoleDetectHeadings | skills/format-skill-registry.js:62-65 | the four heading roles all map to `detect.headings` |
| SkillRegistry.RoleDetectDistinct | skills/format-skill-registry.js:60-75 | no role appears twice in the role map |
| SkillRegistry.DistinctKeysFind | skills/format-skill-registry.js:13-75 | in a table without repeated keys, each key finds its own entry |
| SkillRegistry.Registry.constructor | skills/format-skill-registry.js:78-472 | the registry starts with the built-in table |
| SkillRegistry.Registry.DefineSkill | skills/format-skill-registry.js:80-82 | the table becomes the old table with the definition stored |
| SkillRegistry.Registry.AttachExecute | skills/layer1-structure-detect.js:667-687 | attaching `execute` succeeds iff the id is registered, then only that entry gains `execute`; otherwise nothing changes |
| SkillRegistry.Registry.Register | skills/layer4-table.js:120 | storing a whole entry replaces only that id |
| StructureDetect.DocKey | skills/layer1-structure-detect.js:22-29 | the cache key is null exactly when there is no active document |
| StructureDetect.StyleLevel | skills/layer1-structure-detect.js:235-243 | a style-matched heading level lies in 1..4 |
| StructureDetect.ChapterLevel | skills/layer1-structure-detect.js:257-264 | a numbering-matched heading level lies in 1..4 |
| StructureDetect.WhereMembers | skills/layer1-structure-detect.js:575-601 | an index is collected iff it is at most `n` and its paragraph passes the test |
| StructureDetect.WhereIncreasing | skills/layer1-structure-detect.js:575-601 | collected indices are strictly increasing, 1-based and at most `n` |
| StructureDetect.FirstWhere | skills/layer1-structure-detect.js:486-492 | the index found passes the test and no earlier index in the range does; none found means no index in the range passes |
| StructureDetect.Collect | skills/layer1-structure-detect.js:558-572 | the filtering loop collects exactly the passing indices, in order |
| StructureDetect.FindFirst | skills/layer1-structure-detect.js:482-495 | the loop with `break` finds the first passing index |
| StructureDetect.TableOf | skills/layer1-structure-detect.js:289-304 | the pass result has exactly the 14 roles and `footnotes` is always empty |
| StructureDetect.PassTable | skills/layer1-structure-detect.js:87-306 | the pass returns null iff there is no document, otherwise all 14 roles with empty footnotes |
| StructureDetect.ScanParagraphs | skills/layer1-structure-detect.js:124-273 | the imperative loop builds the same 13 lists and flags as the iteration-by-iteration specification |
| StructureDetect.DetectAllInOnePass | skills/layer1-structure-detect.js:87-306 | the method returns the specified pass table |
| StructureDetect.RunMembers | skills/layer1-structure-detect.js:124-273 | index `j` is in a role's list iff iteration `j` claimed that role |
| StructureDetect.RunIncreasing | skills/layer1-structure-detect.js:124-273 | every list is strictly increasing and holds 1-based indices already visited |
| StructureDetect.TitleFoundAfter | skills/layer1-structure-detect.js:136-151 | once an iteration claims the title, `titleFound` stays set |
| StructureDetect.RunTitle | skills/layer1-structure-detect.js:136-151 | the loop claims at most one title, among the first 10 paragraphs |
| StructureDetect.BodyClaimExclusive | skills/layer1-structure-detect.js:267-272 | one iteration claims body only for a paragraph with text, no heading-like style and no other role |
| StructureDetect.RunBody | skills/layer1-structure-detect.js:270-272 | body indices have text and a non-heading style and are in no other role's list |
| StructureDetect.RunWindows | skills/layer1-structure-detect.js:167-191 | abstract indices are within the first 30; keywords are exactly the keyword lines among the first 30 |
| StructureDetect.RunToc | skills/layer1-structure-detect.js:155-164 | TOC indices are exactly the TOC-styled or TOC-titled paragraphs among the first 50, each once |
| StructureDetect.RunHeadings | skills/layer1-structure-detect.js:233-266 | an index is in the level-k heading list iff its paragraph's heading level is k |
| StructureDetect.FinalListsShape | skills/layer1-structure-detect.js:124-281 | every returned list, title fallback included, is strictly increasing within 1..count |
| StructureDetect.FinalTitle | skills/layer1-structure-detect.js:136-281 | at most one title, within the first 10; when the loop found none it is the first non-empty of the first 3 |
| StructureDetect.PassHeadings | skills/layer1-structure-detect.js:233-266 | the heading lists partition paragraphs by heading level, so a paragraph lands in at most one |
| StructureDetect.HeadingPrecedence | skills/layer1-structure-detect.js:233-266 | a style match decides the level; else bold and size decide it only for text under 60 characters and only at levels 1-2; else the numbering pattern; empty text is no heading |
| StructureDetect.BodyExclusive | skills/layer1-structure-detect.js:270-272 | returned body paragraphs are non-empty, not heading/title/TOC-styled, and in no other role's list |
| StructureDetect.Windows | skills/layer1-structure-detect.js:155-191 | in the returned table: abstract only within 30; keywords exactly the keyword lines within 30; TOC exactly the TOC lines within 50 |
| StructureDetect.ReferencesRegion | skills/layer1-structure-detect.js:193-206 | the marker opens references (unless also an acknowledgment marker); an empty line inside is not claimed and keeps it open; a Heading 1 style or closer line ends it unclaimed |
| StructureDetect.TitleScan | skills/layer1-structure-detect.js:352-390 | the title scanner returns at most one index, with confidence medium iff it found one |
| StructureDetect.RunUntil | skills/layer1-structure-detect.js:467-476 | consecutive indices from `j` whose paragraphs do not stop the scan, ending at the first stopping paragraph or at `hi` |
| StructureDetect.TakeUntil | skills/layer1-structure-detect.js:467-476 | the content loop with `break` collects exactly that run |
| StructureDetect.SectionFrom | skills/layer1-structure-detect.js:603-656 | the section scanner only returns indices of existing paragraphs from `i` on |
| StructureDetect.ScanSection | skills/layer1-structure-detect.js:606-628 | the loop returns the specified section indices, and the section was entered iff some index was kept |
| StructureDetect.SectionMembers | skills/layer1-structure-detect.js:608-626 | every kept paragraph is a marker or non-empty, and a marker or not a closer |
| StructureDetect.ScanAbstract | skills/layer1-structure-detect.js:447-480 | the abstract scanner's two loops return the specified detection |
| StructureDetect.RunDetect | skills/layer1-structure-detect.js:310-343 | a scanner result exists only for an open document and one of the 14 roles |
| StructureDetect.Checked | skills/layer1-structure-detect.js:31-38 | the key is recorded; a changed key empties the cache, an unchanged key leaves it as it was |
| StructureDetect.DetectAfterKeyChange | skills/layer1-structure-detect.js:40-70 | after a document change, detection behaves as on an empty cache for the new key |
| StructureDetect.DetectHit | skills/layer1-structure-detect.js:43-46 | a cached role returns its entry and changes nothing |
| StructureDetect.DetectFillsAllRoles | skills/layer1-structure-detect.js:48-58 | on an empty cache with an open document the pass fills all 14 roles and the requested role is answered from it |
| StructureDetect.DetectNullNotCached | skills/layer1-structure-detect.js:62-69 | a null result is not stored under the role |
| StructureDetect.IndicesOutcome | skills/layer1-structure-detect.js:72-77 | `getIndices` first checks the document; it is null iff the role is uncached, else the cached indices |
| StructureDetect.StructureCache.constructor | skills/layer1-structure-detect.js:18-20 | the cache starts empty with a null key |
| StructureDetect.StructureCache.CheckDocChanged | skills/layer1-structure-detect.js:31-38 | the new state is the checked state for the current document key |
| StructureDetect.StructureCache.Detect | skills/layer1-structure-detect.js:40-70 | result and new state are those of the detection specification |
| StructureDetect.StructureCache.GetIndices | skills/layer1-structure-detect.js:72-77 | result and new state are those of the lookup specification |
| StructureDetect.StructureCache.Invalidate | skills/layer1-structure-detect.js:79-82 | all entries are dropped and the document key is kept |
| ContentEdit.OverRatioMeaning | skills/layer6-content-edit.js:50 | the integer ratio test is exactly the source's `total > 0 && chars / total > 0.05` |
| ContentEdit.ValidateDelete | skills/layer6-content-edit.js:40-60 | a deletion passes iff it is at most 500 characters, at most 5% of the document and starts at or after position 100; the checks run in the order length (DeleteTooLong), ratio (DeleteRatioTooHigh), protected area (ProtectedArea), and the first one broken is the error |
| ContentEdit.AllowedDeletion | skills/layer6-content-edit.js:40-60 | an allowed deletion starts at 100 or later, is at most 500 characters and at most 5% of a non-empty document |
| ContentEdit.ValidateInsert | skills/layer6-content-edit.js:65-73 | an insertion passes iff the text is present, non-empty and at most 2000 characters |
| ContentEdit.FindFrom | skills/layer6-content-edit.js:118-123 | the reference search returns a match at or after `from` within the text, and no earlier match from `from` exists |
| ContentEdit.FindFromSound | skills/layer6-content-edit.js:118-123 | the reference search satisfies the soundness assumption made of the host's Find |
| ContentEdit.RemoveRange | skills/layer6-content-edit.js:194-196 | removing a range never lengthens the text |
| ContentEdit.Insert | skills/layer6-content-edit.js:87-143 | success reports the inserted length; a failure leaves the document unchanged; an invalid text fails with the insertion check's error; a valid text with a position (defaulted to end) other than start, end, cursor, before_target and after_target fails with InvalidPosition of that position |
| ContentEdit.InsertKeeps | skills/layer6-content-edit.js:97-136 | a successful insert at start, end, or before/after the target puts the text at one position and keeps the rest of the document around it |
| ContentEdit.TargetModesNeedTarget | skills/layer6-content-edit.js:111-116 | before_target/after_target with a missing or empty targetText fails with the missing-target error |
| ContentEdit.DeleteMatches | skills/layer6-content-edit.js:172-184 | the delete loop stops after at most 10 deletions |
| ContentEdit.DeleteStep | skills/layer6-content-edit.js:173-184 | one allowed match is removed and the loop continues from its position with one more deletion |
| ContentEdit.DeleteMatchesSize | skills/layer6-content-edit.js:173-184 | the text shrinks by the target's length for each deletion made |
| ContentEdit.DeletedChars | skills/layer6-content-edit.js:182 | the characters removed equal deletions times the target length |
| ContentEdit.DeleteTurn | skills/layer6-content-edit.js:173-184 | one loop turn either ends the loop with the specified run or removes one match and continues |
| ContentEdit.DeleteLoop | skills/layer6-content-edit.js:165-189 | the imperative loop produces the specified run, and `deletedChars` is the number of characters it removed |
| ContentEdit.DeleteByTextBounds | skills/layer6-content-edit.js:165-189 | deleting by text removes at most 10 matches, reports exactly the characters removed, and fails with nothing deleted when the target does not occur |
| ContentEdit.DeleteByCountRange | skills/layer6-content-edit.js:199-211 | a document shorter than 100 characters is refused; otherwise the characters from 100 to `min(100 + count, total)` are removed and counted |
| ContentEdit.ReplaceMatches | skills/layer6-content-edit.js:253-256 | the replace loop makes at most `max` replacements |
| ContentEdit.ReplaceStep | skills/layer6-content-edit.js:253-256 | one turn puts the new text over the next match and resumes the search after it |
| ContentEdit.ReplaceLoop | skills/layer6-content-edit.js:250-256 | the imperative loop gives the specified text and replacement count |
| ContentEdit.ReplaceMatchesSize | skills/layer6-content-edit.js:253-256 | the text length changes by the count times the length difference |
| ContentEdit.ReplaceBounds | skills/layer6-content-edit.js:251-263 | a success reports 1 to 10 replacements (exactly 1 without replaceAll) and the length changes accordingly |
| ContentEdit.ReplaceFailsIffNoMatch | skills/layer6-content-edit.js:258-260 | with valid texts, replace fails iff the old text does not occur |
| ContentEdit.ReplaceNeedsNewText | skills/layer6-content-edit.js:241 | an empty new text is refused and the document is unchanged |
| ContentEdit.AppendNeverBreaksLine | skills/layer6-content-edit.js:284-294 | as written, appending with `newLine` to a non-empty document puts no newline in front of the text |
| ContentEdit.Append | skills/layer6-content-edit.js:277-301 | a successful append reports the appended text's length |
| ContentEdit.AppendShape | skills/layer6-content-edit.js:287-297 | the intended append keeps the document as prefix and ends with the text; exactly one newline is put between them iff a new line is asked for and the document is non-empty |
| ContentEdit.FindMatches | skills/layer6-content-edit.js:332-339 | at most 20 positions are reported |
| ContentEdit.FindMatchesWithin | skills/layer6-content-edit.js:332-339 | every reported span has the needle's length and lies within the text after the start |
| ContentEdit.FindStep | skills/layer6-content-edit.js:332-339 | one turn reports the next match and resumes after it |
| ContentEdit.FindLoop | skills/layer6-content-edit.js:328-339 | the imperative loop reports the specified spans |
| ContentEdit.FindAfterMatches | skills/layer6-content-edit.js:328-339 | the loop's running result is the spans found so far followed by the matches still to come |
| ContentEdit.FindOrdered | skills/layer6-content-edit.js:332-339 | reported spans are in text order and do not overlap |
| ContentEdit.Find | skills/layer6-content-edit.js:314-343 | find fails iff the text is missing or empty, and never reports more than 20 positions |
| ContentEdit.Document.constructor | skills/layer6-content-edit.js:87-89 | the document starts with the given text and search |
| ContentEdit.Document.InsertText | skills/layer6-content-edit.js:77-144 | the new text and the result are those of the insert specification |
| ContentEdit.Document.DeleteByText | skills/layer6-content-edit.js:165-189 | the new text and the result are those of the delete-by-text specification |
| ContentEdit.Document.DeleteText | skills/layer6-content-edit.js:148-218 | the new text and the result are those of the delete specification, by text, range or count |
| ContentEdit.Document.ReplaceText | skills/layer6-content-edit.js:222-265 | the new text and the result are those of the replace specification |
| ContentEdit.Document.AppendText | skills/layer6-content-edit.js:269-302 | the new text and the result are those of the intended append |
| ContentEdit.Document.FindText | skills/layer6-content-edit.js:306-344 | the result is that of the find specification (the method modifies nothing) |
| Formatters.CollapseZeros | formatters.js:57 | merging runs of `零` keeps the first character |
| Formatters.DropZeroBeforeBig | formatters.js:58 | dropping `零` before 万/亿/兆 keeps the first character or replaces a leading `零` by the big unit |
| Formatters.DropTrailingZeros | formatters.js:59 | the result is the input with exactly its trailing `零` run removed |
| Formatters.NumberToChineseLoop | formatters.js:16-63 | the two nested digit loops and the cleanup give the specified capital numeral |
| Formatters.SectionLoop | formatters.js:30-49 | the inner loop over one group of four digits builds the specified numeral of that group |
| Formatters.SignificantAppend | formatters.js:27-54 | the count of non-zero numeral characters adds up over concatenation |
| Formatters.InnerSignificant | formatters.js:35-48 | a non-zero group of four contributes at least one non-zero character |
| Formatters.OuterSignificant | formatters.js:27-54 | a positive number produces at least one non-zero character |
| Formatters.CollapseShape | formatters.js:57 | after merging there are no two adjacent `零`, and no other character is lost |
| Formatters.DropZeroShape | formatters.js:58 | dropping zeros before big units keeps the no-adjacent-zeros property and every other character |
| Formatters.DropTrailingSignificant | formatters.js:59 | removing trailing zeros loses no other character |
| Formatters.CleanupShape | formatters.js:56-59 | a raw numeral with a non-zero character cleans up to a non-empty numeral without adjacent or trailing `零` |
| Formatters.LeadingOneShape | formatters.js:60 | the 壹拾 → 拾 rule keeps that shape |
| Formatters.PositiveNumeralShape | formatters.js:16-63 | the numeral of a positive number is non-empty, has no adjacent `零` and does not end in `零` |
| Formatters.CleanupKeeps | formatters.js:56-59 | a numeral without `零` passes through the zero rules unchanged |
| Formatters.SingleDigitRaw | formatters.js:27-54 | the loops turn 1..9 into that digit's character |
| Formatters.SingleDigits | formatters.js:16-63 | 1..9 are written as a single capital digit |
| Formatters.Teens | formatters.js:60 | 10..19 are written 拾 followed by the ones digit (10 is 拾 alone) |
| Formatters.SmallDigitValues | formatters.js:71 | the small-numeral digit table reads back 0..9 |
| Formatters.SmallRoundTrip | formatters.js:70-85 | reading back the small numeral of any 0 ≤ n < 100 gives n |
| Formatters.NegativeSmall | formatters.js:77-79 | a negative number takes the under-20 branch and yields `十` plus `undefined` unless divisible by 10 |
| Formatters.Pad2 | formatters.js:119-121 | padding to two digits gives at least two characters |
| Formatters.FormatChineseNumber | formatters.js:157-163 | NaN returns the input; otherwise the capital numeral followed by the number in full-width brackets |
| Formatters.FormatChineseNumberWan | formatters.js:170-176 | NaN returns the input; otherwise the bracketed numeral followed by 万元 |
| Formatters.FormatAmountWithChinese | formatters.js:183-189 | NaN returns the input; otherwise 人民币 n 元（大写：numeral 元整） |
| Formatters.FormatArticleNumber | formatters.js:196-202 | NaN returns the input unchanged |
| Formatters.FormatPercentageChinese | formatters.js:209-215 | NaN returns the input unchanged |
| Formatters.SmallFormatsRead | formatters.js:196-215 | for 0 ≤ n < 100 the article number is 第…条 and the percentage 百分之…, and their numerals read back n |
| Formatters.InheritedNamePasses | formatters.js:237-239 | as written, the whitelist accepts `toString`, which is no formatter |
| Formatters.WhitelistExact | formatters.js:219-239 | the intended whitelist accepts exactly the 8 formatter names; the written one also accepts inherited object members |
| Formatters.ApplyFormat | formatters.js:256-269 | corrected member of the whitelist finding: an unknown formatter, an inherited name such as `toString`, or `none` returns the value unchanged |
| Formatters.NotANumberUnchanged | formatters.js:157-264 | every numeric formatter leaves a non-number unchanged |
| IntentRouter.Matches | intent-router.js:67-77 | the matches are listed keywords occurring in the text ignoring case, at most one per list entry |
| IntentRouter.MatchesMembers | intent-router.js:67-77 | a keyword is matched iff it is listed and occurs in the text ignoring case |
| IntentRouter.MatchesAppend | intent-router.js:67-77 | matching a concatenated list matches each part in turn, so a keyword listed twice counts twice |
| IntentRouter.TopIsFirstMax | intent-router.js:94-103 | the top intent has the highest score, and on a tie the earlier intent (FORMAT, then CONTENT_EDIT) wins |
| IntentRouter.ShareConfidence | intent-router.js:112 | the share confidence lies in (0, 0.8] and is exactly 0.8 iff the top intent won every match |
| IntentRouter.KeywordConfidence | intent-router.js:82-131 | without matches the keyword result is FORMAT with 0.3; otherwise it names a top-scoring intent with confidence in (0, 0.8], 0.8 iff that intent has all matches |
| IntentRouter.Fallback | intent-router.js:136-164 | two content-edit hits give CONTENT_EDIT 0.7, else two question hits give GENERAL_QA 0.7, else FORMAT 0.5; no scores are attached |
| IntentRouter.ClassifyIntent | intent-router.js:176-206 | blank input is FORMAT with 0 and reason 空输入; a keyword result of at least 0.5 is returned; anything weaker goes to the fallback |
| IntentRouter.ConfidenceBounds | intent-router.js:176-206 | confidence is 0 iff the input is blank, else in [0.5, 0.8]; 0.8 only when the chosen intent has every keyword match |
| IntentRouter.NoMatchFallsBack | intent-router.js:124-205 | a non-blank message with no keyword match ends as FORMAT 0.5 from the fallback |
| RuntimeConfig.StripTrailingSlashes | runtime-config.js:20 | the result is the input with exactly its trailing `/` run removed |
| RuntimeConfig.NormalizeIdempotent | runtime-config.js:18-21 | normalising a normalised base URL changes nothing |
| RuntimeConfig.MergeOtherKeys | runtime-config.js:43-44 | every key other than the four normalised ones reads as in `extra` when it has it, else as in `base` |
| RuntimeConfig.MergeNormalised | runtime-config.js:43-52 | the API base is the merged (or default) value normalised; manifest and task-pane URLs are the merged value when truthy, else `''`; the refresh interval is kept iff it is truthy and not below 30000 by `<`, else it becomes 300000 |
| RuntimeConfig.MergeShape | runtime-config.js:43-52 | a merged configuration has a string base URL without trailing `/`, and a truthy refresh interval that, whenever it reads as a number (numeric strings included), is at least 30000 |
| RuntimeConfig.RefreshKeptMeaning | runtime-config.js:48 | an interval is kept iff it is truthy and `Number` reads it as NaN or as at least 30000 |
| RuntimeConfig.MergeRefreshNumber | runtime-config.js:48-50 | a merged interval that reads as the number n is kept iff n is at least 30000, otherwise it becomes 300000 |
| RuntimeConfig.MergeRefreshText | runtime-config.js:48-50 | an interval given as the decimal string of k, such as `"100"`, is kept iff k is at least 30000, otherwise it becomes 300000 |
| RuntimeConfig.MergeStable | runtime-config.js:43-89 | merging a settled configuration with nothing (`setConfig({})`) leaves it unchanged |
| RuntimeConfig.MergeSettles | runtime-config.js:43-52 | a merge with a non-empty base URL is settled, so merging it again with nothing is a no-op |
| RuntimeConfig.BootstrapPatch | runtime-config.js:64-75 | the patch holds exactly those of the three URL keys whose query parameter is non-empty: manifestUrl is the string of pevc_manifest, apiBaseUrl of pevc_api_base and taskpaneUrl of pevc_taskpane |
| RuntimeConfig.ApiUrl | runtime-config.js:96-104 | the URL is the normalised base followed by the path, with exactly one `/` put in front of a path that lacks it |
| RuntimeConfig.ConfigStore.constructor | runtime-config.js:77-82 | the initial configuration is the defaults merged with the stored one, then with the URL patch when it has any entry |
| RuntimeConfig.ConfigStore.GetConfig | runtime-config.js:84-86 | returns the current configuration |
| RuntimeConfig.ConfigStore.SetConfig | runtime-config.js:88-94 | the configuration becomes the merge of the old one with `next`, and that is returned |
| RuntimeConfig.ConfigStore.BuildApiUrl | runtime-config.js:100-104 | returns the specified API URL |
| TextParagraph.HexRun | skills/layer2-text-paragraph.js:27-29 | `parseInt(…, 16)` reads the longest leading run of hex digits |
| TextParagraph.Substring | skills/layer2-text-paragraph.js:27-29 | `substring` never yields more characters than the requested span |
| TextParagraph.Uint32 | skills/layer2-text-paragraph.js:31 | the shift operand is reduced to an unsigned 32-bit value |
| TextParagraph.ShiftLeft | skills/layer2-text-paragraph.js:31 | `<<` stays within 32 bits |
| TextParagraph.BitOrBound | skills/layer2-text-paragraph.js:31 | `\|` of two values below 2^k stays below 2^k |
| TextParagraph.PackBytes | skills/layer2-text-paragraph.js:30-31 | for byte channels, `(b << 16) \| (g << 8) \| r` is the BGR word `b * 65536 + g * 256 + r` |
| TextParagraph.Channels | skills/layer2-text-paragraph.js:23-29 | after dropping `#`, the three channels are the character pairs 1-2, 3-4 and 5-6 of `#RRGGBB` |
| TextParagraph.ColorOfHex | skills/layer2-text-paragraph.js:20-32 | a `#RRGGBB` colour becomes the BGR word of its three hex channels |
| TextParagraph.UnpackPack | skills/layer2-text-paragraph.js:30-31 | the BGR word determines its three channels, so distinct colours pack differently |
| TextParagraph.ShortColor | skills/layer2-text-paragraph.js:23-26 | a three-digit colour, with or without `#`, packs as its doubled six-digit form |
| TextParagraph.ColorNonString | skills/layer2-text-paragraph.js:21-22 | a number is passed through, and anything else that is not a string becomes 0 |
| TextParagraph.InsertSorted | skills/layer2-text-paragraph.js:72 | inserting into a sorted list keeps it sorted and adds exactly that element |
| TextParagraph.SortAsc | skills/layer2-text-paragraph.js:72 | the numeric sort yields an ascending permutation of the input |
| TextParagraph.MergeFrom | skills/layer2-text-paragraph.js:75-85 | the group list continuing a run starts with that run |
| TextParagraph.MergeContiguousIndices | skills/layer2-text-paragraph.js:70-86 | the imperative loop returns the specified groups |
| TextParagraph.MergeFromCover | skills/layer2-text-paragraph.js:75-85 | the groups cover exactly the open run and the remaining sorted indices |
| TextParagraph.MergeCoversInput | skills/layer2-text-paragraph.js:70-86 | an index lies in some group iff it is in the input |
| TextParagraph.MergeFromChained | skills/layer2-text-paragraph.js:75-85 | groups are proper runs in order; for distinct indices consecutive groups are separated by a gap |
| TextParagraph.MergeShape | skills/layer2-text-paragraph.js:70-86 | no groups iff no indices; groups are ordered runs; with distinct indices no two groups touch |
| TextParagraph.DistinctSorted | skills/layer2-text-paragraph.js:72 | sorting distinct indices gives a strictly ascending list |
| TextParagraph.TargetRanges | skills/layer2-text-paragraph.js:92-108 | an index list gives one range per merged group; a range or nothing gives exactly one |
| TextParagraph.ExecuteOnTarget | skills/layer2-text-paragraph.js:92-108 | the executor calls back on exactly the specified ranges, in order |
| TextParagraph.TargetCalls | skills/layer2-text-paragraph.js:96-102 | each group's range runs from its first paragraph's start to its last paragraph's end; an empty index list makes no call |
| TextParagraph.FontStyleActions | skills/layer2-text-paragraph.js:46-63 | after the names, only Size, Bold, Italic, Underline, Color and StrikeThrough are written |
| TextParagraph.FontStyleRanked | skills/layer2-text-paragraph.js:46-63 | the style writes come in the order size, bold, italic, underline, colour, strike-through, each property at most once |
| TextParagraph.FontStyleWrites | skills/layer2-text-paragraph.js:46-63 | a given bold, italic or strikethrough flag writes -1 when truthy and 0 when falsy, a given underline 1 or 0; a size is written iff given and not null, a colour iff given, as its packed word; nothing is written for an absent key |
| TextParagraph.WritesOfAppend | skills/layer2-text-paragraph.js:34-64 | the writes to a property in two write sequences run in turn are those of the first followed by those of the second |
| TextParagraph.FinalAppend | skills/layer2-text-paragraph.js:34-64 | the last write of a property in a sequence of writes is the later part's if it writes it, else the earlier part's |
| TextParagraph.ZhFontSetsName | skills/layer2-text-paragraph.js:36-45 | with a Chinese font, NameFarEast is set; Name is set to it only without an English font, which then sets NameAscii and NameOther |
| TextParagraph.FontFinal | skills/layer2-text-paragraph.js:34-64 | the font names end as the name writes set them; the style writes never overwrite them |
| TextParagraph.FinalUntouched | skills/layer2-text-paragraph.js:34-64 | later writes that do not touch a property leave its last value |
| TextParagraph.HighlightDefaults | skills/layer2-text-paragraph.js:169-179 | the highlight index is the table entry for a known colour; unknown, missing and `none` (whose entry 0 is falsy) all give yellow 7, so it is never 0 |
| TextParagraph.AlignmentDefault | skills/layer2-text-paragraph.js:183-189 | left, center, right give 0, 1, 2, and every other value gives justify 3 |
| TextParagraph.ModeAndValue | skills/layer2-text-paragraph.js:199-211 | the mode and value read back from a parameter object holding them |
| TextParagraph.LineSpacingMultiple | skills/layer2-text-paragraph.js:199-211 | `multiple` sets rule 5 and spacing `value * 12`, with the value read as `Number` reads it (numeric strings included) and NaN written when it reads as NaN |
| TextParagraph.LineSpacingMultipleText | skills/layer2-text-paragraph.js:205-206 | `multiple` with value `"1.5"` writes rule 5 and spacing 18 |
| TextParagraph.LineSpacingExact | skills/layer2-text-paragraph.js:199-211 | `exact` sets rule 4 and the value as given |
| TextParagraph.LineSpacingUnknown | skills/layer2-text-paragraph.js:199-211 | an unknown mode falls back to rule 5 but writes the value unscaled |
| TextParagraph.HangingOverrides | skills/layer2-text-paragraph.js:213-232 | a hanging indent wins: the character first-line indent ends as minus the absolute value of `hanging` as `Number` reads it (NaN when it reads as NaN); without it, it is `firstLineChars` as given |
| TextParagraph.HangingText | skills/layer2-text-paragraph.js:222-223 | a hanging indent given as the decimal string of k, such as `"2"`, leaves the character indent at minus the absolute value of k |
| TextParagraph.EffectsPerRange | skills/layer2-text-paragraph.js:92-269 | every skill of the layer writes the same actions to each range, and an index target costs one range per run of consecutive paragraphs |
| PageSection.PageSetupOf | skills/layer3-page-section.js:20-25 | a section's setup is chosen only for an index within 1..count |
| PageSection.SectionChoice | skills/layer3-page-section.js:20-33 | a truthy index selects that section's setup iff `Number` reads it (numeric strings included) as a value within 1..count, and then `getSection` takes the same section; a falsy index selects the document's setup and section 1; `getSection` falls back to section 1 whenever `getPageSetup` falls back to the document |
| PageSection.SectionChoiceText | skills/layer3-page-section.js:20-33 | an index written as the decimal string of k, such as `"2"`, selects section k in both helpers when 1 ≤ k ≤ count; otherwise the document's setup and section 1 |
| PageSection.SizeActions | skills/layer3-page-section.js:47-59 | page size writes both width and height or nothing |
| PageSection.PaperWins | skills/layer3-page-section.js:51-58 | a known paper name writes its table width and height; an unknown name falls through to a truthy width and height |
| PageSection.Orientation | skills/layer3-page-section.js:61-66 | orientation is 1 iff `landscape` is asked for, else 0 |
| PageSection.AlignmentActions | skills/layer3-page-section.js:86-91 | at most one alignment write |
| PageSection.HeaderFooterActions | skills/layer3-page-section.js:70-122 | the first write is always the text: the given text when truthy, else `''` |
| PageSection.HeaderFooterAlignment | skills/layer3-page-section.js:86-91 | a known alignment name writes its index 0..3 |
| PageSection.HeaderFooterUnknownAlignment | skills/layer3-page-section.js:86-91 | an unknown alignment writes nothing |
| PageSection.NumberStyle | skills/layer3-page-section.js:138-150 | the number style is the table entry for arabic, roman_lower, roman_upper, else 0 |
| PageSection.PageNumberSet | skills/layer3-page-section.js:133-162 | it throws iff the position is truthy but not a string |
| PageSection.PageNumberCases | skills/layer3-page-section.js:145-161 | numbers are added iff none exist, aligned 1 or 2 only (left's 0 is falsy and becomes centred); top positions use the header; no position uses the footer |
| PageSection.RestartStart | skills/layer3-page-section.js:164-184 | restart first unlinks header and footer and restarts the numbering; StartingNumber is a truthy `startFrom` as given and 1 for every falsy one; a truthy format adds the NumberStyle write of its style as the fifth and last write, and without one there are four writes |
| PageSection.BreakType | skills/layer3-page-section.js:189-195 | the break kind is 2..5, and 2 (next page) unless a listed kind is named |
| PageSection.SortDescShape | skills/layer3-page-section.js:202 | the descending sort is non-increasing and a permutation of the indices |
| PageSection.BreakSites | skills/layer3-page-section.js:188-210 | one break per listed index in descending order, one for a range, none otherwise |
| PageSection.InRange | skills/layer3-page-section.js:216-222 | exactly the listed indices within 1..count are marked |
| PageSection.InRangeOrder | skills/layer3-page-section.js:216-222 | the marks keep list order: a concatenated list marks the first part's in-range indices and then the second's, and one index is marked iff it is within 1..count |
| PageSection.RestartFalsyStarts | skills/layer3-page-section.js:164-184 | an absent, null, 0, empty-string or false `startFrom` restarts at 1 |
| PageSection.Upto | skills/layer3-page-section.js:224-227 | a range marks its paragraphs 1..n |
| PageSection.MarkedParagraphs | skills/layer3-page-section.js:212-248 | the loops mark the in-range listed indices, or paragraphs 1..n of a range, or nothing |
| TableSkills.GetTable | skills/layer4-table.js:32-38 | the table chosen is within 1..count; otherwise the skill fails with "table missing" |
| TableSkills.GetTableCases | skills/layer4-table.js:32-38 | a falsy index means table 1, which exists iff there is a table; a truthy index is taken iff `Number` reads it (numeric strings included) as a value within 1..count, and the table taken is that value |
| TableSkills.GetTableNumericString | skills/layer4-table.js:32-38 | an index written as the decimal string of n, such as `"2"`, picks table n iff 1 ≤ n ≤ count |
| TableSkills.LineWidthEighths | skills/layer4-table.js:61-71 | every width label maps to eight times its size in points, and only those nine labels are known |
| TableSkills.ParseLineWidthMeaning | skills/layer4-table.js:73-77 | a number passes through unchanged; a known label gives its table value; anything that is neither a number nor a known label gives the 1pt default |
| TableSkills.RowHeightRuleCases | skills/layer4-table.js:304-305 | the height rule is 2 iff the rule is `exact`; otherwise 1, even for `auto`, because its 0 is falsy |
| TableSkills.AutofitCases | skills/layer4-table.js:359-360 | autofit is 1 iff the mode is `content`; never 0, so `fixed` acts like `window` |
| TableSkills.RowAlignmentCases | skills/layer4-table.js:439-441 | row alignment is 2 iff `right`; otherwise 1, so `left` (0, falsy) centres |
| TableSkills.CellAlignmentActions | skills/layer4-table.js:215-224 | at most one horizontal and one vertical write per cell |
| TableSkills.CellAlignmentCases | skills/layer4-table.js:213-223 | `top` writes vertical alignment 0; an unknown vertical name writes nothing |
| TableSkills.TableFontName | skills/layer4-table.js:382-393 | the Latin font name is set iff a Chinese font is given and no Western font is |
| TableSkills.FirstKept | skills/layer4-table.js:80-90 | the dashed style chosen is a candidate the host accepts (a rejected write throws and skips the read-back); none is found iff the host accepts no candidate |
| TableSkills.DashedFallback | skills/layer4-table.js:80-96 | a dashed border becomes 3 when supported, else 4, else 2, else single, else stays as it was |
| TableSkills.NoneKeepsWidth | skills/layer4-table.js:98-114 | clearing a border never changes its width or colour |
| TableSkills.TryDashed | skills/layer4-table.js:80-90 | the loop succeeds iff the host accepts some candidate, and then leaves the first accepted one; otherwise the style is unchanged |
| TableSkills.SetBorderLine | skills/layer4-table.js:79-115 | one border after `setBorderLine` equals the specification `BorderLine` |
| TableSkills.Updated | skills/layer4-table.js:141-191 | updating a set of borders keeps the same border keys |
| TableSkills.UpdatedAt | skills/layer4-table.js:141-191 | each named border is replaced by its update and every other border is unchanged |
| TableSkills.ThreeLine | skills/layer4-table.js:151-172 | three-line: no side or inner lines, a 1.5pt top and bottom, and a 0.75pt rule under row 1 only when there is more than one row |
| TableSkills.Box | skills/layer4-table.js:173-183 | box: inner lines cleared, the four outer lines single at the given width, and the header rule untouched |
| TableSkills.Dashed | skills/layer4-table.js:145-150 | dashed: every border gets the dashed fallback style |
| TableSkills.ApplyEach | skills/layer4-table.js:141-191 | the border loop produces the specification update |
| TableSkills.SetBorderLines | skills/layer4-table.js:130-193 | the borders and header rule after the skill equal `BordersAfter` for the chosen style |
| TableSkills.Painted | skills/layer4-table.js:267-283 | painted cells carry the colour; the others keep their shading |
| TableSkills.PaintRow | skills/layer4-table.js:269-273 | a row within the table has all its cells painted; a row outside changes nothing (every write throws and is swallowed) |
| TableSkills.TableCellsStep | skills/layer4-table.js:278-282 | the cells of rows 1..r are those of rows 1..r-1 plus row r |
| TableSkills.PaintMore | skills/layer4-table.js:278-282 | painting two cell sets in turn equals painting their union |
| TableSkills.PaintTable | skills/layer4-table.js:274-283 | the nested loops paint every cell of the table |
| TableSkills.Table.constructor | skills/layer4-table.js:32-38 | a new table has every border set to the given line and no shading |
| TableSkills.Table.SetBorders | skills/layer4-table.js:130-193 | the borders change as `BordersAfter` says and the shading is untouched |
| TableSkills.Table.Shade | skills/layer4-table.js:260-284 | one cell is shaded iff it lies inside the table (else the skill throws); a row or the whole table is shaded as `Painted` says; the borders are untouched |
| TableSkills.WholeTableShading | skills/layer4-table.js:274-283 | after whole-table shading, every cell within rows x columns carries the colour and no other cell gains shading |
| TableSkills.Lines | skills/layer4-table.js:307-339 | a truthy index writes one row or column; otherwise rows or columns 1..count |
| TableSkills.HeadingFormat | skills/layer4-table.js:420 | the heading flag is -1 iff `repeat` is truthy, else 0 |
| ComparisonLog.StoreMeaning | format-comparison-log.js:24-26 | assigning a state key appends it only when new, and reading any key afterwards gives the new value for that key and the old value elsewhere |
| ComparisonLog.StateKeys | format-comparison-log.js:21-28 | after capturing the first n properties, the state's keys are exactly those properties |
| ComparisonLog.StateValues | format-comparison-log.js:21-28 | each captured property holds what reading it gave, or the "unreadable" text when reading threw; others are undefined |
| ComparisonLog.CaptureState | format-comparison-log.js:17-30 | no range gives an empty state; otherwise the loop's state is the specification state over all properties |
| ComparisonLog.ChangesOf | format-comparison-log.js:36-50 | there are never more changes than before-state keys |
| ComparisonLog.ChangesMeaning | format-comparison-log.js:38-50 | a property is reported changed iff it is a before-state key whose string forms differ (undefined counting as `''`), and each change carries those two strings |
| ComparisonLog.NoChangeWhenEqual | format-comparison-log.js:38-50 | comparing a state with itself reports no change |
| ComparisonLog.AfterOnlyIgnored | format-comparison-log.js:38 | keys present only in the after state never affect the changes |
| ComparisonLog.CreateEntry | format-comparison-log.js:35-61 | the entry is a success carrying the command id, skill, duration and the changes of the before keys; the description is the command's when non-empty, else the skill |
| ComparisonLog.MetricsEntry | format-comparison-log.js:164-171 | a metrics entry has no status, no effects and no warnings, and carries the run id |
| ComparisonLog.SummaryConsistent | format-comparison-log.js:176-217 | success plus failure and the zero-effect count never exceed the entries, and each run has at least as many steps as its successes plus failures |
| ComparisonLog.ZeroEffectCount | format-comparison-log.js:195-197 | the zero-effect count is the number of entries warning `SUCCESS_ZERO_EFFECT` |
| ComparisonLog.Summarize | format-comparison-log.js:176-217 | the loop's summary is the specification summary over all entries |
| ComparisonLog.MetricOf | format-comparison-log.js:125-155 | a metric has warnings iff the entry has some, and copies its error, effect count and run id |
| ComparisonLog.MetricsOf | format-comparison-log.js:120-159 | there are never more metrics than entries |
| ComparisonLog.OneMetricPerEntry | format-comparison-log.js:122-157 | exactly one metric per non-null entry, in order, skipping null entries |
| ComparisonLog.ExportMetrics | format-comparison-log.js:120-159 | the export loop gives the specification metrics |
| ComparisonLog.Log.constructor | format-comparison-log.js:12 | a new log is empty |
| ComparisonLog.Log.AddEntry | format-comparison-log.js:66-68 | the entry is appended and nothing else changes |
| ComparisonLog.Log.LogStructuredMetrics | format-comparison-log.js:164-171 | a metrics entry for the run is appended |
| ComparisonLog.Log.Clear | format-comparison-log.js:222-224 | the log becomes empty |
| ComparisonLog.Log.GetSummary | format-comparison-log.js:176-217 | the summary of the log's entries, which is consistent |
| ComparisonLog.Log.ExportStructuredMetrics | format-comparison-log.js:120-159 | one metric per non-null entry, in order |
| ComparisonLog.SummaryAfterAdd | format-comparison-log.js:187-215 | adding an entry updates the summary by exactly one summary step |
| ComparisonLog.SummaryPrefix | format-comparison-log.js:187-215 | later entries never change the summary of earlier ones |
| ComparisonLog.ChangeLines | format-comparison-log.js:81-85 | one `property: before -> after` line per change, in order |
| ComparisonLog.BreaksAppend | format-comparison-log.js:86 | the line breaks of a concatenation are the breaks of its parts |
| ComparisonLog.JoinBreaks | format-comparison-log.js:86 | joining n break-free lines with newlines gives n-1 breaks |
| ComparisonLog.FormatSummaryShape | format-comparison-log.js:73-87 | a failure reads `skill: 失败 - error`; no changes read `description: 无变化`; otherwise one line per change |
| ComparisonLog.ChatLines | format-comparison-log.js:100-105 | one change line per change, each indented by two spaces |
| ComparisonLog.ForChatShape | format-comparison-log.js:92-107 | a failure shows its error or `执行失败`; no changes show `无变化`; otherwise one indented line per change |
| ExecutionEngine.ResolveTarget | format-execution-engine.js:558-578 | a target other than the whole content is chosen iff the target is truthy and its type is one of the place types; index and span targets carry their own `index`, `from` and `to` |
| ExecutionEngine.RoleOutcomeMeaning | format-execution-engine.js:618-633 | a cache hit returns the cached indices; otherwise, after detection, the role resolves only to a non-empty list that is then cached, and fails with "role missing" otherwise |
| ExecutionEngine.ResolveRoleTarget | format-execution-engine.js:618-633 | the method's result and the cache's new state are the specification outcome |
| ExecutionEngine.HeadingRole | format-execution-engine.js:635-637 | the role for a heading level is `heading_` followed by the level |
| ExecutionEngine.HeadingRoleInjective | format-execution-engine.js:635-637 | distinct levels give distinct roles |
| ExecutionEngine.Limit | format-execution-engine.js:599 | the count at which the search stops is the least whole count reaching a positive occurrence |
| ExecutionEngine.Taken | format-execution-engine.js:595-607 | the search never keeps more matches than there are, and keeps at least one when there is one |
| ExecutionEngine.ResolveSearchTarget | format-execution-engine.js:580-613 | it fails with "not found" iff there is no match; otherwise it keeps the leading matches, at most as many as a positive occurrence asks for |
| ExecutionEngine.TakenWhole | format-execution-engine.js:599 | for a whole occurrence n the search keeps min(total, n) matches |
| ExecutionEngine.Dispatch | format-execution-engine.js:232-402 | it fails iff the skill is unregistered, or is not `custom.execute` and has no executor, with the matching error; `detect.` skills go straight to the queue; `custom.execute` runs the sandbox; any other registered skill with an executor runs on its role (OnRole of target.role) iff the target is truthy with type role, on its heading level (OnHeading of target.level) iff type heading_level, on its search (OnSearch of the target) iff type search, and otherwise on the resolved place of the target |
| ExecutionEngine.RelevantPropertiesCases | format-execution-engine.js:639-656 | properties are captured iff the skill is `custom.execute` or a `text.`, `paragraph.` or `page.` skill, with that family's list |
| ExecutionEngine.SnapshotMeaning | format-execution-engine.js:525-556 | the snapshot's keys are exactly the skill's relevant properties; skills without them capture nothing; a heading-level target is captured over the whole content |
| ExecutionEngine.CheckIndex | format-execution-engine.js:276-282 | a helper index passes iff it is a number within 1..count, and is then that number |
| ExecutionEngine.Pick | format-execution-engine.js:288-338 | the forwarded parameters hold exactly the named keys the caller defined, with the caller's values |
| ExecutionEngine.HelperOutcome | format-execution-engine.js:285-339 | a helper call succeeds iff its index and its arguments pass, on a paragraph within 1..count |
| ExecutionEngine.TouchedAtMostCalls | format-execution-engine.js:270-274 | no more paragraphs are touched than helper calls are made |
| ExecutionEngine.Sandbox.constructor | format-execution-engine.js:264-268 | the tracker starts with no calls, no touched paragraphs and every per-helper count at 0 |
| ExecutionEngine.Sandbox.Call | format-execution-engine.js:270-339 | a call whose index fails changes no count; otherwise it is tracked before its arguments are checked, and the skill runs only when the arguments pass |
| ExecutionEngine.Sandbox.Track | format-execution-engine.js:270-274 | one more call in total and for that helper, and the paragraph marked touched |
| ExecutionEngine.EffectWeight | format-execution-engine.js:467-473 | a user effect counts iff it is a non-zero number or `true`, never negatively |
| ExecutionEngine.ManualCount | format-execution-engine.js:465-474 | the manual effect count is non-negative and zero iff no user effect counts |
| ExecutionEngine.ManualEffectCount | format-execution-engine.js:465-474 | the loop gives the specification count |
| ExecutionEngine.DeltaWeight | format-execution-engine.js:481-515 | the document delta weighs zero iff nothing changed in paragraphs, tables, length or borders |
| ExecutionEngine.SummarizeCustomEffects | format-execution-engine.js:458-502 | the summary carries the helper counts, touched paragraphs, document delta and manual count, and its estimate is their sum |
| ExecutionEngine.EstimateEffectCount | format-execution-engine.js:504-520 | the estimate is never negative; recorded changes are counted as they are; no changes and no custom effects give 0 |
| ExecutionEngine.EstimateOfSummary | format-execution-engine.js:504-520 | for a custom step without property changes the estimate is the summary's estimate plus the helper calls, and is 0 iff nothing changed, no helper ran and no user effect counts |
| ExecutionEngine.ErrorEntry | format-execution-engine.js:193-202 | a failed step's entry is marked failed, carries the error and no changes, and no run id |
| ExecutionEngine.StepOf | format-execution-engine.js:106-207 | each step's result carries its index and skill, succeeds iff the command completed, and its entry carries the run id and step number |
| ExecutionEngine.ZeroEffectRule | format-execution-engine.js:146-160 | a completed step warns `SUCCESS_ZERO_EFFECT` iff its estimate is 0 and something was measured |
| ExecutionEngine.FailedStepOutsideRuns | format-execution-engine.js:193-203 | a failed step counts as a failure in the summary but in no run |
| ExecutionEngine.RunSteps | format-execution-engine.js:99-208 | one result and one log entry per command, in order, appended after the existing entries |
| ExecutionEngine.Application.constructor | format-execution-engine.js:76-77 | the host starts with the given screen-updating flag |
| ExecutionEngine.Engine.constructor | format-execution-engine.js:67 | no run is current |
| ExecutionEngine.Engine.Run | format-execution-engine.js:59-226 | screen updating is off during a non-empty run and restored afterwards; every command is recorded in order; the finished run id is returned and cleared |
| ExecutionEngine.Prefill | format-execution-engine.js:88-97 | the structure cache is pre-filled with a body detection iff some command targets a role or heading level |
| WpsAdapter.Cooldown | wps_adapter.js:31 | the cooldown is the option when it is a number, else 2000 ms |
| WpsAdapter.Round | wps_adapter.js:80-83 | `Math.round` gives the integer within half a unit of its argument |
| WpsAdapter.HealthRules | wps_adapter.js:103-138 | health is critical iff there were tasks, more than 10% failed, the average wait is within 30 s and no error is under a minute old; it is healthy iff no reason is given; a long wait or a recent error always gives a warning |
| WpsAdapter.ActionQueue.constructor | wps_adapter.js:14-23 | every counter starts at 0 and the error list empty |
| WpsAdapter.ActionQueue.Submit | wps_adapter.js:30-33 | submitting counts one more task at once and changes no other counter |
| WpsAdapter.ActionQueue.Settle | wps_adapter.js:35-70 | a settled task adds its wait when an earlier task ended; success adds one completion and its run time; failure adds one failure and keeps at most the 10 newest errors; each task's own outcome is handed back |
| WpsAdapter.ActionQueue.StatsOf | wps_adapter.js:78-97 | the average wait is 0 unless more than one task ran, the average task time is 0 unless one completed, and completed plus failed never exceed the number of tasks |
| WpsAdapter.ActionQueue.ResetStats | wps_adapter.js:143-151 | every counter is zeroed and the error list emptied |
| WpsAdapter.RecentAfterFailure | wps_adapter.js:55-61 | pushing an error onto the 10 newest and dropping the oldest when over 10 gives the 10 newest of the whole history |
| WpsAdapter.TrimmedAlready | wps_adapter.js:565 | a text with no outer blanks trims to itself |
| WpsAdapter.UpdateTextCases | wps_adapter.js:563-579 | a one-line value wrapped in `【】` or `[]` is unwrapped; a blank value becomes `【label】`; any other value is written trimmed |
| WpsAdapter.SyncRoundTrip | wps_adapter.js:333-345 | the sync path always writes a text wrapped in `【】`, and unwrapping it again gives back the core value (or the label) |
| WpsAdapter.IndexWhere | wps_adapter.js:1373 | a map lookup finds the first entry with the key, and finds none iff no entry has it |
| WpsAdapter.IndexWhereAppend | wps_adapter.js:1373-1376 | adding an entry keeps an existing key's position, and a new key goes last |
| WpsAdapter.IndexWhereSameKeys | wps_adapter.js:1375 | replacing entries without changing their keys keeps every lookup's position |
| WpsAdapter.KeepBestEntry | wps_adapter.js:1373-1376 | an offered entry replaces its key's entry iff there was none or it scores strictly higher; keys stay distinct and nothing new appears |
| WpsAdapter.GatheredSnoc | wps_adapter.js:1387-1398 | gathering one more offer is one more keep-best step |
| WpsAdapter.GatheredBest | wps_adapter.js:1367-1401 | a key is in the gathered table iff some offer had it, and its entry is the first offer with the highest score for that key; keys are distinct |
| WpsAdapter.GatheredFrom | wps_adapter.js:1367-1401 | every gathered entry is one of the offers |
| WpsAdapter.Insert | wps_adapter.js:1400-1401 | inserting adds exactly that element |
| WpsAdapter.SortBy | wps_adapter.js:1400-1401 | sorting is a permutation |
| WpsAdapter.InsertSorted | wps_adapter.js:1400-1401 | inserting into a sorted list keeps it sorted |
| WpsAdapter.SortBySorted | wps_adapter.js:1400-1401 | the sort orders by score descending, then by length descending |
| WpsAdapter.NormalizeText | wps_adapter.js:1344 | normalised text holds no whitespace |
| WpsAdapter.CandidateTable | wps_adapter.js:1381-1398 | pushing the fixed candidates and then each raw candidate equals pushing the whole offer list |
| WpsAdapter.PushStep | wps_adapter.js:1368-1377 | one `pushCandidateMeta` call is one keep-best step over the offers it accepts |
| WpsAdapter.TableGathers | wps_adapter.js:1367-1398 | the candidate map after all pushes is the keep-best table of the accepted offers |
| WpsAdapter.PushAll | wps_adapter.js:1387-1398 | the push loop gives the specification table |
| WpsAdapter.GatherCandidates | wps_adapter.js:1367-1401 | the method's candidate list is the specification list |
| WpsAdapter.CandidatesMeaning | wps_adapter.js:1367-1401 | the candidates are sorted, are exactly the gathered table's entries, have distinct keys, and hold a key iff some accepted offer had it, with its best entry |
| WpsAdapter.HasConflictControl | wps_adapter.js:1458-1472 | a conflict is found iff some control with another tag overlaps the range |
| WpsAdapter.Evaluate | wps_adapter.js:1533-1585 | a scored match keeps its range, candidate and kind, carries the conflict flag, and scores within -191..+136 of its base |
| WpsAdapter.ConflictPenalty | wps_adapter.js:1574 | a conflict costs exactly 120 points and changes nothing else |
| WpsAdapter.BothAnchorsBonus | wps_adapter.js:1556-1558 | with both anchors present and both checks passed, a match gains at least 110 points before the other adjustments |
| WpsAdapter.ScoreCandidate | wps_adapter.js:1616-1624 | scoring one candidate's matches is one more round of keep-best by position |
| WpsAdapter.MatchAll | wps_adapter.js:1612-1628 | the matching loops give the specification ranking |
| WpsAdapter.Decide | wps_adapter.js:1630-1700 | not found iff no match; conflict iff the best match conflicts; low confidence iff it scores below 85 (anchored) or 65 and the relaxed rule fails; otherwise ambiguous iff the best is a placeholder or anchor match that misses an anchor side and is within 20 (anchor) or 12 points of the runner-up; otherwise success iff the score suffices, and relaxed success iff only the relaxed rule passes |
| WpsAdapter.Verdict | wps_adapter.js:1630-1770 | the search succeeds iff the decision is success or relaxed success, and then a placement exists, the best match does not conflict, and relaxed is marked exactly when the score is below the minimum; an anchor match is placed as a collapsed range and saves no original text |
| WpsAdapter.FindTag | wps_adapter.js:1596-1610 | the tag is found iff some control carries it |
| WpsAdapter.InsertControlBySearch | wps_adapter.js:1343-1777 | the whole search equals the specification outcome for the parsed context and candidates |
| WpsAdapter.Search | wps_adapter.js:1587-1777 | the search method equals the specification outcome |
| WpsAdapter.EmbedOnlyWhenSafe | wps_adapter.js:1596-1770 | a successful embed means the tag was not already present and the best match overlaps no control of another tag |
| WpsAdapter.ScoredAllConflicts | wps_adapter.js:1615-1625 | every scored match's conflict flag is the conflict test on its range |
| WpsAdapter.ScoredOfConflicts | wps_adapter.js:1617-1624 | every match of one candidate carries the conflict test on its range |
| AiSkill.SplitWhere | ai-skill.js:45-50 | splitting gives at least one piece and no piece holds a separator |
| AiSkill.NonEmptyTrimmed | ai-skill.js:45-50 | after trimming and dropping empties, every piece is non-empty with no outer blanks |
| AiSkill.LinesOf | ai-skill.js:44-51 | the lines are non-empty and trimmed: split at line breaks, or at Chinese sentence ends when one over-long line remains |
| AiSkill.JoinSnoc | ai-skill.js:69-92 | joining one more part appends the separator and the part |
| AiSkill.ChunksConcat | ai-skill.js:62-93 | the greedy groups, read in order, give back the open group followed by the lines still to come |
| AiSkill.ChunksFit | ai-skill.js:66-87 | every greedy group is either one line of at least `chunkSize` or lines whose newline join fits in `chunkSize` |
| AiSkill.GreedyChunked | ai-skill.js:57-93 | the greedy groups of the lines partition them in order within the size rule |
| AiSkill.ChunksSeparatorCount | ai-skill.js:79-86 | the running length counts a separator after a joined line but not after a line that opened a group: with size 5, `ab`, `cd`, `ef` are cut as `ab` and `cd\nef` |
| AiSkill.GroupLines | ai-skill.js:57-93 | the grouping loop returns exactly the newline joins of the greedy groups: a line of at least `chunkSize` stands alone, a new group opens only when a non-zero running length plus the line and one separator exceeds `chunkSize` |
| AiSkill.DocumentChunksMeaning | ai-skill.js:37-101 | an empty or short text, or one without lines, is one chunk; otherwise the chunks are the greedy groups of its lines, which hold those lines in order within the size rule |
| AiSkill.ChunkDocument | ai-skill.js:37-101 | `chunkDocument` returns the chunks of the specification function, whose meaning the lemma above states |
| AiSkill.BeatsStrictOrder | ai-skill.js:268-273 | the replacement rule (higher known confidence, or equal confidence lookups, unknown ones included, and a lower layer) never lets a variable beat itself, and is transitive when the layers are all strings or all not strings |
| AiSkill.MixedLess | ai-skill.js:273 | `<` on layers compares two strings by code point and a string with a number numerically: `"10" < "9"`, `"9" < 9.5`, `9.5 < "10"` |
| AiSkill.MixedLayersNotTransitive | ai-skill.js:263-278 | with layers 9.5, `"10"` and `"9"` under one tag, the merge keeps only the last although the second beats it |
| AiSkill.UnknownConfidenceLayerDecides | ai-skill.js:269-273 | two unknown confidences (`高`) both look up `undefined`, which compare equal, so the lower layer replaces the survivor |
| AiSkill.DedupStep | ai-skill.js:257-283 | one merge step keeps the index from each tag to its survivor's position |
| AiSkill.DedupBy | ai-skill.js:253-292 | the merge keeps the tag index exact |
| AiSkill.DedupSkeleton | ai-skill.js:257-283 | the merged list has one entry per untagged item and per first occurrence of a tag, in order; an untagged item stays as it was |
| AiSkill.DedupSeen | ai-skill.js:263-280 | a tag is indexed iff some variable carries it |
| AiSkill.DedupFrom | ai-skill.js:257-283 | every survivor is one of the inputs, and no tag survives twice |
| AiSkill.DedupBest | ai-skill.js:263-278 | when the replacement rule is irreflexive and transitive on the inputs, no variable with a tag beats that tag's survivor |
| AiSkill.DeduplicateVariables | ai-skill.js:253-292 | the loop's result is the specification merge |
| AiSkill.DedupVariablesMeaning | ai-skill.js:253-292 | the variables are merged by tag: never more than the input, all taken from it, each tag kept once; when the layers are all strings or all not strings, nothing beats a survivor on confidence, then layer |
| SkillEvolution.StatusName | skill-evolution-manager.js:22-28 | every status has a non-empty name |
| SkillEvolution.StatusNameInjective | skill-evolution-manager.js:22-28 | distinct statuses have distinct names |
| SkillEvolution.CandidateFrom | skill-evolution-manager.js:45-83 | a candidate is made iff the step is a `custom.execute` whose result reports success and whose effect count is truthy; it starts as a draft with no reports and no failures |
| SkillEvolution.Validated | skill-evolution-manager.js:155-196 | each validation adds one report and one failure (the success rate is always 0), and the candidate is deprecated iff the failures reach 3, else a draft |
| SkillEvolution.ThreeStrikes | skill-evolution-manager.js:184-195 | a fresh draft stays a draft after one and two validations and is deprecated by the third |
| SkillEvolution.Listed | skill-evolution-manager.js:238-251 | the list never exceeds the index |
| SkillEvolution.ListedMeaning | skill-evolution-manager.js:238-251 | a candidate is listed iff the index names it, it is stored, and it passes the status filter |
| SkillEvolution.ListCandidates | skill-evolution-manager.js:238-251 | the loop gives the specification list |
| SkillEvolution.Present | skill-evolution-manager.js:297-302 | no more candidates are counted than the index names |
| SkillEvolution.CountByStatus | skill-evolution-manager.js:297-302 | a status appears in the counts iff some listed candidate has it, with that many candidates |
| SkillEvolution.CountsSum | skill-evolution-manager.js:297-302 | the per-status counts add up to the stored candidates the index names |
| SkillEvolution.PresentAll | skill-evolution-manager.js:293-302 | with every index entry stored, every entry is counted |
| SkillEvolution.StatsAddUp | skill-evolution-manager.js:292-304 | with every index entry stored, the per-status counts add up to the total |
| SkillEvolution.FirstIndex | skill-evolution-manager.js:262 | `indexOf` finds the first position of the id, or reports that it is absent |
| SkillEvolution.RemoveFirst | skill-evolution-manager.js:262-265 | removing drops one entry when the id is present and changes nothing otherwise; no other id is lost |
| SkillEvolution.RemoveFirstDistinct | skill-evolution-manager.js:259-265 | in an index without repeats, removal leaves no trace of the id |
| SkillEvolution.Operations | skill-evolution-manager.js:109-121 | each detected operation comes from a marker that occurs in the code |
| SkillEvolution.OperationsMeaning | skill-evolution-manager.js:109-121 | an operation is detected iff its marker occurs in the code |
| SkillEvolution.ExtractTemplate | skill-evolution-manager.js:94-138 | the skill name is `custom.` with the detected operations joined by `_`, or `custom.general`; the description is the prompt's first 200 characters; there are no parameters |
| SkillEvolution.TemplateOperations | skill-evolution-manager.js:110-121 | each of the four markers is reported exactly when it occurs in the code |
| SkillEvolution.GenerateSpec | skill-evolution-manager.js:141-152 | the spec is layer 6, keeps the id and source, and always has a skill name and parameters |
| SkillEvolution.SpecKeepsTemplate | skill-evolution-manager.js:94-152 | a spec generated from an extracted template keeps its skill name, description and empty parameters |
| SkillEvolution.Manager.constructor | skill-evolution-manager.js:31-32 | the store and the index start empty |
| SkillEvolution.Manager.Collect | skill-evolution-manager.js:45-91 | a collected candidate is stored under its id and appended to the index; a rejected step changes nothing |
| SkillEvolution.Manager.Validate | skill-evolution-manager.js:155-196 | an unknown id throws "Candidate not found"; otherwise validation never passes and the candidate is updated as `Validated` says |
| SkillEvolution.Manager.Publish | skill-evolution-manager.js:199-221 | publishing always fails: an unknown id or an unapproved candidate throws; an approved candidate would be marked published and then fail on its missing spec |
| SkillEvolution.Manager.Deprecate | skill-evolution-manager.js:224-235 | an unknown id throws; otherwise the candidate is deprecated with the reason |
| SkillEvolution.Manager.GetCandidates | skill-evolution-manager.js:238-251 | the specification list over the store |
| SkillEvolution.Manager.GetCandidate | skill-evolution-manager.js:254-256 | the stored candidate, or null when the id is unknown |
| SkillEvolution.Manager.Delete | skill-evolution-manager.js:259-270 | it reports true iff the id was stored, and then removes it from the store and its first index entry |
| SkillEvolution.Manager.GetStats | skill-evolution-manager.js:292-304 | the total is the index length and the per-status counts are exact |
| FormatChat.MetaField | format-chat.js:47-52 | a turn copies a metadata field iff the metadata and that field are truthy, and then copies it unchanged |
| FormatChat.TurnOf | format-chat.js:41-52 | a turn keeps its role and content and carries skill, result, error and intent exactly when the metadata gives them truthy |
| FormatChat.ContextOf | format-chat.js:65-79 | the AI context is the role and content of each of the last 30 turns, in order |
| FormatChat.Session.constructor | format-chat.js:29-33 | a session starts with no turns, no last intent and no last plan summary |
| FormatChat.Session.AppendTurn | format-chat.js:41-59 | the turn joins the history, the kept turns never exceed 30 and end with the new turn, and nothing else changes |
| FormatChat.Session.BuildContext | format-chat.js:65-79 | the loop gives the specification context of the kept turns |
| FormatChat.Session.Clear | format-chat.js:85-90 | turns, last intent and last plan summary are all cleared |
| FormatChat.ContextOfHistory | format-chat.js:53-69 | the context of the kept turns is the context of the whole history: dropping the oldest turns loses nothing the AI would see |
| FormatChat.ContextEndsWithLatest | format-chat.js:53-76 | the context always ends with the newest turn |
| FormatChat.IssuesWithCode | format-chat.js:243-249 | the filter keeps exactly the errors with the code, never more than there are |
| FormatChat.BannedApiName | format-chat.js:245 | each banned API name is non-empty: the reported API, or `unknown` |
| FormatChat.FirstOccurrences | format-chat.js:252-254 | the policy hints are the non-empty hints, each once |
| FormatChat.FirstOccurrencesOrder | format-chat.js:252-254 | the kept hints appear in the order of their first occurrences: the first index of each kept hint strictly increases along the result |
| FormatChat.RetryPatch | format-chat.js:239-255 | banned APIs are added iff none were banned before and some error is `UNSAFE_CODE`, and are then the `bannedApi \|\| 'unknown'` of each such error in order; built-in skills are forced iff not forced before and some error is `CUSTOM_NOT_FALLBACK`, with the `policyHint \|\| ''` of each such error reduced to its first occurrences |
| FormatChat.MapMembers | format-chat.js:245-253 | a mapped list holds exactly the images of the list's members |
| FormatChat.RetryRaisesLevel | format-chat.js:257-266 | every retry strictly raises the retry context's level |
| FormatChat.Attempts | format-chat.js:152-292 | a request makes at least one attempt and at most as many as the retry levels still open allow |
| FormatChat.AtMostTwoRetries | format-chat.js:152-292 | a fresh request is sent to the AI at most three times |
| FormatChat.RetryPrefixes | format-chat.js:195-204 | one prefix per active correction, the banned-API one first and the policy one last |
| FormatChat.AiTextKeepsMessage | format-chat.js:194-207 | the AI text always ends with the user's text, and equals it iff no correction is active |
| FormatChat.CountTrue | format-chat.js:380-381 | a count never exceeds the results |
| FormatChat.SummaryOf | format-chat.js:379-384 | the summary's total is the number of results and success plus failed make the total |
| FormatChat.CountsPartition | format-chat.js:380-381 | successes and failures partition the results |
| FormatChat.PlanHolder.constructor | format-chat.js:25 | no plan is pending |
| FormatChat.PlanHolder.Offer | format-chat.js:283 | the compiled plan becomes the pending plan |
| FormatChat.PlanHolder.Execute | format-chat.js:297-398 | the pending plan is taken and cleared; nothing runs iff none was pending, otherwise the summary counts its run |
| FormatChat.PlanHolder.Cancel | format-chat.js:403-410 | the pending plan is cleared |
| FormatChat.ReplaceCharAppend | format-chat.js:691-695 | replacing a character distributes over concatenation |
| FormatChat.EscapeChainAppend | format-chat.js:690-695 | the replace chain distributes over concatenation |
| FormatChat.EscapeChainChar | format-chat.js:690-695 | on one character the replace chain gives that character's escape |
| FormatChat.ChainTail | format-chat.js:693-695 | for a character other than `&` and `<`, the later replacements give its escape |
| FormatChat.StagesAfterLt | format-chat.js:693-695 | the later replacements leave a text without `>`, `"` and newlines unchanged |
| FormatChat.ReplaceCharsAbsent | format-chat.js:692-695 | the replacements after `&` leave a text without their characters unchanged |
| FormatChat.ReplaceCharNone | format-chat.js:691-695 | replacing an absent character changes nothing |
| FormatChat.ReplaceCharSingle | format-chat.js:691-695 | on one character a replacement gives its text or the character |
| FormatChat.EscapeHtmlPerChar | format-chat.js:688-696 | the chained replacements escape each character on its own |
| FormatChat.EscapeRoundTrip | format-chat.js:688-696 | unescaping the escaped text gives the original back |
| FormatChat.EscapeEachRoundTrip | format-chat.js:688-696 | unescaping a per-character escape gives the original back |
| FormatChat.UnescapeChar | format-chat.js:691-695 | unescaping an escaped character consumes exactly that escape |
| FormatChat.NotPrefix | format-chat.js:691-695 | a text that differs from an escape within it does not start with that escape |
| FormatChat.EscapedIsSafe | format-chat.js:688-696 | escaped text holds no `"` or newline, and no `<` or `>` when the input had no newline |
| FormatChat.EscapeEachSafe | format-chat.js:688-696 | the per-character escape holds no `"` or newline, and no `<` or `>` when the input had no newline |
| AiParser.VarCheck.Errors | ai-parser.js:40-85 | a variable's error list is empty exactly when every check passes, and it names a missing required field exactly when that field is missing |
| AiParser.Unfilled | ai-parser.js:45-50 | the missing fields are exactly the required fields whose value is absent, null or empty, in their listed order |
| AiParser.CheckProps | ai-parser.js:40-78 | each outcome holds exactly when its condition does: missing fields, no prefix, no suffix, a type or mode outside the allowed lists, a choice variable without options, an unknown formatFn (a warning only); a variable is valid exactly when none of the error conditions holds |
| AiParser.AtMostTwelveErrors | ai-parser.js:40-85 | one variable yields at most twelve error messages (seven missing fields plus five other checks) |
| AiParser.ValidateVariable | ai-parser.js:40-85 | validation fails with the `in` operator's TypeError exactly when the variable is not an object; otherwise it returns the variable's check record |
| AiParser.VariableErrors | ai-parser.js:113-121 | there is at most one error entry per variable |
| AiParser.VariableErrorsMeaning | ai-parser.js:113-121 | there are no variable errors exactly when every variable passes, and each entry names a failing variable by its 1-based index together with that variable's own errors |
| AiParser.FormatWarnings | ai-parser.js:113-121 | there is at most one formatFn warning per variable |
| AiParser.FormatWarningsMeaning | ai-parser.js:113-121 | a 1-based index is warned about exactly when that variable's formatFn is not in the known list |
| AiParser.Passing | ai-parser.js:244-258 | the kept variables are never more than the input ones |
| AiParser.PassingMeaning | ai-parser.js:244-258 | a variable is kept exactly when it is in the input and passes validation |
| AiParser.PassingAll | ai-parser.js:244-264 | every variable is kept, so no skip warning arises, exactly when every variable passes |
| AiParser.ScanStep | ai-parser.js:113-121 | validating one more variable advances the scan record by exactly that variable's outcome |
| AiParser.ScanVariables | ai-parser.js:113-121 | the loop throws the `in` TypeError exactly when some variable is not an object, and otherwise ends with the scan record of the whole list |
| AiParser.OutputValidIff | ai-parser.js:92-128 | the AI output is valid exactly when it is an object with a `variables` array and every variable passes validation |
| AiParser.ValidateAIOutput | ai-parser.js:92-128 | the validation result is the specified one: errors for a missing output or a non-array `variables`, plus per-variable errors and warnings |
| AiParser.FieldId | ai-parser.js:137-139 | the field id has the tag's length, lower-cases the first character and keeps the rest |
| AiParser.OrElse | ai-parser.js:146-185 | a `\|\|` default gives the value when it is truthy and the fallback otherwise |
| AiParser.FieldFormat | ai-parser.js:148-159 | a field keeps its formatFn only when it is known or falsy and is not "none"; an unknown formatFn or "none" becomes null |
| AiParser.ConvertVariable | ai-parser.js:146-185 | conversion succeeds exactly when the tag is a string, and the field carries that tag, the id derived from it, the filtered formatFn, the paragraph toggle exactly for paragraph mode, and the AI context with its defaults |
| AiParser.GroupVariables | ai-parser.js:192-215 | all variables go, converted in order, into one default section; a conversion failure is passed on |
| AiParser.CountWith | ai-parser.js:283-300 | a count of variables with a given field value never exceeds the number of variables |
| AiParser.StatsOf | ai-parser.js:283-300 | the stats count every valid variable and every skipped one, with three layer buckets, two mode buckets and one bucket per known type |
| AiParser.ParseAIOutput | ai-parser.js:224-319 | the parse result is the specified one |
| AiParser.ParseMeaning | ai-parser.js:224-319 | a successful parse has a truthy output with variables, keeps exactly the valid variables (at least one), builds a configuration exactly when not validate-only, holding one section whose fields are the kept variables converted in order, and its stats add up valid and skipped to the input count |
| AiParser.WarningsMeaning | ai-parser.js:113-264 | the parse warns about the unknown formatFn of exactly the variables that have one, and reports skipped variables exactly when some variable fails validation |
| AiParser.EmbedOf | ai-parser.js:369-385 | an embed entry copies, in order, the variable's tag, label, context, prefix, placeholder, suffix, mode, type, formatFn, layer and confidence (absent ones as undefined), and reading them from a null variable throws |
| AiParser.GenerateEmbedInfo | ai-parser.js:369-385 | a missing output or falsy variables give an empty list; otherwise the variables are an array and there is one embed entry per variable, in order |
| ValidateOutput.ExitCode | contract-template-transformation-skill/scripts/validate_output.js:19-37 | the exit code is 0 exactly for a passing run and 2 exactly when the file could not be read or parsed; failures and crashes give 1 |
| ValidateOutput.MissingKeysMeaning | contract-template-transformation-skill/scripts/validate_output.js:48-50 | the missing keys are exactly the required keys the variable lacks, each reported once |
| ValidateOutput.FailuresMeaning | contract-template-transformation-skill/scripts/validate_output.js:48-63 | every failure of a variable names that variable, and each kind of failure (missing field, duplicate tag, invalid type, formatFn or mode, missing options) is reported exactly when the check record holds it |
| ValidateOutput.CheckOfMissing | contract-template-transformation-skill/scripts/validate_output.js:48-50 | the check record's missing fields are exactly the required fields absent from the variable, without repeats |
| ValidateOutput.CheckOfValues | contract-template-transformation-skill/scripts/validate_output.js:52-59 | a duplicate is recorded exactly when the tag is a string already seen; an invalid type, formatFn or mode exactly when the value is truthy and outside its allowed set |
| ValidateOutput.VariableFailuresAbout | contract-template-transformation-skill/scripts/validate_output.js:45-63 | every failure reported for variable i names variable i |
| ValidateOutput.ScanStep | contract-template-transformation-skill/scripts/validate_output.js:45-64 | checking one more variable advances the scan by exactly that variable's failures and its tag |
| ValidateOutput.ScanSeen | contract-template-transformation-skill/scripts/validate_output.js:44-55 | after a scan the seen tags are exactly the string tags of the scanned variables |
| ValidateOutput.ScanVariables | contract-template-transformation-skill/scripts/validate_output.js:44-64 | the loop crashes exactly when some variable is not an object, at the first such one, keeping the failures of the variables before it; otherwise it ends with the scan of the whole list |
| ValidateOutput.FirstNonObject | contract-template-transformation-skill/scripts/validate_output.js:45-49 | the crash position is the first variable that is not an object, and there is none exactly when all are objects |
| ValidateOutput.Validate | contract-template-transformation-skill/scripts/validate_output.js:24-68 | the run's failures and outcome are the specified report |
| ValidateOutput.FailureAt | contract-template-transformation-skill/scripts/validate_output.js:45-64 | a failure about variable j is in the scan exactly when j is in range and the check of variable j against the tags seen before it yields it |
| ValidateOutput.CheckAbout | contract-template-transformation-skill/scripts/validate_output.js:45-63 | the per-variable check only reports failures about the variable it checks |
| ValidateOutput.NoRootFailureInScan | contract-template-transformation-skill/scripts/validate_output.js:39-64 | the root failure never arises from the per-variable scan |
| ValidateOutput.RootFailure | contract-template-transformation-skill/scripts/validate_output.js:39-42 | a parsed document without a variables array fails with the root failure alone, and the root failure appears exactly then |
| ValidateOutput.PassedIff | contract-template-transformation-skill/scripts/validate_output.js:66-67 | a run passes exactly when the file parsed, no failure was reported and nothing crashed, and then it counts every variable |
| ValidateOutput.SeenBefore | contract-template-transformation-skill/scripts/validate_output.js:44-55 | a tag is seen before position j exactly when some earlier variable has it as its string tag |
| ValidateOutput.DuplicateAt | contract-template-transformation-skill/scripts/validate_output.js:52-54 | variable j is a duplicate with tag t exactly when its tag is t and an earlier variable has tag t |
| ValidateOutput.DuplicateIff | contract-template-transformation-skill/scripts/validate_output.js:52-55 | the whole scan reports variable j as a duplicate of t exactly when its string tag t already appeared at an earlier position |
| ValidateOutput.MissingIff | contract-template-transformation-skill/scripts/validate_output.js:48-50 | the scan reports a missing field for variable j exactly when that required key is not in the variable, each key at most once |
| ValidateOutput.InvalidValueIff | contract-template-transformation-skill/scripts/validate_output.js:57-59 | the scan reports an invalid type, formatFn or mode for variable j exactly when that value is truthy and outside its allowed set |
| ValidateOutput.OptionsMissingOf | contract-template-transformation-skill/scripts/validate_output.js:61-63 | a variable lacks options exactly when its type is select or radio and its options are not a non-empty array |
| ValidateOutput.OptionsIff | contract-template-transformation-skill/scripts/validate_output.js:61-63 | the scan reports missing options for variable j exactly when its type is select or radio and its options are not a non-empty array |
| KimiBridge.DropLeadingQuotes | kimi-analyze-server.js:21 | the result is the text with exactly its leading run of quotes removed: every character dropped is a quote and the result does not start with one |
| KimiBridge.DropTrailingQuotes | kimi-analyze-server.js:21 | the result is the text with exactly its trailing run of quotes removed: every character dropped is a quote and the result does not end with one |
| KimiBridge.FirstSpace | kimi-analyze-server.js:24 | the position of the first whitespace character, every character before it being non-space |
| KimiBridge.SanitizeEnv | kimi-analyze-server.js:19-25 | a missing value gives the empty string; otherwise the result is the longest whitespace-free prefix of the trimmed value with its surrounding quote runs removed |
| KimiBridge.SanitizeEnvToken | kimi-analyze-server.js:19-25 | a value with no whitespace and no quote is returned unchanged |
| KimiBridge.ParseBoolEnvMeaning | kimi-analyze-server.js:32-38 | an unset variable gives the fallback, and the result differs from the fallback only when the sanitised value is, case-insensitively, one of the words of the opposite truth value |
| KimiBridge.ShouldRetryRequest | kimi-analyze-server.js:156-164 | with a status code, a retry happens exactly for 408, 409, 429 and 500-599; with no status and no message, never |
| KimiBridge.NoRetryOnClientError | kimi-analyze-server.js:156-159 | any other 4xx status is not retried |
| KimiBridge.ResolveTemperature | kimi-analyze-server.js:137-154 | a model whose trimmed lower-cased name contains kimi-k2.5 always gets temperature 1; any other model keeps the requested temperature |
| KimiBridge.FirstNonBlank | kimi-analyze-server.js:271-276 | the first string argument that is not blank is chosen, every earlier one being blank; none is chosen exactly when all are blank |
| KimiBridge.FirstNonEmpty | kimi-analyze-server.js:271-276 | the result is the trimmed first non-blank string argument, and it is empty exactly when every argument is blank |
| KimiBridge.DropNul | kimi-analyze-server.js:280 | removing NUL characters never lengthens the text and leaves none |
| KimiBridge.TrimKeeps | kimi-analyze-server.js:280 | trimming never brings back a character the text does not hold |
| KimiBridge.SanitizeText | kimi-analyze-server.js:278-281 | the result is the leading part, at most maxLen long, of the trimmed text without NULs; a text that fits is kept whole, and no NUL remains |
| KimiBridge.CleanTextUnchanged | kimi-analyze-server.js:278-281 | a text that is already trimmed, NUL-free and short enough passes through unchanged |
| KimiBridge.FilterAll | kimi-analyze-server.js:280-281 | removing characters no character matches leaves the text unchanged |
| KimiBridge.OptionText | kimi-analyze-server.js:379-382 | one option text is at most 80 characters long |
| KimiBridge.NonEmpty | kimi-analyze-server.js:381 | filtering by truthiness keeps exactly the non-empty texts, in order |
| KimiBridge.NonEmptyAll | kimi-analyze-server.js:381 | a list without empty texts is kept whole |
| KimiBridge.NonEmptyMapBounded | kimi-analyze-server.js:381 | the kept texts of a map bounded by some length are non-empty and within that bound |
| KimiBridge.NormalizeOptions | kimi-analyze-server.js:379-382 | a non-array gives no options; otherwise at most 50 options, each non-empty and at most 80 characters |
| KimiBridge.OptionTextClean | kimi-analyze-server.js:381 | a clean string option of at most 80 characters is kept as it is |
| KimiBridge.NormalizeOptionsClean | kimi-analyze-server.js:379-382 | at most 50 clean string options come back unchanged |
| KimiBridge.DropTrailingColons | kimi-analyze-server.js:370 | the result is the text with exactly its trailing run of ASCII and full-width colons removed |
| KimiBridge.ExplicitLabel | kimi-analyze-server.js:367-368 | no explicit label is taken exactly when the raw label is not a non-blank string |
| KimiBridge.InferLabel | kimi-analyze-server.js:366-377 | an explicit label is sanitised to 120 characters; else the sanitised prefix without its trailing colons when that is non-empty; else the context, as the next row states; when prefix and context both give nothing, 字段{index+1} |
| KimiBridge.InferLabelFromContext | kimi-analyze-server.js:373-374 | with no explicit label and no usable prefix but a context, the label is exactly the first min(24, n) characters of the sanitised context, and is not empty |
| KimiBridge.RunOf | kimi-analyze-server.js:117 | the run of a character at a position is maximal: all its characters are that character and the next one is not |
| KimiBridge.MatchAt | kimi-analyze-server.js:117 | a placeholder-pattern match at a position is non-empty and lies inside the text |
| KimiBridge.FirstMatchFrom | kimi-analyze-server.js:117 | the match found is the leftmost one: it matches at its start and no earlier position matches; none is found exactly when no position matches |
| KimiBridge.ExplicitMarker | kimi-analyze-server.js:117 | an explicit marker is a non-empty piece of the text |
| KimiBridge.MarkerExamples | kimi-analyze-server.js:117 | two underscores form a marker and a single underscore does not |
| KimiBridge.DetectPlaceholderMarker | kimi-analyze-server.js:299-320 | the marker is explicit exactly when the placeholder pattern matches or a colon is followed by two spaces or by spaces to the end; an explicit marker is non-empty and otherwise the marker is empty, and a pattern match is a piece of the text |
| KimiBridge.GuessType | kimi-analyze-server.js:322-330 | the guessed type is a known type and never a choice type, and it is date exactly when the text has a date hint |
| KimiBridge.NormalizeType | kimi-analyze-server.js:332-336 | the type is always a known one, and a known trimmed value is kept |
| KimiBridge.NormalizeFormatFn | kimi-analyze-server.js:338-343 | the formatter is always a known one, and a known trimmed value is kept |
| KimiBridge.NormalizeMode | kimi-analyze-server.js:345-349 | the mode is always a known one, and it is paragraph exactly when the trimmed value is paragraph |
| KimiBridge.CollapseSpaces | kimi-analyze-server.js:388-389 | collapsing whitespace runs never lengthens the text |
| KimiBridge.Compact | kimi-analyze-server.js:388-389 | the compacted text is never longer than the original |
| KimiBridge.ShortHintedKept | kimi-analyze-server.js:384-399 | a variable with a dynamic hint whose placeholder and context are at most 120 characters is kept |
| KimiBridge.GetWithin | kimi-analyze-server.js:283-297 | a property value lies strictly inside its object |
| KimiBridge.NormalizeList | kimi-analyze-server.js:283-297 | a top-level array is the list itself, and any non-empty list found lies inside the parsed value |
| KimiBridge.WithinTrans | kimi-analyze-server.js:292-294 | lying inside a nested output object carries through the nesting |
| KimiBridge.WordOnly | kimi-analyze-server.js:352 | every character outside [A-Za-z0-9_] becomes an underscore and every other character is kept, so the length is kept |
| KimiBridge.FieldTag | kimi-analyze-server.js:353 | the default tag Field_n is a well-formed tag |
| KimiBridge.BaseTag | kimi-analyze-server.js:351-354 | the base tag is well formed; a word tag that starts with a letter or underscore is kept, one that starts otherwise (a digit) gets Field_ in front, and an empty one becomes Field_{index+1} |
| KimiBridge.Suffixed | kimi-analyze-server.js:359-360 | a numbered suffix keeps a tag well formed |
| KimiBridge.SuffixedInjective | kimi-analyze-server.js:359-360 | different counters give different suffixed tags |
| KimiBridge.FirstFreeUnique | kimi-analyze-server.js:356-363 | the first free tag for a base is unique |
| KimiBridge.CandidateInjective | kimi-analyze-server.js:356-363 | the candidate tags for counters from 2 on are all different |
| KimiBridge.UsedTags.constructor | kimi-analyze-server.js:456 | a fresh tag set is empty |
| KimiBridge.UsedTags.Normalize | kimi-analyze-server.js:351-364 | the tag returned is the first free one for the base tag (the base itself or base_2, base_3, ...), well formed and not used before, and it alone joins the used tags |
| KimiBridge.UsedTags.NormalizeEmpty | kimi-analyze-server.js:351-364 | with Field_{index+1} unused, an empty value gets that tag, and it joins the used tags |
| KimiBridge.UsedTags.NormalizeVariable | kimi-analyze-server.js:401-445 | a variable is dropped exactly when its draft is not kept; a kept variable is its draft with a tag that is well formed, the first free one for its tag source and new, and it alone joins the used tags; the used tags always grow |
| KimiBridge.UsedTags.TagDraft | kimi-analyze-server.js:428-444 | a draft is dropped exactly when it is not kept; a kept one gets the first free tag for its source, which alone joins the used tags |
| KimiBridge.UsedTags.NormalizeAll | kimi-analyze-server.js:500-507 | the normalised list is the kept drafts in order, each with a tag filled in, all well shaped and with distinct tags |
| KimiBridge.FieldValues | kimi-analyze-server.js:420-430 | a variable object carries one value per required property |
| KimiBridge.WellShapedPassesPlugin | kimi-analyze-server.js:420-527 | a well-shaped variable passes the add-in's own variable validation exactly when its label is not empty |
| KimiBridge.ReadsPassPlugin | kimi-analyze-server.js:420-527 | any object that carries a well-shaped variable passes the add-in's variable validation exactly when its label is not empty |
| KimiBridge.FilledLabel | kimi-analyze-server.js:424 | the label property is filled exactly when the variable's label is not empty |
| KimiBridge.FilledTexts | kimi-analyze-server.js:421-425 | a well-shaped variable's context, placeholder and tag properties are filled |
| KimiBridge.FilledChoices | kimi-analyze-server.js:426-428 | a well-shaped variable's type, formatFn and mode properties are filled |
| KimiBridge.RequiredFilled | kimi-analyze-server.js:519-527 | when every other requirement of the add-in's validation holds, the variable is valid exactly when its label is filled |
| KimiBridge.OtherReads | kimi-analyze-server.js:420-434 | a well-shaped variable has a prefix and a suffix, a known type and mode, and options whenever it is a choice type |
| KimiBridge.ToValueReads | kimi-analyze-server.js:420-434 | the object written for a variable carries that variable |
| KimiBridge.BaseReads | kimi-analyze-server.js:420-430 | each required property of the written object reads back as the variable's value for it |
| KimiBridge.NoOptionsRead | kimi-analyze-server.js:420-430 | the base object has no options property |
| KimiBridge.Or | kimi-analyze-server.js:404-421 | a `\|\|` default chooses one of its operands, the first when it is truthy |
| KimiBridge.Downgrade | kimi-analyze-server.js:415-418 | the type is a choice type exactly when it was one and options exist; a known type stays known |
| KimiBridge.TextsOf | kimi-analyze-server.js:404-409 | the context is at most 600 characters, the prefix and suffix at most 220, the raw placeholder at most 600 |
| KimiBridge.ShownContext | kimi-analyze-server.js:421 | the context shown is never empty, and a non-empty context is kept |
| KimiBridge.PlaceholderOf | kimi-analyze-server.js:410-411 | the placeholder is never empty, and a non-empty raw placeholder is kept |
| KimiBridge.DraftOf | kimi-analyze-server.js:401-445 | a draft has no tag yet, a non-empty context and placeholder, a known type, formatter and mode, and options exactly when its type is a choice |
| KimiBridge.DraftOptions | kimi-analyze-server.js:415-434 | a choice-type draft carries the normalised options of its source |
| KimiBridge.DraftKept | kimi-analyze-server.js:436-444 | a paragraph-mode variable, or one whose raw placeholder holds an explicit marker, is kept |
| KimiBridge.DraftDropped | kimi-analyze-server.js:384-444 | a variable in insert mode with no marker in its placeholder or texts and no dynamic hint in its label or context is dropped |
| KimiBridge.UnifyNewlines | kimi-analyze-server.js:449-450 | after unifying line ends no carriage return is left |
| KimiBridge.Lines | kimi-analyze-server.js:448-453 | the fallback's lines are all non-empty |
| KimiBridge.SplitAt | kimi-analyze-server.js:468-477 | when the marker occurs the prefix, the marker and the suffix make up the line; otherwise the whole line is the prefix |
| KimiBridge.LineVariable | kimi-analyze-server.js:465-492 | a fallback variable at position n has the tag Field_{n+1}, insert mode, no options, a placeholder, a known non-choice type and a known formatter |
| KimiBridge.GuessedKind | kimi-analyze-server.js:480 | the guessed type is known and never a choice type |
| KimiBridge.GuessedFormat | kimi-analyze-server.js:489 | the guessed formatter is known, and it is dateUnderline exactly when the hint has a date word |
| KimiBridge.Collect | kimi-analyze-server.js:458-495 | the collection never exceeds its cap |
| KimiBridge.CollectShaped | kimi-analyze-server.js:458-495 | every collected variable has the shape expected at its position |
| KimiBridge.FallbackOf | kimi-analyze-server.js:447-498 | the fallback yields at most 80 variables, each shaped as the fallback variable of its position |
| KimiBridge.CollectStep | kimi-analyze-server.js:458-495 | one more line adds a variable exactly when the cap is not reached and the line qualifies |
| KimiBridge.CollectSaturated | kimi-analyze-server.js:459 | once the cap is reached, later lines add nothing |
| KimiBridge.FallbackTagsDistinct | kimi-analyze-server.js:456-488 | the fallback variables have pairwise different tags |
| KimiBridge.FieldTagInjective | kimi-analyze-server.js:353 | different numbers give different default tags |
| KimiBridge.FieldTags | kimi-analyze-server.js:456-488 | the default tags 1..n are all in the set |
| KimiBridge.FieldTagsFresh | kimi-analyze-server.js:456-488 | a higher default tag is not among the lower ones |
| KimiBridge.EmptyBaseTag | kimi-analyze-server.js:352-353 | an empty tag value becomes Field_{index+1} |
| KimiBridge.FreeBaseTaken | kimi-analyze-server.js:356-363 | an unused base tag is taken as it is |
| KimiBridge.FallbackExtract | kimi-analyze-server.js:447-498 | the fallback scan of a text gives the specified variables of its lines |
| KimiBridge.FallbackFromLines | kimi-analyze-server.js:456-497 | the loop over the lines gives the specified fallback variables |
| KimiBridge.DrafterShaped | kimi-analyze-server.js:401-434 | every draft has the draft shape |
| KimiBridge.KeptBy | kimi-analyze-server.js:503-506 | the kept drafts are never more than the list entries |
| KimiBridge.KeptStep | kimi-analyze-server.js:503-506 | one more entry adds its variable exactly when its draft is kept |
| KimiBridge.KeptEmpty | kimi-analyze-server.js:503-506 | nothing is kept exactly when every draft is dropped |
| KimiBridge.TagsInGrows | kimi-analyze-server.js:503-506 | tags once used stay used as the set grows |
| KimiBridge.KeepOne | kimi-analyze-server.js:503-506 | appending a freshly tagged well-shaped variable keeps the list well shaped, retagged and with distinct tags |
| KimiBridge.CoerceOutputShape | kimi-analyze-server.js:500-517 | when some entry is kept the result is the kept drafts in order with tags filled in, all well shaped; otherwise it is the text fallback; either way the tags are distinct |
| KimiBridge.BodyStart | kimi-analyze-server.js:211 | the fence body starts after the fence and an optional json tag, with no backtick skipped |
| KimiBridge.FenceFrom | kimi-analyze-server.js:211-212 | a fenced body holds no fence |
| KimiBridge.FenceHasTwo | kimi-analyze-server.js:211 | a fence match needs two fences, the second after the first |
| KimiBridge.FenceOfTwo | kimi-analyze-server.js:211 | two fences, the second after the first, always give a fence match |
| KimiBridge.FenceFound | kimi-analyze-server.js:211 | a fence match exists exactly when the text holds two non-overlapping fences |
| KimiBridge.CloseFrom | kimi-analyze-server.js:225-254 | a closing position lies at or after the start and inside the text |
| KimiBridge.ClosesOnBrace | kimi-analyze-server.js:246-249 | the candidate always ends on a closing brace |
| KimiBridge.CandidateShape | kimi-analyze-server.js:221-254 | a candidate runs from an opening brace to a later closing brace |
| KimiBridge.BraceScanFound | kimi-analyze-server.js:218-257 | a result of the brace scan is the parse of some brace-delimited candidate |
| KimiBridge.BraceScanNone | kimi-analyze-server.js:218-257 | the brace scan finds nothing exactly when every candidate from an opening brace fails to parse |
| KimiBridge.FencedParse | kimi-analyze-server.js:211-219 | a fenced result is the parse of a fence-free piece, and no fence means no result |
| KimiBridge.TryParseSource | kimi-analyze-server.js:201-260 | a parsed object comes from the whole trimmed text, the fenced body or a brace-delimited candidate |
| KimiBridge.TryParseFails | kimi-analyze-server.js:201-260 | parsing fails exactly when the whole text, the fenced body and every brace candidate fail to parse |
| KimiBridge.TrimFenceFree | kimi-analyze-server.js:213 | trimming a fence-free body keeps it fence free |
| KimiBridge.ScanClose | kimi-analyze-server.js:225-254 | the inner loop finds the specified closing position |
| KimiBridge.BraceScan | kimi-analyze-server.js:218-257 | the outer loop gives the specified brace-scan result |
| KimiBridge.TryParseJsonObject | kimi-analyze-server.js:201-260 | the parse result is the specified one |
| TaskPane.ToPinyinOf | taskpane.js:1462-1477 | the tag is empty exactly when the label is empty; a non-empty label that yields no pinyin becomes CustomField, and otherwise the tag is the label's pinyin |
| TaskPane.ToPinyin | taskpane.js:1462-1477 | the character loop builds the specified tag |
| TaskPane.HexAlnum | taskpane.js:1471 | the upper-case hexadecimal code of an unknown CJK character is alphanumeric |
| TaskPane.PinyinAppend | taskpane.js:1464-1474 | the pinyin of a concatenation is the concatenation of the pinyins |
| TaskPane.PinyinAlnum | taskpane.js:1462-1477 | with an alphanumeric pinyin table, every generated tag is alphanumeric |
| TaskPane.PinyinKeepsAscii | taskpane.js:1467-1468 | an alphanumeric label is its own tag |
| TaskPane.CandidateInjective | taskpane.js:1706-1709 | different counters give different numbered tags |
| TaskPane.FirstFreeUnique | taskpane.js:1706-1709 | the first free numbered tag is unique |
| TaskPane.UniqueTag | taskpane.js:1693-1711 | the tag chosen is not taken and is the first free one of the original tag and its numbered variants |
| TaskPane.TagsOf | taskpane.js:1700-1705 | only non-empty tags are collected |
| TaskPane.TagsOfMembers | taskpane.js:1700-1705 | a tag is collected exactly when it is non-empty and some field has it |
| TaskPane.SectionTagsMembers | taskpane.js:1698-1704 | a tag of the sections is collected exactly when some section with fields has a field with it |
| TaskPane.CollectTags | taskpane.js:1698-1708 | the loops collect the section tags followed by the pending tags |
| TaskPane.TagsOfSnoc | taskpane.js:1706-1708 | appending a field with a tag appends that tag |
| TaskPane.AddKeepsDistinct | taskpane.js:1693-1733 | adding a field whose non-empty tag is not taken keeps all tags distinct |
| TaskPane.SpliceOne | taskpane.js:1648-1656 | splice(index, 1) removes the element at a valid index, counts a negative index from the end, removes the first element for an index far below zero, and changes nothing past the end; it never adds elements |
| TaskPane.Pane.constructor | taskpane.js:1554-1556 | the pane starts with the given sections, no pending fields and no draft options |
| TaskPane.Pane.ConfirmAddOption | taskpane.js:1623-1643 | a non-blank option is trimmed and appended to the add or the edit list according to the mode; a blank one or an unknown mode changes nothing; the sections and pending fields stay |
| TaskPane.Pane.RemoveOption | taskpane.js:1648-1656 | the add or edit option list loses the element splice removes; an unknown mode changes nothing |
| TaskPane.Pane.ResetAddOptions | taskpane.js:1661-1664 | the add options become empty and nothing else changes |
| TaskPane.Pane.SetEditOptions | taskpane.js:1669-1672 | the edit options become a copy of the given ones, or empty when none are given |
| TaskPane.Pane.AddCustomField | taskpane.js:1677-1754 | a field is added exactly when the trimmed label is non-empty and a choice type has options; the new field has the first free tag derived from the label's pinyin, is appended to the pending fields, clears the add options, and all tags stay distinct; a refused field changes nothing |
| TaskPane.Pane.SaveFieldEdit | taskpane.js:1969-2044 | an empty label or a missing section or field changes nothing; otherwise the field takes the new label, type and format, a choice type without options stops with only those written, and a saved field gets the edit options (or none) and stays in place or moves to the end of the target section |
| TaskPane.StepsStayInRange | taskpane.js:935-949 | stepping back or forward keeps the index within the list |
| TaskPane.StepsUndo | taskpane.js:935-949 | a step forward that moves is undone by a step back, and the other way round |
| TaskPane.NextTimesStops | taskpane.js:943-949 | k steps forward reach position i+k, or stop at the last field |
| TaskPane.Checker.constructor | taskpane.js:874-878 | the checker starts closed, with no fields, at position 0 |
| TaskPane.Checker.Open | taskpane.js:899-907 | opening holds the given fields, starts at position 0 and marks the checker open |
| TaskPane.Checker.Close | taskpane.js:909-913 | closing only marks the checker closed |
| TaskPane.Checker.CurrentLabel | taskpane.js:920 | the label shown is the current field's label, or empty when there are no fields |
| TaskPane.Checker.Prev | taskpane.js:935-941 | the index steps back by one exactly when the back button is enabled, and nothing else changes |
| TaskPane.Checker.Next | taskpane.js:943-949 | the index steps forward by one exactly when the forward button is enabled, and nothing else changes |
| TaskPane.AssignAppend | taskpane.js:1203-1218 | assigning two lists of fields in turn is assigning their concatenation |
| TaskPane.AssignKeys | taskpane.js:1207-1208 | a tag is in the label map exactly when it was there before or some field with that tag has both tag and label |
| TaskPane.LastLabelWins | taskpane.js:1207-1208 | a tag maps to the label of the last labelled field with that tag |
| TaskPane.Walk | taskpane.js:1205-1211 | walking fields assigns every labelled field and its sub-fields, depth first |
| TaskPane.BuildLabelMap | taskpane.js:1203-1218 | the label map assigns the fields, shareholder fields and investor fields of every section in order |
| TaskPane.NonBlank | taskpane.js:502-506 | the kept search candidates are non-blank and come from the given texts |
| TaskPane.AiFieldsIn | taskpane.js:496-515 | there are never more AI candidates than fields |
| TaskPane.DetectedIsCandidate | taskpane.js:496-515 | every custom field with an AI placeholder becomes a candidate |
| TaskPane.CandidateIsDetected | taskpane.js:496-515 | every candidate comes from a custom field with an AI placeholder |
| TaskPane.CollectFromFields | taskpane.js:497-514 | the loop over one section's fields collects the specified candidates |
| TaskPane.CollectAiFields | taskpane.js:494-516 | the loop over the sections collects the specified candidates |
| TaskPane.FallbackTagGeneric | taskpane.js:452 | every default Field_n tag of the bridge matches the generic-tag pattern |
| TaskPane.FallbackTagsFiltered | taskpane.js:452-454 | a candidate with a default Field_n tag is filtered as a generic field |
| TaskPane.SampleWordingFiltered | taskpane.js:456-459 | a candidate whose label, context or placeholder contains sample wording is filtered |
| TaskPane.ValidityLabel | taskpane.js:462 | the label test /协议有效期至\|有效期至/ holds exactly when 有效期至 occurs in the label |
| TaskPane.GenericDateFiltered | taskpane.js:461-464 | a candidate with a duration tag or a label naming 有效期至, whose placeholder reads 年月日 with blanks stripped, and with no Field_N tag and no sample wording, is filtered as a generic date |
| TaskPane.FilterReasonEmpty | taskpane.js:444-467 | a candidate has no filter reason exactly when its tag is not Field_N, it has no sample wording and it is not a generic validity date |
| TaskPane.EntryOf | taskpane.js:583-648 | a report row's status is always success, skip or fail |
| TaskPane.EntryOfStatus | taskpane.js:583-648 | the row is success exactly when the insert returned success, skip exactly when it returned an existing or overlapping control, and fail exactly when it returned otherwise or threw |
| TaskPane.EntryStatus | taskpane.js:380-384 | a row's own status is read when present, and a missing row reads as fail |
| TaskPane.Passing | taskpane.js:540-547 | every candidate kept for embedding has no filter reason |
| TaskPane.Rejected | taskpane.js:540-561 | every filtered row has status filtered and a non-empty reason |
| TaskPane.PartitionSizes | taskpane.js:540-547 | the kept and filtered candidates together are all candidates |
| TaskPane.Attempts | taskpane.js:575-652 | one row per attempted field, in order, each from that field's insert outcome |
| TaskPane.CountSnoc | taskpane.js:613-629 | one more row adds one to exactly the counter of its status |
| TaskPane.CountsAddUp | taskpane.js:613-637 | with every status one of the three, the counters add up to the number of rows |
| TaskPane.ReportStatusesRead | taskpane.js:549-611 | every row of the report reads back its own status, one of success, skip, fail or filtered |
| TaskPane.BatchEmbed | taskpane.js:472-685 | the summary counts all candidates, the attempted and the filtered ones, lists the filtered rows then the attempts in order, and its three counters add up to the attempted ones, which with the filtered add up to the total |
| TaskPane.TryAll | taskpane.js:575-652 | the loop makes one row per field and counts each status correctly, the counts adding up to the number of fields |
| TaskPane.SplitCandidates | taskpane.js:540-547 | the loop sorts the candidates into the filtered rows and the fields to try, each in order |
| TaskPane.AllPlaceholders | taskpane.js:1356 | every field is an HTML placeholder |
| TaskPane.PlaceholderOnly | taskpane.js:1354-1357 | a section is placeholder-only exactly when it has a non-empty field list of HTML placeholders only |
| TaskPane.VisibleSections | taskpane.js:714 | the visible sections come from the configuration and none is placeholder-only |
| TaskPane.OrdinarySectionShown | taskpane.js:714 | every section that is not placeholder-only is shown |
| TaskPane.FindSection | taskpane.js:1985 | the section found is the first with the id, and none is found exactly when no section has it |
| TaskPane.Locate | taskpane.js:1985-1991 | a field is located exactly when the section exists, has fields, and the index is within them |
| TaskPane.Relabelled | taskpane.js:1993-2005 | the edited field has the new label and type and keeps tag and options; a choice type keeps its format, any other type has a format exactly when the new one is set and not none |
| TaskPane.FieldCountUpdate | taskpane.js:2023-2031 | replacing one section's field list changes the field count by the difference in length |
| TaskPane.MoveFieldCount | taskpane.js:2023-2031 | moving a field keeps the field count when the target section has a field list, and loses the field otherwise |
| TaskPane.SetFieldCount | taskpane.js:1993-2019 | editing a field in place keeps the field count |

## Left out

Host, runtime and environment:
- The WPS/Word object model. A layer skill's effect is the list of property writes and host calls it makes on a range, not what the host then does. Paragraph records, table sizes, content controls, the host's Find and text search, and property reads are inputs or oracles. The COM calls themselves, Undo, ScreenUpdating beyond its on/off switch, and `format-snapshot.js` are not modelled.
- `JSON.parse`, `parseFloat`, `new Date(...)`, `String(n)` of a number and the formatters' `Number(value)` are oracle parameters. NaN is `None`; floating-point rounding is not modelled.
- Text.StringToNumber: the conversion a string undergoes in `<`, `>`, `*`, `Math.abs` and `Number(...)` reads blanks around it as nothing, a blank string as 0 and an optionally signed decimal literal as its value. Exponent (`"1e3"`), hexadecimal, binary, octal and `Infinity` forms read as NaN here, although JavaScript reads them as numbers. Strings compare by code point, not by UTF-16 unit.
- Regular expressions are named predicates. `/i` folds ASCII letters only. String lengths count code points, not UTF-16 units.
- Plain-object lookups are own-key lookups. The only inherited `Object.prototype` members modelled are those in the `isValidFormatFn` finding below. Objects are assumed to have distinct keys.
- A host that rejects a property value throws on the write, as WPS does; a host that silently ignores a rejected value is not modelled. So `tryDashed` moves to the next candidate on a rejected write without reading the style back.
- Some values are narrowed to what the code reads from them:
  - a comparison entry's `customEffects` object is kept only as whether it is truthy (`ComparisonLog.Entry.customEffects`), the only use the log makes of it;
  - `insertControlBySearch`'s `message` is kept only when it is a string (`TaskPane.InsertResult`), so a truthy non-string message reads as the unknown-result text instead of its string form;
  - `WpsAdapter.ContextField` takes a nested `aiContext` field only when it is a string, so a truthy non-string nested prefix, context, placeholder or suffix reads as `''` instead of the value itself.
- Object identity and aliasing of the source's shared arrays and records are not modelled. The model copies values where the source shares references.
- Time, clocks and randomness are not modelled. This covers `Date.now` durations, timestamps, `generateRunId`, `generateCandidateId` (the id is a parameter), `Math.round` averages, `toFixed` percentages and the date parse inside `formatDate`: `formatDateUnderline` and `formatDateYearMonth` are modelled over an already parsed date (`Formatters.Date`), whose `new Date(...)` is an oracle.
- The promise chain of `wpsActionQueue.add` is a sequential FIFO whose tasks arrive already settled. Also left out are `setTimeout` cooldown waits, `_yield`, `_runInQueue`, `debounce`, watchers and intervals.
- Network and servers are left out: `fetch`, the bridge's HTTP routes, `callChatCompletion` and its retries and timers, `callKimiAnalyze`, the pipeline and direct analysis runs, `normalizeSemanticVariables`, `buildHealthPayload`, `readJsonBody`, `extractTextContent`, `callAIFormat`, the `/agent/dispatch` call, `analyzeDocument`, `callAIWithSkill`, `getAnalyzeApiUrl`, `loadSkillPrompt`, `loadRemoteConfig` and `startAutoSync`.
- Storage and files are left out: `localStorage`, including `logUnknownFormats`, `readLocalConfig` and `writeLocalConfig`; CustomDocumentProperties; `DocumentStateManager`; `loadEnvFiles`; and the file read in `validate_output.js`. That read is folded into the `None` input, which exits with code 2.
- `new Function` in `custom.execute` is not modelled. Only its helper guards and effect accounting are.
- DOM and UI are left out:
  - the add-in's task pane: `buildForm`, `createField`, dialogs and modals, `showNotification`, progress panels, `renderBatchEmbedReport` HTML and the form preview;
  - the chat pane: `init`, `addMessage`, `updateStepMessage`, `removeMessage`, `clearChat` DOM work, `retry`, `rollback`, `exportLog` download and `getDocumentContext`.
- Logging (`console.*`, `logRoutingDecision`) and the human-readable error and warning texts are left out. Issues are records of their code, index and the data they name.
- Files outside the modelled core: `templates/pevc-default.js` (static data), `main.js` (bootstrap), `api/_bridge.js` (forwarding), `skills/layer5-style-toc.js` and `skills/layer7-apa-style.js` (host plumbing), and the scripts under `scripts/`.

Operations of core files:
- format-comparison-log.js: `_readProperty` is the host read `read`. `exportLog` is `JSON.stringify` of the entries, and its JSON text is not modelled.
- format-execution-engine.js: `_captureDocStats` reads the host and is an input. `generateRunId` gives a parameter. The `onStepStart`, `onStepComplete`, `onStepError` and `onComplete` callbacks are not modelled; the step results they receive are the returned results. After a `custom.execute` step with custom effects, the engine hands the step to `SkillEvolutionManager.collectCandidateFromExecution`; that call is not wired into `ExecutionEngine.RunSteps`. The collection itself is `SkillEvolution.Manager.Collect`.
- wps_adapter.js: only the queue statistics and health, value normalisation, and search placement are modelled. These are left out:
  - saving, loading and clearing addin state;
  - document keys and target-document picking;
  - reading and syncing form data through content controls;
  - original-text bookkeeping;
  - `wpsInsertControl`;
  - visibility toggling and the hidden-paragraph set;
  - backup, cleanup and undo of embeds;
  - unfilled-field scanning in the document, `wpsGetDocumentText` and `showNotification`.
  The matches of a candidate are a parameter, `matchesOf`.
- ai-skill.js: only `chunkDocument` and `deduplicateVariables` are modelled. The functions that call the network or read files are not.
- kimi-analyze-server.js: `parseNumberEnv` is not modelled; it uses `Number(...)` on the environment. `validateOutputShape` and `enforcePluginCompatibility` are modelled only through what they check. `KimiBridge.WellShapedPassesPlugin` shows that every normalised variable passes the add-in's validation exactly when its label is non-empty. The one-time warning log in `resolveTemperatureForModel` is not modelled.
- taskpane.js: `collectUnfilledFields` reads the DOM; the checker is handed the unfilled fields. The early `batchEmbedAIFields` return when the WPS adapter is missing is not modelled, nor are the `failedFields`/`skippedFields` lists (the entries carry the same statuses). Also left out:
  - entry `strategy`, `score`, `prefixOk`, `suffixOk` and `snippet`;
  - pending-field and section-field deletion, `editFieldInSection` and `updateTagPreview`;
  - the auto-embed preference;
  - `collectForm`, `startDeliverProcess` and `undoAllEmbeds`.
- taskpane.js: `PINYIN_MAP` is the table parameter. The model assumes that its syllables are alphanumeric (`PinyinTable`) and does not copy its entries.
- runtime-config.js: `getQueryParam` and the page URL are inputs; the bootstrap patch takes the parameters already read.
- format-chat.js: the retry loop's AI calls are not modelled. `sendUserMessage` is modelled through its retry patch, attempt counting and prefixes. The zero-effect suggestion texts are not modelled.
- formatters.js: `getValidFormatFns` returns the key list, which is `Formatters.FORMAT_KEYS`.

Contracts stated weaker than the source:
- FormatChineseNumber: `Number(value)` is an integer parameter, so a fractional amount such as 12.5 and what `numberToChinese` makes of it are not modelled.
- FormatChineseNumberWan: the same integer-only `Number(value)` as above.
- FormatAmountWithChinese: the same integer-only `Number(value)` as above; `人民币12.5元（大写：…元整）` is not modelled.
- ApplyFormat: reaches the numeric formatters only with an integer `Number(value)`, as above.
- Piece: a truthy non-string description or code (an array, a number, an object) is read as empty text; JavaScript joins its string form into the scope text, so a policy pattern in `["fetch(x)"]` is not seen.
- FieldId: lower-cases ASCII letters only; JavaScript `toLowerCase` also folds other scripts.
- ResolveTemperature: lower-cases the model name in ASCII only, as above.
- DedupVariablesMeaning: states that no variable beats its tag's survivor only when the layers are all strings or all not strings; with mixed kinds `<` is not transitive and the merge can keep a beaten survivor, as `AiSkill.MixedLayersNotTransitive` shows.
- KimiBridge.UsedTags.NormalizeVariable: for a dropped entry, states only that the used tag set grew. The source adds exactly the first free tag even then; the exact tag is stated only for kept entries.
- KimiBridge.UsedTags.TagDraft: for a dropped draft, states only that the used tag set grew, as above.

## Findings

| source | as written | input that shows it | evidently intended | confidence | as-written member | corrected member |
|---|---|---|---|---|---|---|
| formatters.js:237-239 | `formatFn in FORMAT_FUNCTIONS` also accepts names inherited from `Object.prototype` | `isValidFormatFn("toString")` is true | accept exactly the 8 formatter names | not executed | Formatters.InheritedNamePasses | Formatters.WhitelistExact |
| skills/layer6-content-edit.js:284-294 | the newline test reads the text of the range collapsed to the end of the document, which is always empty | `content.append` of "第二段" with `newLine` on a document "第一段" gives "第一段第二段" | a non-empty document gets a newline before the appended text | not executed | ContentEdit.AppendNeverBreaksLine | ContentEdit.AppendShape |
