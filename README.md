# Gout lab-report analysis, modelled in Dafny

GoutAnalysisAgent gives a language-model agent two tools.

The **lab analyzer** (`GoutLabAnalyzer`, gout_analyzer.go) works in three steps:

1. It reads free-text lab-report lines of the form `尿酸 520 umol/L (参考范围: 208-428)` with one regular expression.
2. It turns each matched line into a `LabResult`. That is a name, a value, a unit, reference bounds and a status (正常 / 偏高 / 偏低).
3. It assesses the results. Each result is put into the uric-acid, inflammation and kidney groups by keywords in its lower-cased name. The groups raise three flags. A fixed table maps the flags to a risk level, a follow-up flag and a list of advice texts.

The **medical knowledge base** (`MedicalKnowledgeBase`, medical_knowledge.go) is a table of seven entries filled once. A query is trimmed and lower-cased, and every entry matching it is returned. When nothing matches, a fixed message is returned.

## How the model is organised

Pure parts are datatypes and functions. So are the regular expression, the status rule and the decision table.

The two loops of gout_analyzer.go are methods with loop invariants, each proved against a specification function:

- `LabParser.ParseLabInput` is proved against `ParseLines(Split(input))`.
- `RiskClassifier.AnalyzeGoutRisk` is proved against `Analyze(results)`.

The knowledge base is a class with a `knowledge` map field. The search method has no `modifies` clause, which shows that searching changes nothing.

| module (file) | what it holds |
|---|---|
| `Wrappers` (wrappers.dfy) | `Option` |
| `Sequences` (sequences.dfy) | two small sequence lemmas |
| `Strings` (strings.dfy) | Go's `strings.Split` on `"\n"`, `TrimSpace` (Unicode white space), `ToLower`, `Contains` |
| `LabPattern` (lab_pattern.dfy) | the pattern of gout_analyzer.go:88 as a leftmost-first matcher |
| `LabPatternFacts`, `LabShapes` (lab_pattern_facts.dfy, lab_shapes.dfy) | what the matcher captures, and how it walks over the pieces of a lab line |
| `LabParser` (lab_parser.dfy) | `LabResult`, `DetermineStatus`, `ParseFloat`, the post-match code, `ParseLabInput` |
| `LabLines` (lab_lines.dfy) | the result for each shape of lab line: range, `<`/`>` bound, labelled bound |
| `LabMisses` (lab_misses.dfy) | lines the pattern does not match, such as a unit that opens with `×` |
| `RiskClassifier` (risk_classifier.dfy) | categories, flags, the decision table, `AnalyzeGoutRisk` |
| `RiskFacts` (risk_facts.dfy) | the properties of the assessment |
| `MedicalKnowledge` (medical_knowledge.dfy) | the table, the class, `SearchKnowledge`, the reply part of `Call` |
| `KnowledgeFacts` (knowledge_facts.dfy) | the properties of the table and the search |
| `Scenarios` (scenarios.dfy) | the lines and cases of test.go, one by one |
| `Reports` (reports.dfy) | the two reports of test.go followed from text to assessment |

### How the pattern is matched

Go's `regexp` takes the leftmost match, and prefers alternatives and repetitions in order. For this one pattern that choice can be computed directly:

- The lazy name group ends right before the first digit after its start.
- Every greedy or optional piece is forced. Giving back a character always leaves a digit, separator or bracket that the next piece cannot take.

So the matcher tries each start of a digit run from left to right, as `LabPattern.Find` does. At each start it takes:

1. the longest numeral;
2. spaces;
3. the longest non-empty run of unit characters;
4. the first later position where the range alternative matches, or else the bound alternative.

`FindStringSubmatch` always returns all nine groups. So the `len(matches) >= 4/7/9` tests of gout_analyzer.go:97, 112 and 120 always hold, and the model reads the groups directly.

### What the test data shows

Two lines of the test data are worth noticing:

- **`(参考范围: <3.0)`**: the range alternative fails on `<3.0`, and the bound alternative matches at the `<`. So the sign group is empty and the bound group is `3.0`. An empty sign sets neither bound (gout_analyzer.go:124-131), so the bounds stay 0 and 0 and the status is normal whatever the value. This is proved in `LabLines.LabelledBoundLineParsed`.
- **`白细胞 12.5 ×10⁹/L (参考范围: 4.0-10.0)`** (test.go:20): the pattern does not match it. `×` and `⁹` are outside the unit class, and no later number is followed by a unit. This is proved in `LabMisses.ForeignUnitRangeLine` and `Reports.WhiteCellLine`.

As a result, the report that test.go:16-20 calls high-risk is assessed as **medium risk**:

- uric acid 580 is high;
- creatinine 135 is high;
- CRP and ESR have no bounds, so they count as normal;
- the white-cell line is skipped.

This is proved in `Reports.AnalyzeHighRiskReport`.

### How a query matches an entry

A query matches a knowledge entry when the query occurs in the entry's key, the key occurs in the query, or the query occurs in the lower-cased topic (medical_knowledge.go:91-92). `MedicalKnowledge.Matches` states exactly these three tests.

## Model

| member | source | states |
|---|---|---|
| Strings.Split | gout_analyzer.go:84 | `strings.Split(input, "\n")` gives at least one piece, and no piece holds a line feed |
| Strings.JoinSplit | gout_analyzer.go:84 | joining the pieces again with line feeds gives back the input |
| Strings.SplitJoin | gout_analyzer.go:84 | splitting lines joined by line feeds gives back the lines, when none of them holds a line feed |
| Strings.TrimSpace | gout_analyzer.go:91 | the result has no white space at either end and is no longer than the input |
| Strings.TrimSpaceIsSlice | gout_analyzer.go:91 | the trimmed line is a piece of the line with only white space around it |
| Strings.TrimSpaceIdempotent | gout_analyzer.go:98 | trimming a trimmed text again changes nothing, which makes the re-trim of the name and unit harmless |
| Strings.ToLower | gout_analyzer.go:169 | same length, and each character is lowered on its own |
| Strings.ToLowerIdempotent | gout_analyzer.go:169 | a lowered text has no upper-case letter, and lowering it again changes nothing |
| Strings.ContainsIff | gout_analyzer.go:172 | `strings.Contains` holds exactly when the piece occurs at some position |
| LabParser.DetermineStatus | gout_analyzer.go:145-153 | high exactly when an upper bound is set (above 0) and the value exceeds it; low exactly when the value is not high, a lower bound is set and the value is below it; normal exactly when neither holds |
| LabParser.StatusWithinBounds | gout_analyzer.go:145-153 | a value on or between its bounds is normal, so the bounds are inclusive |
| LabParser.StatusWithoutBounds | gout_analyzer.go:145-153 | with both bounds 0, every value is normal |
| LabParser.StatusZeroFloorNeverLow | gout_analyzer.go:149 | a lower bound of 0 never makes a value low |
| LabParser.ParseFloat | gout_analyzer.go:99-102 | parsing a captured number succeeds exactly when it is a numeral: digits, then optionally a point and more digits |
| LabParser.ParseFloatInteger | gout_analyzer.go:99 | a numeral with no fractional part denotes the integer its digits write |
| LabParser.FractionDigits | gout_analyzer.go:99 | the digits after a decimal point, read one place at a time, are worth the integer they write over ten to their count |
| LabParser.ParseFloatDecimal | gout_analyzer.go:99 | a numeral `w.f`, with digits `w` and `f`, denotes the integer of `w` plus the integer of `f` over ten to the number of digits in `f`; `w.` denotes the integer of `w` |
| LabParser.BuildResult | gout_analyzer.go:98-137 | a match yields a result exactly when its value group is a numeral |
| LabParser.BuildResultWellFormed | gout_analyzer.go:98-136 | a built result has the status its value and bounds call for, and a trimmed name and unit |
| LabParser.ParseLine | gout_analyzer.go:91-95 | a blank line (after trimming) yields nothing |
| LabParser.ParseLineMatches | gout_analyzer.go:91-97 | a line yields a result exactly when it is not blank and the pattern matches its trimmed form |
| LabParser.ParseLineWellFormed | gout_analyzer.go:96-137 | every result a line yields is well formed |
| LabParser.ParseLinesConcat | gout_analyzer.go:90-139 | the results of two runs of lines are the results of each, in line order |
| LabParser.ParseLinesBounded | gout_analyzer.go:84-141 | at most one result per non-blank line, and every result is well formed |
| LabParser.ReadReference | gout_analyzer.go:111-133 | the bounds are a range when both ends were captured; otherwise `<x` gives (0, x), `>x` gives (x, 999999), and anything else leaves (0, 0) |
| LabParser.BuildLabResult | gout_analyzer.go:98-137 | the post-match code builds the result of `BuildResult`, or skips a value that does not parse |
| LabParser.ParseLabInput | gout_analyzer.go:82-142 | the results are those of the lines in order; there are no more than the non-blank lines; each is well formed; there is never an error |
| LabPatternFacts.NumeralConcat | gout_analyzer.go:88 | the value group stops at the first character that is neither a digit nor the decimal point |
| LabPatternFacts.MatchLineNumeric | gout_analyzer.go:88 | in every match, the value and the captured bounds are numerals, the unit is not empty, and exactly one alternative took part; so the error branches of gout_analyzer.go:100, 116 and 123 can only be reached through a `float64` overflow, which the model does not have |
| LabLines.LabLineTrimmed | gout_analyzer.go:91 | a lab line whose note ends in `)` is already trimmed |
| LabLines.LabLineGroups | gout_analyzer.go:88-136 | a lab line `name value unit note` yields what the groups of its note build |
| LabLines.RangeLineParsed | gout_analyzer.go:112-119 | `name value unit (参考范围: low-high)` yields bounds (low, high) and the status they call for |
| LabLines.BoundLineParsed | gout_analyzer.go:120-133 | `(<x)` yields (0, x), `(>x)` yields (x, 999999), and a bare `(x)` yields (0, 0) |
| LabLines.LabelledBoundLineParsed | gout_analyzer.go:120-133 | `(参考范围: <x)` yields bounds (0, 0) and status normal, whatever the value |
| LabMisses.ForeignUnitRangeLine | gout_analyzer.go:88 | a line whose unit opens with a character outside `[a-zA-Z/μ]`, followed by digits and a character that cannot follow a number, yields nothing |
| RiskClassifier.AnalyzeGoutRisk | gout_analyzer.go:156-241 | the loop and the decision give `Analyze(results)`, the model whose properties are proved in RiskFacts |
| RiskClassifier.Assess | gout_analyzer.go:205-239 | the decision table and the advice blocks give `Conclude` of what the loop gathered |
| RiskFacts.SelectMembers | gout_analyzer.go:185-198 | a measurement is in a group's list exactly when it is in the input and in that group |
| RiskFacts.SelectConcat | gout_analyzer.go:168-203 | a group's list of two runs of measurements is the list of each, in order |
| RiskFacts.ScanGroups | gout_analyzer.go:184-202 | the inflammation and kidney lists are the input filtered to their group, in input order |
| RiskFacts.ScanFlags | gout_analyzer.go:163-202 | each flag is set exactly when some measurement of its group is high, or, for kidney markers named `gfr`, low |
| RiskFacts.RiskLevelIff | gout_analyzer.go:205-222 | high risk iff all three flags are set; medium iff uric acid and exactly one other flag are set; low otherwise; follow-up iff uric acid is high |
| RiskFacts.RiskMonotone | gout_analyzer.go:163-222 | adding measurements never lowers the risk level |
| RiskFacts.UricLevelNone | gout_analyzer.go:172-173 | no uric-acid level is kept exactly when no measurement is a uric-acid one |
| RiskFacts.UricLevelIsLast | gout_analyzer.go:172-173 | the uric-acid level kept is the last uric-acid measurement |
| RiskFacts.UricNotesConcat | gout_analyzer.go:174-180 | the uric-acid notes of two runs of measurements are the notes of each, in order |
| RiskFacts.ScanNotes | gout_analyzer.go:174-180 | the loop's notes are the uric-acid notes in input order |
| RiskFacts.NotesAreUric | gout_analyzer.go:176-180 | every note is the urgent or the dietary uric-acid text |
| RiskFacts.UrgentNoteIff | gout_analyzer.go:176-177 | the urgent note appears exactly when some high uric-acid value is above 500 |
| RiskFacts.Recommendations | gout_analyzer.go:174-239 | the advice is the uric-acid notes, then the summary of the decision table, then the advice blocks |
| RiskFacts.TextsDistinct | gout_analyzer.go:177-238 | notes, summaries, general advice and kidney advice share no text |
| RiskFacts.SummaryOnce | gout_analyzer.go:206-222 | exactly one summary text appears, right after the notes |
| RiskFacts.BlocksIff | gout_analyzer.go:224-239 | the general advice appears iff uric acid is high or inflammation is present; the kidney advice appears iff a kidney marker is abnormal |
| MedicalKnowledge.MedicalKnowledgeBase.constructor | medical_knowledge.go:32-38 | a new base holds exactly the seven-entry table |
| MedicalKnowledge.MedicalKnowledgeBase.InitializeKnowledge | medical_knowledge.go:101-311 | the seven entries are written one after the other over what was there |
| MedicalKnowledge.MedicalKnowledgeBase.SearchKnowledge | medical_knowledge.go:86-98 | the results are, without repetition, the entries of exactly the matching keys; the table is not changed |
| MedicalKnowledge.MedicalKnowledgeBase.Call | medical_knowledge.go:66-70 | the trimmed, lower-cased query is searched; the reply is the fixed message exactly when nothing matches, and the entries found otherwise |
| KnowledgeFacts.TableKeys | medical_knowledge.go:101-311 | the table has exactly the seven keys 痛风, 高尿酸血症, 尿酸, 炎症, 肾功能, 关节炎, 痛风石 |
| KnowledgeFacts.EmptyQueryMatchesAll | medical_knowledge.go:91 | the empty query matches every entry |
| KnowledgeFacts.SearchResultSize | medical_knowledge.go:86-98 | a search returns as many entries as there are matching keys |
| KnowledgeFacts.UricAcidQuery | medical_knowledge.go:91-92 | the query 尿酸 matches exactly the keys 尿酸 and 高尿酸血症 |
| KnowledgeFacts.DiabetesQuery | medical_knowledge.go:91-92 | the query 糖尿病 matches nothing |
| KnowledgeFacts.NormalizeQueryIdempotent | medical_knowledge.go:66 | a normalised query is trimmed and has no upper-case letter, and normalising it again changes nothing |
| KnowledgeFacts.NormalizeQueryKeeps | medical_knowledge.go:66 | a trimmed query with no upper-case letter is searched as it is |
| KnowledgeFacts.AskAboutUricAcid | test.go:62 | asking about 尿酸 returns two entries, those of 尿酸 and 高尿酸血症 |
| KnowledgeFacts.UricAcidReply | medical_knowledge.go:66-70 | any reply Call may give for 尿酸 holds those two entries |
| KnowledgeFacts.AskAboutDiabetes | test_runner.go:122-123 | asking about 糖尿病 returns the fixed not-found message |
| Scenarios.NoDigitsNoResults | gout_analyzer.go:88 | an input without a digit yields no results |
| Scenarios.ParseInvalidReport | test.go:188 | the malformed report `无效的化验单数据` yields no results |
| Scenarios.HighUricLine | test.go:16 | the line yields 尿酸 580 with bounds 208 and 428, high |
| Scenarios.HighCrpLine | test.go:17 | the line yields C反应蛋白 25.6 with bounds 0 and 0, normal |
| Scenarios.HighEsrLine | test.go:18 | the line yields 血沉 55 with bounds 0 and 0, normal |
| Scenarios.HighCreatinineLine | test.go:19 | the line yields 肌酐 135 with bounds 54 and 106, high |
| Scenarios.NormalUricLine | test.go:32 | the line yields 尿酸 350 with bounds 208 and 428, normal |
| Scenarios.NormalCrpLine | test.go:33 | the line yields C反应蛋白 1.2 with bounds 0 and 0, normal |
| Scenarios.NormalEsrLine | test.go:34 | the line yields 血沉 8 with bounds 0 and 0, normal |
| Scenarios.NormalCreatinineLine | test.go:35 | the line yields 肌酐 85 with bounds 54 and 106, normal |
| Scenarios.UricAndKidneyHighAssessed | gout_analyzer.go:168-239 | with uric acid above 500 and high kidney, and normal inflammation: medium risk, with the urgent note, the medium summary, general and kidney advice, and follow-up |
| Scenarios.AllNormalAssessed | gout_analyzer.go:218-222 | all-normal measurements give low risk, only the normal summary, and no follow-up |
| Scenarios.HighRiskCaseAssessed | test.go:16-19 | the four measurements of the first test report give medium risk, follow-up and the full advice |
| Scenarios.NormalCaseAssessed | test.go:32-35 | the four measurements of the second test report give low risk and the normal summary only |
| Scenarios.EmptyAnalysis | gout_analyzer.go:156-222 | no measurements give no uric-acid level, empty lists, low risk, the normal summary and no follow-up |
| Reports.AnalyzeReport | gout_analyzer.go:60-66 | a report is assessed as `Analyze(ParseLines(Split(input)))` |
| Reports.WhiteCellLine | test.go:20 | the white-cell line with unit `×10⁹/L` yields nothing |
| Reports.HighRiskReportRead | test.go:16-20 | the first test report yields four results, from uric acid to creatinine |
| Reports.NormalReportRead | test.go:32-35 | the second test report yields its four results, all normal |
| Reports.AnalyzeHighRiskReport | test.go:16-22 | the first test report is assessed as medium risk with follow-up; it keeps uric acid 580, lists CRP and ESR, lists creatinine, and gives the urgent note, the medium summary and both advice blocks |
| Reports.AnalyzeNormalReport | test.go:32-37 | the second test report is assessed as low risk with no follow-up and only the normal summary |

## Left out

- I/O and rendering are left out: the callbacks, the JSON output, and the `Name` and `Description` texts of both tools (gout_analyzer.go:39-79, medical_knowledge.go:40-83). The analyzer's `Call` is modelled only as `Reports.AnalyzeReport`. Its error reply at gout_analyzer.go:61-63 cannot occur, because `parseLabInput` never fails. The JSON rendering and its error reply (gout_analyzer.go:69-72) are not modelled.
- LabParser.ParseFloat: values are exact decimals (`real`), not rounded `float64`. It accepts exactly the numerals the pattern captures. Go's parser also fails on a numeral too large for `float64` (hundreds of digits), which the model does not capture. In Go such a value makes the line be skipped (gout_analyzer.go:100-101). Such a range or bound leaves the bounds at zero (gout_analyzer.go:116-120 and 123). The model keeps the exact value instead.
- Strings.ToLower: only the ASCII letters A-Z are lowered. Go lowers every Unicode letter. Some of them lower into ASCII: `İ` (U+0130) becomes `i` and the Kelvin sign (U+212A) becomes `k`. So in Go a parameter such as `URİC` is classed as uric acid (gout_analyzer.go:169-172), and a query such as `URİC acid` finds the uric-acid entry. The model lowers neither.
- MedicalKnowledge.MedicalInfo: only the topic is kept. The prose fields (definition, symptoms, causes and the rest) take no part in the search.
- MedicalKnowledge.MedicalKnowledgeBase.SearchKnowledge: results are stated up to order, because Go's map iteration order is unspecified. The ghost `keys` out-parameter records which entry each result came from.
- KnowledgeFacts.AskAboutUricAcid: it states its two entries through the search-result predicate rather than listing them in a fixed order, for the same reason.
- LabPattern.MatchLine models only the one pattern of gout_analyzer.go:88, not RE2 in general.
- The `&result` of gout_analyzer.go:173 is taken as each iteration's own copy (Go 1.22 and later), so the last uric-acid line is the one kept.
- The test programs are not modelled (test.go, test_runner.go, the goroutine of test.go:204-212). Their report lines and queries are modelled as scenarios. main.go and demo.go are not part of this model.
