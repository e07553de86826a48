# SAP FSD generator: the deterministic core, in Dafny

The generator turns an ABAP program into a Functional Specification Design
(FSD) document. A language model answers nine analysis questions as JSON.
Those answers are merged into an `FSDDocument` record. The record is
rendered as Markdown. The Markdown is read back and poured into a Word
template. This project models the deterministic middle of that pipeline,
from the JSON answers to the filled Word body, and proves what each step
promises.

Modules, in pipeline order:

- `Wrappers`, `Seqs`, `Text`: optional values, sequence helpers, and Python's
  string methods (`strip`, `split`, `join`, `replace`, `in`, `upper`,
  `lower`, `str`/`int` on digit strings) with their Python meaning.
- `Json`: the values `json.loads` hands to the merge, with Python's
  truthiness, `.get` and iteration rules.
- `Fsd`: the `FSDDocument` records, the `FieldProcessingType` enum and
  `dataclass_to_dict`.
- `Merge`, `Mapper`: the task loop and `_map_fixed_results_to_fsd` as merge
  functions, and the `IntelligentFSDMapper` class whose methods append to its
  document in place and are proved to agree with those functions.
- `Render`, `Generator`: `_generate_markdown` and
  `_compose_report_description` as specification functions with outline and
  table lemmas, and as the loop methods the source runs, proved to build the
  same lines.
- `MarkdownParse`, `MarkdownParseFacts`: the `MarkdownParser` class and the
  section -> subsection tree it builds.
- `ContentHelpers`: `_normalize_section_name`, `_process_content` and
  `_extract_table_from_content`.
- `TitleExtract`, `TitleExtractFacts`, `TitleExtractRows`: the
  `extract_title_info` scanner, its fallbacks, and the read-back of the
  table rows `_generate_markdown` writes.
- `TableOfContents`: the two-pass numbering and paging of
  `_extract_table_of_contents`.
- `DocModel`: a Word body as a sequence of blocks (paragraphs of runs, and
  tables of cells holding paragraphs), held by a `Document` class that the
  filler changes in place.
- `TableBuilders`, `TextComposers`, `ParagraphEdit`, `TableInsert`,
  `TestingSection`, `FinalCleanup`, `TitleRegex`, `Substitution`,
  `VersionCells`, `TemplateFill`: the `TitlePageWordGenerator` and
  `WordTableManager` operations, ending in `generate_with_proper_tables`.

Quirks of the source that the model keeps, each stated as a lemma:

- `MarkdownParser.parse` drops a section's lines before its first `###` heading.
- `extract_title_info` never fills the related documents, reviewers or
  version history. It tests the stripped line for a leading `"  - "`, which a
  stripped line never has.
- Its `DESIGN CHANGE` branch is unreachable.
- `_process_content` keeps a table's separator row.
- The regex title replacements in `generate_with_proper_tables` act only on
  the last body paragraph.
- The first version-date test of the table-cell pass can never hold.
- A template with no body paragraph makes `generate_with_proper_tables`
  return false.

## Model

| member | source | states |
|---|---|---|
| Fsd.ProcessingTypeOf | backend/main.py:45-51 | `FieldProcessingType(v)` gives the member whose value is `v`; no member when `v` is not one of the five values |
| Fsd.ProcessingTypeRoundTrip | backend/main.py:45-51 | every member is found again from its string value |
| Fsd.Strings | backend/main.py:149-166 | a list of strings serialises to an array of the same length holding the same strings in order |
| Fsd.FieldMappingJsonProcessingType | backend/main.py:158-159 | a serialised field mapping carries its processing type as the enum's string value |
| Json.Get | backend/main.py:1630-1772 | `d[key]` on a parsed answer: absent exactly when no member has the key, otherwise the value of the last member with that key |
| Json.GetLast | backend/main.py:1630-1772 | a member added after all others is the one found |
| Json.GetSkip | backend/main.py:1630-1772 | a member with another key does not hide an earlier one |
| Json.GetUnique | backend/main.py:1630-1772 | the member found for a key is the last one carrying it |
| Json.Keys | backend/main.py:1630-1772 | the keys of an answer once each, exactly those present |
| Json.Iterate | backend/main.py:1665 | `for x in v`: an array yields its items, a string one item per character, and null, booleans and numbers are not iterable |
| Json.StrField | backend/main.py:1632-1638 | `d.get(key, default)` read as text: the string stored under the key, or the default when the key is missing or holds no string |
| Json.TextItems | backend/main.py:1636 | a list read as strings keeps its length; string items are kept, other items read as empty |
| Json.StrictTextItems | backend/main.py:1712 | the items `' & '.join` accepts: defined exactly when the value is iterable and every item is a string, and then those strings in order |
| Json.ObjectItems | backend/main.py:1665-1674 | the items a loop calling `.get` accepts: defined exactly when the value is iterable and every item is a dictionary, and then those dictionaries in order |
| Json.ObjectItemsOfArray | backend/main.py:1665 | a list of dictionaries iterates as exactly those dictionaries |
| Json.ObjectItemsOfString | backend/main.py:1665 | a non-empty string is never a usable list of dictionaries |
| Json.StrictTextItemsOfString | backend/main.py:1712 | joining a string joins its characters |
| Merge.ProcessingTypeField | backend/main.py:1680-1683 | a recognised `processing_type` string is kept, anything else becomes `DIRECT` |
| Merge.LookupRowOf | backend/main.py:1708-1714 | a lookup rule's row: `data` is its target fields joined by `" & "`, or the default field when the rule names none; `condition` is its condition; no row when a target field is not a string |
| Merge.LookupRows | backend/main.py:1708-1742 | one row per rule, in order, defined exactly when every rule gives a row |
| Merge.MergeBasicInfo | backend/main.py:1630-1660 | an empty `basic_info` answer changes nothing; otherwise no list outside the basic fields and the bookkeeping lists changes |
| Merge.MergeSelection | backend/main.py:1663-1674 | the selection answer changes only the selection parameters |
| Merge.MergeFieldMappings | backend/main.py:1677-1693 | the field-mapping answer changes only the field mappings |
| Merge.MergeValidDatasets | backend/main.py:1696-1702 | the valid-dataset answer changes only the valid-dataset rules |
| Merge.MergeLookups | backend/main.py:1705-1742 | the lookup answer changes only `country_info`, `currency_t500c` and `currency_t001` |
| Merge.MergeErrors | backend/main.py:1745-1753 | the error answer changes only the error scenarios |
| Merge.MergeTests | backend/main.py:1755-1763 | the test answer changes only the test scenarios |
| Merge.MergeValidationRules | backend/main.py:1765-1767 | the validation answer changes only the validation rules |
| Merge.MergeAuthorization | backend/main.py:1769-1772 | the authorization answer changes only the authorization objects and user roles |
| Merge.MergeDesign | backend/main.py:1630-1742 | the design facets leave the error, test, validation and authorization lists alone |
| Merge.MergeChecks | backend/main.py:1745-1772 | the check facets change only the error, test, validation and authorization lists |
| Merge.MergeSelectionRows | backend/main.py:1663-1674 | a successful merge appends one selection parameter per dictionary of the answer, in order, and nothing when the answer is empty |
| Merge.MergeFieldMappingRows | backend/main.py:1677-1693 | a successful merge appends one field mapping per dictionary, in order |
| Merge.MergeErrorRows | backend/main.py:1745-1753 | a successful merge appends one error scenario per dictionary, in order |
| Merge.MergeTestRows | backend/main.py:1755-1763 | a successful merge appends one test scenario per dictionary, in order |
| Merge.MergeDatasetRows | backend/main.py:1696-1702 | a successful merge appends one data/condition row per dictionary of the valid-dataset answer, in order, and nothing when the answer is empty |
| Merge.MergeValidationRuleItems | backend/main.py:1765-1767 | a successful merge extends the validation rules by the answer's items, in order, and by nothing when the answer is empty |
| Merge.MergeAuthorizationItems | backend/main.py:1769-1772 | a successful merge extends the authorization objects and the user roles by the answer's two lists, in order, and by nothing when the answer is empty |
| Merge.MergeBasicInfoFields | backend/main.py:1630-1638 | after a successful merge with a non-empty `basic_info` answer, program name, report descriptions, user requirements and transaction code are the answer's values or `""`, the menu path is its value or `"N/A"`, and the assumptions are its list; with an empty answer none of them changes |
| Merge.BasicInfoFields | backend/main.py:1630-1638 | the same, for the `basic_info` answer alone |
| Merge.AddRicefwId | backend/main.py:1641-1643 | changes only the related documents |
| Merge.AddCreation | backend/main.py:1645-1654 | changes only the version history |
| Merge.AddContact | backend/main.py:1656-1660 | changes only the reviewers |
| Merge.MergeBookkeeping | backend/main.py:1641-1660 | exactly one `"RICEFW ID: <id>"` for a non-empty id; a version entry only when both creation date and author are non-empty; a reviewer only for a non-empty functional contact; nothing for an empty answer |
| Merge.MergeLookupRouting | backend/main.py:1705-1742 | company-code rows go to `country_info`, business-area rows to `currency_t500c`, wage-type rows and then payroll-reason rows to `currency_t001`, each in answer order |
| Merge.MergeFailsOnScalarList | backend/main.py:1665 | a list answer that is a number, a boolean or null makes the merge fail |
| Merge.SelectionParameterJsonText | backend/main.py:65-73 | the text fields of a serialised selection parameter read back unchanged |
| Merge.SelectionParameterJsonFlags | backend/main.py:65-73 | the three flags of a serialised selection parameter read back unchanged |
| Merge.SelectionParameterRoundTrip | backend/main.py:1666-1674 | merging a serialised selection parameter gives it back |
| Merge.FieldMappingRoundTrip | backend/main.py:1680-1693 | merging a serialised field mapping gives it back, processing type included |
| Merge.ErrorScenarioRoundTrip | backend/main.py:1748-1753 | merging a serialised error scenario gives it back |
| Merge.TestScenarioRoundTrip | backend/main.py:1758-1763 | merging a serialised test scenario gives it back |
| Merge.DatasetRuleRoundTrip | backend/main.py:1699-1702 | merging a serialised data/condition row gives it back |
| Mapper.FsdMapper.constructor | backend/main.py:1160-1163 | a new mapper holds an empty FSD document carrying the configured project name |
| Mapper.RunTasks | backend/main.py:1186-1208 | the task loop records an answer for every one of the nine tasks and for no other name: the task's answer, or `{}` when asking failed |
| Mapper.FsdMapper.MapBasicInfo | backend/main.py:1630-1660 | the document after the `basic_info` block is the merge function's result, and the method fails exactly when the merge does |
| Mapper.FsdMapper.MapSelection | backend/main.py:1663-1674 | the loop appends as the merge function says |
| Mapper.FsdMapper.MapFieldMappings | backend/main.py:1677-1693 | the loop appends as the merge function says |
| Mapper.FsdMapper.MapValidDatasets | backend/main.py:1696-1702 | the loop appends as the merge function says |
| Mapper.FsdMapper.MapErrors | backend/main.py:1745-1753 | the loop appends as the merge function says |
| Mapper.FsdMapper.MapTests | backend/main.py:1755-1763 | the loop appends as the merge function says |
| Mapper.FsdMapper.MapLookupCategory | backend/main.py:1708-1742 | one category loop appends its rows to its table as the merge function says |
| Mapper.FsdMapper.MapLookups | backend/main.py:1705-1742 | the four category loops in their fixed order |
| Mapper.FsdMapper.MapValidationRules | backend/main.py:1765-1767 | `extend` as the merge function says |
| Mapper.FsdMapper.MapAuthorization | backend/main.py:1769-1772 | both `extend` calls as the merge function says |
| Mapper.FsdMapper.MapResults | backend/main.py:1626-1772 | the whole mapping equals the merge function, and fails exactly when it does |
| Mapper.FsdMapper.AnalyzeAndMap | backend/main.py:1165-1181 | records the source file as document location, asks every task and merges the answers |
| Render.FirstRicefwSpec | backend/main.py:730-736 | no id exactly when no related document starts with `RICEFW ID:`; otherwise the stripped text after the first colon of the first one that does |
| Render.FirstRicefwIgnoresRest | backend/main.py:730-736 | the loops `break` at the first RICEFW entry: later entries never change the id |
| Render.ReportDescriptionCases | backend/main.py:723-757 | the design text when there is one; otherwise the improved join of the requirement text and the parameter and field counts, or the improved default sentence when all three are missing |
| Render.HeadingsMembers | backend/main.py:759-955 | the outline of a Markdown text holds exactly its heading lines |
| Render.TableBlockOutline | backend/main.py:867-953 | an optional table block adds its heading line to the outline exactly when it has rows, and nothing else |
| Render.PresentMember | backend/main.py:867-953 | among distinct headings, one is present exactly when its section is shown |
| Render.TableOutline | backend/main.py:867-953 | the optional blocks contribute exactly the headings of the non-empty sections, in their fixed order |
| Render.FrontOutline | backend/main.py:762-865 | the part before the tables has the title, sections 1 to 4 and 4.1 as headings, and the description should it read as one |
| Render.MarkdownOutline | backend/main.py:759-955 | the outline of the whole document is the fixed front headings followed by the headings of exactly the non-empty sections, in order |
| Render.HeadingsDistinct | backend/main.py:867-944 | the eight optional headings differ from one another and from the fixed ones |
| Render.OutlinedShown | backend/main.py:867-944 | a text outlined by fixed headings followed by the flagged ones among distinct optional headings holds each optional heading exactly when its flag is set |
| Render.SectionPresence | backend/main.py:867-944 | every optional section's heading appears exactly when its list is non-empty |
| Render.SelectionRowCells | backend/main.py:875-879 | a selection-screen row reads back as name, type and description followed by Yes/No for the three flags |
| Render.DetailRowCells | backend/main.py:892-894 | a detail row reads back as the mapping's four fields and its processing type's value |
| Render.DataConditionLineCells | backend/main.py:906-907 | a data/condition row reads back as its data and its condition |
| Render.ErrorRowNumbered | backend/main.py:937-938 | the i-th error row is numbered i + 1 and reads back as the scenario's four fields |
| Render.TestRowNumbered | backend/main.py:951-952 | the i-th test row is numbered i + 1 and reads back as the scenario's four fields |
| Render.TableBlockLayout | backend/main.py:867-881 | a non-empty table is its heading, a blank line, a header row, a separator row, then one row per record in order, and a closing blank line where the source adds one |
| Render.ProgramNameFirstRicefw | backend/main.py:834-849 | the Program Name line shows the Assign Nodin of the first RICEFW entry when the lookup finds one, else `program_name` |
| Render.NoRicefwDefaults | backend/main.py:810-849 | without a RICEFW entry the Program Name and User Requirements are the document's own |
| Render.AssumptionsAlwaysPresent | backend/main.py:826-831 | the assumptions label is written even when there are no assumptions |
| Generator.FindRicefw | backend/main.py:730-736 | the search loop returns the first RICEFW id, as `Render.FirstRicefwSpec` characterises it |
| Generator.ComposeBase | backend/main.py:728-739 | the base text: the first RICEFW id's Requirement Description when found and non-empty, else `user_requirements` |
| Generator.ComposeReportDescription | backend/main.py:723-757 | returns the description that `Render.ReportDescriptionCases` characterises |
| Generator.AppendList | backend/main.py:782-807 | a labelled list adds its caption, one line per item and a blank line, and nothing when there are no items |
| Generator.AppendInfo | backend/main.py:773-807 | section 1 as the rendering specifies, with RICEFW ids shown by their Assign Nodin when one is found |
| Generator.AppendGeneral | backend/main.py:809-831 | section 2 as the rendering specifies |
| Generator.AppendExisting | backend/main.py:833-853 | section 3 as the rendering specifies |
| Generator.AppendTable | backend/main.py:867-921 | a titled table as `Render.TableBlockLayout` lays it out, and nothing when there are no records |
| Generator.AppendNumberedTable | backend/main.py:928-952 | a table whose rows are numbered from 1, as `Render.ErrorRowNumbered` reads them back |
| Generator.FrontMatter | backend/main.py:762-865 | the title block and sections 1 to 4.1, whose outline `Render.FrontOutline` gives |
| Generator.AppendTables | backend/main.py:867-953 | sections 4.2 to 6, whose outline `Render.TableOutline` gives |
| Generator.GenerateMarkdown | backend/main.py:759-955 | the text is `Render.MarkdownLines` joined by newlines; `Render.MarkdownOutline` and `Render.SectionPresence` are proved of that line list, and they carry over to the text read back line by line only when no field value holds a newline |
| MarkdownParse.HeadingLines | backend/main.py:235-247 | the three heading tests are exactly the `startswith('# ')`, `'## '` and `'### '` tests |
| MarkdownParse.MarkdownParser.constructor | backend/main.py:221-223 | a new parser holds its text and an empty result |
| MarkdownParse.MarkdownParser.SaveSubsection | backend/main.py:278-286 | creates the section and its `subsections` dictionary when missing and stores the content under the subsection; fails when the key holds the title string |
| MarkdownParse.MarkdownParser.SaveSection | backend/main.py:268-276 | stores the content under the subsection when one is open, else as the section's `content`; fails when the key holds the title string |
| MarkdownParse.MarkdownParser.Advance | backend/main.py:232-259 | one pass of the loop over a stripped line, as the step function says; fails exactly when a save raises |
| MarkdownParse.MarkdownParser.Parse | backend/main.py:225-266 | the parser's data after `parse` is the parse of its text, and a failed save fails the parse |
| MarkdownParse.RunAppend | backend/main.py:232-259 | the loop over two stretches of lines is the loop over the first, then over the second |
| MarkdownParse.RunFails | backend/main.py:232-259 | an error on a prefix of the lines is an error of the whole parse |
| MarkdownParseFacts.TextLinesStripped | backend/main.py:227-233 | the lines the loop inspects are stripped |
| MarkdownParseFacts.KeptClean | backend/main.py:256-259 | lines stored as content are never blank, and stripped when the input was |
| MarkdownParseFacts.KeptVerbatim | backend/main.py:254-259 | non-blank lines, table rows among them, are stored verbatim and in order |
| MarkdownParseFacts.HeadingNonEmpty | backend/main.py:237-250 | the name taken from a stripped heading line is never empty |
| MarkdownParseFacts.StepPlain | backend/main.py:254-259 | a line that is not a heading only extends the open content, when it is not blank |
| MarkdownParseFacts.StepTitle | backend/main.py:235-237 | a `# T` line sets the title to `T` |
| MarkdownParseFacts.StepSection | backend/main.py:238-246 | a `## X` line saves the open section, then opens `X` with no subsection and no content |
| MarkdownParseFacts.StepSubsection | backend/main.py:247-253 | a `### Y` line saves the open subsection, then opens `Y` with no content |
| MarkdownParseFacts.BodyRun | backend/main.py:254-259 | a stretch of plain lines only extends the open content, by exactly its non-blank lines |
| MarkdownParseFacts.SectionContent | backend/main.py:238-264 | `## X` followed by plain lines stores those lines, blank ones removed, as `X`'s content |
| MarkdownParseFacts.ContentBeforeSubsectionDropped | backend/main.py:238-264 | the lines between `## X` and its first `### Y` are lost: the section keeps the content it had and `Y` gets only its own lines |
| MarkdownParseFacts.StepGrows | backend/main.py:238-259 | a step other than a title line keeps every key and what it held |
| MarkdownParseFacts.RunGrows | backend/main.py:232-259 | without title lines, the data only grows along the loop |
| MarkdownParseFacts.TitleFromLastHashLine | backend/main.py:235-237 | the title is the text of the last `#` line |
| MarkdownParseFacts.SectionHeadingIsKey | backend/main.py:238-264 | every `##` heading read becomes a key of the result |
| MarkdownParseFacts.SubsectionHeadingIsKey | backend/main.py:238-264 | a `### Y` read while section `X` is open becomes a subsection of `X` in the result |
| MarkdownParseFacts.StoredLinesClean | backend/main.py:232-264 | no blank line and no line with surrounding whitespace is stored |
| MarkdownParseFacts.ParsedTextClean | backend/main.py:225-266 | the same for the parse of any text |
| ContentHelpers.KeepWordAndSpace | backend/main.py:403 | removing special characters keeps only word characters and whitespace and never lengthens the name |
| ContentHelpers.CollapseSpaces | backend/main.py:404 | after whitespace runs become underscores, every character is an underscore or a non-space character of the input |
| ContentHelpers.NormalizedKey | backend/main.py:399-405 | every key is made of lower-case letters, digits and underscores only |
| ContentHelpers.DropNumberAndDot | backend/main.py:402 | a leading number and its dot are removed, with the whitespace after them |
| ContentHelpers.NumberedHeadingKey | backend/main.py:399-405 | a heading numbered `n. ` gets the same key as its bare title |
| ContentHelpers.DottedNumberKeepsMinor | backend/main.py:402 | only the first number of a dotted one goes: `4.2 Selection Screen` keeps `2 Selection Screen` |
| ContentHelpers.KeyIsNormal | backend/main.py:399-405 | a key that does not start with a digit normalises to itself |
| ContentHelpers.NormalizeIdempotent | backend/main.py:399-405 | normalising twice is normalising once, unless the key starts with a digit |
| ContentHelpers.RowTest | backend/main.py:419 | the second half of the row test (`'|' in line`) adds nothing to the first |
| ContentHelpers.BoldLine | backend/main.py:437-439 | `**x**` counts as bold text and its content is `x` |
| ContentHelpers.RowRuns | backend/main.py:416-447 | a trailing row line always leaves at least one table |
| ContentHelpers.ProcessContent | backend/main.py:407-449 | the loop builds the text items, the tables (maximal runs of row lines) and the list items that the specification functions define |
| ContentHelpers.TablesHoldEveryRow | backend/main.py:416-447 | the tables hold every row line, each read as its cells, in order, and nothing else |
| ContentHelpers.TablesNonEmpty | backend/main.py:416-447 | no table is empty |
| ContentHelpers.EveryLineCounted | backend/main.py:418-444 | every non-empty line becomes exactly one text item, list item or table row, and an empty line becomes nothing |
| ContentHelpers.BulletsAreListed | backend/main.py:434-436 | lines written `- x` are read back as the list items `x`, and give no text |
| ContentHelpers.AllDashesEvery | backend/main.py:545 | the dash test holds exactly when every cell starts with `---` |
| ContentHelpers.ExtractTable | backend/main.py:539-548 | the loop keeps the row lines with at least two bars whose cells are not all dashes, read as their cells, in order |
| ContentHelpers.SeparatorCells | backend/main.py:539-548 | the separator line reads back as one dash cell per column, two dashes longer than the column name |
| ContentHelpers.PipeRowKept | backend/main.py:539-548 | a rendered row whose cells are not all dashes is kept and reads back as its cells |
| ContentHelpers.TableRowsAppend | backend/main.py:539-548 | reading two stretches of lines is reading each in turn |
| ContentHelpers.RenderedRowsRead | backend/main.py:539-548 | rendered data rows read back as their cells |
| ContentHelpers.RenderedTableReadBack | backend/main.py:539-548 | a rendered table block reads back as its header row and then its data rows, in order, without the separator, the heading or blank lines; a block left out for having no rows reads back as nothing |
| ContentHelpers.RowsMakeOneTable | backend/main.py:416-447 | a run of row lines is one table |
| ContentHelpers.ProcessedTableKeepsSeparator | backend/main.py:416-447 | a rendered table becomes one table whose second row is the separator's cells: unlike `_extract_table_from_content`, `_process_content` keeps the separator |
| ContentHelpers.SeparatorDashesIff | backend/main.py:545 | the separator's cells are all dashes exactly when every column has a name |
| TitleExtract.RhrMatch | backend/md_to_docs_converter.py:174-177 | no match exactly when no `RHR` followed by a digit occurs; a match is `RHR` and digits, and occurs in the line |
| TitleExtract.LabelValue | backend/md_to_docs_converter.py:191-242 | a labelled value is found only on a line that contains the label |
| TitleExtract.RemoveLabel | backend/md_to_docs_converter.py:210 | removing the User Requirements label never lengthens the line |
| TitleExtract.ContinuationStep | backend/md_to_docs_converter.py:211-219 | the continuation loop adds each following line, stripped and after a space, until a blank line, the Assumptions label or a `## ` heading |
| TitleExtract.RunNext | backend/md_to_docs_converter.py:86-358 | one more pass of the line loop is one more step |
| TitleExtract.MarkdownTitleExtractor.constructor | backend/md_to_docs_converter.py:22-23 | the extractor holds the Markdown text |
| TitleExtract.MarkdownTitleExtractor.ExtractTitleInfo | backend/md_to_docs_converter.py:25-396 | the loop, the fallbacks and the table of contents give exactly the title information the specification function defines |
| TitleExtractFacts.DesignChangeUnreachable | backend/md_to_docs_converter.py:106-137 | the `DESIGN CHANGE` branch is dead: such a heading also names the design, which is tested first |
| TitleExtractFacts.PlainLines | backend/md_to_docs_converter.py:90-145 | only a `## ` line can change the section |
| TitleExtractFacts.ListStepStripped | backend/md_to_docs_converter.py:351-358 | a stripped line never starts with the two spaces of `  - ` |
| TitleExtractFacts.StepParts | backend/md_to_docs_converter.py:147-358 | which fields one line can change: the header and tables only when the line reaches the field updates, and never the lists |
| TitleExtractFacts.RunKeepsLists | backend/md_to_docs_converter.py:86-358 | the lists stay empty along the whole loop |
| TitleExtractFacts.ListsNeverFilled | backend/md_to_docs_converter.py:340-358 | the related documents, reviewers and version history are never filled, since their items are looked for on stripped lines starting with `  - ` |
| TitleExtractFacts.HeadingTextNonEmpty | backend/md_to_docs_converter.py:166-167 | a stripped `## ` heading always gives a non-empty program name |
| TitleExtractFacts.FirstLeaveTitleNext | backend/md_to_docs_converter.py:139-167 | the first unknown heading's title among one more line extends the one among fewer, and is empty exactly when there is none |
| TitleExtractFacts.ProgramNameIsFirstLeave | backend/md_to_docs_converter.py:86-167 | the program name is the text of the first `## ` heading that names no known section (known ones `continue` before it); with none it stays empty |
| TitleExtractFacts.RunRicefw | backend/md_to_docs_converter.py:174-177 | along the loop the RICEFW id is empty or `RHR` and digits |
| TitleExtractFacts.RicefwFallbackShaped | backend/md_to_docs_converter.py:361-369 | the fallback ids are `RHR` and digits |
| TitleExtractFacts.FinishFallbacks | backend/md_to_docs_converter.py:360-386 | after the fallbacks there is a file name, the id is empty or `RHR` and digits and never empty once a program name was found, and neither is the document location |
| TitleExtractFacts.NoRhrPiece | backend/md_to_docs_converter.py:176-178 | a piece of a text with no `RHR` followed by a digit has none either |
| TitleExtractFacts.RunNoRicefw | backend/md_to_docs_converter.py:176-178 | in a text with no `RHR` followed by a digit, the loop finds no RICEFW id |
| TitleExtractFacts.TextRicefwFallback | backend/md_to_docs_converter.py:361-369 | for a text with no `RHR` followed by a digit, the program name is the first unknown `## ` heading's title, and the RICEFW id is RHR006 when that name mentions IT0015, else RHR018 when it mentions IT0267, else RHR041; with no such heading the id stays empty |
| TitleExtractFacts.TitlePageFallbacks | backend/md_to_docs_converter.py:25-396 | the same for the whole extraction |
| TitleExtractRows.NoRunAcross | backend/md_to_docs_converter.py:248-334 | a pattern without the separator's characters found in a join lies in one of its pieces |
| TitleExtractRows.JoinNoRun | backend/md_to_docs_converter.py:248-334 | joining with ` | ` creates no new occurrence of a pattern without spaces or bars |
| TitleExtractRows.PipeRowNoRun | backend/md_to_docs_converter.py:248-334 | a rendered row holds such a pattern only when one of its cells does |
| TitleExtractRows.RowRead | backend/md_to_docs_converter.py:248-334 | a rendered row is a stripped `|` line without `---`, kept for any column count up to its own, and its cells read back unchanged |
| TitleExtractRows.StepTableRow | backend/md_to_docs_converter.py:248-334 | a `|` line outside the general section only updates tables |
| TitleExtractRows.SeparatorRowSkipped | backend/md_to_docs_converter.py:248-324 | a separator row, holding `---`, changes no table |
| TitleExtractRows.NarrowRowIgnored | backend/md_to_docs_converter.py:311-334 | in the error and test sections, a row with fewer than five cells or a piece holding the header words changes no table |
| TitleExtractRows.ErrorRowRead | backend/md_to_docs_converter.py:311-321 | a rendered error row in the error section appends exactly that scenario, number included |
| TitleExtractRows.TestRowRead | backend/md_to_docs_converter.py:324-334 | a rendered test row in the testing section appends exactly that scenario, number included |
| TitleExtractRows.SelectionRowRead | backend/md_to_docs_converter.py:250-261 | a rendered selection row under the selection-screen subsection appends the parameter, its flags as `Yes`/`No` |
| TitleExtractRows.DetailRowRead | backend/md_to_docs_converter.py:263-273 | a rendered detail row under the detail-processing subsection appends the mapping, its processing type as the enum's value |
| TitleExtractRows.ConditionRowRead | backend/md_to_docs_converter.py:274-289 | a rendered data/condition row under one of the four condition subsections appends the row to that table and to no other |
| TableOfContents.FirstNumbered | backend/md_to_docs_converter.py:477-483 | the index found is the first section with that main number, or the end when there is none |
| TableOfContents.FirstNumberedUnique | backend/md_to_docs_converter.py:477-483 | any index that is the first holding the number is the one found |
| TableOfContents.ExtractTableOfContents | backend/md_to_docs_converter.py:398-517 | the two passes return the table of contents the specification function defines |
| TableOfContents.CollectSections | backend/md_to_docs_converter.py:452-483 | the first pass over the stripped lines collects the sections the specification defines |
| TableOfContents.CollectLine | backend/md_to_docs_converter.py:453-483 | the first pass's body for one line, as the step function says |
| TableOfContents.SubsectionItems | backend/md_to_docs_converter.py:503-513 | the inner loop of the second pass builds one entry per subsection on consecutive pages |
| TableOfContents.FindSection | backend/md_to_docs_converter.py:477-483 | the search returns the first section with the subsection's main number |
| TableOfContents.NumberSections | backend/md_to_docs_converter.py:434-517 | the two fixed entries, then the second pass's entries |
| TableOfContents.NumberDotReads | backend/md_to_docs_converter.py:456 | a number followed by a dot reads back as that number and the rest |
| TableOfContents.NumberTitleReads | backend/md_to_docs_converter.py:471 | a number, a space and a stripped title read back as that number and title |
| TableOfContents.MainHeadingReadsRendered | backend/md_to_docs_converter.py:456-459 | a main heading written `## n. title` reads back as `n` and the title |
| TableOfContents.SubHeadingReadsRendered | backend/md_to_docs_converter.py:471-475 | a subsection heading written `### m.k title` reads back as `m`, `k` and the title |
| TableOfContents.SubHeadingWithoutTitle | backend/md_to_docs_converter.py:471 | with no title the pattern takes the last digit of the number as the title, and one digit alone does not match |
| TableOfContents.MainHeadingCollected | backend/md_to_docs_converter.py:456-468 | a numbered `##` heading opens a section, unless its number is 0 |
| TableOfContents.SubsectionJoinsFirstMatch | backend/md_to_docs_converter.py:471-483 | a subsection is appended to the first section with its main number and to no other |
| TableOfContents.OrphanSubsectionDropped | backend/md_to_docs_converter.py:471-483 | a subsection whose main section was not seen is dropped |
| TableOfContents.LookupIdentity | backend/md_to_docs_converter.py:490 | a lookup in pairs that map each key to itself gives the key when present and the default otherwise |
| TableOfContents.SectionMappingsIdentity | backend/md_to_docs_converter.py:417-432 | `section_mappings` maps every key to itself |
| TableOfContents.MappingKeepsTitles | backend/md_to_docs_converter.py:490-507 | subsection titles are kept, and a main title is kept, or upper-cased when its upper-case form is a key |
| TableOfContents.SubEntriesShape | backend/md_to_docs_converter.py:503-513 | the subsection entries are numbered `n.1`, `n.2`, ... with their titles, on consecutive pages |
| TableOfContents.EntriesPages | backend/md_to_docs_converter.py:486-515 | the second pass's entries run on consecutive pages from page 4 |
| TableOfContents.TocPages | backend/md_to_docs_converter.py:398-517 | the table opens with the two fixed entries, and entry `j` is on page `j + 2` |
| TableOfContents.EntriesPrefix | backend/md_to_docs_converter.py:486-515 | the entries of the first sections are a prefix of the entries of all of them |
| TableOfContents.SectionNumbering | backend/md_to_docs_converter.py:486-515 | the k-th section found is numbered `3 + k` with its mapped title, and its subsections follow it numbered `3 + k` dot 1, 2, ... with their titles |
| TableOfContents.BlockShape | backend/md_to_docs_converter.py:486-515 | one section's entries are the section, then each subsection in order, on consecutive pages |
| TableBuilders.SelectionScreenTableData | backend/md_to_docs_converter.py:670-689 | no table exactly for no items; otherwise the selection headers and one row per parameter with its six fields in header order |
| TableBuilders.DetailProcessingTableData | backend/md_to_docs_converter.py:691-726 | no table exactly for no items; otherwise three columns and one row per field: name, technical field and `Keterangan` |
| TableBuilders.DataConditionTableData | backend/md_to_docs_converter.py:809-820 | no table exactly for no rows; otherwise `Data`/`Kondisi` and one row per entry |
| TableBuilders.ErrorHandlingTableData | backend/md_to_docs_converter.py:743-769 | no table exactly for no items; otherwise four columns and one row per error, code and severity combined |
| TableBuilders.TestingRequirementsTableData | backend/md_to_docs_converter.py:771-790 | no table exactly for no items; otherwise five columns and one row per test |
| TableBuilders.TestingSummaryTableData | backend/md_to_docs_converter.py:792-807 | no table exactly for no items; otherwise condition and expected result per test |
| TableBuilders.CodeSeverityShape | backend/md_to_docs_converter.py:757 | the last error column is the severity in parentheses, after the code and a space unless the code is `N/A` |
| TableBuilders.PriorityUpperCased | backend/md_to_docs_converter.py:784 | a test's priority is written in capitals |
| TableBuilders.DetailPartsShape | backend/md_to_docs_converter.py:702-716 | the `Keterangan` pieces: the source sentence when there is a source table, the logic unless blank or `N/A`, the processing type unless `DIRECT`, in that order |
| TableBuilders.KeteranganNotApplicable | backend/md_to_docs_converter.py:718 | `Keterangan` is `N/A` exactly when there is no piece |
| TableBuilders.ColumnWidths | backend/md_to_docs_converter.py:553-587 | widths are set exactly for two to six columns, one per column |
| TableBuilders.BuilderWidths | backend/md_to_docs_converter.py:553-587 | each builder's headers select the widths meant for that table; the generic three-column and five-column error widths are never chosen for a builder's table |
| TableBuilders.BorderedTableReadsBack | backend/md_to_docs_converter.py:538-623 | the table has one row more than the data, every row as wide as the headers; the header row reads as the headers and each data cell as the data or empty where a row is short, extra cells dropped |
| TableBuilders.BuiltTableReadsBack | backend/md_to_docs_converter.py:538-623 | a builder's table is never cut or padded: its cells read back as the builder's rows |
| TextComposers.JoinedLines | backend/md_to_docs_converter.py:1079 | single-line pieces joined by line breaks split back into the pieces |
| TextComposers.AssumptionsLines | backend/md_to_docs_converter.py:1074-1081 | line `k` of the assumptions text is assumption `k` numbered `k + 1`, one line per assumption; with none, the one line says so |
| TextComposers.TransactionMenuLines | backend/md_to_docs_converter.py:1083-1094 | a `Transaksi` line exactly when a code is given, then a `Menu Path` line exactly when a path is given, and `N/A` when neither is |
| TextComposers.ReportDescriptionMentions | backend/md_to_docs_converter.py:1365-1385 | the description opens with the user requirements when there are any, states the parameter and field counts when those tables are non-empty, and is the stock sentence when there is nothing to say |
| TextComposers.AuthorizationsRedundant | backend/md_to_docs_converter.py:1395 | the test for `authorizations` never adds to the test for `authorization` |
| TextComposers.AuthorizationLines | backend/md_to_docs_converter.py:1388-1401 | the authorization lines are exactly the assumptions mentioning authorization; with none, the stock sentence |
| TextComposers.DesignConstraintLines | backend/md_to_docs_converter.py:1403-1419 | the constraints open with the compatibility line when the SAP program is named, and the other lines are exactly the assumptions with a technical keyword; with neither, the stock sentence |
| TextComposers.TestingRequirementsContent | backend/md_to_docs_converter.py:822-828 | the fallback sentence exactly when there are no test requirements, the other sentence exactly when there are |
| ParagraphEdit.ReplaceTextPreserveFormatting | backend/md_to_docs_converter.py:830-890 | reports a replacement exactly when the paragraph's text contains the phrase, and only then changes the paragraph |
| ParagraphEdit.LaidOutText | backend/md_to_docs_converter.py:851-866 | the runs laid out line by line read back as the lines joined by line breaks |
| ParagraphEdit.ReplacedText | backend/md_to_docs_converter.py:830-890 | afterwards the paragraph reads as its old text with every occurrence of the phrase replaced |
| ParagraphEdit.LaidOutShape | backend/md_to_docs_converter.py:851-866 | line `k` is run `2k` in the first run's format, and each pair of lines is separated by one break run |
| ParagraphEdit.ReplacedLayout | backend/md_to_docs_converter.py:840-879 | a paragraph that had runs gets one run per line of its new text, all in the first run's format, separated by breaks |
| TableInsert.ReplaceInParagraphs | backend/md_to_docs_converter.py:926-932 | in one cell, the first paragraph that mentions the text gets the summary |
| TableInsert.ReplaceInRow | backend/md_to_docs_converter.py:924-936 | in one row, the first cell with a mentioning paragraph is fixed |
| TableInsert.ReplaceInTable | backend/md_to_docs_converter.py:923-938 | in one table, the first row with a mentioning cell is fixed |
| TableInsert.ReplaceInTables | backend/md_to_docs_converter.py:920-940 | the first cell paragraph of the body tables that mentions the text gets the summary, and the result says whether one did |
| TableInsert.AnchorTable | backend/md_to_docs_converter.py:897-918 | with a table, the first mentioning paragraph becomes the anchor with the table right after it; without one, every mentioning paragraph becomes the anchor and nothing is reported |
| TableInsert.FindAndInsertTableAfterText | backend/md_to_docs_converter.py:892-944 | the table goes in after the first mentioning paragraph; otherwise the table cells are searched for the text and a summary written there; the result reports whether either happened |
| TableInsert.AnchorText | backend/md_to_docs_converter.py:903-908 | the cleared paragraph reads as the title, or as nothing without one |
| TableInsert.OnlyFirstAnchored | backend/md_to_docs_converter.py:897-918 | with a table, only the first mentioning paragraph changes and the table is the block right after it |
| TableInsert.RetitledParagraphs | backend/md_to_docs_converter.py:897-918 | without a table, every mentioning body paragraph becomes the anchor and every other stays |
| TableInsert.FallbackFinds | backend/md_to_docs_converter.py:920-940 | the cell search changes something exactly when some cell paragraph of some body table mentions the text |
| TableInsert.FallbackKeepsBody | backend/md_to_docs_converter.py:920-940 | the cell search leaves the body paragraphs as they were |
| TableInsert.NoMatchUnchanged | backend/md_to_docs_converter.py:892-944 | when nothing in the document mentions the text, nothing changes and nothing is reported |
| TestingSection.CleanupTestingParagraphs | backend/md_to_docs_converter.py:991-1043 | the cleanup pass over `doc.paragraphs` from `start - 5` to `start + 30` |
| TestingSection.CleanupEffect | backend/md_to_docs_converter.py:991-1043 | exactly the paragraphs of the window that hold a cleanup pattern, or are longer than 50 characters and name one of the four words, are cleared; every other paragraph and every table stays |
| TestingSection.FindAndReplaceTestingSection | backend/md_to_docs_converter.py:946-989 | the search over the seven patterns in order, as the specification function says |
| TestingSection.ClearTestingMentions | backend/md_to_docs_converter.py:961-977 | without a table, each mentioning paragraph is cleared and the search goes on |
| TestingSection.PlaceTestingTable | backend/md_to_docs_converter.py:961-983 | with a table, the first pattern some body paragraph mentions decides the paragraph: it is cleared, the table goes right after it, and the cleanup runs around it; with no mention nothing changes and nothing is reported |
| TestingSection.PatternFoundFirst | backend/md_to_docs_converter.py:961-983 | the pattern chosen is the first one in the list that some paragraph mentions |
| TestingSection.TablePlaced | backend/md_to_docs_converter.py:969-980 | after the cleanup the table still stands right after the cleared paragraph |
| TestingSection.ClearAllMentions | backend/md_to_docs_converter.py:961-977 | clearing pattern by pattern clears exactly the paragraphs that mention any of the patterns |
| TestingSection.NoTableClearsMentions | backend/md_to_docs_converter.py:946-989 | without a table, every body paragraph that mentions a testing pattern ends up cleared and every other stays |
| FinalCleanup.FinishParagraph | backend/md_to_docs_converter.py:1317-1340 | one body paragraph through the final pass, as the specification function says |
| FinalCleanup.FinishDocument | backend/md_to_docs_converter.py:1317-1340 | the final pass over `doc.paragraphs` |
| FinalCleanup.ScrubSkips | backend/md_to_docs_converter.py:1321-1330 | placeholders the text does not hold are skipped |
| FinalCleanup.ShortPlaceholderCleared | backend/md_to_docs_converter.py:1321-1326 | a paragraph whose first placeholder leaves at most 50 other characters, once stripped, is cleared |
| FinalCleanup.LongPlaceholderRemoved | backend/md_to_docs_converter.py:1321-1337 | a longer paragraph keeps its text with the placeholder removed and the ends stripped, when what is left holds no later placeholder and is no scenario summary |
| FinalCleanup.NoPlaceholder | backend/md_to_docs_converter.py:1332-1340 | without placeholders, a scenario summary is cleared and any other paragraph is left as it is |
| FinalCleanup.FinishedShortens | backend/md_to_docs_converter.py:1317-1340 | the pass never lengthens a paragraph: it is left alone, cleared, or reads strictly shorter |
| FinalCleanup.FinishEffect | backend/md_to_docs_converter.py:1317-1340 | each body paragraph is finished in place; every table keeps its place and content |
| TitleRegex.DigitsEnd | backend/md_to_docs_converter.py:1144-1145 | `\d+` ends within the text, at or after its start |
| TitleRegex.SpacesEnd | backend/md_to_docs_converter.py:1145 | `\s*` ends within the text, at or after its start |
| TitleRegex.LongestFrom | backend/md_to_docs_converter.py:1144 | the longest file-name match from a start, found whenever there is one |
| TitleRegex.FileSearch | backend/md_to_docs_converter.py:1144 | `search` finds the leftmost file-name match, and finds one whenever there is one |
| TitleRegex.FileMatchShape | backend/md_to_docs_converter.py:1144 | the file-name match is a piece of the text without line breaks that starts with `RHR` and a digit and ends with `(Nama File)` |
| TitleRegex.DocMatchAt | backend/md_to_docs_converter.py:1145 | a document-type match ends after its start and within the text |
| TitleRegex.DocSearch | backend/md_to_docs_converter.py:1145 | `search` returns a match that starts at or after the search position |
| TitleRegex.DocSearchLeftmost | backend/md_to_docs_converter.py:1145 | the match found is the leftmost one, and one is found whenever there is one |
| TitleRegex.DocMatchShape | backend/md_to_docs_converter.py:1145 | the document-type match is a piece of the text that starts with `RHR` and a digit, holds `(DAPI ID)` and ends with the FSD title |
| Substitution.SubstituteParagraph | backend/md_to_docs_converter.py:1148-1150 | all pairs applied to one paragraph in dictionary order |
| Substitution.SubstituteBody | backend/md_to_docs_converter.py:1147-1150 | all pairs applied to every body paragraph |
| Substitution.SubstitutedText | backend/md_to_docs_converter.py:1148-1150 | the paragraph reads as its old text after the successive `str.replace` calls |
| Substitution.SubstitutedUntouched | backend/md_to_docs_converter.py:1148-1150 | a paragraph holding none of the placeholders keeps its runs |
| VersionCells.SetCellParagraph | backend/md_to_docs_converter.py:1168-1188 | setting one paragraph of one cell changes that paragraph and no other |
| VersionCells.Step | backend/md_to_docs_converter.py:1171-1188 | one step of the row pass keeps the row's shape |
| VersionCells.Through | backend/md_to_docs_converter.py:1168-1188 | the row after the steps so far keeps the row's shape |
| VersionCells.FillRow | backend/md_to_docs_converter.py:1170-1188 | the pass over one row's cells and their paragraphs |
| VersionCells.FillParagraph | backend/md_to_docs_converter.py:1171-1188 | one paragraph: the replacements, then the date when it is left blank in the last cell of a row whose text mentions `AI Generated` |
| VersionCells.FillTable | backend/md_to_docs_converter.py:1169-1188 | the pass over one table's rows |
| VersionCells.FillTables | backend/md_to_docs_converter.py:1168-1188 | the pass over `doc.tables` |
| VersionCells.VersionTestDead | backend/md_to_docs_converter.py:1178 | the first version-date test can never hold: a text holding `AI Generated` or `0.01` is not blank |
| VersionCells.ThroughEffect | backend/md_to_docs_converter.py:1168-1188 | up to a given paragraph, every visited paragraph is filled and every other is as it was |
| VersionCells.RowFilledEffect | backend/md_to_docs_converter.py:1168-1188 | in a filled row every paragraph holds the replacements, except that in the last cell a paragraph they left blank may hold the date instead; cells and paragraphs keep their number |
| VersionCells.BlocksFilledParagraphs | backend/md_to_docs_converter.py:1168-1188 | the table pass leaves the body paragraphs alone |
| TemplateFill.ReplaceTitle | backend/md_to_docs_converter.py:1055-1070 | the loop retitles the first paragraph whose stripped text ends with `(Nama File)`, and only it |
| TemplateFill.TitleFirst | backend/md_to_docs_converter.py:1055-1070 | the title line found first is the one retitled |
| TemplateFill.TitledHeading | backend/md_to_docs_converter.py:1055-1070 | the first title line's stripped text is replaced by `ricefw_id file_name`, it then holds that heading, no title line comes before it, and nothing else changes |
| TemplateFill.LastParagraph | backend/md_to_docs_converter.py:1147-1153 | the paragraph the loop variable is left holding is the last body paragraph; there is none exactly when the body has only tables |
| TemplateFill.RetitleLast | backend/md_to_docs_converter.py:1153-1167 | the two title patterns applied to that paragraph in order |
| TemplateFill.InsertWhen | backend/md_to_docs_converter.py:1190-1255 | one table inserted when its data was built |
| TemplateFill.InsertDesignTables | backend/md_to_docs_converter.py:1190-1255 | the six design tables in their fixed order, each only when it has rows |
| TemplateFill.InsertErrorAndTestingTables | backend/md_to_docs_converter.py:1257-1298 | the error table and the error-log sentence, then the testing table, with `{{kondisi_pengujian_tabel}}` as the fallback anchor |
| TemplateFill.GenerateWithProperTables | backend/md_to_docs_converter.py:1044-1363 | reports success exactly when a document is produced, and the body is then the filled template |
| TemplateFill.FillWith | backend/md_to_docs_converter.py:1055-1344 | the fill once the template is open |
| TemplateFill.PrepareFill | backend/md_to_docs_converter.py:1055-1150 | the title line, then the replacements on every body paragraph |
| TemplateFill.CompleteFill | backend/md_to_docs_converter.py:1153-1344 | everything after the replacement loop |
| TemplateFill.NoParagraphsOnlyTables | backend/md_to_docs_converter.py:1147-1153 | a body without paragraphs has only tables |
| TemplateFill.PreparedLast | backend/md_to_docs_converter.py:1147-1153 | the title patterns find a paragraph exactly when the template has a body paragraph |
| TemplateFill.FilledWhen | backend/md_to_docs_converter.py:1055-1344 | the fill succeeds exactly when the template has a body paragraph |
| TemplateFill.GeneratedWhen | backend/md_to_docs_converter.py:1044-1363 | a document comes out exactly when the template was found and has at least one body paragraph |

## Left out

- The language-model client, its prompts, HTTP calls and response parsing (backend/main.py:1004-1099, 1213-1624) are not modelled. The answers are an arbitrary map from task name to JSON object, with `{}` for a task whose call failed.
- `_improve_text` and the two Excel lookups are parameters of the renderer (`Render.Env`). `improve` may be any function, including the identity. Each lookup is a partial map from RICEFW id to text.
- `datetime.now()` is a parameter: a formatted stamp for the renderer, and a year/date/time triple for `extract_title_info`. The filler takes its date from what `extract_title_info` returned.
- `ABAPHTMLExtractor`, `ConfigManager`, the FastAPI app and its job registries, backend/api.py, the CLI `main` functions, and every file read, write, existence check and save are not modelled. They are I/O and global state. `generate_with_proper_tables` takes the opened template and a flag for whether the template file exists.
- DocxTemplate/Jinja rendering and the legacy append-at-end Word fill are not modelled. They are library-driven.
- python-docx fonts, sizes, alignment, shading and the `w:tcBorders` XML are reduced to an opaque run format, a bordered flag per table, and a header or data role per cell.
- Logging and debug output are not modelled.
- Exceptions are not modelled as control flow. A merge that would raise is a failed merge (`None`) as a whole. Methods say nothing about the records Python had already appended before the exception.
- Whitespace is the ASCII set `str.isspace` accepts below 128. `upper`/`lower` change only ASCII letters. Unicode case folding is not modelled.
- JSON numbers are integers only; floating-point values are not modelled. A JSON object is an ordered member list, and a repeated key keeps its last value, as `json.loads` does.
- Merge: where a string field of `FSDDocument` receives a non-string JSON value, the model stores the field's default. Python would store the raw value.
- MergeBookkeeping: a `ricefw_id`, `created_date`, `created_by` or `functional_contact` counts only when it is a non-empty string. Python tests truthiness, so a non-zero number, `true`, or a non-empty array or object also adds an entry, rendered with `str()`. The model's records hold strings, and `str()` of arbitrary JSON values is not modelled. `Merge.BasicInfoBookkeeping` states the same string-only rule.
- Json.TextItems: a list item that is not a string reads as `""`. This affects the items of `assumptions`, `validation_rules`, `authorization_objects` and `user_roles` (backend/main.py:1636, 1767, 1771-1772). Python stores the raw value and the renderer prints its `str()`. `Merge.MergeBasicInfoFields`, `Merge.MergeValidationRuleItems` and `Merge.MergeAuthorizationItems` state the same reading.
- Word characters and digits are ASCII: `IsWordChar` is `[A-Za-z0-9_]` and `IsDigit` is `[0-9]`. Python's `\w` and `\d` also match non-ASCII letters and digits, so `re.sub(r'[^\w\s]', '', 'Désign')` keeps `é` where the model drops it. The members affected are `ContentHelpers.KeepWordAndSpace`, `ContentHelpers.NormalizedKey`, `TitleExtract.RhrMatch`, `TableOfContents.NumberDot`, `TableOfContents.NumberTitle` and `TitleRegex.DigitsEnd`.
- Merge: an `assumptions` answer that cannot be iterated fails the merge. Python would store it and fail later, while rendering.
- Merge: booleans are stored as their Python truthiness. The renderer uses nothing else about them.
- `extract_title_info`: `module_name`, `document_type` and the test-data location are the source's constant strings.
- `find_and_insert_table_after_text`: a `None` title is modelled as the empty string. The source only tests the title's truthiness, so the two behave alike.
- Cleanup: `paragraph.text = ...` is modelled as replacing the runs by a single run with the default format, as python-docx does.
