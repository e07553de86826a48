/** Turning the nine analysis answers into the FSD record
    (`IntelligentFSDMapper`): the task loop that asks for every facet, and
    `_map_fixed_results_to_fsd`, which appends each facet's records to the
    document in the order the answers list them. A value of the wrong shape
    where the code iterates or calls `.get` raises in Python and aborts the
    whole run; here that is a failed merge. */
module Merge {
  import opened Wrappers
  import opened Json
  import opened Text
  import opened Fsd
  import Seqs

  /** The analysis tasks, in the order they are asked. */
  const TaskNames: seq<string> := [
    "basic_info", "selection_screen", "complete_field_mappings", "complete_valid_datasets",
    "complete_lookup_forms", "error_handling", "test_scenarios", "validation_rules", "authorization"]

  /** The task loop's results: every task's answer, or `{}` when asking failed. */
  type Results = map<string, Object>

  /** `results.get(name, {})`. */
  function Answer(results: Results, name: string): Object {
    if name in results then results[name] else []
  }

  // ---- one record per answer dictionary ----

  /** `FieldProcessingType(d.get('processing_type', 'DIRECT'))`, with
      `ValueError` falling back to `DIRECT`. */
  function ProcessingTypeField(o: Object): (r: ProcessingType)
    ensures forall t: ProcessingType :: Get(o, "processing_type") == Some(JStr(t.Value())) ==> r == t
    ensures r == Direct || Get(o, "processing_type") == Some(JStr(r.Value()))
  {
    ProcessingTypeOf(GetOr(o, "processing_type", JStr("DIRECT"))).GetOr(Direct)
  }

  function SelectionParameterOf(o: Object): SelectionParameter {
    SelectionParameter(
      StrField(o, "name", ""), StrField(o, "type", ""), StrField(o, "description", ""),
      Flag(o, "is_mandatory"), Flag(o, "is_select_option"), Flag(o, "has_no_intervals"),
      StrField(o, "default_value", ""))
  }

  function FieldMappingOf(o: Object): FieldMapping {
    FieldMapping(
      StrField(o, "display_name", ""), StrField(o, "technical_field", ""), StrField(o, "source_table", ""),
      StrField(o, "processing_logic", ""), ProcessingTypeField(o),
      StrField(o, "join_condition", ""), StrField(o, "where_condition", ""))
  }

  function DatasetRuleOf(o: Object): DataConditionRow {
    DataConditionRow(StrField(o, "data", ""), StrField(o, "condition", ""))
  }

  function ErrorScenarioOf(o: Object): ErrorScenario {
    ErrorScenario(StrField(o, "error_description", ""), StrField(o, "resolution", ""),
                  StrField(o, "error_code", ""), StrField(o, "severity", "ERROR"))
  }

  function TestScenarioOf(o: Object): TestScenario {
    TestScenario(StrField(o, "condition", ""), StrField(o, "expected_result", ""),
                 StrField(o, "test_data", ""), StrField(o, "priority", "HIGH"))
  }

  /** A lookup rule: `data` is its target fields joined by `" & "` (one default
      field when the rule names none), `condition` its condition text. */
  function LookupRowOf(o: Object, defaultField: string): (r: Option<DataConditionRow>)
    ensures r.Some? <==> StrictTextItems(GetOr(o, "target_fields", JArr([JStr(defaultField)]))).Some?
    ensures r.Some? ==> r.value.data == Join(StrictTextItems(GetOr(o, "target_fields", JArr([JStr(defaultField)]))).value, " & ")
                        && r.value.condition == StrField(o, "condition", "")
    ensures r.Some? && !HasKey(o, "target_fields") ==> r.value.data == defaultField
  {
    var names :- StrictTextItems(GetOr(o, "target_fields", JArr([JStr(defaultField)])));
    assert !HasKey(o, "target_fields") ==> names == [defaultField];
    Some(DataConditionRow(Join(names, " & "), StrField(o, "condition", "")))
  }

  /** The rows of a list of lookup rules, or `None` at the first rule whose
      target fields are not all strings. */
  function LookupRows(rules: seq<Object>, defaultField: string): (r: Option<seq<DataConditionRow>>)
    ensures r.Some? <==> forall i :: 0 <= i < |rules| ==> LookupRowOf(rules[i], defaultField).Some?
    ensures r.Some? ==> |r.value| == |rules|
                        && forall i :: 0 <= i < |rules| ==> r.value[i] == LookupRowOf(rules[i], defaultField).value
  {
    if rules == [] then Some([])
    else
      var front := LookupRows(rules[..|rules| - 1], defaultField);
      assert forall i :: 0 <= i < |rules| - 1 ==> rules[..|rules| - 1][i] == rules[i];
      if front.None? then None
      else
        var last := LookupRowOf(rules[|rules| - 1], defaultField);
        if last.None? then None else Some(front.value + [last.value])
  }

  // ---- the facets, in the order the merge applies them ----

  /** The `basic_info` answer: the scalar fields, the assumptions list, and one
      bookkeeping entry each for a RICEFW id, a creation record and a
      functional contact. */
  function MergeBasicInfo(d: FsdDocument, o: Object): (r: Option<FsdDocument>)
    ensures o == [] ==> r == Some(d)
    ensures r.Some? ==> r.value.selectionParameters == d.selectionParameters
                        && r.value.fieldMappings == d.fieldMappings
                        && r.value.validDatasetRules == d.validDatasetRules
                        && r.value.countryInfo == d.countryInfo
                        && r.value.currencyT500c == d.currencyT500c
                        && r.value.currencyT001 == d.currencyT001
                        && r.value.errorScenarios == d.errorScenarios
                        && r.value.testScenarios == d.testScenarios
                        && r.value.validationRules == d.validationRules
                        && r.value.authorizationObjects == d.authorizationObjects
                        && r.value.userRoles == d.userRoles
  {
    if o == [] then Some(d)
    else
      var assumptions :- Iterate(GetOr(o, "assumptions", JArr([])));
      Some(AddContact(AddCreation(AddRicefwId(SetBasicFields(d, o, assumptions), o), o), o))
  }

  /** The seven scalar fields and the assumptions, each from its key. */
  function SetBasicFields(d: FsdDocument, o: Object, assumptions: seq<Json>): FsdDocument {
    d.(programName := StrField(o, "program_name", ""),
       reportDescription := StrField(o, "report_description", ""),
       desainReportDescription := StrField(o, "desain_report_description", ""),
       userRequirements := StrField(o, "user_requirements", ""),
       assumptions := TextItems(assumptions),
       transactionCode := StrField(o, "transaction_code", ""),
       menuPath := StrField(o, "menu_path", "N/A"))
  }

  /** `"RICEFW ID: <id>"` appended to the related documents for a non-empty id. */
  function AddRicefwId(d: FsdDocument, o: Object): (r: FsdDocument)
    ensures r == d.(relatedDocuments := r.relatedDocuments)
  {
    var ricefw := StrField(o, "ricefw_id", "");
    if ricefw != "" then d.(relatedDocuments := d.relatedDocuments + ["RICEFW ID: " + ricefw]) else d
  }

  /** The initial version entry, when both creation date and author are given. */
  function AddCreation(d: FsdDocument, o: Object): (r: FsdDocument)
    ensures r == d.(versionHistory := r.versionHistory)
  {
    var createdDate := StrField(o, "created_date", "");
    var createdBy := StrField(o, "created_by", "");
    if createdDate != "" && createdBy != "" then
      d.(versionHistory := d.versionHistory + [Version("0.01", "Initial draft", createdBy, createdDate)])
    else d
  }

  /** The functional lead among the reviewers, for a non-empty contact. */
  function AddContact(d: FsdDocument, o: Object): (r: FsdDocument)
    ensures r == d.(reviewers := r.reviewers)
  {
    var contact := StrField(o, "functional_contact", "");
    if contact != "" then d.(reviewers := d.reviewers + [Reviewer("Functional Lead", contact)]) else d
  }

  function MergeSelection(d: FsdDocument, o: Object): (r: Option<FsdDocument>)
    ensures r.Some? ==> r.value == d.(selectionParameters := r.value.selectionParameters)
  {
    if o == [] then Some(d)
    else
      var items :- ObjectItems(GetOr(o, "selection_parameters", JArr([])));
      Some(d.(selectionParameters := d.selectionParameters + Seqs.Map(SelectionParameterOf, items)))
  }

  function MergeFieldMappings(d: FsdDocument, o: Object): (r: Option<FsdDocument>)
    ensures r.Some? ==> r.value == d.(fieldMappings := r.value.fieldMappings)
  {
    if o == [] then Some(d)
    else
      var items :- ObjectItems(GetOr(o, "field_mappings", JArr([])));
      Some(d.(fieldMappings := d.fieldMappings + Seqs.Map(FieldMappingOf, items)))
  }

  function MergeValidDatasets(d: FsdDocument, o: Object): (r: Option<FsdDocument>)
    ensures r.Some? ==> r.value == d.(validDatasetRules := r.value.validDatasetRules)
  {
    if o == [] then Some(d)
    else
      var items :- ObjectItems(GetOr(o, "valid_dataset_rules", JArr([])));
      Some(d.(validDatasetRules := d.validDatasetRules + Seqs.Map(DatasetRuleOf, items)))
  }

  /** Which list of the document a lookup category's rows go to. */
  datatype LookupTable = CountryInfo | CurrencyT500c | CurrencyT001

  function AppendRows(d: FsdDocument, t: LookupTable, rows: seq<DataConditionRow>): FsdDocument {
    match t
    case CountryInfo => d.(countryInfo := d.countryInfo + rows)
    case CurrencyT500c => d.(currencyT500c := d.currencyT500c + rows)
    case CurrencyT001 => d.(currencyT001 := d.currencyT001 + rows)
  }

  /** The rows one lookup category of the answer contributes. */
  function CategoryRows(o: Object, key: string, defaultField: string): Option<seq<DataConditionRow>> {
    var rules :- ObjectItems(GetOr(o, key, JArr([])));
    LookupRows(rules, defaultField)
  }

  function MergeCategory(d: FsdDocument, o: Object, key: string, defaultField: string, t: LookupTable): Option<FsdDocument> {
    var rows :- CategoryRows(o, key, defaultField);
    Some(AppendRows(d, t, rows))
  }

  /** The `complete_lookup_forms` answer: company-code rules go to
      `country_info`, business-area rules to `currency_t500c`, wage-type and
      then payroll-reason rules to `currency_t001`. */
  function MergeLookups(d: FsdDocument, o: Object): (r: Option<FsdDocument>)
    ensures r.Some? ==> r.value == d.(countryInfo := r.value.countryInfo,
                                      currencyT500c := r.value.currencyT500c,
                                      currencyT001 := r.value.currencyT001)
  {
    if o == [] then Some(d)
    else
      var d1 :- MergeCategory(d, o, "company_code_lookup", "BUTXT", CountryInfo);
      var d2 :- MergeCategory(d1, o, "business_area_lookup", "GTEXT", CurrencyT500c);
      var d3 :- MergeCategory(d2, o, "wage_type_lookup", "LGTXT", CurrencyT001);
      MergeCategory(d3, o, "payroll_reason_lookup", "OCRTX", CurrencyT001)
  }

  function MergeErrors(d: FsdDocument, o: Object): (r: Option<FsdDocument>)
    ensures r.Some? ==> r.value == d.(errorScenarios := r.value.errorScenarios)
  {
    if o == [] then Some(d)
    else
      var items :- ObjectItems(GetOr(o, "error_scenarios", JArr([])));
      Some(d.(errorScenarios := d.errorScenarios + Seqs.Map(ErrorScenarioOf, items)))
  }

  function MergeTests(d: FsdDocument, o: Object): (r: Option<FsdDocument>)
    ensures r.Some? ==> r.value == d.(testScenarios := r.value.testScenarios)
  {
    if o == [] then Some(d)
    else
      var items :- ObjectItems(GetOr(o, "test_scenarios", JArr([])));
      Some(d.(testScenarios := d.testScenarios + Seqs.Map(TestScenarioOf, items)))
  }

  function MergeValidationRules(d: FsdDocument, o: Object): (r: Option<FsdDocument>)
    ensures r.Some? ==> r.value == d.(validationRules := r.value.validationRules)
  {
    if o == [] then Some(d)
    else
      var items :- Iterate(GetOr(o, "validation_rules", JArr([])));
      Some(d.(validationRules := d.validationRules + TextItems(items)))
  }

  function MergeAuthorization(d: FsdDocument, o: Object): (r: Option<FsdDocument>)
    ensures r.Some? ==> r.value == d.(authorizationObjects := r.value.authorizationObjects,
                                      userRoles := r.value.userRoles)
  {
    if o == [] then Some(d)
    else
      var objects :- Iterate(GetOr(o, "authorization_objects", JArr([])));
      var roles :- Iterate(GetOr(o, "user_roles", JArr([])));
      Some(d.(authorizationObjects := d.authorizationObjects + TextItems(objects),
              userRoles := d.userRoles + TextItems(roles)))
  }

  /** The facets that describe the program: basic information, selection
      screen, field mappings, valid datasets and lookups. */
  function MergeDesign(d: FsdDocument, results: Results): (r: Option<FsdDocument>)
    ensures r.Some? ==> r.value.errorScenarios == d.errorScenarios
                        && r.value.testScenarios == d.testScenarios
                        && r.value.validationRules == d.validationRules
                        && r.value.authorizationObjects == d.authorizationObjects
                        && r.value.userRoles == d.userRoles
  {
    var d1 :- MergeBasicInfo(d, Answer(results, "basic_info"));
    var d2 :- MergeSelection(d1, Answer(results, "selection_screen"));
    var d3 :- MergeFieldMappings(d2, Answer(results, "complete_field_mappings"));
    var d4 :- MergeValidDatasets(d3, Answer(results, "complete_valid_datasets"));
    MergeLookups(d4, Answer(results, "complete_lookup_forms"))
  }

  /** The facets that describe checks on the program: error handling, tests,
      validation rules and authorization. */
  function MergeChecks(d: FsdDocument, results: Results): (r: Option<FsdDocument>)
    ensures r.Some? ==> r.value == d.(errorScenarios := r.value.errorScenarios,
                                      testScenarios := r.value.testScenarios,
                                      validationRules := r.value.validationRules,
                                      authorizationObjects := r.value.authorizationObjects,
                                      userRoles := r.value.userRoles)
  {
    var d1 :- MergeErrors(d, Answer(results, "error_handling"));
    var d2 :- MergeTests(d1, Answer(results, "test_scenarios"));
    var d3 :- MergeValidationRules(d2, Answer(results, "validation_rules"));
    MergeAuthorization(d3, Answer(results, "authorization"))
  }

  /** `_map_fixed_results_to_fsd`: every facet in turn. */
  function MergeResults(d: FsdDocument, results: Results): Option<FsdDocument> {
    var d1 :- MergeDesign(d, results);
    MergeChecks(d1, results)
  }

  // ---- what the merge promises ----

  /** A successful merge is a successful design part followed by a
      successful checks part. */
  lemma ResultsSteps(d: FsdDocument, results: Results, d': FsdDocument) returns (h: FsdDocument)
    requires MergeResults(d, results) == Some(d')
    ensures MergeDesign(d, results) == Some(h) && MergeChecks(h, results) == Some(d')
  {
    h := MergeDesign(d, results).value;
  }

  /** The design part, facet by facet. */
  lemma DesignSteps(d: FsdDocument, results: Results, h: FsdDocument)
    returns (d1: FsdDocument, d2: FsdDocument, d3: FsdDocument, d4: FsdDocument)
    requires MergeDesign(d, results) == Some(h)
    ensures MergeBasicInfo(d, Answer(results, "basic_info")) == Some(d1)
    ensures MergeSelection(d1, Answer(results, "selection_screen")) == Some(d2)
    ensures MergeFieldMappings(d2, Answer(results, "complete_field_mappings")) == Some(d3)
    ensures MergeValidDatasets(d3, Answer(results, "complete_valid_datasets")) == Some(d4)
    ensures MergeLookups(d4, Answer(results, "complete_lookup_forms")) == Some(h)
  {
    d1 := MergeBasicInfo(d, Answer(results, "basic_info")).value;
    d2 := MergeSelection(d1, Answer(results, "selection_screen")).value;
    d3 := MergeFieldMappings(d2, Answer(results, "complete_field_mappings")).value;
    d4 := MergeValidDatasets(d3, Answer(results, "complete_valid_datasets")).value;
  }

  /** The checks part, facet by facet. */
  lemma ChecksSteps(h: FsdDocument, results: Results, d': FsdDocument)
    returns (e1: FsdDocument, e2: FsdDocument, e3: FsdDocument)
    requires MergeChecks(h, results) == Some(d')
    ensures MergeErrors(h, Answer(results, "error_handling")) == Some(e1)
    ensures MergeTests(e1, Answer(results, "test_scenarios")) == Some(e2)
    ensures MergeValidationRules(e2, Answer(results, "validation_rules")) == Some(e3)
    ensures MergeAuthorization(e3, Answer(results, "authorization")) == Some(d')
  {
    e1 := MergeErrors(h, Answer(results, "error_handling")).value;
    e2 := MergeTests(e1, Answer(results, "test_scenarios")).value;
    e3 := MergeValidationRules(e2, Answer(results, "validation_rules")).value;
  }

  /** A successful merge appends one selection parameter per dictionary of the
      `selection_screen` answer, in order, and takes no other answer into account. */
  lemma {:induction false} MergeSelectionRows(d: FsdDocument, results: Results, d': FsdDocument)
    requires MergeResults(d, results) == Some(d')
    ensures var o := Answer(results, "selection_screen");
            d'.selectionParameters == d.selectionParameters
              + (if o == [] then [] else Seqs.Map(SelectionParameterOf, ObjectItems(GetOr(o, "selection_parameters", JArr([]))).value))
  {
    var h := ResultsSteps(d, results, d');
    var d1, d2, d3, d4 := DesignSteps(d, results, h);
  }

  /** A successful merge appends one field mapping per dictionary of the
      `complete_field_mappings` answer, in order. */
  lemma {:induction false} MergeFieldMappingRows(d: FsdDocument, results: Results, d': FsdDocument)
    requires MergeResults(d, results) == Some(d')
    ensures var o := Answer(results, "complete_field_mappings");
            d'.fieldMappings == d.fieldMappings
              + (if o == [] then [] else Seqs.Map(FieldMappingOf, ObjectItems(GetOr(o, "field_mappings", JArr([]))).value))
  {
    var h := ResultsSteps(d, results, d');
    var d1, d2, d3, d4 := DesignSteps(d, results, h);
  }

  /** A successful merge appends one error scenario per dictionary of the
      `error_handling` answer, in order. */
  lemma {:induction false} MergeErrorRows(d: FsdDocument, results: Results, d': FsdDocument)
    requires MergeResults(d, results) == Some(d')
    ensures var o := Answer(results, "error_handling");
            d'.errorScenarios == d.errorScenarios
              + (if o == [] then [] else Seqs.Map(ErrorScenarioOf, ObjectItems(GetOr(o, "error_scenarios", JArr([]))).value))
  {
    var h := ResultsSteps(d, results, d');
    var e1, e2, e3 := ChecksSteps(h, results, d');
  }

  /** A successful merge appends one test scenario per dictionary of the
      `test_scenarios` answer, in order. */
  lemma {:induction false} MergeTestRows(d: FsdDocument, results: Results, d': FsdDocument)
    requires MergeResults(d, results) == Some(d')
    ensures var o := Answer(results, "test_scenarios");
            d'.testScenarios == d.testScenarios
              + (if o == [] then [] else Seqs.Map(TestScenarioOf, ObjectItems(GetOr(o, "test_scenarios", JArr([]))).value))
  {
    var h := ResultsSteps(d, results, d');
    var e1, e2, e3 := ChecksSteps(h, results, d');
  }

  /** A successful merge appends one data/condition row per dictionary of
      the `complete_valid_datasets` answer, in order. */
  lemma {:induction false} MergeDatasetRows(d: FsdDocument, results: Results, d': FsdDocument)
    requires MergeResults(d, results) == Some(d')
    ensures var o := Answer(results, "complete_valid_datasets");
            o == [] ==> d'.validDatasetRules == d.validDatasetRules
    ensures var o := Answer(results, "complete_valid_datasets");
            var items := ObjectItems(GetOr(o, "valid_dataset_rules", JArr([])));
            o != [] ==> items.Some? && d'.validDatasetRules == d.validDatasetRules + Seqs.Map(DatasetRuleOf, items.value)
  {
    var h := ResultsSteps(d, results, d');
    var d1, d2, d3, d4 := DesignSteps(d, results, h);
  }

  /** A successful merge extends the validation rules by the items of the
      `validation_rules` answer, in order. */
  lemma {:induction false} MergeValidationRuleItems(d: FsdDocument, results: Results, d': FsdDocument)
    requires MergeResults(d, results) == Some(d')
    ensures var o := Answer(results, "validation_rules");
            o == [] ==> d'.validationRules == d.validationRules
    ensures var o := Answer(results, "validation_rules");
            var items := Iterate(GetOr(o, "validation_rules", JArr([])));
            o != [] ==> items.Some? && d'.validationRules == d.validationRules + TextItems(items.value)
  {
    var h := ResultsSteps(d, results, d');
    var e1, e2, e3 := ChecksSteps(h, results, d');
  }

  /** A successful merge extends the authorization objects and the user roles
      by the items of the `authorization` answer's two lists, in order. */
  lemma {:induction false} MergeAuthorizationItems(d: FsdDocument, results: Results, d': FsdDocument)
    requires MergeResults(d, results) == Some(d')
    ensures var o := Answer(results, "authorization");
            o == [] ==> d'.authorizationObjects == d.authorizationObjects && d'.userRoles == d.userRoles
    ensures var o := Answer(results, "authorization");
            var objects := Iterate(GetOr(o, "authorization_objects", JArr([])));
            var roles := Iterate(GetOr(o, "user_roles", JArr([])));
            o != [] ==>
              && objects.Some? && roles.Some?
              && d'.authorizationObjects == d.authorizationObjects + TextItems(objects.value)
              && d'.userRoles == d.userRoles + TextItems(roles.value)
  {
    var h := ResultsSteps(d, results, d');
    var d1, d2, d3, d4 := DesignSteps(d, results, h);
    var e1, e2, e3 := ChecksSteps(h, results, d');
  }

  /** The bookkeeping entries `basic_info` adds: one `"RICEFW ID: <id>"` for a
      non-empty id, one version-history entry when both the creation date
      and author are non-empty, one reviewer for a non-empty functional
      contact; nothing when the answer is empty. */
  lemma {:induction false} MergeBookkeeping(d: FsdDocument, results: Results, d': FsdDocument)
    requires MergeResults(d, results) == Some(d')
    ensures var o := Answer(results, "basic_info");
            var id := StrField(o, "ricefw_id", "");
            d'.relatedDocuments == d.relatedDocuments + (if o != [] && id != "" then ["RICEFW ID: " + id] else [])
    ensures var o := Answer(results, "basic_info");
            var date := StrField(o, "created_date", "");
            var author := StrField(o, "created_by", "");
            d'.versionHistory == d.versionHistory
              + (if o != [] && date != "" && author != "" then [Version("0.01", "Initial draft", author, date)] else [])
    ensures var o := Answer(results, "basic_info");
            var contact := StrField(o, "functional_contact", "");
            d'.reviewers == d.reviewers + (if o != [] && contact != "" then [Reviewer("Functional Lead", contact)] else [])
  {
    var h := MergeDesign(d, results).value;
    var d1 := DesignKeepsBasicInfo(d, results, h);
    BasicInfoBookkeeping(d, Answer(results, "basic_info"), d1);
    ChecksKeepBasicInfo(h, results, d');
  }

  /** The bookkeeping entries of the `basic_info` answer alone. */
  lemma {:induction false} BasicInfoBookkeeping(d: FsdDocument, o: Object, d1: FsdDocument)
    requires MergeBasicInfo(d, o) == Some(d1)
    ensures var id := StrField(o, "ricefw_id", "");
            d1.relatedDocuments == d.relatedDocuments + (if o != [] && id != "" then ["RICEFW ID: " + id] else [])
    ensures var date := StrField(o, "created_date", "");
            var author := StrField(o, "created_by", "");
            d1.versionHistory == d.versionHistory
              + (if o != [] && date != "" && author != "" then [Version("0.01", "Initial draft", author, date)] else [])
    ensures var contact := StrField(o, "functional_contact", "");
            d1.reviewers == d.reviewers + (if o != [] && contact != "" then [Reviewer("Functional Lead", contact)] else [])
  {
    if o != [] {
      var x := SetBasicFields(d, o, Iterate(GetOr(o, "assumptions", JArr([]))).value);
      var y := AddRicefwId(x, o);
      var z := AddCreation(y, o);
      assert d1 == AddContact(z, o);
      assert z.relatedDocuments == y.relatedDocuments && z.reviewers == x.reviewers;
    }
  }

  /** `a` and `b` agree on everything the `basic_info` answer sets: the
      scalar fields, the assumptions and the three bookkeeping lists. */
  predicate SameBasicInfo(a: FsdDocument, b: FsdDocument) {
    && a.programName == b.programName && a.reportDescription == b.reportDescription
    && a.desainReportDescription == b.desainReportDescription && a.userRequirements == b.userRequirements
    && a.assumptions == b.assumptions && a.transactionCode == b.transactionCode && a.menuPath == b.menuPath
    && a.relatedDocuments == b.relatedDocuments && a.versionHistory == b.versionHistory
    && a.reviewers == b.reviewers
  }

  /** The facets after `basic_info` leave what it set alone. */
  lemma {:induction false} DesignKeepsBasicInfo(d: FsdDocument, results: Results, h: FsdDocument) returns (d1: FsdDocument)
    requires MergeDesign(d, results) == Some(h)
    ensures MergeBasicInfo(d, Answer(results, "basic_info")) == Some(d1)
    ensures SameBasicInfo(h, d1)
  {
    d1 := MergeBasicInfo(d, Answer(results, "basic_info")).value;
    var d2 := MergeSelection(d1, Answer(results, "selection_screen")).value;
    var d3 := MergeFieldMappings(d2, Answer(results, "complete_field_mappings")).value;
    var d4 := MergeValidDatasets(d3, Answer(results, "complete_valid_datasets")).value;
    assert h == MergeLookups(d4, Answer(results, "complete_lookup_forms")).value;
  }

  lemma ChecksKeepBasicInfo(h: FsdDocument, results: Results, d': FsdDocument)
    requires MergeChecks(h, results) == Some(d')
    ensures SameBasicInfo(d', h)
  {
  }

  /** A non-empty `basic_info` answer sets the seven scalar fields, each from
      its key or the key's default (`"N/A"` for the menu path), and the
      assumptions from its list; an empty answer leaves them as they were. */
  lemma {:induction false} MergeBasicInfoFields(d: FsdDocument, results: Results, d': FsdDocument)
    requires MergeResults(d, results) == Some(d')
    ensures var o := Answer(results, "basic_info");
            o == [] ==> SameBasicInfo(d', d)
    ensures var o := Answer(results, "basic_info");
            o != [] ==> BasicFieldsOf(d', o)
  {
    var h := MergeDesign(d, results).value;
    var d1 := DesignKeepsBasicInfo(d, results, h);
    ChecksKeepBasicInfo(h, results, d');
    BasicInfoFields(d, Answer(results, "basic_info"), d1);
  }

  /** The scalar fields and the assumptions of `d` are those answer `o` gives. */
  predicate BasicFieldsOf(d: FsdDocument, o: Object) {
    var assumptions := Iterate(GetOr(o, "assumptions", JArr([])));
    && assumptions.Some?
    && d.programName == StrField(o, "program_name", "")
    && d.reportDescription == StrField(o, "report_description", "")
    && d.desainReportDescription == StrField(o, "desain_report_description", "")
    && d.userRequirements == StrField(o, "user_requirements", "")
    && d.assumptions == TextItems(assumptions.value)
    && d.transactionCode == StrField(o, "transaction_code", "")
    && d.menuPath == StrField(o, "menu_path", "N/A")
  }

  /** The fields `basic_info` sets, for the answer alone. */
  lemma BasicInfoFields(d: FsdDocument, o: Object, d1: FsdDocument)
    requires MergeBasicInfo(d, o) == Some(d1)
    ensures o == [] ==> d1 == d
    ensures o != [] ==> BasicFieldsOf(d1, o)
  {
  }

  /** Lookup routing: company-code rows to `country_info`, business-area rows
      to `currency_t500c`, wage-type rows then payroll-reason rows to
      `currency_t001`, each in the order the answer lists them. */
  lemma {:induction false} MergeLookupRouting(d: FsdDocument, results: Results, d': FsdDocument)
    requires MergeResults(d, results) == Some(d')
    requires Answer(results, "complete_lookup_forms") != []
    ensures var o := Answer(results, "complete_lookup_forms");
            CategoryRows(o, "company_code_lookup", "BUTXT").Some?
            && CategoryRows(o, "business_area_lookup", "GTEXT").Some?
            && CategoryRows(o, "wage_type_lookup", "LGTXT").Some?
            && CategoryRows(o, "payroll_reason_lookup", "OCRTX").Some?
            && d'.countryInfo == d.countryInfo + CategoryRows(o, "company_code_lookup", "BUTXT").value
            && d'.currencyT500c == d.currencyT500c + CategoryRows(o, "business_area_lookup", "GTEXT").value
            && d'.currencyT001 == d.currencyT001 + CategoryRows(o, "wage_type_lookup", "LGTXT").value
                                  + CategoryRows(o, "payroll_reason_lookup", "OCRTX").value
  {
    var h := ResultsSteps(d, results, d');
    var d1, d2, d3, d4 := DesignSteps(d, results, h);
    var o := Answer(results, "complete_lookup_forms");
    var e1 := MergeCategory(d4, o, "company_code_lookup", "BUTXT", CountryInfo).value;
    var e2 := MergeCategory(e1, o, "business_area_lookup", "GTEXT", CurrencyT500c).value;
    var e3 := MergeCategory(e2, o, "wage_type_lookup", "LGTXT", CurrencyT001).value;
    assert h == MergeCategory(e3, o, "payroll_reason_lookup", "OCRTX", CurrencyT001).value;
  }

  /** A list answer that cannot be iterated (a number, a boolean, `null`) makes
      the whole merge fail. */
  lemma {:induction false} MergeFailsOnScalarList(d: FsdDocument, results: Results, v: Json)
    requires Answer(results, "selection_screen") == [("selection_parameters", v)]
    requires v.JNull? || v.JBool? || v.JNum?
    ensures MergeResults(d, results).None?
  {
    var o := Answer(results, "selection_screen");
    GetUnique(o, 0, "selection_parameters");
    var d1 := MergeBasicInfo(d, Answer(results, "basic_info"));
    if d1.Some? {
      assert MergeSelection(d1.value, o).None?;
    }
    assert MergeDesign(d, results).None?;
  }

  // ---- reading back what dataclass_to_dict writes ----

  lemma {:induction false} SelectionParameterJsonText(p: SelectionParameter)
    ensures var o := SelectionParameterJson(p).members;
            StrField(o, "name", "") == p.name && StrField(o, "type", "") == p.kind
            && StrField(o, "description", "") == p.description && StrField(o, "default_value", "") == p.defaultValue
  {
    var o := SelectionParameterJson(p).members;
    assert DistinctKeys(o);
    StrFieldAt(o, 0, "name", p.name, "");
    StrFieldAt(o, 1, "type", p.kind, "");
    StrFieldAt(o, 2, "description", p.description, "");
    StrFieldAt(o, 6, "default_value", p.defaultValue, "");
  }

  lemma {:induction false} SelectionParameterJsonFlags(p: SelectionParameter)
    ensures var o := SelectionParameterJson(p).members;
            Get(o, "is_mandatory") == Some(JBool(p.isMandatory))
            && Get(o, "is_select_option") == Some(JBool(p.isSelectOption))
            && Get(o, "has_no_intervals") == Some(JBool(p.hasNoIntervals))
  {
    var o := SelectionParameterJson(p).members;
    assert DistinctKeys(o);
    GetDistinct(o, 3, "is_mandatory", JBool(p.isMandatory));
    GetDistinct(o, 4, "is_select_option", JBool(p.isSelectOption));
    GetDistinct(o, 5, "has_no_intervals", JBool(p.hasNoIntervals));
  }

  /** Merging a serialised selection parameter gives the parameter back. */
  lemma {:induction false} SelectionParameterRoundTrip(p: SelectionParameter)
    ensures SelectionParameterOf(SelectionParameterJson(p).members) == p
  {
    SelectionParameterJsonText(p);
    SelectionParameterJsonFlags(p);
  }

  lemma {:induction false} FieldMappingJsonText(f: FieldMapping)
    ensures var o := FieldMappingJson(f).members;
            StrField(o, "display_name", "") == f.displayName && StrField(o, "technical_field", "") == f.technicalField
            && StrField(o, "source_table", "") == f.sourceTable && StrField(o, "processing_logic", "") == f.processingLogic
  {
    var o := FieldMappingJson(f).members;
    assert DistinctKeys(o);
    StrFieldAt(o, 0, "display_name", f.displayName, "");
    StrFieldAt(o, 1, "technical_field", f.technicalField, "");
    StrFieldAt(o, 2, "source_table", f.sourceTable, "");
    StrFieldAt(o, 3, "processing_logic", f.processingLogic, "");
  }

  lemma {:induction false} FieldMappingJsonRest(f: FieldMapping)
    ensures var o := FieldMappingJson(f).members;
            Get(o, "processing_type") == Some(JStr(f.processingType.Value()))
            && StrField(o, "join_condition", "") == f.joinCondition && StrField(o, "where_condition", "") == f.whereCondition
  {
    var o := FieldMappingJson(f).members;
    assert DistinctKeys(o);
    GetDistinct(o, 4, "processing_type", JStr(f.processingType.Value()));
    StrFieldAt(o, 5, "join_condition", f.joinCondition, "");
    StrFieldAt(o, 6, "where_condition", f.whereCondition, "");
  }

  /** Merging a serialised field mapping gives the mapping back, its
      processing type included. */
  lemma FieldMappingRoundTrip(f: FieldMapping)
    ensures FieldMappingOf(FieldMappingJson(f).members) == f
  {
    FieldMappingJsonText(f);
    FieldMappingJsonRest(f);
    ProcessingTypeRoundTrip(f.processingType);
  }

  lemma ErrorScenarioRoundTrip(e: ErrorScenario)
    ensures ErrorScenarioOf(ErrorScenarioJson(e).members) == e
  {
    var o := ErrorScenarioJson(e).members;
    assert DistinctKeys(o);
    StrFieldAt(o, 0, "error_description", e.errorDescription, "");
    StrFieldAt(o, 1, "resolution", e.resolution, "");
    StrFieldAt(o, 2, "error_code", e.errorCode, "");
    StrFieldAt(o, 3, "severity", e.severity, "ERROR");
  }

  lemma TestScenarioRoundTrip(t: TestScenario)
    ensures TestScenarioOf(TestScenarioJson(t).members) == t
  {
    var o := TestScenarioJson(t).members;
    assert DistinctKeys(o);
    StrFieldAt(o, 0, "condition", t.condition, "");
    StrFieldAt(o, 1, "expected_result", t.expectedResult, "");
    StrFieldAt(o, 2, "test_data", t.testData, "");
    StrFieldAt(o, 3, "priority", t.priority, "HIGH");
  }

  lemma DatasetRuleRoundTrip(r: DataConditionRow)
    ensures DatasetRuleOf(DataConditionRowJson(r).members) == r
  {
    var o := DataConditionRowJson(r).members;
    assert DistinctKeys(o);
    StrFieldAt(o, 0, "data", r.data, "");
    StrFieldAt(o, 1, "condition", r.condition, "");
  }
}
