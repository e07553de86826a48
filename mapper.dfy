/** `IntelligentFSDMapper`: the object that owns the FSD document being built
    and fills it in place from the analysis answers. Each method is proved to
    leave the document exactly as the corresponding merge function of module
    `Merge` describes. */
module Mapper {
  import opened Wrappers
  import opened Json
  import opened Fsd
  import opened Merge
  import Seqs

  /** The task loop's result for an `analyze` that answers each task with a
      dictionary or fails (`None`). */
  function TaskResults(analyze: string -> Option<Object>): Results {
    map t | t in TaskNames :: analyze(t).GetOr([])
  }

  /** The task loop of `_analyze_with_fixed_comprehensive_llm`: ask every task
      in turn and record its answer, or `{}` when asking raised. */
  method RunTasks(analyze: string -> Option<Object>) returns (results: Results)
    ensures forall t :: t in results <==> t in TaskNames
    ensures forall t :: t in TaskNames ==> Answer(results, t) == analyze(t).GetOr([])
    ensures results == TaskResults(analyze)
  {
    results := map[];
    var i := 0;
    while i < |TaskNames|
      invariant 0 <= i <= |TaskNames|
      invariant results == map t | t in TaskNames[..i] :: analyze(t).GetOr([])
    {
      var name := TaskNames[i];
      var answer := analyze(name);
      if answer.Some? {
        results := results[name := answer.value];
      } else {
        results := results[name := []];
      }
      assert TaskNames[..i + 1] == TaskNames[..i] + [name];
      i := i + 1;
    }
    assert TaskNames[..i] == TaskNames;
  }

  /** The records built from the first `i + 1` items extend those built from
      the first `i` by the record of item `i`. */
  lemma MapMembersSnoc<B>(f: Object -> B, xs: seq<Json>, i: nat)
    requires i < |xs| && forall k :: 0 <= k <= i ==> xs[k].JObj?
    ensures Seqs.Map(f, Members(xs[..i + 1])) == Seqs.Map(f, Members(xs[..i])) + [f(xs[i].members)]
  {
    MembersSnoc(xs[..i + 1], i);
    assert xs[..i + 1][..i] == xs[..i];
    Seqs.MapSnoc(f, Members(xs[..i]), xs[i].members);
  }

  lemma {:induction false} LookupRowsSnoc(xs: seq<Json>, i: nat, defaultField: string, rows: seq<DataConditionRow>, row: DataConditionRow)
    requires i < |xs| && forall k :: 0 <= k <= i ==> xs[k].JObj?
    requires LookupRows(Members(xs[..i]), defaultField) == Some(rows)
    requires LookupRowOf(xs[i].members, defaultField) == Some(row)
    ensures LookupRows(Members(xs[..i + 1]), defaultField) == Some(rows + [row])
  {
    MembersSnoc(xs[..i + 1], i);
    assert xs[..i + 1][..i] == xs[..i];
    var ms := Members(xs[..i + 1]);
    assert ms[..|ms| - 1] == Members(xs[..i]);
  }

  lemma AppendRowsTwice(d: FsdDocument, t: LookupTable, a: seq<DataConditionRow>, b: seq<DataConditionRow>)
    ensures AppendRows(AppendRows(d, t, a), t, b) == AppendRows(d, t, a + b)
  {
    match t
    case CountryInfo => assert d.countryInfo + a + b == d.countryInfo + (a + b);
    case CurrencyT500c => assert d.currencyT500c + a + b == d.currencyT500c + (a + b);
    case CurrencyT001 => assert d.currencyT001 + a + b == d.currencyT001 + (a + b);
  }

  class FsdMapper {
    var doc: FsdDocument

    /** A fresh mapper: an empty document carrying the configured project name. */
    constructor(projectName: string)
      ensures doc == EmptyDocument.(projectName := projectName)
    {
      doc := EmptyDocument.(projectName := projectName);
    }

    method MapBasicInfo(o: Object) returns (ok: bool)
      modifies this
      ensures ok == MergeBasicInfo(old(doc), o).Some?
      ensures ok ==> doc == MergeBasicInfo(old(doc), o).value
    {
      if o == [] {
        return true;
      }
      var assumptions := Iterate(GetOr(o, "assumptions", JArr([])));
      if assumptions.None? {
        return false;
      }
      var d := doc.(programName := StrField(o, "program_name", ""),
                    reportDescription := StrField(o, "report_description", ""),
                    desainReportDescription := StrField(o, "desain_report_description", ""),
                    userRequirements := StrField(o, "user_requirements", ""),
                    assumptions := TextItems(assumptions.value),
                    transactionCode := StrField(o, "transaction_code", ""),
                    menuPath := StrField(o, "menu_path", "N/A"));
      var ricefw := StrField(o, "ricefw_id", "");
      if ricefw != "" {
        d := d.(relatedDocuments := d.relatedDocuments + ["RICEFW ID: " + ricefw]);
      }
      var createdDate := StrField(o, "created_date", "");
      var createdBy := StrField(o, "created_by", "");
      if createdDate != "" && createdBy != "" {
        d := d.(versionHistory := d.versionHistory + [Version("0.01", "Initial draft", createdBy, createdDate)]);
      }
      var contact := StrField(o, "functional_contact", "");
      if contact != "" {
        d := d.(reviewers := d.reviewers + [Reviewer("Functional Lead", contact)]);
      }
      doc := d;
      ok := true;
    }

    method MapSelection(o: Object) returns (ok: bool)
      modifies this
      ensures ok == MergeSelection(old(doc), o).Some?
      ensures ok ==> doc == MergeSelection(old(doc), o).value
    {
      if o == [] {
        return true;
      }
      var items := Iterate(GetOr(o, "selection_parameters", JArr([])));
      if items.None? {
        return false;
      }
      var xs := items.value;
      ghost var base := doc;
      var i := 0;
      while i < |xs|
        invariant 0 <= i <= |xs|
        invariant forall k :: 0 <= k < i ==> xs[k].JObj?
        invariant doc.selectionParameters == base.selectionParameters + Seqs.Map(SelectionParameterOf, Members(xs[..i]))
        invariant doc == base.(selectionParameters := doc.selectionParameters)
      {
        if !xs[i].JObj? {
          return false;
        }
        MapMembersSnoc(SelectionParameterOf, xs, i);
        doc := doc.(selectionParameters := doc.selectionParameters + [SelectionParameterOf(xs[i].members)]);
        i := i + 1;
      }
      assert xs[..i] == xs;
      ok := true;
    }

    /** Appends one field mapping per dictionary of the answer. */
    method MapFieldMappings(o: Object) returns (ok: bool)
      modifies this
      ensures ok == MergeFieldMappings(old(doc), o).Some?
      ensures ok ==> doc == MergeFieldMappings(old(doc), o).value
    {
      if o == [] {
        return true;
      }
      var items := Iterate(GetOr(o, "field_mappings", JArr([])));
      if items.None? {
        return false;
      }
      var xs := items.value;
      ghost var base := doc;
      var i := 0;
      while i < |xs|
        invariant 0 <= i <= |xs|
        invariant forall k :: 0 <= k < i ==> xs[k].JObj?
        invariant doc.fieldMappings == base.fieldMappings + Seqs.Map(FieldMappingOf, Members(xs[..i]))
        invariant doc == base.(fieldMappings := doc.fieldMappings)
      {
        if !xs[i].JObj? {
          return false;
        }
        MapMembersSnoc(FieldMappingOf, xs, i);
        doc := doc.(fieldMappings := doc.fieldMappings + [FieldMappingOf(xs[i].members)]);
        i := i + 1;
      }
      assert xs[..i] == xs;
      ok := true;
    }

    /** Appends one valid-dataset row per dictionary of the answer. */
    method MapValidDatasets(o: Object) returns (ok: bool)
      modifies this
      ensures ok == MergeValidDatasets(old(doc), o).Some?
      ensures ok ==> doc == MergeValidDatasets(old(doc), o).value
    {
      if o == [] {
        return true;
      }
      var items := Iterate(GetOr(o, "valid_dataset_rules", JArr([])));
      if items.None? {
        return false;
      }
      var xs := items.value;
      ghost var base := doc;
      var i := 0;
      while i < |xs|
        invariant 0 <= i <= |xs|
        invariant forall k :: 0 <= k < i ==> xs[k].JObj?
        invariant doc.validDatasetRules == base.validDatasetRules + Seqs.Map(DatasetRuleOf, Members(xs[..i]))
        invariant doc == base.(validDatasetRules := doc.validDatasetRules)
      {
        if !xs[i].JObj? {
          return false;
        }
        MapMembersSnoc(DatasetRuleOf, xs, i);
        doc := doc.(validDatasetRules := doc.validDatasetRules + [DatasetRuleOf(xs[i].members)]);
        i := i + 1;
      }
      assert xs[..i] == xs;
      ok := true;
    }

    /** Appends one error scenario per dictionary of the answer. */
    method MapErrors(o: Object) returns (ok: bool)
      modifies this
      ensures ok == MergeErrors(old(doc), o).Some?
      ensures ok ==> doc == MergeErrors(old(doc), o).value
    {
      if o == [] {
        return true;
      }
      var items := Iterate(GetOr(o, "error_scenarios", JArr([])));
      if items.None? {
        return false;
      }
      var xs := items.value;
      ghost var base := doc;
      var i := 0;
      while i < |xs|
        invariant 0 <= i <= |xs|
        invariant forall k :: 0 <= k < i ==> xs[k].JObj?
        invariant doc.errorScenarios == base.errorScenarios + Seqs.Map(ErrorScenarioOf, Members(xs[..i]))
        invariant doc == base.(errorScenarios := doc.errorScenarios)
      {
        if !xs[i].JObj? {
          return false;
        }
        MapMembersSnoc(ErrorScenarioOf, xs, i);
        doc := doc.(errorScenarios := doc.errorScenarios + [ErrorScenarioOf(xs[i].members)]);
        i := i + 1;
      }
      assert xs[..i] == xs;
      ok := true;
    }

    /** Appends one test scenario per dictionary of the answer. */
    method MapTests(o: Object) returns (ok: bool)
      modifies this
      ensures ok == MergeTests(old(doc), o).Some?
      ensures ok ==> doc == MergeTests(old(doc), o).value
    {
      if o == [] {
        return true;
      }
      var items := Iterate(GetOr(o, "test_scenarios", JArr([])));
      if items.None? {
        return false;
      }
      var xs := items.value;
      ghost var base := doc;
      var i := 0;
      while i < |xs|
        invariant 0 <= i <= |xs|
        invariant forall k :: 0 <= k < i ==> xs[k].JObj?
        invariant doc.testScenarios == base.testScenarios + Seqs.Map(TestScenarioOf, Members(xs[..i]))
        invariant doc == base.(testScenarios := doc.testScenarios)
      {
        if !xs[i].JObj? {
          return false;
        }
        MapMembersSnoc(TestScenarioOf, xs, i);
        doc := doc.(testScenarios := doc.testScenarios + [TestScenarioOf(xs[i].members)]);
        i := i + 1;
      }
      assert xs[..i] == xs;
      ok := true;
    }

    /** One lookup category: each rule becomes a row of table `t`. */
    method MapLookupCategory(o: Object, key: string, defaultField: string, t: LookupTable) returns (ok: bool)
      modifies this
      ensures ok == MergeCategory(old(doc), o, key, defaultField, t).Some?
      ensures ok ==> doc == MergeCategory(old(doc), o, key, defaultField, t).value
    {
      var items := Iterate(GetOr(o, key, JArr([])));
      if items.None? {
        return false;
      }
      var xs := items.value;
      ghost var base := doc;
      ghost var rows: seq<DataConditionRow> := [];
      var i := 0;
      while i < |xs|
        invariant 0 <= i <= |xs|
        invariant forall k :: 0 <= k < i ==> xs[k].JObj?
        invariant LookupRows(Members(xs[..i]), defaultField) == Some(rows)
        invariant doc == AppendRows(base, t, rows)
      {
        if !xs[i].JObj? {
          assert ObjectItems(GetOr(o, key, JArr([]))).None?;
          return false;
        }
        var row := LookupRowOf(xs[i].members, defaultField);
        if row.None? {
          assert ObjectItems(GetOr(o, key, JArr([]))).Some? ==> Members(xs)[i] == xs[i].members;
          return false;
        }
        LookupRowsSnoc(xs, i, defaultField, rows, row.value);
        AppendRowsTwice(base, t, rows, [row.value]);
        doc := AppendRows(doc, t, [row.value]);
        rows := rows + [row.value];
        i := i + 1;
      }
      assert xs[..i] == xs;
      ok := true;
    }

    /** `complete_lookup_forms`: the four categories in their fixed order. */
    method MapLookups(o: Object) returns (ok: bool)
      modifies this
      ensures ok == MergeLookups(old(doc), o).Some?
      ensures ok ==> doc == MergeLookups(old(doc), o).value
    {
      if o == [] {
        return true;
      }
      ok := MapLookupCategory(o, "company_code_lookup", "BUTXT", CountryInfo);
      if !ok { return; }
      ok := MapLookupCategory(o, "business_area_lookup", "GTEXT", CurrencyT500c);
      if !ok { return; }
      ok := MapLookupCategory(o, "wage_type_lookup", "LGTXT", CurrencyT001);
      if !ok { return; }
      ok := MapLookupCategory(o, "payroll_reason_lookup", "OCRTX", CurrencyT001);
    }

    method MapValidationRules(o: Object) returns (ok: bool)
      modifies this
      ensures ok == MergeValidationRules(old(doc), o).Some?
      ensures ok ==> doc == MergeValidationRules(old(doc), o).value
    {
      if o == [] {
        return true;
      }
      var items := Iterate(GetOr(o, "validation_rules", JArr([])));
      if items.None? {
        return false;
      }
      doc := doc.(validationRules := doc.validationRules + TextItems(items.value));
      ok := true;
    }

    method MapAuthorization(o: Object) returns (ok: bool)
      modifies this
      ensures ok == MergeAuthorization(old(doc), o).Some?
      ensures ok ==> doc == MergeAuthorization(old(doc), o).value
    {
      if o == [] {
        return true;
      }
      var objects := Iterate(GetOr(o, "authorization_objects", JArr([])));
      if objects.None? {
        return false;
      }
      doc := doc.(authorizationObjects := doc.authorizationObjects + TextItems(objects.value));
      var roles := Iterate(GetOr(o, "user_roles", JArr([])));
      if roles.None? {
        return false;
      }
      doc := doc.(userRoles := doc.userRoles + TextItems(roles.value));
      ok := true;
    }

    /** `_map_fixed_results_to_fsd`: every facet in turn; `false` when a facet's
        answer has a shape the code cannot handle. */
    method MapResults(results: Results) returns (ok: bool)
      modifies this
      ensures ok == MergeResults(old(doc), results).Some?
      ensures ok ==> doc == MergeResults(old(doc), results).value
    {
      ok := MapBasicInfo(Answer(results, "basic_info"));
      if !ok { return; }
      ok := MapSelection(Answer(results, "selection_screen"));
      if !ok { return; }
      ok := MapFieldMappings(Answer(results, "complete_field_mappings"));
      if !ok { return; }
      ok := MapValidDatasets(Answer(results, "complete_valid_datasets"));
      if !ok { return; }
      ok := MapLookups(Answer(results, "complete_lookup_forms"));
      if !ok { return; }
      ghost var designed := doc;
      ok := MapErrors(Answer(results, "error_handling"));
      if !ok { return; }
      ok := MapTests(Answer(results, "test_scenarios"));
      if !ok { return; }
      ok := MapValidationRules(Answer(results, "validation_rules"));
      if !ok { return; }
      ok := MapAuthorization(Answer(results, "authorization"));
    }

    /** `analyze_and_map` once the HTML has been read: record the source file
        name, ask every task, and merge the answers. */
    method AnalyzeAndMap(fileName: string, analyze: string -> Option<Object>) returns (ok: bool)
      modifies this
      ensures ok == MergeResults(old(doc).(documentLocation := fileName), TaskResults(analyze)).Some?
      ensures ok ==> doc == MergeResults(old(doc).(documentLocation := fileName), TaskResults(analyze)).value
    {
      doc := doc.(documentLocation := fileName);
      var results := RunTasks(analyze);
      ok := MapResults(results);
    }
  }
}
