/** The Functional Specification Document record the pipeline fills in, and
    its conversion to plain JSON values (`dataclass_to_dict`). */
module Fsd {
  import opened Wrappers
  import opened Json

  /** How a report field is computed in the ABAP program. */
  datatype ProcessingType = Direct | Lookup | Calculation | Constant | Aggregation {
    /** The enum member's `.value`. */
    function Value(): string {
      match this
      case Direct => "DIRECT"
      case Lookup => "LOOKUP"
      case Calculation => "CALCULATION"
      case Constant => "CONSTANT"
      case Aggregation => "AGGREGATION"
    }
  }

  /** `FieldProcessingType(v)`: the member whose value is `v`, or `None` where
      Python raises `ValueError`. */
  function ProcessingTypeOf(v: Json): (r: Option<ProcessingType>)
    ensures r.None? ==> forall t: ProcessingType :: v != JStr(t.Value())
    ensures r.Some? ==> v == JStr(r.value.Value())
  {
    if v == JStr("DIRECT") then Some(Direct)
    else if v == JStr("LOOKUP") then Some(Lookup)
    else if v == JStr("CALCULATION") then Some(Calculation)
    else if v == JStr("CONSTANT") then Some(Constant)
    else if v == JStr("AGGREGATION") then Some(Aggregation)
    else None
  }

  /** Each member is found again from its value. */
  lemma ProcessingTypeRoundTrip(t: ProcessingType)
    ensures ProcessingTypeOf(JStr(t.Value())) == Some(t)
  {
  }

  datatype FieldMapping = FieldMapping(
    displayName: string,
    technicalField: string,
    sourceTable: string,
    processingLogic: string,
    processingType: ProcessingType,
    joinCondition: string,
    whereCondition: string)

  datatype SelectionParameter = SelectionParameter(
    name: string,
    kind: string,
    description: string,
    isMandatory: bool,
    isSelectOption: bool,
    hasNoIntervals: bool,
    defaultValue: string)

  datatype ErrorScenario = ErrorScenario(
    errorDescription: string,
    resolution: string,
    errorCode: string,
    severity: string)

  datatype TestScenario = TestScenario(
    condition: string,
    expectedResult: string,
    testData: string,
    priority: string)

  datatype DataConditionRow = DataConditionRow(data: string, condition: string)

  /** A `reviewers` entry: the dictionary `{'role': ..., 'name': ...}`. */
  datatype Reviewer = Reviewer(role: string, name: string)

  /** A `version_history` entry: `{'version', 'change', 'author', 'date'}`. */
  datatype Version = Version(version: string, change: string, author: string, date: string)

  datatype FsdDocument = FsdDocument(
    projectName: string,
    documentLocation: string,
    relatedDocuments: seq<string>,
    reviewers: seq<Reviewer>,
    versionHistory: seq<Version>,
    userRequirements: string,
    assumptions: seq<string>,
    programName: string,
    transactionCode: string,
    menuPath: string,
    reportDescription: string,
    desainReportDescription: string,
    selectionParameters: seq<SelectionParameter>,
    fieldMappings: seq<FieldMapping>,
    validationRules: seq<string>,
    specialProcessing: seq<(string, string)>,
    validDatasetRules: seq<DataConditionRow>,
    countryInfo: seq<DataConditionRow>,
    currencyT500c: seq<DataConditionRow>,
    currencyT001: seq<DataConditionRow>,
    authorizationObjects: seq<string>,
    userRoles: seq<string>,
    constraints: seq<string>,
    dependencies: seq<string>,
    errorScenarios: seq<ErrorScenario>,
    testScenarios: seq<TestScenario>,
    testDataLocation: string,
    designChanges: seq<string>)

  /** `FSDDocument()`: every field at its dataclass default. */
  const EmptyDocument := FsdDocument(
    "", "", [], [], [], "", [], "", "", "", "", "", [], [], [], [], [], [], [], [], [], [], [], [], [], [], "", [])

  // ---- dataclass_to_dict ----

  function Strings(xs: seq<string>): (r: Json)
    ensures r.JArr? && |r.items| == |xs|
    ensures forall i :: 0 <= i < |xs| ==> r.items[i] == JStr(xs[i])
  {
    JArr(seq(|xs|, i requires 0 <= i < |xs| => JStr(xs[i])))
  }

  function FieldMappingJson(f: FieldMapping): Json {
    JObj([("display_name", JStr(f.displayName)),
          ("technical_field", JStr(f.technicalField)),
          ("source_table", JStr(f.sourceTable)),
          ("processing_logic", JStr(f.processingLogic)),
          ("processing_type", JStr(f.processingType.Value())),
          ("join_condition", JStr(f.joinCondition)),
          ("where_condition", JStr(f.whereCondition))])
  }

  function SelectionParameterJson(p: SelectionParameter): Json {
    JObj([("name", JStr(p.name)),
          ("type", JStr(p.kind)),
          ("description", JStr(p.description)),
          ("is_mandatory", JBool(p.isMandatory)),
          ("is_select_option", JBool(p.isSelectOption)),
          ("has_no_intervals", JBool(p.hasNoIntervals)),
          ("default_value", JStr(p.defaultValue))])
  }

  function ErrorScenarioJson(e: ErrorScenario): Json {
    JObj([("error_description", JStr(e.errorDescription)),
          ("resolution", JStr(e.resolution)),
          ("error_code", JStr(e.errorCode)),
          ("severity", JStr(e.severity))])
  }

  function TestScenarioJson(t: TestScenario): Json {
    JObj([("condition", JStr(t.condition)),
          ("expected_result", JStr(t.expectedResult)),
          ("test_data", JStr(t.testData)),
          ("priority", JStr(t.priority))])
  }

  function DataConditionRowJson(r: DataConditionRow): Json {
    JObj([("data", JStr(r.data)), ("condition", JStr(r.condition))])
  }

  function ReviewerJson(r: Reviewer): Json {
    JObj([("role", JStr(r.role)), ("name", JStr(r.name))])
  }

  function VersionJson(v: Version): Json {
    JObj([("version", JStr(v.version)), ("change", JStr(v.change)),
          ("author", JStr(v.author)), ("date", JStr(v.date))])
  }

  function Rows(rs: seq<DataConditionRow>): Json {
    JArr(seq(|rs|, i requires 0 <= i < |rs| => DataConditionRowJson(rs[i])))
  }

  /** `dataclass_to_dict(doc)`: the document's fields in declaration order,
      records as dictionaries and the processing type as its enum value. */
  function ToDict(d: FsdDocument): Json {
    JObj([
      ("project_name", JStr(d.projectName)),
      ("document_location", JStr(d.documentLocation)),
      ("related_documents", Strings(d.relatedDocuments)),
      ("reviewers", JArr(seq(|d.reviewers|, i requires 0 <= i < |d.reviewers| => ReviewerJson(d.reviewers[i])))),
      ("version_history", JArr(seq(|d.versionHistory|, i requires 0 <= i < |d.versionHistory| => VersionJson(d.versionHistory[i])))),
      ("user_requirements", JStr(d.userRequirements)),
      ("assumptions", Strings(d.assumptions)),
      ("program_name", JStr(d.programName)),
      ("transaction_code", JStr(d.transactionCode)),
      ("menu_path", JStr(d.menuPath)),
      ("report_description", JStr(d.reportDescription)),
      ("desain_report_description", JStr(d.desainReportDescription)),
      ("selection_parameters", JArr(seq(|d.selectionParameters|, i requires 0 <= i < |d.selectionParameters| => SelectionParameterJson(d.selectionParameters[i])))),
      ("field_mappings", JArr(seq(|d.fieldMappings|, i requires 0 <= i < |d.fieldMappings| => FieldMappingJson(d.fieldMappings[i])))),
      ("validation_rules", Strings(d.validationRules)),
      ("special_processing", JObj(seq(|d.specialProcessing|, i requires 0 <= i < |d.specialProcessing| => (d.specialProcessing[i].0, JStr(d.specialProcessing[i].1))))),
      ("valid_dataset_rules", Rows(d.validDatasetRules)),
      ("country_info", Rows(d.countryInfo)),
      ("currency_t500c", Rows(d.currencyT500c)),
      ("currency_t001", Rows(d.currencyT001)),
      ("authorization_objects", Strings(d.authorizationObjects)),
      ("user_roles", Strings(d.userRoles)),
      ("constraints", Strings(d.constraints)),
      ("dependencies", Strings(d.dependencies)),
      ("error_scenarios", JArr(seq(|d.errorScenarios|, i requires 0 <= i < |d.errorScenarios| => ErrorScenarioJson(d.errorScenarios[i])))),
      ("test_scenarios", JArr(seq(|d.testScenarios|, i requires 0 <= i < |d.testScenarios| => TestScenarioJson(d.testScenarios[i])))),
      ("test_data_location", JStr(d.testDataLocation)),
      ("design_changes", Strings(d.designChanges))
    ])
  }

  /** A serialised field mapping carries its processing type as the enum's
      string value. */
  lemma {:induction false} FieldMappingJsonProcessingType(f: FieldMapping)
    ensures Get(FieldMappingJson(f).members, "processing_type") == Some(JStr(f.processingType.Value()))
  {
    var o := FieldMappingJson(f).members;
    GetLast(o[..4], "processing_type", JStr(f.processingType.Value()));
    assert o[..5] == o[..4] + [o[4]];
    GetSkip(o[..5], o[5], "processing_type");
    assert o[..6] == o[..5] + [o[5]];
    GetSkip(o[..6], o[6], "processing_type");
    assert o == o[..6] + [o[6]];
  }
}
