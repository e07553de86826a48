/** The prose `TitlePageWordGenerator` writes into the template from the
    extracted title information: the numbered assumptions, the transaction
    and menu line, the report description, the authorization note, the
    design constraints and the testing introduction. */
module TextComposers {
  import opened Text
  import opened Seqs
  import opened TitleExtract

  const NoAssumptions := "(1) Tidak ada asumsi khusus"
  const DefaultDescription := "Report ini dirancang untuk memenuhi kebutuhan bisnis sesuai spesifikasi yang telah ditentukan."
  const DefaultAuthorization := "User harus memiliki otorisasi yang sesuai untuk mengakses dan menjalankan report ini."
  const DefaultConstraints := "Report harus mengikuti standard development guidelines dan best practices SAP."
  const NoTestsContent := "Melakukan pengujian menyeluruh terhadap semua fungsi dan fitur program untuk memastikan kesesuaian dengan spesifikasi yang telah ditentukan."
  const TestsContent := "Pengujian harus dilakukan pada environment development dengan data representatif yang mencakup berbagai skenario bisnis."

  /** A text that stays on one line of the document. */
  predicate SingleLine(s: string) {
    '\n' !in s
  }

  predicate AllSingleLine(xs: seq<string>) {
    forall i :: 0 <= i < |xs| ==> SingleLine(xs[i])
  }

  /** The lines of a text joined with line breaks are the pieces joined. */
  lemma JoinedLines(xs: seq<string>)
    requires xs != [] && AllSingleLine(xs)
    ensures Split(Join(xs, "\n"), '\n') == xs
  {
    assert "\n" == ['\n'];
    SplitJoin(xs, '\n');
  }

  lemma OneLine(s: string)
    requires SingleLine(s)
    ensures Split(s, '\n') == [s]
  {
    SplitNoSep(s, '\n');
  }

  // ---- assumptions ----

  /** `f"({i}) {assumption}"`. */
  function Numbered(i: nat, a: string): string {
    "(" + NatToString(i) + ") " + a
  }

  /** The `{{asumsi}}` text: the assumptions numbered from 1, one per line,
      or a single numbered "none" line. */
  function AssumptionsText(info: TitleInfo): string {
    var a := info.requirements.assumptions;
    if a == [] then NoAssumptions else Join(Enumerate(Numbered, a), "\n")
  }

  /** Line `k` of the assumptions text is assumption `k` numbered `k + 1`,
      and there is one line per assumption; with none, the one line says so. */
  lemma {:induction false} AssumptionsLines(info: TitleInfo)
    requires AllSingleLine(info.requirements.assumptions)
    ensures var a := info.requirements.assumptions;
            var lines := Split(AssumptionsText(info), '\n');
            && |lines| == (if a == [] then 1 else |a|)
            && (a == [] ==> lines[0] == NoAssumptions)
            && forall k :: 0 <= k < |a| ==> lines[k] == "(" + NatToString(k + 1) + ") " + a[k]
  {
    var a := info.requirements.assumptions;
    if a == [] {
      OneLine(NoAssumptions);
    } else {
      var xs := Enumerate(Numbered, a);
      forall i | 0 <= i < |xs| ensures SingleLine(xs[i]) {
        var d := NatToString(i + 1);
        assert '\n' !in d by {
          forall j | 0 <= j < |d| ensures d[j] != '\n' { assert IsDigit(d[j]); }
        }
        assert xs[i] == "(" + d + ") " + a[i];
        assert SingleLine(a[i]);
      }
      JoinedLines(xs);
    }
  }

  // ---- transaction and menu ----

  /** A value the template shows: present and not the 'N/A' marker. */
  predicate Given(s: string) {
    s != [] && s != "N/A"
  }

  /** The transaction and menu text for a stripped code and menu path. */
  function TransactionMenu(code: string, menu: string): string {
    if Given(code) then
      "Transaksi: " + code + (if Given(menu) then "\nMenu Path: " + menu else "")
    else if Given(menu) then "Menu Path: " + menu
    else "N/A"
  }

  /** The `{{transaksi_menu_sap}}` text. */
  function TransactionMenuText(info: TitleInfo): string {
    TransactionMenu(Strip(info.sap.transactionCode), Strip(info.sap.menuPath))
  }

  /** A "Transaksi" line exactly when a transaction code is given, then a
      "Menu Path" line exactly when a menu path is given, and "N/A" when
      neither is. */
  lemma {:induction false} TransactionMenuLines(code: string, menu: string)
    requires SingleLine(code) && SingleLine(menu)
    ensures var r := TransactionMenu(code, menu);
            && (!Given(code) && !Given(menu) ==> r == "N/A")
            && (Given(code) || Given(menu) ==>
                  Split(r, '\n') == (if Given(code) then ["Transaksi: " + code] else [])
                                  + (if Given(menu) then ["Menu Path: " + menu] else []))
  {
    var t := "Transaksi: " + code;
    var m := "Menu Path: " + menu;
    SingleLineConcat("Transaksi: ", code);
    SingleLineConcat("Menu Path: ", menu);
    if Given(code) && Given(menu) {
      assert TransactionMenu(code, menu) == Join([t, m], "\n");
      JoinedLines([t, m]);
    } else if Given(code) {
      assert TransactionMenu(code, menu) == t;
      OneLine(t);
    } else if Given(menu) {
      OneLine(m);
    }
  }

  // ---- the DESAIN section ----

  function SelectionSentence(n: nat): string {
    "Report ini memiliki " + NatToString(n) + " parameter selection screen."
  }

  function DetailSentence(n: nat): string {
    "Proses detail melibatkan " + NatToString(n) + " field utama."
  }

  /** `description_parts`. */
  function DescriptionParts(info: TitleInfo): seq<string> {
    var req := info.requirements.userRequirements;
    var t := info.design.tables;
    (if req != [] then [req] else [])
    + (if t.selection != [] then [SelectionSentence(|t.selection|)] else [])
    + (if t.detail != [] then [DetailSentence(|t.detail|)] else [])
  }

  /** The `{{deskripsi_detail_report}}` text. */
  function ReportDescription(info: TitleInfo): string {
    var parts := DescriptionParts(info);
    if parts == [] then DefaultDescription else Join(parts, " ")
  }

  /** The description opens with the user requirements when there are any,
      states the number of selection parameters and of processed fields when
      those tables are non-empty, and is the stock sentence when there is
      nothing to say. */
  lemma {:induction false} ReportDescriptionMentions(info: TitleInfo)
    ensures var r := ReportDescription(info);
            var req := info.requirements.userRequirements;
            var t := info.design.tables;
            && (req != [] ==> StartsWith(r, req))
            && (t.selection != [] ==> Contains(r, SelectionSentence(|t.selection|)))
            && (t.detail != [] ==> Contains(r, DetailSentence(|t.detail|)))
            && (req == [] && t.selection == [] && t.detail == [] ==> r == DefaultDescription)
  {
    var parts := DescriptionParts(info);
    var req := info.requirements.userRequirements;
    var t := info.design.tables;
    if parts != [] {
      JoinHolds(parts, " ", 0);
      if t.selection != [] {
        var k := if req != [] then 1 else 0;
        assert parts[k] == SelectionSentence(|t.selection|);
        JoinHolds(parts, " ", k);
      }
      if t.detail != [] {
        var k := |parts| - 1;
        assert parts[k] == DetailSentence(|t.detail|);
        JoinHolds(parts, " ", k);
      }
    }
  }

  /** Python's `'authorization' in a.lower() or 'authorizations' in a.lower()`. */
  predicate MentionsAuthorization(a: string) {
    Contains(Lower(a), "authorization") || Contains(Lower(a), "authorizations")
  }

  /** The second test of `MentionsAuthorization` never adds anything. */
  lemma AuthorizationsRedundant(s: string)
    requires Contains(s, "authorizations")
    ensures Contains(s, "authorization")
  {
    var k := IndexOf(s, "authorizations");
    assert s[k..k + |"authorization"|] == s[k..k + |"authorizations"|][..|"authorization"|];
    ContainsAt(s, "authorization", k);
  }

  /** The `{{otorisasi}}` text. */
  function AuthorizationInfo(info: TitleInfo): string {
    var parts := Filter(MentionsAuthorization, info.requirements.assumptions);
    if parts == [] then DefaultAuthorization else Join(parts, "\n")
  }

  /** The lines of the authorization note are the assumptions that mention
      authorization, and only those; with none, the stock sentence. */
  lemma AuthorizationLines(info: TitleInfo)
    requires AllSingleLine(info.requirements.assumptions)
    ensures var a := info.requirements.assumptions;
            var r := AuthorizationInfo(info);
            && (forall x :: x in a && MentionsAuthorization(x) ==> x in Split(r, '\n'))
            && (r == DefaultAuthorization || forall y :: y in Split(r, '\n') ==> y in a && MentionsAuthorization(y))
            && ((forall x :: x in a ==> !MentionsAuthorization(x)) ==> r == DefaultAuthorization)
  {
    var a := info.requirements.assumptions;
    var parts := Filter(MentionsAuthorization, a);
    if parts != [] {
      assert parts[0] in parts;
      FilteredLines(MentionsAuthorization, a);
      JoinedLines(parts);
    }
  }

  lemma FilteredLines(p: string -> bool, a: seq<string>)
    requires AllSingleLine(a)
    ensures AllSingleLine(Filter(p, a))
  {
    var parts := Filter(p, a);
    forall i | 0 <= i < |parts| ensures SingleLine(parts[i]) {
      assert parts[i] in a;
    }
  }

  /** `any(keyword in a.lower() for keyword in ['locking', 'performance', 'data', 'infotype'])`. */
  predicate TechnicalConstraint(a: string) {
    var l := Lower(a);
    Contains(l, "locking") || Contains(l, "performance") || Contains(l, "data") || Contains(l, "infotype")
  }

  function CompatibilitySentence(programName: string): string {
    "Report harus kompatibel dengan program SAP " + programName + "."
  }

  /** `constraints_parts`. */
  function ConstraintParts(info: TitleInfo): seq<string> {
    var name := info.sap.programName;
    (if name != [] then [CompatibilitySentence(name)] else [])
    + Filter(TechnicalConstraint, info.requirements.assumptions)
  }

  /** The `{{keterbatasan_desain}}` text. */
  function DesignConstraints(info: TitleInfo): string {
    var parts := ConstraintParts(info);
    if parts == [] then DefaultConstraints else Join(parts, "\n")
  }

  /** The design constraints open with the compatibility line when the SAP
      program is named; every other line is an assumption with a technical
      keyword and every such assumption is a line; with neither, the stock
      sentence. */
  lemma {:induction false} DesignConstraintLines(info: TitleInfo)
    requires SingleLine(info.sap.programName) && AllSingleLine(info.requirements.assumptions)
    ensures var name := info.sap.programName;
            var a := info.requirements.assumptions;
            var r := DesignConstraints(info);
            && (name != [] ==> Split(r, '\n')[0] == CompatibilitySentence(name))
            && (forall x :: x in a && TechnicalConstraint(x) ==> x in Split(r, '\n'))
            && (name != [] || r == DefaultConstraints
                || forall y :: y in Split(r, '\n') ==> y in a && TechnicalConstraint(y))
            && (name == [] && (forall x :: x in a ==> !TechnicalConstraint(x)) ==> r == DefaultConstraints)
  {
    var name := info.sap.programName;
    var a := info.requirements.assumptions;
    var parts := ConstraintParts(info);
    var kept := Filter(TechnicalConstraint, a);
    FilteredLines(TechnicalConstraint, a);
    if name != [] {
      var c := CompatibilitySentence(name);
      SingleLineConcat("Report harus kompatibel dengan program SAP ", name);
      SingleLineConcat("Report harus kompatibel dengan program SAP " + name, ".");
      assert parts == [c] + kept;
      JoinedLines(parts);
    } else if kept != [] {
      assert kept[0] in kept;
      assert parts == kept;
      JoinedLines(parts);
    } else {
      assert parts == [];
    }
  }

  lemma SingleLineConcat(s: string, t: string)
    requires SingleLine(s) && SingleLine(t)
    ensures SingleLine(s + t)
  {
  }

  // ---- the testing section ----

  /** The `{{persyaratan_pengujian}}` text: the fallback sentence exactly
      when there are no test requirements. */
  function TestingRequirementsContent(tests: seq<TestItem>): (r: string)
    ensures r == NoTestsContent <==> tests == []
    ensures r == TestsContent <==> tests != []
  {
    if tests == [] then NoTestsContent else TestsContent
  }
}
