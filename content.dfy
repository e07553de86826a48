/** The pure helpers the template context is built with: the key a section
    name becomes (`_normalize_section_name`), the text / list / table split of
    a section's lines (`_process_content`) and the table read back from a
    subsection's lines (`_extract_table_from_content`). */
module ContentHelpers {
  import opened Text
  import Seqs
  import Render

  // ---- _normalize_section_name ----

  /** Python's `\w` on ASCII: letters, digits and the underscore. */
  predicate IsWordChar(c: char) {
    'a' <= c <= 'z' || 'A' <= c <= 'Z' || IsDigit(c) || c == '_'
  }

  /** `re.sub(r'^\d+\.?\s*', '', name)`: a leading number, an optional dot
      after it and the whitespace after that. */
  function DropLeadingNumber(name: string): string {
    var d := DigitPrefix(name);
    if d == 0 then name
    else
      var rest := name[d..];
      var rest' := if rest != [] && rest[0] == '.' then rest[1..] else rest;
      rest'[SpacePrefix(rest')..]
  }

  /** `re.sub(r'[^\w\s]', '', s)`: every character that is neither a word
      character nor whitespace is dropped. */
  function KeepWordAndSpace(s: string): (r: string)
    ensures |r| <= |s|
    ensures forall i :: 0 <= i < |r| ==> IsWordChar(r[i]) || IsSpace(r[i])
  {
    if s == [] then []
    else (if IsWordChar(s[0]) || IsSpace(s[0]) then [s[0]] else []) + KeepWordAndSpace(s[1..])
  }

  /** `re.sub(r'\s+', '_', s)`: each run of whitespace becomes one underscore. */
  function CollapseSpaces(s: string): (r: string)
    ensures forall i :: 0 <= i < |r| ==> r[i] == '_' || (r[i] in s && !IsSpace(r[i]))
    decreases |s|
  {
    if s == [] then []
    else if IsSpace(s[0]) then "_" + CollapseSpaces(s[SpacePrefix(s)..])
    else [s[0]] + CollapseSpaces(s[1..])
  }

  /** `_normalize_section_name`. */
  function NormalizeSectionName(name: string): string {
    CollapseSpaces(Lower(Strip(KeepWordAndSpace(DropLeadingNumber(name)))))
  }

  /** A key is spelled with lower-case ASCII letters, digits and underscores
      only: no whitespace, no punctuation, no capitals. */
  predicate KeyChar(c: char) {
    'a' <= c <= 'z' || IsDigit(c) || c == '_'
  }

  predicate WordOrSpace(s: string) {
    forall i :: 0 <= i < |s| ==> IsWordChar(s[i]) || IsSpace(s[i])
  }

  lemma StripWordOrSpace(s: string)
    requires WordOrSpace(s)
    ensures WordOrSpace(Strip(s))
  {
    var l := LStrip(s);
    LStripSuffix(s);
    assert WordOrSpace(l) by {
      forall i | 0 <= i < |l| ensures IsWordChar(l[i]) || IsSpace(l[i]) {
        assert l[i] == s[|s| - |l| + i];
      }
    }
    var r := RStrip(l);
    RStripPrefix(l);
    forall i | 0 <= i < |r| ensures IsWordChar(r[i]) || IsSpace(r[i]) {
      assert r[i] == l[i];
    }
  }

  lemma LowerWordOrSpace(s: string)
    requires WordOrSpace(s)
    ensures forall i :: 0 <= i < |Lower(s)| ==> KeyChar(Lower(s)[i]) || IsSpace(Lower(s)[i])
  {
  }

  lemma CollapseKey(s: string)
    requires forall i :: 0 <= i < |s| ==> KeyChar(s[i]) || IsSpace(s[i])
    ensures forall i :: 0 <= i < |CollapseSpaces(s)| ==> KeyChar(CollapseSpaces(s)[i])
  {
    var r := CollapseSpaces(s);
    forall i | 0 <= i < |r| ensures KeyChar(r[i]) {
      if r[i] != '_' {
        var j :| 0 <= j < |s| && s[j] == r[i];
      }
    }
  }

  /** Every key is spelled with key characters only. */
  lemma NormalizedKey(name: string)
    ensures forall i :: 0 <= i < |NormalizeSectionName(name)| ==> KeyChar(NormalizeSectionName(name)[i])
  {
    var kept := KeepWordAndSpace(DropLeadingNumber(name));
    StripWordOrSpace(kept);
    LowerWordOrSpace(Strip(kept));
    CollapseKey(Lower(Strip(kept)));
  }

  /** A number and a dot go, and the whitespace after them. */
  lemma DropNumberAndDot(digits: string, body: string)
    requires digits != [] && forall i :: 0 <= i < |digits| ==> IsDigit(digits[i])
    ensures DropLeadingNumber(digits + "." + body) == body[SpacePrefix(body)..]
  {
    var name := digits + "." + body;
    assert name == digits + ("." + body);
    DigitPrefixOfNumber(digits, "." + body);
    assert name[|digits|..] == "." + body;
    assert ("." + body)[1..] == body;
  }

  /** A heading numbered `n. ` loses its number: "1. INFORMASI DOKUMEN" and
      "INFORMASI DOKUMEN" give the same key. */
  lemma NumberedHeadingKey(n: nat, title: string)
    requires title == [] || (!IsDigit(title[0]) && !IsSpace(title[0]))
    ensures DropLeadingNumber(NatToString(n) + ". " + title) == title
    ensures NormalizeSectionName(NatToString(n) + ". " + title) == NormalizeSectionName(title)
  {
    assert NatToString(n) + ". " + title == NatToString(n) + "." + (" " + title);
    DropNumberAndDot(NatToString(n), " " + title);
    assert SpacePrefix(" " + title) == 1 by {
      assert (" " + title)[1..] == title;
    }
    assert (" " + title)[1..] == title;
  }

  /** Only the first number of a dotted one goes: "4.2 Selection Screen"
      keeps "2 Selection Screen", so its key starts with the minor number. */
  lemma {:induction false} DottedNumberKeepsMinor(major: nat, minor: nat, title: string)
    ensures DropLeadingNumber(NatToString(major) + "." + NatToString(minor) + " " + title)
            == NatToString(minor) + " " + title
  {
    var rest := NatToString(minor) + " " + title;
    assert SpacePrefix(rest) == 0 by {
      assert rest[0] == NatToString(minor)[0];
    }
    assert NatToString(major) + "." + NatToString(minor) + " " + title == NatToString(major) + "." + rest;
    DropNumberAndDot(NatToString(major), rest);
    assert rest[0..] == rest;
  }

  lemma {:induction false} KeepWordAndSpaceKeeps(s: string)
    requires WordOrSpace(s)
    ensures KeepWordAndSpace(s) == s
  {
    if s != [] {
      KeepWordAndSpaceKeeps(s[1..]);
      assert [s[0]] + s[1..] == s;
    }
  }

  lemma {:induction false} CollapseNoSpace(s: string)
    requires forall i :: 0 <= i < |s| ==> !IsSpace(s[i])
    ensures CollapseSpaces(s) == s
  {
    if s != [] {
      CollapseNoSpace(s[1..]);
      assert [s[0]] + s[1..] == s;
    }
  }

  /** A key that does not start with a digit is its own key: normalizing
      twice is normalizing once, except where the key starts with a number. */
  lemma KeyIsNormal(key: string)
    requires forall i :: 0 <= i < |key| ==> KeyChar(key[i])
    requires key == [] || !IsDigit(key[0])
    ensures NormalizeSectionName(key) == key
  {
    assert WordOrSpace(key) by {
      forall i | 0 <= i < |key| ensures IsWordChar(key[i]) { assert KeyChar(key[i]); }
    }
    KeepWordAndSpaceKeeps(key);
    KeyStripped(key);
    KeyLower(key);
    KeyNoSpace(key);
    CollapseNoSpace(key);
  }

  lemma KeyStripped(key: string)
    requires forall i :: 0 <= i < |key| ==> KeyChar(key[i])
    ensures Strip(key) == key
  {
    if key != [] {
      assert KeyChar(key[0]) && KeyChar(key[|key| - 1]);
    }
    StripStripped(key);
  }

  lemma KeyLower(key: string)
    requires forall i :: 0 <= i < |key| ==> KeyChar(key[i])
    ensures Lower(key) == key
  {
  }

  lemma KeyNoSpace(key: string)
    requires forall i :: 0 <= i < |key| ==> KeyChar(key[i])
    ensures forall i :: 0 <= i < |key| ==> !IsSpace(key[i])
  {
    forall i | 0 <= i < |key| ensures !IsSpace(key[i]) {
      assert KeyChar(key[i]);
    }
  }

  /** Normalizing a name twice gives the same key, unless the key starts with
      a digit (a dotted number such as "4.2" leaves one behind). */
  lemma NormalizeIdempotent(name: string)
    requires NormalizeSectionName(name) == [] || !IsDigit(NormalizeSectionName(name)[0])
    ensures NormalizeSectionName(NormalizeSectionName(name)) == NormalizeSectionName(name)
  {
    NormalizedKey(name);
    KeyIsNormal(NormalizeSectionName(name));
  }

  // ---- _process_content ----

  /** An entry of `text`: `{'type': 'bold', ...}` or `{'type': 'normal', ...}`. */
  datatype TextItem = Bold(content: string) | Normal(content: string)

  /** The dictionary `_process_content` returns. */
  datatype Processed = Processed(text: seq<TextItem>, tables: seq<seq<seq<string>>>, lists: seq<string>)

  /** `line.startswith('|') and '|' in line`. */
  predicate IsRow(line: string) {
    line != [] && line[0] == '|'
  }

  /** The second test of a row adds nothing to the first. */
  lemma RowTest(line: string)
    ensures IsRow(line) <==> StartsWith(line, "|") && '|' in line
  {
    if |line| >= 1 { assert IsRow(line) <==> line[..1] == "|"; }
  }

  /** `line.startswith('- ')`. */
  predicate IsListLine(line: string) {
    |line| >= 2 && line[0] == '-' && line[1] == ' '
  }

  /** `line.startswith('**') and line.endswith('**')`. */
  predicate IsBoldLine(line: string) {
    |line| >= 2 && line[0] == '*' && line[1] == '*' && line[|line| - 2] == '*' && line[|line| - 1] == '*'
  }

  /** `line[2:-2]`, which is empty for "**" and "***". */
  function BoldContent(line: string): string {
    if |line| >= 4 then line[2..|line| - 2] else ""
  }

  /** `**text**` is bold, and its content is the text. */
  lemma BoldLine(x: string)
    ensures IsBoldLine("**" + x + "**") && BoldContent("**" + x + "**") == x
  {
    var line := "**" + x + "**";
    assert line[2..|line| - 2] == x;
  }

  /** What a line outside a table adds to `text`. */
  function TextItemOf(line: string): seq<TextItem> {
    if IsListLine(line) then []
    else if IsBoldLine(line) then [Bold(BoldContent(line))]
    else if line != "" then [Normal(line)]
    else []
  }

  /** What a line outside a table adds to `lists`. */
  function ListItemOf(line: string): seq<string> {
    if IsListLine(line) then [Strip(line[2..])] else []
  }

  /** `processed['text']` for the lines `content`. */
  function TextItems(content: seq<string>): seq<TextItem> {
    if content == [] then []
    else
      var last := content[|content| - 1];
      TextItems(content[..|content| - 1]) + (if IsRow(last) then [] else TextItemOf(last))
  }

  /** `processed['lists']` for the lines `content`. */
  function ListItems(content: seq<string>): seq<string> {
    if content == [] then []
    else
      var last := content[|content| - 1];
      ListItems(content[..|content| - 1]) + (if IsRow(last) then [] else ListItemOf(last))
  }

  /** `processed['tables']`: each maximal run of row lines is one table, a
      row being the cells of its line. */
  function RowRuns(content: seq<string>): (r: seq<seq<seq<string>>>)
    ensures content != [] && IsRow(content[|content| - 1]) ==> r != []
  {
    if content == [] then []
    else
      var n := |content| - 1;
      var earlier := RowRuns(content[..n]);
      if !IsRow(content[n]) then earlier
      else if n > 0 && IsRow(content[n - 1]) then
        earlier[..|earlier| - 1] + [earlier[|earlier| - 1] + [Cells(content[n])]]
      else earlier + [[Cells(content[n])]]
  }

  /** `_process_content`. */
  method ProcessContent(content: seq<string>) returns (p: Processed)
    ensures p == Processed(TextItems(content), RowRuns(content), ListItems(content))
  {
    var text: seq<TextItem> := [];
    var tables: seq<seq<seq<string>>> := [];
    var lists: seq<string> := [];
    var currentTable: seq<seq<string>> := [];
    var inTable := false;
    for i := 0 to |content|
      invariant text == TextItems(content[..i]) && lists == ListItems(content[..i])
      invariant inTable == (i > 0 && IsRow(content[i - 1]))
      invariant inTable ==> currentTable != []
      invariant RowRuns(content[..i]) == if inTable then tables + [currentTable] else tables
    {
      var line := content[i];
      ProcessStep(content, i);
      if line != "" && line[0] == '|' {
        RowJoinsRun(content, i, tables, currentTable, inTable);
        if !inTable {
          inTable := true;
          currentTable := [];
        }
        currentTable := currentTable + [Cells(line)];
      } else {
        if inTable {
          tables := tables + [currentTable];
          currentTable := [];
          inTable := false;
        }
        if |line| >= 2 && line[0] == '-' && line[1] == ' ' {
          lists := lists + [Strip(line[2..])];
        } else if IsBoldLine(line) {
          text := text + [Bold(BoldContent(line))];
        } else if line != "" {
          text := text + [Normal(line)];
        }
      }
    }
    assert content[..|content|] == content;
    if inTable && currentTable != [] {
      tables := tables + [currentTable];
    }
    p := Processed(text, tables, lists);
  }

  /** One more line of `content` for the three lists the loop builds. */
  lemma ProcessStep(content: seq<string>, i: nat)
    requires i < |content|
    ensures var line := content[i];
            var before := content[..i];
            TextItems(content[..i + 1]) == TextItems(before) + (if IsRow(line) then [] else TextItemOf(line))
            && ListItems(content[..i + 1]) == ListItems(before) + (if IsRow(line) then [] else ListItemOf(line))
            && RowRuns(content[..i + 1])
               == if !IsRow(line) then RowRuns(before)
                  else if i > 0 && IsRow(content[i - 1]) then
                    RowRuns(before)[..|RowRuns(before)| - 1] + [RowRuns(before)[|RowRuns(before)| - 1] + [Cells(line)]]
                  else RowRuns(before) + [[Cells(line)]]
  {
    assert content[..i + 1][..i] == content[..i];
  }

  /** A row line joins the open table, or opens a new one. */
  lemma RowJoinsRun(content: seq<string>, i: nat, tables: seq<seq<seq<string>>>, current: seq<seq<string>>,
                    inTable: bool)
    requires i < |content| && IsRow(content[i])
    requires inTable == (i > 0 && IsRow(content[i - 1]))
    requires RowRuns(content[..i]) == if inTable then tables + [current] else tables
    ensures RowRuns(content[..i + 1]) == tables + [(if inTable then current else []) + [Cells(content[i])]]
  {
    ProcessStep(content, i);
    if inTable {
      SnocParts(tables, current);
    } else {
      assert [] + [Cells(content[i])] == [Cells(content[i])];
    }
  }

  lemma SnocParts<T>(xs: seq<T>, x: T)
    ensures (xs + [x])[..|xs|] == xs && (xs + [x])[|xs|] == x
  {
  }

  /** The rows of `content`, each read into its cells, in order. */
  function RowCells(content: seq<string>): seq<seq<string>> {
    if content == [] then []
    else
      var last := content[|content| - 1];
      RowCells(content[..|content| - 1]) + (if IsRow(last) then [Cells(last)] else [])
  }

  /** The tables, one after another. */
  function Flatten<T>(xss: seq<seq<T>>): seq<T> {
    if xss == [] then [] else Flatten(xss[..|xss| - 1]) + xss[|xss| - 1]
  }

  lemma {:induction false} FlattenAppend<T>(xss: seq<seq<T>>, yss: seq<seq<T>>)
    ensures Flatten(xss + yss) == Flatten(xss) + Flatten(yss)
    decreases |yss|
  {
    if yss == [] {
      assert xss + yss == xss;
    } else {
      var n := |yss| - 1;
      assert (xss + yss)[..|xss + yss| - 1] == xss + yss[..n];
      FlattenAppend(xss, yss[..n]);
    }
  }

  lemma FlattenOne<T>(xs: seq<T>)
    ensures Flatten([xs]) == xs
  {
    assert [xs][..0] == [];
  }

  /** Every row line lands in a table, in order. */
  lemma {:induction false} TablesHoldEveryRow(content: seq<string>)
    ensures Flatten(RowRuns(content)) == RowCells(content)
  {
    if content != [] {
      var n := |content| - 1;
      TablesHoldEveryRow(content[..n]);
      if IsRow(content[n]) {
        if n > 0 && IsRow(content[n - 1]) {
          RowJoinsTable(content);
        } else {
          RowStartsTable(content);
        }
      }
    }
  }

  /** A row line right after a row line extends the last table. */
  lemma RowJoinsTable(content: seq<string>)
    requires |content| > 1 && IsRow(content[|content| - 1]) && IsRow(content[|content| - 2])
    requires Flatten(RowRuns(content[..|content| - 1])) == RowCells(content[..|content| - 1])
    ensures Flatten(RowRuns(content)) == RowCells(content)
  {
    var n := |content| - 1;
    var earlier := RowRuns(content[..n]);
    var x := Cells(content[n]);
    var m := |earlier| - 1;
    assert RowRuns(content) == earlier[..m] + [earlier[m] + [x]];
    assert earlier == earlier[..m] + [earlier[m]];
    FlattenExtendLast(earlier[..m], earlier[m], x);
  }

  /** A row line after anything else starts a table. */
  lemma RowStartsTable(content: seq<string>)
    requires content != [] && IsRow(content[|content| - 1])
    requires |content| == 1 || !IsRow(content[|content| - 2])
    requires Flatten(RowRuns(content[..|content| - 1])) == RowCells(content[..|content| - 1])
    ensures Flatten(RowRuns(content)) == RowCells(content)
  {
    var n := |content| - 1;
    var x := Cells(content[n]);
    assert RowRuns(content) == RowRuns(content[..n]) + [[x]];
    FlattenSnoc(RowRuns(content[..n]), x);
  }

  lemma FlattenSnoc<T>(xss: seq<seq<T>>, x: T)
    ensures Flatten(xss + [[x]]) == Flatten(xss) + [x]
  {
    FlattenAppend(xss, [[x]]);
    FlattenOne([x]);
  }

  lemma FlattenExtendLast<T>(front: seq<seq<T>>, y: seq<T>, x: T)
    ensures Flatten(front + [y + [x]]) == Flatten(front + [y]) + [x]
  {
    var zs := front + [y + [x]];
    var ys := front + [y];
    assert zs[..|zs| - 1] == front;
    assert ys[..|ys| - 1] == front;
  }

  /** No table is empty. */
  lemma {:induction false} TablesNonEmpty(content: seq<string>)
    ensures forall k :: 0 <= k < |RowRuns(content)| ==> RowRuns(content)[k] != []
  {
    if content != [] {
      TablesNonEmpty(content[..|content| - 1]);
    }
  }

  /** The non-empty lines of `content`. */
  function Filled(content: seq<string>): nat {
    if content == [] then 0
    else Filled(content[..|content| - 1]) + (if content[|content| - 1] != "" then 1 else 0)
  }

  /** Every non-empty line becomes exactly one text entry, list entry or table
      row, and an empty line becomes nothing. */
  lemma {:induction false} EveryLineCounted(content: seq<string>)
    ensures |TextItems(content)| + |ListItems(content)| + |RowCells(content)| == Filled(content)
  {
    if content != [] {
      EveryLineCounted(content[..|content| - 1]);
    }
  }

  /** A bullet `- x`, as the parser keeps a rendered list line, is read back
      as its item. */
  lemma {:induction false} BulletsAreListed(lines: seq<string>, items: seq<string>)
    requires |lines| == |items|
    requires forall i :: 0 <= i < |items| ==> lines[i] == "- " + items[i] && Stripped(items[i])
    ensures ListItems(lines) == items
    ensures TextItems(lines) == []
  {
    if items != [] {
      var n := |items| - 1;
      assert items[..n] + [items[n]] == items by {
        assert forall i :: 0 <= i < n ==> items[..n][i] == items[i];
      }
      assert ListItems(lines[..n]) == items[..n] && TextItems(lines[..n]) == [] by {
        BulletsAreListed(lines[..n], items[..n]);
      }
      var last := lines[n];
      assert !IsRow(last) && IsListLine(last) && last[2..] == items[n];
      assert ListItemOf(last) == [items[n]] by {
        StripStripped(items[n]);
      }
      assert ListItems(lines) == ListItems(lines[..n]) + ListItemOf(last);
    }
  }

  // ---- _extract_table_from_content ----

  /** `s.count(c)`. */
  function Count(s: string, c: char): nat {
    if s == [] then 0 else (if s[0] == c then 1 else 0) + Count(s[1..], c)
  }

  /** `cell == '---' or cell.startswith('---')`. */
  predicate DashCell(cell: string) {
    |cell| >= 3 && cell[0] == '-' && cell[1] == '-' && cell[2] == '-'
  }

  /** `all(cell == '---' or cell.startswith('---') for cell in cells)`. */
  predicate AllDashes(cells: seq<string>) {
    cells == [] || (DashCell(cells[0]) && AllDashes(cells[1..]))
  }

  lemma {:induction false} AllDashesEvery(cells: seq<string>)
    ensures AllDashes(cells) <==> forall i :: 0 <= i < |cells| ==> DashCell(cells[i])
  {
    if cells != [] {
      AllDashesEvery(cells[1..]);
      assert forall i :: 1 <= i < |cells| ==> cells[i] == cells[1..][i - 1];
    }
  }

  /** A line `_extract_table_from_content` keeps as a table row. */
  predicate IsTableLine(line: string) {
    IsRow(line) && Count(line, '|') >= 2 && Cells(line) != [] && !AllDashes(Cells(line))
  }

  /** The table rows of `content`, separator lines left out. */
  function TableRows(content: seq<string>): seq<seq<string>> {
    if content == [] then []
    else
      var last := content[|content| - 1];
      TableRows(content[..|content| - 1]) + (if IsTableLine(last) then [Cells(last)] else [])
  }

  /** `_extract_table_from_content`. */
  method ExtractTable(content: seq<string>) returns (rows: seq<seq<string>>)
    ensures rows == TableRows(content)
  {
    rows := [];
    for i := 0 to |content|
      invariant rows == TableRows(content[..i])
    {
      var line := content[i];
      assert content[..i + 1][..i] == content[..i];
      if line != "" && line[0] == '|' && Count(line, '|') >= 2 {
        var cells := Cells(line);
        if cells != [] && !AllDashes(cells) {
          rows := rows + [cells];
        }
      }
    }
    assert content[..|content|] == content;
  }

  // ---- reading back a rendered table ----

  /** Joining pieces framed by two empty strings puts the separator at both ends. */
  lemma JoinFramed(xs: seq<string>, sep: string)
    requires xs != []
    ensures Join([""] + xs + [""], sep) == sep + Join(xs, sep) + sep
  {
    assert ([""] + xs + [""])[1..] == xs + [""];
    JoinAppend(xs, "", sep);
  }

  /** The separator line splits into one dash string per column. */
  lemma SeparatorPieces(columns: seq<string>)
    requires columns != []
    ensures Inner(Split(Render.Separator(columns), '|')) == Seqs.Map((c: string) => seq(|c| + 2, _ => '-'), columns)
  {
    var dashes := Seqs.Map((c: string) => seq(|c| + 2, _ => '-'), columns);
    var pieces := [""] + dashes + [""];
    forall k | 0 <= k < |pieces| ensures '|' !in pieces[k] {
      if 0 < k < |pieces| - 1 {
        assert pieces[k] == dashes[k - 1];
      }
    }
    JoinFramed(dashes, "|");
    SplitJoin(pieces, '|');
  }

  lemma DashesStripped(n: nat)
    ensures Strip(seq(n, _ => '-')) == seq(n, _ => '-')
  {
    StripStripped(seq(n, _ => '-'));
  }

  /** The separator line under a header reads back as one dash cell per
      column, two dashes longer than the column name. */
  lemma SeparatorCells(columns: seq<string>)
    requires columns != []
    ensures Cells(Render.Separator(columns)) == Seqs.Map((c: string) => seq(|c| + 2, _ => '-'), columns)
  {
    var dashes := Seqs.Map((c: string) => seq(|c| + 2, _ => '-'), columns);
    var cells := Cells(Render.Separator(columns));
    SeparatorPieces(columns);
    forall i | 0 <= i < |columns| ensures cells[i] == dashes[i] {
      DashesStripped(|columns[i]| + 2);
    }
  }

  /** A string that starts and ends with `c` holds at least two of them. */
  lemma CountFramed(s: string, c: char)
    requires |s| >= 2 && s[0] == c && s[|s| - 1] == c
    ensures Count(s, c) >= 2
  {
    LastCounted(s[1..], c);
  }

  lemma {:induction false} LastCounted(s: string, c: char)
    requires s != [] && s[|s| - 1] == c
    ensures Count(s, c) >= 1
  {
    if |s| > 1 {
      LastCounted(s[1..], c);
    }
  }

  /** A rendered row is kept when its cells are not all dashes. */
  lemma PipeRowKept(cells: seq<string>)
    requires cells != [] && forall i :: 0 <= i < |cells| ==> CleanCell(cells[i])
    requires !AllDashes(cells)
    ensures IsTableLine(PipeRow(cells)) && Cells(PipeRow(cells)) == cells
  {
    CellsOfPipeRow(cells);
    var line := PipeRow(cells);
    assert line[0] == '|' && line[|line| - 1] == '|';
    CountFramed(line, '|');
  }

  lemma {:induction false} TableRowsAppend(a: seq<string>, b: seq<string>)
    ensures TableRows(a + b) == TableRows(a) + TableRows(b)
    decreases |b|
  {
    if b == [] {
      assert a + b == a;
    } else {
      var n := |b| - 1;
      assert (a + b)[..|a + b| - 1] == a + b[..n];
      TableRowsAppend(a, b[..n]);
    }
  }

  /** Cells that make a proper table row. */
  predicate RowShape(cells: seq<string>) {
    cells != [] && (forall i :: 0 <= i < |cells| ==> CleanCell(cells[i])) && !AllDashes(cells)
  }

  /** Lines that are all kept read back as their cells. */
  lemma {:induction false} TableRowsAllKept(rows: seq<string>)
    requires forall i :: 0 <= i < |rows| ==> IsTableLine(rows[i])
    ensures TableRows(rows) == Seqs.Map(Cells, rows)
  {
    if rows != [] {
      var n := |rows| - 1;
      assert rows[..n] + [rows[n]] == rows;
      var earlier := TableRows(rows[..n]);
      assert earlier == Seqs.Map(Cells, rows[..n]) by {
        TableRowsAllKept(rows[..n]);
      }
      assert IsTableLine(rows[n]);
      assert TableRows(rows) == earlier + [Cells(rows[n])];
      Seqs.MapSnoc(Cells, rows[..n], rows[n]);
    }
  }

  lemma RenderedRowsRead(cells: seq<seq<string>>, rows: seq<string>)
    requires |rows| == |cells| && forall i :: 0 <= i < |rows| ==> rows[i] == PipeRow(cells[i]) && RowShape(cells[i])
    ensures TableRows(rows) == cells
  {
    forall i | 0 <= i < |rows| ensures IsTableLine(rows[i]) && Cells(rows[i]) == cells[i] {
      PipeRowKept(cells[i]);
    }
    TableRowsAllKept(rows);
  }

  lemma TableRowsOne(line: string)
    ensures TableRows([line]) == if IsTableLine(line) then [Cells(line)] else []
  {
    assert [line][..0] == [];
  }

  /** Reading a rendered table block back: the header row and the data rows,
      in order, with the separator line, the heading and the blank lines
      left out; nothing at all when the block was left out for having no rows. */
  lemma RenderedTableReadBack(heading: string, columns: seq<string>, cells: seq<seq<string>>, rows: seq<string>, closed: bool)
    requires !IsRow(heading)
    requires RowShape(columns) && forall i :: 0 <= i < |columns| ==> columns[i] != ""
    requires |rows| == |cells| && forall i :: 0 <= i < |rows| ==> rows[i] == PipeRow(cells[i]) && RowShape(cells[i])
    ensures TableRows(Render.TableBlock(heading, PipeRow(columns), Render.Separator(columns), rows, closed))
            == if rows == [] then [] else [columns] + cells
  {
    if rows != [] {
      var header := PipeRow(columns);
      var separator := Render.Separator(columns);
      assert IsTableLine(header) && Cells(header) == columns by {
        PipeRowKept(columns);
      }
      assert !IsTableLine(separator) by {
        SeparatorDashesIff(columns);
      }
      RenderedRowsRead(cells, rows);
      BlockReadBack(heading, header, separator, rows, closed, columns, cells);
    }
  }

  lemma {:induction false} BlockReadBack(heading: string, header: string, separator: string, rows: seq<string>, closed: bool,
                      columns: seq<string>, cells: seq<seq<string>>)
    requires rows != [] && !IsRow(heading)
    requires IsTableLine(header) && Cells(header) == columns && !IsTableLine(separator)
    requires TableRows(rows) == cells
    ensures TableRows(Render.TableBlock(heading, header, separator, rows, closed)) == [columns] + cells
  {
    var tail: seq<string> := if closed then [""] else [];
    var top := [heading, "", header, separator];
    assert Render.TableBlock(heading, header, separator, rows, closed) == top + rows + tail;
    assert TableRows(top) == [columns] by {
      assert top == [heading] + [""] + [header] + [separator];
      TableRowsAppend([heading] + [""] + [header], [separator]);
      TableRowsAppend([heading] + [""], [header]);
      TableRowsAppend([heading], [""]);
      TableRowsOne(heading);
      TableRowsOne("");
      TableRowsOne(header);
      TableRowsOne(separator);
    }
    assert TableRows(tail) == [] by {
      if closed { TableRowsOne(""); }
    }
    TableRowsAppend(top + rows, tail);
    TableRowsAppend(top, rows);
  }

  /** A run of row lines is a single table. */
  /** A row line right after a row line joins the last table. */
  lemma RowRunsJoin(content: seq<string>)
    requires |content| >= 2 && IsRow(content[|content| - 1]) && IsRow(content[|content| - 2])
    ensures var n := |content| - 1;
      var earlier := RowRuns(content[..n]);
      earlier != [] && RowRuns(content) == earlier[..|earlier| - 1] + [earlier[|earlier| - 1] + [Cells(content[n])]]
  {
  }

  lemma {:induction false} RowsMakeOneTable(lines: seq<string>)
    requires lines != [] && forall i :: 0 <= i < |lines| ==> IsRow(lines[i])
    ensures RowRuns(lines) == [Seqs.Map(Cells, lines)]
  {
    var n := |lines| - 1;
    if n > 0 {
      var prefix := lines[..n];
      assert prefix + [lines[n]] == lines;
      assert forall i :: 0 <= i < |prefix| ==> prefix[i] == lines[i];
      RowsMakeOneTable(prefix);
      assert IsRow(lines[n - 1]) && IsRow(lines[n]);
      var earlier := RowRuns(prefix);
      RowRunsJoin(lines);
      assert earlier[..|earlier| - 1] == [];
      Seqs.MapSnoc(Cells, prefix, lines[n]);
    } else {
      assert lines[..0] == [];
      assert Seqs.Map(Cells, lines) == [Cells(lines[0])];
    }
  }

  /** Row lines read as `cells` make the single table `cells`. */
  lemma RowsReadAsOneTable(lines: seq<string>, cells: seq<seq<string>>)
    requires lines != [] && |lines| == |cells|
    requires forall i :: 0 <= i < |lines| ==> IsRow(lines[i]) && Cells(lines[i]) == cells[i]
    ensures RowRuns(lines) == [cells]
  {
    RowsMakeOneTable(lines);
    var read := Seqs.Map(Cells, lines);
    forall i | 0 <= i < |cells| ensures read[i] == cells[i] {
      assert read[i] == Cells(lines[i]);
    }
    assert read == cells;
  }

  lemma {:induction false} HeaderThenRows(header: string, separator: string, rows: seq<string>,
                        columns: seq<string>, dashes: seq<string>, cells: seq<seq<string>>)
    requires |rows| == |cells|
    requires IsRow(header) && Cells(header) == columns
    requires IsRow(separator) && Cells(separator) == dashes
    requires forall i :: 0 <= i < |rows| ==> IsRow(rows[i]) && Cells(rows[i]) == cells[i]
    ensures RowRuns([header, separator] + rows) == [[columns, dashes] + cells]
  {
    var lines := [header, separator] + rows;
    var expected := [columns, dashes] + cells;
    assert lines[2..] == rows && expected[2..] == cells;
    forall i | 0 <= i < |lines| ensures IsRow(lines[i]) && Cells(lines[i]) == expected[i] {
      if i >= 2 {
        assert lines[i] == lines[2..][i - 2];
        assert expected[i] == expected[2..][i - 2];
      }
    }
    RowsReadAsOneTable(lines, expected);
  }

  /** Rendered rows are row lines that read back as their cells. */
  lemma RenderedRowsAreRows(cells: seq<seq<string>>, rows: seq<string>)
    requires |rows| == |cells| && forall i :: 0 <= i < |rows| ==> rows[i] == PipeRow(cells[i]) && RowShape(cells[i])
    ensures forall i :: 0 <= i < |rows| ==> IsRow(rows[i]) && Cells(rows[i]) == cells[i]
  {
    forall i | 0 <= i < |rows| ensures IsRow(rows[i]) && Cells(rows[i]) == cells[i] {
      CellsOfPipeRow(cells[i]);
    }
  }

  /** A rendered table as the parser stores it (blank lines dropped) becomes
      one table of `processed['tables']` whose second row is the separator's
      cells: `_process_content`, unlike `_extract_table_from_content`, keeps
      the separator line as a row. */
  lemma ProcessedTableKeepsSeparator(columns: seq<string>, cells: seq<seq<string>>, rows: seq<string>)
    requires RowShape(columns)
    requires |rows| == |cells| && forall i :: 0 <= i < |rows| ==> rows[i] == PipeRow(cells[i]) && RowShape(cells[i])
    ensures RowRuns([PipeRow(columns), Render.Separator(columns)] + rows)
            == [[columns, Cells(Render.Separator(columns))] + cells]
  {
    var separator := Render.Separator(columns);
    assert IsRow(PipeRow(columns)) && Cells(PipeRow(columns)) == columns by {
      CellsOfPipeRow(columns);
    }
    assert IsRow(separator) by {
      assert separator[0] == '|';
    }
    RenderedRowsAreRows(cells, rows);
    HeaderThenRows(PipeRow(columns), separator, rows, columns, Cells(separator), cells);
  }

  /** Those separator cells are all dashes exactly when every column has a
      name: an empty column name leaves a `--` cell. */
  lemma {:induction false} SeparatorDashesIff(columns: seq<string>)
    requires columns != []
    ensures AllDashes(Cells(Render.Separator(columns))) <==> forall i :: 0 <= i < |columns| ==> columns[i] != ""
  {
    SeparatorCells(columns);
    var dashes := Cells(Render.Separator(columns));
    AllDashesEvery(dashes);
    assert forall i :: 0 <= i < |columns| ==> |dashes[i]| == |columns[i]| + 2;
    if !forall i :: 0 <= i < |columns| ==> columns[i] != "" {
      var i :| 0 <= i < |columns| && columns[i] == "";
      assert !DashCell(dashes[i]);
    }
  }
}
