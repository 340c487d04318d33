/** The client screen's spreadsheet import and its form. The import takes
    the rows of the sheet's first page as already parsed (a map from column
    header to cell value per row), checks that the first row carries every
    required column, normalises each row, rejects rows without a business
    name or tax id, and creates the others in the store one by one. */
module ClientImport {
  import opened Base
  import opened Text
  import opened Domain
  import Store

  /** One parsed spreadsheet row: its headers are the map's keys. */
  type Row = map<string, Store.Value>

  /** A row after normalisation: the new client without id or deleted flag. */
  datatype ClientRow = ClientRow(
    razonSocial: string,
    nit: string,
    giroComercial: string,
    companySize: CompanySize,
    phone: string,
    email: string,
    referencePerson: string,
    flete: real,
    dmti: real)

  datatype ImportResult = ImportResult(success: nat, errors: seq<string>)

  const RequiredHeaders: seq<string> :=
    ["razonSocial", "nit", "giroComercial", "companySize", "phone", "email", "referencePerson", "flete", "dmti"]

  const EmptySheetMessage := "El archivo Excel está vacío o no tiene datos en la primera hoja."
  const RequiredMessage := "Razón Social y NIT son requeridos."

  function MissingColumnsMessage(missing: seq<string>): string {
    "Faltan las siguientes columnas en el archivo: " + Join(missing, ", ")
  }

  /** The message of a rejected row; rows are numbered as in the sheet,
      where the header is row 1. */
  function RowErrorMessage(i: nat): (m: string)
    ensures |m| > 5 && m[..5] == "Fila "
  {
    var tail := NatToString(i + 2) + ": " + RequiredMessage;
    assert ("Fila " + tail)[..5] == "Fila ";
    "Fila " + tail
  }

  // ---------------------------------------------------------------------
  // The header check
  // ---------------------------------------------------------------------

  function HeaderAbsent(first: Row): string -> bool {
    (h: string) => h !in first
  }

  /** The headers of `hs` the first row lacks, in order. */
  function Missing(hs: seq<string>, first: Row): seq<string> {
    if |hs| == 0 then []
    else Missing(hs[..|hs| - 1], first) + (if hs[|hs| - 1] in first then [] else [hs[|hs| - 1]])
  }

  /** The required headers the first row lacks. */
  function MissingHeaders(first: Row): seq<string> {
    Missing(RequiredHeaders, first)
  }

  /** The check is the source's filter of the header list. */
  lemma {:induction false} MissingIsFilter(hs: seq<string>, first: Row)
    ensures Missing(hs, first) == Filter(hs, HeaderAbsent(first))
  {
    if |hs| > 0 {
      MissingIsFilter(hs[..|hs| - 1], first);
    }
  }

  /** A header of `hs` is missing exactly when the row lacks it. */
  lemma {:induction false} MissingMembers(hs: seq<string>, first: Row)
    ensures forall h :: h in Missing(hs, first) <==> h in hs && h !in first
  {
    if |hs| > 0 {
      var n := |hs| - 1;
      MissingMembers(hs[..n], first);
      assert hs == hs[..n] + [hs[n]];
    }
  }

  /** A header is reported missing exactly when it is required and absent,
      and none is missing exactly when the first row has them all. */
  lemma {:induction false} MissingHeadersSpec(first: Row)
    ensures forall h :: h in MissingHeaders(first) <==> h in RequiredHeaders && h !in first
    ensures MissingHeaders(first) == [] <==> forall h :: h in RequiredHeaders ==> h in first
  {
    var m := MissingHeaders(first);
    MissingMembers(RequiredHeaders, first);
    if m != [] {
      assert m[0] in m;
    }
  }

  // ---------------------------------------------------------------------
  // Row normalisation
  // ---------------------------------------------------------------------

  function Cell(row: Row, h: string): Option<Store.Value> {
    if h in row then Some(row[h]) else None
  }

  /** `String(cell || '')`: a missing or falsy cell is the empty text; a
      number is written by `numberText`, JavaScript's number-to-text
      conversion, passed in. */
  function CellString(v: Option<Store.Value>, numberText: real -> string): string {
    match v
    case None => ""
    case Some(Str(s)) => s
    case Some(Num(n)) => if n == 0.0 then "" else numberText(n)
    case Some(Bool(b)) => if b then "true" else ""
    case Some(List(_)) => ""
    case Some(Object(_)) => "[object Object]"
  }

  /** A trimmed text cell. */
  function CellText(row: Row, h: string, numberText: real -> string): string {
    Trim(CellString(Cell(row, h), numberText))
  }

  /** A missing cell is blank, a text cell is trimmed, and set text starts
      and ends with a non-blank character. */
  lemma {:induction false} CellTextSpec(row: Row, h: string, numberText: real -> string)
    ensures h !in row ==> CellText(row, h, numberText) == ""
    ensures h in row && row[h].Str? ==> CellText(row, h, numberText) == Trim(row[h].s)
    ensures var t := CellText(row, h, numberText);
      t != "" ==> !IsWhitespace(t[0]) && !IsWhitespace(t[|t| - 1])
  {
    var c := CellString(Cell(row, h), numberText);
    assert CellText(row, h, numberText) == Trim(c);
    if h !in row {
      assert c == "";
    } else if row[h].Str? {
      assert c == row[h].s;
    }
  }

  predicate IsSizeLabel(s: string) {
    s == "Pequeña" || s == "Mediana" || s == "Grande"
  }

  /** The cell when it is one of the size labels, otherwise the small size. */
  function CompanySizeOf(v: Option<Store.Value>): (c: CompanySize)
    ensures v.Some? && v.value.Str? && IsSizeLabel(v.value.s) ==> CompanySizeLabel(c) == v.value.s
    ensures !(v.Some? && v.value.Str? && IsSizeLabel(v.value.s)) ==> c == Pequena
  {
    if v == Some(Store.Str("Mediana")) then Mediana
    else if v == Some(Store.Str("Grande")) then Grande
    else Pequena
  }

  /** `Number(cell)`, `None` standing for NaN. */
  function NumberOf(v: Option<Store.Value>): Option<real> {
    match v
    case None => None
    case Some(Str(s)) => ToNumber(s)
    case Some(Num(n)) => Some(n)
    case Some(Bool(b)) => Some(if b then 1.0 else 0.0)
    case Some(List(_)) => None
    case Some(Object(_)) => None
  }

  /** `Number(cell) || 0`. */
  function NumberOrZero(v: Option<Store.Value>): (x: real)
    ensures NumberOf(v).None? ==> x == 0.0
    ensures NumberOf(v).Some? ==> x == NumberOf(v).value
  {
    if NumberOf(v).Some? then NumberOf(v).value else 0.0
  }

  function NormalizeRow(row: Row, numberText: real -> string): ClientRow {
    ClientRow(
      CellText(row, "razonSocial", numberText),
      CellText(row, "nit", numberText),
      CellText(row, "giroComercial", numberText),
      CompanySizeOf(Cell(row, "companySize")),
      CellText(row, "phone", numberText),
      CellText(row, "email", numberText),
      CellText(row, "referencePerson", numberText),
      NumberOrZero(Cell(row, "flete")),
      NumberOrZero(Cell(row, "dmti")))
  }

  /** A row is accepted when both its business name and tax id are set. */
  predicate RowOk(c: ClientRow) {
    c.razonSocial != "" && c.nit != ""
  }

  /** A set business name or tax id starts and ends with a non-blank
      character. */
  lemma {:induction false} NormalizedTextTrimmed(row: Row, numberText: real -> string)
    ensures var c := NormalizeRow(row, numberText);
      (c.razonSocial != "" ==> !IsWhitespace(c.razonSocial[0]) && !IsWhitespace(c.razonSocial[|c.razonSocial| - 1])) &&
      (c.nit != "" ==> !IsWhitespace(c.nit[0]) && !IsWhitespace(c.nit[|c.nit| - 1]))
  {
    var c := NormalizeRow(row, numberText);
    assert c.razonSocial == CellText(row, "razonSocial", numberText);
    assert c.nit == CellText(row, "nit", numberText);
    CellTextSpec(row, "razonSocial", numberText);
    CellTextSpec(row, "nit", numberText);
  }

  /** The business name and tax id are blank when their column is missing
      and the trimmed text of a text cell. */
  lemma {:induction false} NormalizedTextCells(row: Row, numberText: real -> string)
    ensures var c := NormalizeRow(row, numberText);
      ("razonSocial" !in row ==> c.razonSocial == "") && ("nit" !in row ==> c.nit == "") &&
      ("razonSocial" in row && row["razonSocial"].Str? ==> c.razonSocial == Trim(row["razonSocial"].s)) &&
      ("nit" in row && row["nit"].Str? ==> c.nit == Trim(row["nit"].s))
  {
    var c := NormalizeRow(row, numberText);
    assert c.razonSocial == CellText(row, "razonSocial", numberText);
    assert c.nit == CellText(row, "nit", numberText);
    CellTextSpec(row, "razonSocial", numberText);
    CellTextSpec(row, "nit", numberText);
  }

  /** A size outside the labels becomes the small size. */
  lemma {:induction false} NormalizedSize(row: Row, numberText: real -> string)
    ensures var c := NormalizeRow(row, numberText);
      ("companySize" in row && row["companySize"].Str? && IsSizeLabel(row["companySize"].s) ==>
         CompanySizeLabel(c.companySize) == row["companySize"].s) &&
      (!("companySize" in row && row["companySize"].Str? && IsSizeLabel(row["companySize"].s)) ==>
         c.companySize == Pequena)
  {
  }

  /** A cell that is not a number is 0; a numeric cell is its value. */
  lemma {:induction false} FeeOf(v: Option<Store.Value>)
    ensures NumberOf(v).None? ==> NumberOrZero(v) == 0.0
    ensures v.Some? && v.value.Num? ==> NumberOrZero(v) == v.value.n
  {
  }

  /** A fee that is not a number becomes 0; a numeric cell is kept. */
  lemma {:induction false} NormalizedFees(row: Row, numberText: real -> string)
    ensures var c := NormalizeRow(row, numberText);
      (NumberOf(Cell(row, "flete")).None? ==> c.flete == 0.0) &&
      (NumberOf(Cell(row, "dmti")).None? ==> c.dmti == 0.0) &&
      ("flete" in row && row["flete"].Num? ==> c.flete == row["flete"].n) &&
      ("dmti" in row && row["dmti"].Num? ==> c.dmti == row["dmti"].n)
  {
    var c := NormalizeRow(row, numberText);
    assert c.flete == NumberOrZero(Cell(row, "flete"));
    assert c.dmti == NumberOrZero(Cell(row, "dmti"));
    FeeOf(Cell(row, "flete"));
    FeeOf(Cell(row, "dmti"));
  }

  /** The record handed to the store: the nine columns, no id and no
      deleted flag. */
  function ToRec(c: ClientRow): Store.Rec {
    map[
      "razonSocial" := Store.Str(c.razonSocial),
      "nit" := Store.Str(c.nit),
      "giroComercial" := Store.Str(c.giroComercial),
      "companySize" := Store.Str(CompanySizeLabel(c.companySize)),
      "phone" := Store.Str(c.phone),
      "email" := Store.Str(c.email),
      "referencePerson" := Store.Str(c.referencePerson),
      "flete" := Store.Num(c.flete),
      "dmti" := Store.Num(c.dmti)]
  }

  /** The record holds exactly the required columns: no id and no
      deleted flag. */
  lemma {:induction false} ToRecKeys(c: ClientRow)
    ensures ToRec(c).Keys == set h | h in RequiredHeaders
    ensures "isDeleted" !in ToRec(c) && "id" !in ToRec(c)
  {
  }

  /** Each column of the record is the normalised row's field. */
  lemma {:induction false} ToRecSpec(c: ClientRow)
    ensures ToRec(c)["razonSocial"] == Store.Str(c.razonSocial) && ToRec(c)["nit"] == Store.Str(c.nit)
    ensures ToRec(c)["companySize"] == Store.Str(CompanySizeLabel(c.companySize))
    ensures ToRec(c)["flete"] == Store.Num(c.flete) && ToRec(c)["dmti"] == Store.Num(c.dmti)
  {
  }

  // ---------------------------------------------------------------------
  // The import, as a specification
  // ---------------------------------------------------------------------

  /** The normalisation as a function value, so that the import can be
      stated for any row mapping. */
  function Normalizer(numberText: real -> string): Row -> ClientRow {
    (r: Row) => NormalizeRow(r, numberText)
  }

  /** The records the row loop creates, the i-th row under `ids[i]`. */
  function Accepted(cs: seq<ClientRow>, ids: seq<string>): seq<Store.Rec>
    requires |ids| == |cs|
  {
    if |cs| == 0 then []
    else
      var n := |cs| - 1;
      Accepted(cs[..n], ids[..n]) + (if RowOk(cs[n]) then [Store.WithId(ToRec(cs[n]), ids[n])] else [])
  }

  /** The messages the row loop collects, in row order. */
  function RowErrors(cs: seq<ClientRow>): seq<string> {
    if |cs| == 0 then []
    else
      var n := |cs| - 1;
      RowErrors(cs[..n]) + (if RowOk(cs[n]) then [] else [RowErrorMessage(n)])
  }

  predicate HeadersOk(rows: seq<Row>) {
    |rows| > 0 && MissingHeaders(rows[0]) == []
  }

  /** What the import reports. */
  function ImportOutcome(rows: seq<Row>, ids: seq<string>, numberText: real -> string): ImportResult
    requires |ids| == |rows|
  {
    if |rows| == 0 then ImportResult(0, [EmptySheetMessage])
    else if MissingHeaders(rows[0]) != [] then ImportResult(0, [MissingColumnsMessage(MissingHeaders(rows[0]))])
    else ImportResult(|Accepted(MapSeq(rows, Normalizer(numberText)), ids)|, RowErrors(MapSeq(rows, Normalizer(numberText))))
  }

  /** What the import adds to the client list. */
  function Created(rows: seq<Row>, ids: seq<string>, numberText: real -> string): seq<Store.Rec>
    requires |ids| == |rows|
  {
    if HeadersOk(rows) then Accepted(MapSeq(rows, Normalizer(numberText)), ids) else []
  }

  /** Every row is counted once: as a created client or as an error. */
  lemma {:induction false} AcceptedPlusErrors(cs: seq<ClientRow>, ids: seq<string>)
    requires |ids| == |cs|
    ensures |Accepted(cs, ids)| + |RowErrors(cs)| == |cs|
  {
    if |cs| > 0 {
      var n := |cs| - 1;
      AcceptedPlusErrors(cs[..n], ids[..n]);
    }
  }

  /** An empty sheet or a missing column is one error and no client;
      otherwise successes and errors add up to the rows, and the success
      count is the number of clients created. */
  lemma {:induction false} ImportOutcomeSpec(rows: seq<Row>, ids: seq<string>, numberText: real -> string)
    requires |ids| == |rows|
    ensures var r := ImportOutcome(rows, ids, numberText);
      (!HeadersOk(rows) ==> r.success == 0 && |r.errors| == 1 && Created(rows, ids, numberText) == []) &&
      (HeadersOk(rows) ==> r.success + |r.errors| == |rows|) &&
      r.success == |Created(rows, ids, numberText)|
  {
    if HeadersOk(rows) {
      AcceptedPlusErrors(MapSeq(rows, Normalizer(numberText)), ids);
    }
  }

  /** `m` is the message of some rejected row. */
  predicate RejectedRowMessage(cs: seq<ClientRow>, m: string) {
    exists j :: 0 <= j < |cs| && !RowOk(cs[j]) && m == RowErrorMessage(j)
  }

  /** The error list names exactly the rejected rows, each by its sheet
      row number. */
  lemma {:induction false} RowErrorsSpec(cs: seq<ClientRow>)
    ensures forall j :: 0 <= j < |cs| && !RowOk(cs[j]) ==> RowErrorMessage(j) in RowErrors(cs)
    ensures forall k :: 0 <= k < |RowErrors(cs)| ==> RejectedRowMessage(cs, RowErrors(cs)[k])
  {
    if |cs| > 0 {
      var n := |cs| - 1;
      var init := cs[..n];
      var errs := RowErrors(cs);
      RowErrorsSpec(init);
      assert errs == RowErrors(init) + (if RowOk(cs[n]) then [] else [RowErrorMessage(n)]);
      forall j | 0 <= j < |cs| && !RowOk(cs[j]) ensures RowErrorMessage(j) in errs {
        if j < n {
          assert cs[j] == init[j];
        }
      }
      forall k | 0 <= k < |errs| ensures RejectedRowMessage(cs, errs[k]) {
        if k < |RowErrors(init)| {
          assert RejectedRowMessage(init, RowErrors(init)[k]);
          var j :| 0 <= j < |init| && !RowOk(init[j]) && RowErrors(init)[k] == RowErrorMessage(j);
          assert cs[j] == init[j] && errs[k] == RowErrors(init)[k];
        } else {
          assert !RowOk(cs[n]) && errs[k] == RowErrorMessage(n);
        }
      }
    }
  }

  /** `HasId` as a test. */
  function IdIs(id: string): Store.Rec -> bool {
    (r: Store.Rec) => Store.HasId(r, id)
  }

  /** Every created record carries one of the given ids. */
  lemma {:induction false} AcceptedIdsAmong(cs: seq<ClientRow>, ids: seq<string>)
    requires |ids| == |cs|
    ensures forall k :: 0 <= k < |Accepted(cs, ids)| ==>
      var r := Accepted(cs, ids)[k];
      "id" in r && r["id"].Str? && r["id"].s in ids
  {
    if |cs| > 0 {
      var n := |cs| - 1;
      AcceptedIdsAmong(cs[..n], ids[..n]);
    }
  }

  /** With distinct ids, an accepted row is created exactly once, as its
      normalised record under its id, and a rejected row not at all. */
  lemma {:induction false} AcceptedOnce(cs: seq<ClientRow>, ids: seq<string>, j: nat)
    requires |ids| == |cs| && NoDup(ids) && j < |cs|
    ensures Filter(Accepted(cs, ids), IdIs(ids[j])) ==
      (if RowOk(cs[j]) then [Store.WithId(ToRec(cs[j]), ids[j])] else [])
  {
    var n := |cs| - 1;
    if j == n {
      AcceptedOnceLast(cs, ids);
    } else {
      var p := IdIs(ids[j]);
      var init := Accepted(cs[..n], ids[..n]);
      var tail := if RowOk(cs[n]) then [Store.WithId(ToRec(cs[n]), ids[n])] else [];
      assert Accepted(cs, ids) == init + tail;
      NoDupPrefix(ids, n);
      AcceptedOnce(cs[..n], ids[..n], j);
      assert cs[..n][j] == cs[j] && ids[..n][j] == ids[j];
      assert ids[j] != ids[n];
      if RowOk(cs[n]) {
        IdOfWithId(ToRec(cs[n]), ids[n], ids[j]);
      }
      FilterAppendNone(init, tail, p);
    }
  }

  lemma {:induction false} FilterAppendNone<T>(a: seq<T>, b: seq<T>, p: T -> bool)
    requires forall k :: 0 <= k < |b| ==> !p(b[k])
    ensures Filter(a + b, p) == Filter(a, p)
  {
    FilterAppend(a, b, p);
    FilterEmpty(b, p);
    assert Filter(a, p) + [] == Filter(a, p);
  }

  /** The last row's record is the only one under the last id. */
  lemma {:induction false} AcceptedOnceLast(cs: seq<ClientRow>, ids: seq<string>)
    requires |ids| == |cs| > 0 && NoDup(ids)
    ensures var n := |cs| - 1;
      Filter(Accepted(cs, ids), IdIs(ids[n])) ==
      (if RowOk(cs[n]) then [Store.WithId(ToRec(cs[n]), ids[n])] else [])
  {
    var n := |cs| - 1;
    var p := IdIs(ids[n]);
    var init := Accepted(cs[..n], ids[..n]);
    var tail := if RowOk(cs[n]) then [Store.WithId(ToRec(cs[n]), ids[n])] else [];
    FilterAppend(init, tail, p);
    FilterSingle(tail, p);
    NoEarlierRecord(cs, ids);
    if RowOk(cs[n]) {
      IdOfWithId(ToRec(cs[n]), ids[n], ids[n]);
    }
    assert [] + Filter(tail, p) == Filter(tail, p);
  }

  lemma {:induction false} NoDupPrefix(ids: seq<string>, n: nat)
    requires NoDup(ids) && n <= |ids|
    ensures NoDup(ids[..n])
  {
  }

  lemma {:induction false} IdOfWithId(d: Store.Rec, id: string, x: string)
    ensures Store.HasId(Store.WithId(d, id), x) <==> id == x
  {
  }

  /** The rows before the last one create no record under the last id. */
  lemma {:induction false} NoEarlierRecord(cs: seq<ClientRow>, ids: seq<string>)
    requires |ids| == |cs| > 0 && NoDup(ids)
    ensures Filter(Accepted(cs[..|cs| - 1], ids[..|cs| - 1]), IdIs(ids[|cs| - 1])) == []
  {
    var n := |cs| - 1;
    var p := IdIs(ids[n]);
    var init := Accepted(cs[..n], ids[..n]);
    AcceptedIdsAmong(cs[..n], ids[..n]);
    forall k | 0 <= k < |init| ensures !p(init[k]) {
      var id := init[k]["id"].s;
      var i :| 0 <= i < n && ids[..n][i] == id;
      assert ids[i] != ids[n];
    }
    FilterEmpty(init, p);
  }

  /** A filter over at most one record. */
  lemma {:induction false} FilterSingle(s: seq<Store.Rec>, p: Store.Rec -> bool)
    requires |s| <= 1
    ensures Filter(s, p) == (if |s| == 1 && p(s[0]) then s else [])
  {
    if |s| == 1 {
      assert s[..0] == [];
    }
  }

  /** Imported records have no deleted flag, so deleting one removes it
      from the list instead of flagging it. */
  lemma {:induction false} ImportedAreHardDeleted(cs: seq<ClientRow>, ids: seq<string>, items: seq<Store.Rec>, id: string)
    requires |ids| == |cs|
    requires Store.FindIndex(items, id).Some?
    requires items[Store.FindIndex(items, id).value] in Accepted(cs, ids)
    ensures |Store.Deleted(items, id)| == |items| - 1
  {
    AcceptedHaveNoFlag(cs, ids);
    Store.HardDeletedSpec(items, id);
  }

  lemma {:induction false} AcceptedHaveNoFlag(cs: seq<ClientRow>, ids: seq<string>)
    requires |ids| == |cs|
    ensures forall r :: r in Accepted(cs, ids) ==> "isDeleted" !in r
  {
    if |cs| > 0 {
      var n := |cs| - 1;
      AcceptedHaveNoFlag(cs[..n], ids[..n]);
      ToRecKeys(cs[n]);
    }
  }

  // ---------------------------------------------------------------------
  // The import loop
  // ---------------------------------------------------------------------

  lemma {:induction false} AcceptedStep(rows: seq<Row>, ids: seq<string>, norm: Row -> ClientRow, i: nat)
    requires |ids| == |rows| && i < |rows|
    ensures var c := norm(rows[i]);
      Accepted(MapSeq(rows[..i + 1], norm), ids[..i + 1]) ==
        Accepted(MapSeq(rows[..i], norm), ids[..i]) +
        (if RowOk(c) then [Store.WithId(ToRec(c), ids[i])] else [])
    ensures var c := norm(rows[i]);
      RowErrors(MapSeq(rows[..i + 1], norm)) ==
        RowErrors(MapSeq(rows[..i], norm)) + (if RowOk(c) then [] else [RowErrorMessage(i)])
  {
    assert rows[..i + 1][..i] == rows[..i];
    var cs := MapSeq(rows[..i + 1], norm);
    assert cs == MapSeq(rows[..i], norm) + [norm(rows[i])];
    assert cs[..i] == MapSeq(rows[..i], norm);
    assert ids[..i + 1][..i] == ids[..i];
  }

  /** The id the next row gets is not on the client list yet. */
  lemma {:induction false} NextIdFresh(before: seq<Store.Rec>, rows: seq<Row>, ids: seq<string>, norm: Row -> ClientRow, i: nat)
    requires |ids| == |rows| && NoDup(ids) && i < |rows|
    requires forall j, k :: 0 <= j < |ids| && 0 <= k < |before| ==> !Store.HasId(before[k], ids[j])
    ensures var list := before + Accepted(MapSeq(rows[..i], norm), ids[..i]);
      forall k :: 0 <= k < |list| ==> !Store.HasId(list[k], ids[i])
  {
    var acc := Accepted(MapSeq(rows[..i], norm), ids[..i]);
    AcceptedIdsAmong(MapSeq(rows[..i], norm), ids[..i]);
    forall k | 0 <= k < |acc| ensures !Store.HasId(acc[k], ids[i]) {
      var id := acc[k]["id"].s;
      var m :| 0 <= m < i && ids[..i][m] == id;
      assert ids[m] != ids[i];
    }
  }

  /** `handleFileChange` after parsing: the empty and missing-column cases
      report one error and create nothing; otherwise each row is created or
      reported in turn. */
  method ImportClients(api: Store.ApiService, rows: seq<Row>, ids: seq<string>, numberText: real -> string)
    returns (result: ImportResult)
    requires api.Valid()
    requires |ids| == |rows| && NoDup(ids)
    requires forall j, k :: 0 <= j < |ids| && 0 <= k < |api.clients| ==> !Store.HasId(api.clients[k], ids[j])
    modifies api
    ensures result == ImportOutcome(rows, ids, numberText)
    ensures api.clients == old(api.clients) + Created(rows, ids, numberText)
    ensures forall q :: q != Store.Clients ==> api.ListOf(q) == old(api.ListOf(q))
    ensures api.lastServiceNumber == old(api.lastServiceNumber)
    ensures api.Valid()
  {
    if |rows| == 0 {
      return ImportResult(0, [EmptySheetMessage]);
    }
    var missing := MissingHeaders(rows[0]);
    if |missing| > 0 {
      return ImportResult(0, [MissingColumnsMessage(missing)]);
    }
    ghost var cs := MapSeq(rows, Normalizer(numberText));
    assert HeadersOk(rows);
    assert ImportOutcome(rows, ids, numberText) == ImportResult(|Accepted(cs, ids)|, RowErrors(cs));
    assert Created(rows, ids, numberText) == Accepted(cs, ids);
    var successCount, errorMessages := ImportRows(api, rows, ids, Normalizer(numberText));
    return ImportResult(successCount, errorMessages);
  }

  /** The row loop: each row is normalised by `norm` and then created or
      reported. */
  method ImportRows(api: Store.ApiService, rows: seq<Row>, ids: seq<string>, norm: Row -> ClientRow)
    returns (successCount: nat, errorMessages: seq<string>)
    requires api.Valid()
    requires |ids| == |rows| && NoDup(ids)
    requires forall j, k :: 0 <= j < |ids| && 0 <= k < |api.clients| ==> !Store.HasId(api.clients[k], ids[j])
    modifies api
    ensures successCount == |Accepted(MapSeq(rows, norm), ids)|
    ensures errorMessages == RowErrors(MapSeq(rows, norm))
    ensures api.clients == old(api.clients) + Accepted(MapSeq(rows, norm), ids)
    ensures forall q :: q != Store.Clients ==> api.ListOf(q) == old(api.ListOf(q))
    ensures api.lastServiceNumber == old(api.lastServiceNumber)
    ensures api.Valid()
  {
    ghost var start := api.clients;
    successCount := 0;
    errorMessages := [];
    var i := 0;
    while i < |rows|
      invariant 0 <= i <= |rows|
      invariant api.Valid()
      invariant api.clients == start + Accepted(MapSeq(rows[..i], norm), ids[..i])
      invariant successCount == |Accepted(MapSeq(rows[..i], norm), ids[..i])|
      invariant errorMessages == RowErrors(MapSeq(rows[..i], norm))
      invariant forall q :: q != Store.Clients ==> api.ListOf(q) == old(api.ListOf(q))
      invariant api.lastServiceNumber == old(api.lastServiceNumber)
    {
      AcceptedStep(rows, ids, norm, i);
      NextIdFresh(start, rows, ids, norm, i);
      ghost var acc := Accepted(MapSeq(rows[..i], norm), ids[..i]);
      var newClient := norm(rows[i]);
      var created;
      created, errorMessages := ImportRow(api, newClient, i, ids[i], errorMessages);
      AppendAssoc(start, acc, if created then [Store.WithId(ToRec(newClient), ids[i])] else []);
      if created {
        successCount := successCount + 1;
      }
      i := i + 1;
    }
    assert rows[..|rows|] == rows && ids[..|ids|] == ids;
  }

  /** One pass of the row loop: a row without business name or tax id adds
      its message, any other row is created under its id. */
  method ImportRow(api: Store.ApiService, newClient: ClientRow, i: nat, id: string, errorMessages: seq<string>)
    returns (created: bool, errors: seq<string>)
    requires api.Valid()
    requires forall k :: 0 <= k < |api.clients| ==> !Store.HasId(api.clients[k], id)
    modifies api
    ensures created == RowOk(newClient)
    ensures api.clients == old(api.clients) + (if created then [Store.WithId(ToRec(newClient), id)] else [])
    ensures errors == errorMessages + (if created then [] else [RowErrorMessage(i)])
    ensures forall q :: q != Store.Clients ==> api.ListOf(q) == old(api.ListOf(q))
    ensures api.lastServiceNumber == old(api.lastServiceNumber)
    ensures api.Valid()
  {
    if !RowOk(newClient) {
      return false, errorMessages + [RowErrorMessage(i)];
    }
    assert api.ListOf(Store.Clients) == api.clients;
    var _ := api.Create(Store.Clients, ToRec(newClient), id);
    assert api.clients == api.ListOf(Store.Clients);
    return true, errorMessages;
  }

  // ---------------------------------------------------------------------
  // The client form
  // ---------------------------------------------------------------------

  /** The form's starting data: a copy of the client being edited, or a
      blank small company with zero fees. */
  function InitialClientForm(client: Option<Store.Rec>): (f: Store.Rec)
    ensures client.Some? ==> f == client.value
  {
    if client.Some? then client.value
    else map[
      "razonSocial" := Store.Str(""),
      "nit" := Store.Str(""),
      "giroComercial" := Store.Str(""),
      "companySize" := Store.Str(CompanySizeLabel(Pequena)),
      "phone" := Store.Str(""),
      "email" := Store.Str(""),
      "referencePerson" := Store.Str(""),
      "isDeleted" := Store.Bool(false),
      "flete" := Store.Num(0.0),
      "dmti" := Store.Num(0.0)]
  }

  /** A new client starts small, not deleted, with zero fees and blank
      business name and tax id. */
  lemma {:induction false} InitialClientFormBlank()
    ensures var f := InitialClientForm(None);
      "isDeleted" in f && f["isDeleted"] == Store.Bool(false) &&
      "companySize" in f && f["companySize"] == Store.Str("Pequeña") &&
      "flete" in f && f["flete"] == Store.Num(0.0) && "dmti" in f && f["dmti"] == Store.Num(0.0) &&
      "razonSocial" in f && f["razonSocial"] == Store.Str("") && "nit" in f && f["nit"] == Store.Str("")
  {
  }

  /** `handleChange`: the fee fields keep `parseFloat(value) || 0`, the
      others the text as typed. */
  function FormChange(form: Store.Rec, name: string, value: string): (f: Store.Rec)
    ensures f.Keys == form.Keys + {name}
    ensures forall k :: k in form && k != name ==> f[k] == form[k]
    ensures (name == "flete" || name == "dmti") ==> f[name].Num?
    ensures (name == "flete" || name == "dmti") && ParseFloat(value).None? ==> f[name].n == 0.0
    ensures (name == "flete" || name == "dmti") && ParseFloat(value).Some? ==> f[name].n == ParseFloat(value).value
    ensures !(name == "flete" || name == "dmti") ==> f[name] == Store.Str(value)
  {
    if name == "flete" || name == "dmti" then form[name := Store.Num(ParseFloatOrZero(value))]
    else form[name := Store.Str(value)]
  }

  /** Only the last input to a field counts. */
  lemma {:induction false} FormChangeLastWins(form: Store.Rec, name: string, first: string, second: string)
    ensures FormChange(FormChange(form, name, first), name, second) == FormChange(form, name, second)
  {
  }

  /** `handleSubmit`: an edit updates the client (an unknown id is rejected
      by the store and only logged), a new client is created. */
  method SubmitClientForm(api: Store.ApiService, client: Option<string>, formData: Store.Rec, freshId: string)
    requires api.Valid()
    requires forall k :: 0 <= k < |api.clients| ==> !Store.HasId(api.clients[k], freshId)
    modifies api
    ensures client.None? ==> api.clients == old(api.clients) + [Store.WithId(formData, freshId)]
    ensures client.Some? && Store.Updated(old(api.clients), client.value, formData).Some? ==>
      api.clients == Store.Updated(old(api.clients), client.value, formData).value
    ensures client.Some? && Store.Updated(old(api.clients), client.value, formData).None? ==>
      api.clients == old(api.clients)
    ensures forall q :: q != Store.Clients ==> api.ListOf(q) == old(api.ListOf(q))
    ensures api.lastServiceNumber == old(api.lastServiceNumber)
    ensures api.Valid()
  {
    if client.Some? {
      var _ := api.Update(Store.Clients, client.value, formData);
    } else {
      var _ := api.Create(Store.Clients, formData, freshId);
    }
  }
}
