/** Which cell of the file each imported field comes from: the one under the field's own
    column name. */
module CsvColumns {
  import opened Common
  import opened Strings
  import opened TextWords
  import opened ZoneText
  import opened CsvParser
  import opened CsvImport
  import P = PropertySearch

  /** Column `k` is the last one with this name, which is the one that counts. */
  predicate IsColumn(header: seq<string>, k: nat, name: string) {
    k < |header| && header[k] == name && forall l :: k < l < |header| ==> header[l] != name
  }

  /** The cell trimmed; past the end of a short row it is blank. */
  function CellAt(row: Row, k: nat): string { if k < |row| then Trim(row[k]) else "" }

  lemma {:induction false} RecordAt(header: seq<string>, row: Row, k: nat, name: string)
    requires IsColumn(header, k, name)
    ensures CellOf(ToRecord(header, row), name) == CellAt(row, k)
    decreases |header|
  {
    var n := |header| - 1;
    if k < n {
      assert header[n] != name;
      RecordAt(header[..n], row, k, name);
    }
  }

  predicate TextColumn(name: string, c: Column) {
    || (name == "title" && c == TITLE) || (name == "description" && c == DESCRIPTION)
    || (name == "property_type" && c == PROPERTY_TYPE) || (name == "currency" && c == CURRENCY)
    || (name == "neighborhood" && c == NEIGHBORHOOD) || (name == "city" && c == CITY)
    || (name == "address" && c == ADDRESS) || (name == "listing_url" && c == LISTING_URL)
  }

  predicate NumberColumn(name: string, c: Column) {
    || (name == "price" && c == PRICE) || (name == "expenses" && c == EXPENSES) || (name == "rooms" && c == ROOMS)
    || (name == "bedrooms" && c == BEDROOMS) || (name == "bathrooms" && c == BATHROOMS)
    || (name == "area_m2" && c == AREA)
  }

  predicate FlagColumn(name: string, c: Column) {
    (name == "garage" && c == GARAGE) || (name == "pets_allowed" && c == PETS_ALLOWED)
  }

  predicate ListColumn(name: string, c: Column) {
    (name == "features" && c == FEATURES) || (name == "photo_urls" && c == PHOTOS)
  }

  lemma TextColumnsAreNamed(name: string, c: Column)
    requires TextColumn(name, c)
    ensures NameOf(c) == name && IsText(c) && c != STATUS
  {
  }

  lemma NumberColumnsAreNamed(name: string, c: Column)
    requires NumberColumn(name, c)
    ensures NameOf(c) == name && IsNumber(c) && c != STATUS
  {
  }

  lemma OtherColumnsAreNamed(name: string, c: Column)
    ensures FlagColumn(name, c) ==> NameOf(c) == name && IsFlag(c)
    ensures ListColumn(name, c) ==> NameOf(c) == name && IsList(c)
    ensures NameOf(OPERATION) == "operation"
  {
  }

  /** How a row is parsed, by its cells. */
  lemma ParsedByCells(rd: Reader, header: seq<string>, row: Row, k: nat, name: string, c: Column)
    requires IsColumn(header, k, name) && NameOf(c) == name
    ensures var r := ToRecord(header, row);
      && RowParser(rd, header)(row) == ParseRow(rd, CellOf(r, "external_ref"), CellsOf(r))
      && CellsOf(r)(c) == CellAt(row, k)
  {
    RecordAt(header, row, k, name);
  }

  lemma RefTaken(rd: Reader, ref: string, cell: Cells)
    requires ParseRow(rd, ref, cell).Good?
    ensures ParseRow(rd, ref, cell).input.ref == ref != ""
  {
  }

  /** A row taken is stored under the trimmed cell of its own `external_ref` column. */
  lemma RefIsOfItsColumn(rd: Reader, header: seq<string>, row: Row, k: nat)
    requires RowParser(rd, header)(row).Good? && IsColumn(header, k, "external_ref")
    ensures RowParser(rd, header)(row).input.ref == CellAt(row, k) != ""
  {
    var r := ToRecord(header, row);
    var name := "external_ref";
    RecordAt(header, row, k, name);
    RefTaken(rd, CellOf(r, name), CellsOf(r));
  }

  /** Each text field of a row taken is the trimmed cell under its own name, and each number
      field the number that cell reads as; a blank cell defines neither. */
  lemma TextsAndNumbersOfTheirColumn(rd: Reader, header: seq<string>, row: Row, k: nat, name: string, c: Column)
    requires RowParser(rd, header)(row).Good? && IsColumn(header, k, name) && rd.lower("") == ""
    requires TextColumn(name, c) || NumberColumn(name, c)
    ensures var fields, raw := RowParser(rd, header)(row).input.fields, CellAt(row, k);
      && (c in fields <==> raw != "")
      && (raw != "" && TextColumn(name, c) ==> fields[c] == Str(raw))
      && (raw != "" && NumberColumn(name, c) ==> fields[c] == Amount(rd.number(raw)))
  {
    if TextColumn(name, c) { TextColumnsAreNamed(name, c); } else { NumberColumnsAreNamed(name, c); }
    ParsedByCells(rd, header, row, k, name, c);
    var r := ToRecord(header, row);
    CellsDefineFields(rd, CellOf(r, "external_ref"), CellsOf(r), c);
  }

  /** The words of a yes/no cell. */
  predicate SaysYes(rd: Reader, raw: string) { rd.lower(Trim(raw)) == "si" || rd.lower(Trim(raw)) == "s\U{ED}" }

  predicate SaysNo(rd: Reader, raw: string) { rd.lower(Trim(raw)) == "no" }

  lemma YesNoSays(rd: Reader, raw: string)
    ensures match YesNo(rd, raw)
      case Some(on) => if on then SaysYes(rd, raw) else SaysNo(rd, raw)
      case None => !SaysYes(rd, raw) && !SaysNo(rd, raw)
    ensures !(SaysYes(rd, raw) && SaysNo(rd, raw))
  {
    if SaysNo(rd, raw) { assert rd.lower(Trim(raw))[0] == 'n'; }
  }

  /** Each yes/no field is what the cell under its own name says, if it says either, and each
      list the items of its own cell, if there are any. */
  lemma FlagsAndListsOfTheirColumn(rd: Reader, header: seq<string>, row: Row, k: nat, name: string, c: Column)
    requires RowParser(rd, header)(row).Good? && IsColumn(header, k, name)
    requires FlagColumn(name, c) || ListColumn(name, c)
    ensures var fields, raw := RowParser(rd, header)(row).input.fields, CellAt(row, k);
      && (FlagColumn(name, c) ==>
            && (c in fields <==> SaysYes(rd, raw) || SaysNo(rd, raw))
            && (SaysYes(rd, raw) ==> fields[c] == Flag(true)) && (SaysNo(rd, raw) ==> fields[c] == Flag(false)))
      && (ListColumn(name, c) ==> SaysItems(fields, c, SplitItems(raw, "")))
  {
    OtherColumnsAreNamed(name, c);
    ParsedByCells(rd, header, row, k, name, c);
    var r := ToRecord(header, row);
    WordsDefineFields(rd, CellOf(r, "external_ref"), CellsOf(r), c);
    YesNoSays(rd, CellAt(row, k));
  }

  /** The operation is the one the cell under `operation` names. */
  lemma OperationOfItsColumn(rd: Reader, header: seq<string>, row: Row, k: nat)
    requires RowParser(rd, header)(row).Good? && IsColumn(header, k, "operation")
    ensures var fields, word := RowParser(rd, header)(row).input.fields, rd.lower(CellAt(row, k));
      && OPERATION in fields && (word == "venta" || word == "alquiler" || word == "temporario")
      && (word == "venta" ==> fields[OPERATION] == Op(P.SALE))
      && (word == "alquiler" ==> fields[OPERATION] == Op(P.RENT))
      && (word == "temporario" ==> fields[OPERATION] == Op(P.TEMP_RENT))
  {
    OtherColumnsAreNamed("operation", OPERATION);
    ParsedByCells(rd, header, row, k, "operation", OPERATION);
    var r := ToRecord(header, row);
    WordsDefineFields(rd, CellOf(r, "external_ref"), CellsOf(r), OPERATION);
    WordOfOperation(rd.lower(CellAt(row, k)));
  }

  lemma WordOfOperation(word: string)
    ensures OperationOf(word).Some? <==> word == "venta" || word == "alquiler" || word == "temporario"
    ensures word == "venta" ==> OperationOf(word) == Some(P.SALE)
    ensures word == "alquiler" ==> OperationOf(word) == Some(P.RENT)
    ensures word == "temporario" ==> OperationOf(word) == Some(P.TEMP_RENT)
  {
    assert |"venta"| == 5 && |"alquiler"| == 8 && |"temporario"| == 10;
  }

  // ----- which rows are taken -----

  predicate BlankOrInteger(rd: Reader, raw: string) {
    raw == "" || (rd.number(raw).Finite? && rd.number(raw).value == rd.number(raw).value.Floor as real)
  }

  predicate AboveZero(n: Number) { n == Infinite(true) || (n.Finite? && n.value > 0.0) }

  lemma {:induction false} IntegersChecked(rd: Reader, cell: Cells, columns: seq<Column>)
    ensures BadIntegerIn(rd, cell, columns).None?
            <==> forall k :: 0 <= k < |columns| ==> BlankOrInteger(rd, cell(columns[k]))
    decreases |columns|
  {
    if columns != [] && BlankOrInteger(rd, cell(columns[0])) {
      var rest := columns[1..];
      IntegersChecked(rd, cell, rest);
      if forall k :: 0 <= k < |rest| ==> BlankOrInteger(rd, cell(rest[k])) {
        forall k | 0 <= k < |columns| ensures BlankOrInteger(rd, cell(columns[k])) {
          if k > 0 { assert columns[k] == rest[k - 1]; }
        }
      } else {
        var k :| 0 <= k < |rest| && !BlankOrInteger(rd, cell(rest[k]));
        assert columns[k + 1] == rest[k];
      }
    }
  }

  lemma FourIntegers(rd: Reader, cell: Cells)
    ensures BadIntegerIn(rd, cell, INTEGER_COLUMNS).None? <==>
      BlankOrInteger(rd, cell(ROOMS)) && BlankOrInteger(rd, cell(BEDROOMS)) && BlankOrInteger(rd, cell(BATHROOMS))
      && BlankOrInteger(rd, cell(AREA))
  {
    var four := [ROOMS, BEDROOMS, BATHROOMS, AREA];
    IntegersChecked(rd, cell, four);
    assert four[0] == ROOMS && four[1] == BEDROOMS && four[2] == BATHROOMS && four[3] == AREA;
  }

  /** A row is taken exactly when it has a reference, a title, one of the three operations, a
      type, a price above zero and a zone, and its expenses, if any, are a number and its
      counts, if any, integers. */
  lemma TakenExactly(rd: Reader, ref: string, cell: Cells)
    ensures ParseRow(rd, ref, cell).Good? <==>
      && ref != "" && cell(TITLE) != "" && cell(PROPERTY_TYPE) != "" && cell(NEIGHBORHOOD) != ""
      && (var word := rd.lower(cell(OPERATION)); word == "venta" || word == "alquiler" || word == "temporario")
      && cell(PRICE) != "" && AboveZero(rd.number(cell(PRICE)))
      && (cell(EXPENSES) == "" || !rd.number(cell(EXPENSES)).NaN?)
      && BlankOrInteger(rd, cell(ROOMS)) && BlankOrInteger(rd, cell(BEDROOMS)) && BlankOrInteger(rd, cell(BATHROOMS))
      && BlankOrInteger(rd, cell(AREA))
  {
    WordOfOperation(rd.lower(cell(OPERATION)));
    FourIntegers(rd, cell);
  }

  /** The reason given for a row is true of its cells. */
  lemma ErrorsTellWhy(rd: Reader, ref: string, cell: Cells)
    ensures match ParseRow(rd, ref, cell)
      case Good(_) => true
      case Bad(error) =>
        match error
        case NoExternalRef => ref == ""
        case NoTitle => cell(TITLE) == ""
        case BadOperation(raw) => raw == cell(OPERATION) && OperationOf(rd.lower(raw)).None?
        case NoPropertyType => cell(PROPERTY_TYPE) == ""
        case BadPrice(raw) => raw == cell(PRICE) && !(raw != "" && AboveZero(rd.number(raw)))
        case NoNeighborhood => cell(NEIGHBORHOOD) == ""
        case BadExpenses(raw) => raw == cell(EXPENSES) && raw != "" && rd.number(raw).NaN?
        case BadInteger(c, raw) =>
          (c == ROOMS || c == BEDROOMS || c == BATHROOMS || c == AREA) && raw == cell(c) && !BlankOrInteger(rd, raw)
        case Refused => false
  {
    BadIntegerIs(rd, cell, INTEGER_COLUMNS);
    assert forall c :: c in INTEGER_COLUMNS ==> c == ROOMS || c == BEDROOMS || c == BATHROOMS || c == AREA;
  }

  lemma {:induction false} BadIntegerIs(rd: Reader, cell: Cells, columns: seq<Column>)
    ensures var bad := BadIntegerIn(rd, cell, columns);
      bad.Some? ==> bad.value in columns && !BlankOrInteger(rd, cell(bad.value))
    decreases |columns|
  {
    if columns != [] { BadIntegerIs(rd, cell, columns[1..]); }
  }

  predicate Required(name: string) {
    || name == "external_ref" || name == "operation"
    || (exists c :: TextColumn(name, c)) || (exists c :: NumberColumn(name, c))
    || (exists c :: FlagColumn(name, c)) || (exists c :: ListColumn(name, c))
  }

  /** Each of the columns that something is read from must be there, and no other. */
  lemma RequiredColumns(name: string)
    ensures name in REQUIRED_COLUMNS <==> Required(name)
  {
    if name in REQUIRED_COLUMNS {
      var k :| 0 <= k < |REQUIRED_COLUMNS| && REQUIRED_COLUMNS[k] == name;
      EachIsRequired(k);
    }
    if Required(name) { RequiredIsListed(name); }
  }

  lemma EachIsRequired(k: nat)
    requires k < 20
    ensures |REQUIRED_COLUMNS| == 20 && Required(REQUIRED_COLUMNS[k])
  {
    assert k == 1 ==> TextColumn(REQUIRED_COLUMNS[k], TITLE);
    assert k == 2 ==> TextColumn(REQUIRED_COLUMNS[k], DESCRIPTION);
    assert k == 4 ==> TextColumn(REQUIRED_COLUMNS[k], PROPERTY_TYPE);
    assert k == 5 ==> NumberColumn(REQUIRED_COLUMNS[k], PRICE);
    assert k == 6 ==> TextColumn(REQUIRED_COLUMNS[k], CURRENCY);
    assert k == 7 ==> NumberColumn(REQUIRED_COLUMNS[k], EXPENSES);
    assert k == 8 ==> TextColumn(REQUIRED_COLUMNS[k], NEIGHBORHOOD);
    assert k == 9 ==> TextColumn(REQUIRED_COLUMNS[k], CITY);
    assert k == 10 ==> TextColumn(REQUIRED_COLUMNS[k], ADDRESS);
    assert k == 11 ==> NumberColumn(REQUIRED_COLUMNS[k], ROOMS);
    assert k == 12 ==> NumberColumn(REQUIRED_COLUMNS[k], BEDROOMS);
    assert k == 13 ==> NumberColumn(REQUIRED_COLUMNS[k], BATHROOMS);
    assert k == 14 ==> NumberColumn(REQUIRED_COLUMNS[k], AREA);
    assert k == 15 ==> FlagColumn(REQUIRED_COLUMNS[k], GARAGE);
    assert k == 16 ==> FlagColumn(REQUIRED_COLUMNS[k], PETS_ALLOWED);
    assert k == 17 ==> ListColumn(REQUIRED_COLUMNS[k], FEATURES);
    assert k == 18 ==> TextColumn(REQUIRED_COLUMNS[k], LISTING_URL);
    assert k == 19 ==> ListColumn(REQUIRED_COLUMNS[k], PHOTOS);
  }

  lemma RequiredIsListed(name: string)
    requires Required(name)
    ensures name in REQUIRED_COLUMNS
  {
    var r := REQUIRED_COLUMNS;
    assert r[0] == "external_ref" && r[1] == "title" && r[2] == "description" && r[3] == "operation";
    assert r[4] == "property_type" && r[5] == "price" && r[6] == "currency" && r[7] == "expenses";
    assert r[8] == "neighborhood" && r[9] == "city" && r[10] == "address" && r[11] == "rooms";
    assert r[12] == "bedrooms" && r[13] == "bathrooms" && r[14] == "area_m2" && r[15] == "garage";
    assert r[16] == "pets_allowed" && r[17] == "features" && r[18] == "listing_url" && r[19] == "photo_urls";
  }

  /** A file whose header, trimmed, lacks a column is refused, and no other. */
  lemma RefusedForAMissingColumn(rd: Reader, store: Store, text: string)
    ensures ImportText(rd, store, text).None?
      <==> Parse(text) != [] && exists name :: Required(name) && name !in TrimAll(Parse(text)[0])
  {
    var rows := Parse(text);
    if rows != [] {
      var header := TrimAll(rows[0]);
      forall name ensures name in REQUIRED_COLUMNS <==> Required(name) {
        RequiredColumns(name);
      }
      assert HasColumns(header) <==> forall name :: Required(name) ==> name in header;
    }
  }

  // ----- carried to the file and the store -----

  lemma {:induction false} TrimAllAt(row: Row, k: nat)
    requires k < |row|
    ensures |TrimAll(row)| == |row| && TrimAll(row)[k] == Trim(row[k])
    decreases |row|
  {
    if k < |row| - 1 {
      TrimAllAt(row[..|row| - 1], k);
    } else if |row| > 1 {
      TrimAllAt(row[..|row| - 1], 0);
    } else {
      assert TrimAll(row[..0]) == [];
    }
  }

  predicate NotMentionedAfter(outcomes: seq<Parsed>, i: nat, ref: string) {
    forall j :: i < j < |outcomes| && outcomes[j].Good? ==> outcomes[j].input.ref != ref
  }

  /** What the rows taken say of the property is `before` with `news` laid over. */
  predicate SaysFinally(rd: Reader, taken: seq<Input>, ref: string, before: Record, news: Record) {
    CsvImport.Mentions(taken, ref) && Said(rd, taken, ref) == before + news
  }

  /** What is said of a property ends with what the last row taken for it says. */
  lemma {:induction false} SaidLast(rd: Reader, outcomes: seq<Parsed>, i: nat, ref: string, before: Record, news: Record)
    requires i < |outcomes| && outcomes[i].Good? && outcomes[i].input.ref == ref && NotMentionedAfter(outcomes, i, ref)
    requires before == Said(rd, Taken(outcomes[..i]), ref) && news == CsvImport.Written(rd, outcomes[i].input.fields)
    ensures SaysFinally(rd, Taken(outcomes), ref, before, news)
    decreases |outcomes|
  {
    var n := |outcomes| - 1;
    var front := outcomes[..n];
    OneMoreSaid(rd, outcomes, ref);
    if i < n {
      assert front[..i] == outcomes[..i];
      SaidLast(rd, front, i, ref, before, news);
    }
  }

  lemma OneMoreSaid(rd: Reader, outcomes: seq<Parsed>, ref: string)
    requires outcomes != []
    ensures var front, last := Taken(outcomes[..|outcomes| - 1]), outcomes[|outcomes| - 1];
      if last.Good? && last.input.ref == ref
      then CsvImport.Mentions(Taken(outcomes), ref)
           && Said(rd, Taken(outcomes), ref) == Said(rd, front, ref) + CsvImport.Written(rd, last.input.fields)
      else (CsvImport.Mentions(Taken(outcomes), ref) <==> CsvImport.Mentions(front, ref))
           && Said(rd, Taken(outcomes), ref) == Said(rd, front, ref)
  {
    var front, last := Taken(outcomes[..|outcomes| - 1]), outcomes[|outcomes| - 1];
    if last.Good? {
      MentionsSnoc(front, last.input, ref);
      SaidSnoc(rd, front, last.input, ref);
    } else {
      assert front + [] == front;
    }
  }

  /** How the zone is written. */
  lemma WrittenKeeps(rd: Reader, fields: Record, c: Column)
    requires c in fields && c != NEIGHBORHOOD && c != PHOTOS
    ensures c in CsvImport.Written(rd, fields) && CsvImport.Written(rd, fields)[c] == fields[c]
  {
  }

  /** The `i`-th data row is taken, and none after it for the same property. */
  predicate LastTaken(outcomes: seq<Parsed>, i: nat) {
    i < |outcomes| && outcomes[i].Good? && NotMentionedAfter(outcomes, i, outcomes[i].input.ref)
  }

  /** The property holds what the cell `raw` says in the column: its text, its number, or
      the zone it names in canonical form. */
  predicate HoldsCell(rd: Reader, t: Store, ref: string, raw: string, name: string, c: Column) {
    && ref in t && c in t[ref]
    && (TextColumn(name, c) && c != NEIGHBORHOOD ==> t[ref][c] == Str(raw))
    && (NumberColumn(name, c) ==> t[ref][c] == Amount(rd.number(raw)))
    && (c == NEIGHBORHOOD ==> t[ref][c] == Str(NormalizeNeighborhood(rd.fold, rd.aliases, raw)))
  }

  lemma RowsStored(rd: Reader, store: Store, header: seq<string>, data: seq<Row>, outcomes: seq<Parsed>,
                   i: nat, r: nat, k: nat, name: string, c: Column)
    requires rd.lower("") == "" && outcomes == Outcomes(rd, RowParser(rd, header), data) && LastTaken(outcomes, i)
    requires IsColumn(header, r, "external_ref") && IsColumn(header, k, name)
    requires (TextColumn(name, c) || NumberColumn(name, c)) && |outcomes| == |data| && CellAt(data[i], k) != ""
    ensures HoldsCell(rd, Apply(rd, store, outcomes).store, CellAt(data[i], r), CellAt(data[i], k), name, c)
  {
    OneOutcomeEach(rd, RowParser(rd, header), data);
    assert outcomes[i] == Attempt(rd, RowParser(rd, header)(data[i]), i + 2);
    RefIsOfItsColumn(rd, header, data[i], r);
    TextsAndNumbersOfTheirColumn(rd, header, data[i], k, name, c);
    NotPhotos(name, c);
    StoredAsSaid(rd, store, outcomes, i, c);
  }

  lemma NotPhotos(name: string, c: Column)
    requires TextColumn(name, c) || NumberColumn(name, c)
    ensures c != PHOTOS && (NumberColumn(name, c) ==> c != NEIGHBORHOOD)
    ensures c == NEIGHBORHOOD ==> TextColumn(name, c)
  {
  }

  /** After an import, the property of the `i`-th data row, if that was the last one taken
      for its reference, holds that row's cell in each text and number field whose cell is
      not blank. */
  lemma ImportedFromItsCell(rd: Reader, store: Store, text: string, rows: seq<Row>, header: seq<string>,
                            i: nat, r: nat, k: nat, name: string, c: Column)
    requires rd.lower("") == "" && ImportText(rd, store, text).Some?
    requires rows == Parse(text) && |rows| > i + 1 && header == TrimAll(rows[0])
    requires LastTaken(Outcomes(rd, RowParser(rd, header), rows[1..]), i)
    requires IsColumn(header, r, "external_ref") && IsColumn(header, k, name)
    requires (TextColumn(name, c) || NumberColumn(name, c)) && CellAt(rows[i + 1], k) != ""
    ensures HoldsCell(rd, ImportText(rd, store, text).value.store,
                      CellAt(rows[i + 1], r), CellAt(rows[i + 1], k), name, c)
  {
    var outcomes := Outcomes(rd, RowParser(rd, header), rows[1..]);
    OneOutcomeEach(rd, RowParser(rd, header), rows[1..]);
    assert rows[1..][i] == rows[i + 1];
    RowsStored(rd, store, header, rows[1..], outcomes, i, r, k, name, c);
  }

  lemma StoredAsSaid(rd: Reader, store: Store, outcomes: seq<Parsed>, i: nat, c: Column)
    requires i < |outcomes| && outcomes[i].Good? && NotMentionedAfter(outcomes, i, outcomes[i].input.ref)
    requires c in outcomes[i].input.fields && c != PHOTOS
    ensures var t, input := Apply(rd, store, outcomes).store, outcomes[i].input;
      && input.ref in t && c in t[input.ref]
      && (c != NEIGHBORHOOD ==> t[input.ref][c] == input.fields[c])
      && (c == NEIGHBORHOOD && input.fields[c].Str? ==>
            t[input.ref][c] == Str(NormalizeNeighborhood(rd.fold, rd.aliases, input.fields[c].text)))
  {
    var input := outcomes[i].input;
    StoreAfter(rd, store, outcomes, input.ref);
    SaidLast(rd, outcomes, i, input.ref, Said(rd, Taken(outcomes[..i]), input.ref), CsvImport.Written(rd, input.fields));
    if c != NEIGHBORHOOD { WrittenKeeps(rd, input.fields, c); }
  }

  /** A property the store did not have starts, where no row taken says otherwise, priced in
      dollars, without garage, features or photos, and active. */
  lemma CreatedWithDefaults(rd: Reader, store: Store, outcomes: seq<Parsed>, ref: string)
    requires ref !in store && CsvImport.Mentions(Taken(outcomes), ref)
    ensures var t, said := Apply(rd, store, outcomes).store, Said(rd, Taken(outcomes), ref);
      && ref in t
      && (CURRENCY !in said ==> CURRENCY in t[ref] && t[ref][CURRENCY] == Str("USD"))
      && (GARAGE !in said ==> GARAGE in t[ref] && t[ref][GARAGE] == Flag(false))
      && (FEATURES !in said ==> FEATURES in t[ref] && t[ref][FEATURES] == Items([]))
      && (PHOTOS !in said ==> PHOTOS in t[ref] && t[ref][PHOTOS] == Items([]))
      && (STATUS !in said ==> STATUS in t[ref] && t[ref][STATUS] == State(P.ACTIVE))
  {
    StoreAfter(rd, store, outcomes, ref);
  }
}
