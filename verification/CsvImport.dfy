/** The batch import of properties from a CSV file: one row at a time into the store of a
    tenant, each row created or patched by its external reference, failures reported and
    passed over. */
module CsvImport {
  import opened Common
  import opened Strings
  import opened TextWords
  import opened ZoneText
  import opened CsvParser
  import P = PropertySearch

  /** What `Number` makes of a text. */
  datatype Number = NaN | Infinite(positive: bool) | Finite(value: real)

  datatype Column =
    | TITLE | DESCRIPTION | OPERATION | PROPERTY_TYPE | PRICE | CURRENCY | EXPENSES | NEIGHBORHOOD | CITY | ADDRESS
    | ROOMS | BEDROOMS | BATHROOMS | AREA | GARAGE | PETS_ALLOWED | FEATURES | LISTING_URL | PHOTOS | STATUS

  datatype Value =
    | Str(text: string) | Amount(number: Number) | Flag(on: bool) | Items(items: seq<string>)
    | Op(operation: P.Operation) | State(status: P.Status)

  /** The columns of a property that hold a value. */
  type Record = map<Column, Value>

  const DEFAULTS: Record := map[
    CURRENCY := Str("USD"), GARAGE := Flag(false), FEATURES := Items([]), PHOTOS := Items([]), STATUS := State(P.ACTIVE)]

  /** A row accepted by the parser: the fields it defines. */
  datatype Input = Input(ref: string, fields: Record)

  type Store = map<string, Record>

  datatype RowError =
    | NoExternalRef | NoTitle | BadOperation(raw: string) | NoPropertyType | BadPrice(raw: string) | NoNeighborhood
    | BadExpenses(raw: string) | BadInteger(column: Column, raw: string) | Refused

  datatype Parsed = Good(input: Input) | Bad(error: RowError)

  datatype ImportError = ImportError(row: nat, error: RowError)

  /** How texts are read, and which rows the database refuses. */
  datatype Reader = Reader(
    number: string -> Number, lower: string -> string, fold: Folding, aliases: Aliases, refuses: (nat, Input) -> bool)

  const REQUIRED_COLUMNS := [
    "external_ref", "title", "description", "operation", "property_type", "price", "currency", "expenses",
    "neighborhood", "city", "address", "rooms", "bedrooms", "bathrooms", "area_m2", "garage", "pets_allowed",
    "features", "listing_url", "photo_urls"]

  // ----- one row -----

  /** The row's cells by column name, trimmed; a repeated column counts with its last
      cell, a missing cell as empty. */
  function ToRecord(header: seq<string>, row: Row): map<string, string> {
    if header == [] then map[]
    else
      var n := |header| - 1;
      ToRecord(header[..n], row)[header[n] := if n < |row| then Trim(row[n]) else ""]
  }

  function CellOf(record: map<string, string>, column: string): string {
    if column in record then record[column] else ""
  }

  predicate IsInteger(n: Number) { n.Finite? && n.value == n.value.Floor as real }

  function OperationOf(word: string): Option<P.Operation> {
    if word == "venta" then Some(P.SALE)
    else if word == "alquiler" then Some(P.RENT)
    else if word == "temporario" then Some(P.TEMP_RENT)
    else None
  }

  function YesNo(rd: Reader, raw: string): Option<bool> {
    var word := rd.lower(Trim(raw));
    if word == "si" || word == "s\U{ED}" then Some(true) else if word == "no" then Some(false) else None
  }

  /** The non-empty items between semicolons. */
  function SplitItems(raw: string, open: string): seq<string> {
    if raw == [] then Item(open)
    else if raw[0] == ';' then Item(open) + SplitItems(raw[1..], "")
    else SplitItems(raw[1..], open + [raw[0]])
  }

  function Item(raw: string): seq<string> { if Trim(raw) == "" then [] else [Trim(raw)] }

  /** The cells of a row by the column they are for. */
  type Cells = Column -> string

  function BadIntegerIn(rd: Reader, cell: Cells, columns: seq<Column>): Option<Column> {
    if columns == [] then None
    else if cell(columns[0]) != "" && !IsInteger(rd.number(cell(columns[0]))) then Some(columns[0])
    else BadIntegerIn(rd, cell, columns[1..])
  }

  function Put(fields: Record, c: Column, v: Option<Value>): Record { if v.Some? then fields[c := v.value] else fields }

  function NameOf(c: Column): string {
    match c
    case TITLE => "title" case DESCRIPTION => "description" case OPERATION => "operation"
    case PROPERTY_TYPE => "property_type" case PRICE => "price" case CURRENCY => "currency" case EXPENSES => "expenses"
    case NEIGHBORHOOD => "neighborhood" case CITY => "city" case ADDRESS => "address" case ROOMS => "rooms"
    case BEDROOMS => "bedrooms" case BATHROOMS => "bathrooms" case AREA => "area_m2" case GARAGE => "garage"
    case PETS_ALLOWED => "pets_allowed" case FEATURES => "features" case LISTING_URL => "listing_url"
    case PHOTOS => "photo_urls" case STATUS => "status"
  }

  predicate IsText(c: Column) {
    c == TITLE || c == DESCRIPTION || c == PROPERTY_TYPE || c == CURRENCY || c == NEIGHBORHOOD || c == CITY
    || c == ADDRESS || c == LISTING_URL
  }

  predicate IsNumber(c: Column) {
    c == PRICE || c == EXPENSES || c == ROOMS || c == BEDROOMS || c == BATHROOMS || c == AREA
  }

  /** What an optional cell says, if anything. */
  function FieldOf(rd: Reader, c: Column, raw: string): Option<Value> {
    if IsText(c) then if raw == "" then None else Some(Str(raw))
    else if IsNumber(c) then if raw == "" then None else Some(Amount(rd.number(raw)))
    else if c == GARAGE || c == PETS_ALLOWED then
      match YesNo(rd, raw) case None => None case Some(on) => Some(Flag(on))
    else
      var items := SplitItems(raw, "");
      if items == [] then None else Some(Items(items))
  }

  const OPTIONAL_COLUMNS := [
    DESCRIPTION, CURRENCY, EXPENSES, CITY, ADDRESS, ROOMS, BEDROOMS, BATHROOMS, AREA, GARAGE, PETS_ALLOWED, FEATURES,
    LISTING_URL, PHOTOS]

  /** What the cells of a row say, column by column. */
  function Says(rd: Reader, cell: Cells): Column -> Option<Value> { (c: Column) => FieldOf(rd, c, cell(c)) }

  /** The fields with what the cells of some columns add. */
  function PutAll(fields: Record, says: Column -> Option<Value>, columns: seq<Column>): Record {
    if columns == [] then fields
    else
      var c := columns[|columns| - 1];
      Put(PutAll(fields, says, columns[..|columns| - 1]), c, says(c))
  }

  const INTEGER_COLUMNS := [ROOMS, BEDROOMS, BATHROOMS, AREA]

  /** The fields every row taken must have. */
  function Needed(rd: Reader, cell: Cells, operation: P.Operation): Record {
    map[TITLE := Str(cell(TITLE)), OPERATION := Op(operation), PROPERTY_TYPE := Str(cell(PROPERTY_TYPE)),
        PRICE := Amount(rd.number(cell(PRICE))), NEIGHBORHOOD := Str(cell(NEIGHBORHOOD))]
  }

  predicate BadPriceIn(rd: Reader, raw: string) {
    var price := rd.number(raw);
    raw == "" || price.NaN? || price == Infinite(false) || (price.Finite? && price.value <= 0.0)
  }

  function ParseRow(rd: Reader, ref: string, cell: Cells): Parsed {
    var operation := OperationOf(rd.lower(cell(OPERATION)));
    var badInteger := BadIntegerIn(rd, cell, INTEGER_COLUMNS);
    if ref == "" then Bad(NoExternalRef)
    else if cell(TITLE) == "" then Bad(NoTitle)
    else if operation.None? then Bad(BadOperation(cell(OPERATION)))
    else if cell(PROPERTY_TYPE) == "" then Bad(NoPropertyType)
    else if BadPriceIn(rd, cell(PRICE)) then Bad(BadPrice(cell(PRICE)))
    else if cell(NEIGHBORHOOD) == "" then Bad(NoNeighborhood)
    else if cell(EXPENSES) != "" && rd.number(cell(EXPENSES)).NaN? then Bad(BadExpenses(cell(EXPENSES)))
    else if badInteger.Some? then Bad(BadInteger(badInteger.value, cell(badInteger.value)))
    else Good(Input(ref, PutAll(Needed(rd, cell, operation.value), Says(rd, cell), OPTIONAL_COLUMNS)))
  }

  lemma {:induction false} PutAllPuts(fields: Record, says: Column -> Option<Value>, columns: seq<Column>, c: Column)
    ensures var put, v := PutAll(fields, says, columns), says(c);
      if c in columns && v.Some? then c in put && put[c] == v.value
      else (c in put <==> c in fields) && (c in fields ==> put[c] == fields[c])
    decreases |columns|
  {
    if columns != [] {
      var front, last := columns[..|columns| - 1], columns[|columns| - 1];
      assert columns == front + [last];
      PutAllPuts(fields, says, front, c);
    }
  }

  predicate IsNeeded(c: Column) {
    c == TITLE || c == OPERATION || c == PROPERTY_TYPE || c == PRICE || c == NEIGHBORHOOD
  }

  function Place(c: Column): nat {
    match c
    case DESCRIPTION => 0 case CURRENCY => 1 case EXPENSES => 2 case CITY => 3 case ADDRESS => 4 case ROOMS => 5
    case BEDROOMS => 6 case BATHROOMS => 7 case AREA => 8 case GARAGE => 9 case PETS_ALLOWED => 10 case FEATURES => 11
    case LISTING_URL => 12 case PHOTOS => 13 case _ => 14
  }

  lemma OptionalOrNot(c: Column)
    ensures c in OPTIONAL_COLUMNS <==> Place(c) < 14
  {
    if Place(c) < 14 { assert OPTIONAL_COLUMNS[Place(c)] == c; }
  }

  lemma PlaceOrNot(c: Column)
    ensures Place(c) < 14 <==> !IsNeeded(c) && c != STATUS
  {
  }

  lemma OptionalColumn(c: Column)
    ensures c in OPTIONAL_COLUMNS <==> !IsNeeded(c) && c != STATUS
  {
    OptionalOrNot(c);
    PlaceOrNot(c);
  }

  lemma BlankSaysNothing(rd: Reader, c: Column)
    requires rd.lower("") == ""
    ensures FieldOf(rd, c, "").None?
  {
    assert Trim("") == "" && SplitItems("", "") == [];
  }

  lemma NeededFields(rd: Reader, cell: Cells, operation: P.Operation, c: Column)
    ensures var needed := Needed(rd, cell, operation);
      && (c in needed <==> IsNeeded(c)) && (c == OPERATION ==> needed[c] == Op(operation))
      && (IsNeeded(c) && IsText(c) ==> needed[c] == Str(cell(c)))
      && (IsNeeded(c) && IsNumber(c) ==> needed[c] == Amount(rd.number(cell(c))))
  {
  }

  lemma TakenHasNeeded(rd: Reader, ref: string, cell: Cells, c: Column)
    requires ParseRow(rd, ref, cell).Good? && OperationOf(rd.lower("")).None?
    ensures IsNeeded(c) ==> cell(c) != ""
  {
  }

  lemma OptionalField(rd: Reader, cell: Cells, needed: Record, columns: seq<Column>, c: Column)
    requires rd.lower("") == "" && c in columns && c !in needed
    ensures var fields, raw := PutAll(needed, Says(rd, cell), columns), cell(c);
      && (raw == "" ==> c !in fields)
      && (raw != "" && IsText(c) ==> c in fields && fields[c] == Str(raw))
      && (raw != "" && IsNumber(c) ==> c in fields && fields[c] == Amount(rd.number(raw)))
  {
    PutAllPuts(needed, Says(rd, cell), columns, c);
    BlankSaysNothing(rd, c);
  }

  lemma FieldsDefined(rd: Reader, cell: Cells, operation: P.Operation, columns: seq<Column>, c: Column)
    requires rd.lower("") == "" && (c in columns <==> !IsNeeded(c) && c != STATUS)
    requires IsNeeded(c) ==> cell(c) != ""
    ensures var fields, raw := PutAll(Needed(rd, cell, operation), Says(rd, cell), columns), cell(c);
      && (raw == "" || c == STATUS ==> c !in fields)
      && (raw != "" && IsText(c) ==> c in fields && fields[c] == Str(raw))
      && (raw != "" && IsNumber(c) ==> c in fields && fields[c] == Amount(rd.number(raw)))
  {
    NeededFields(rd, cell, operation, c);
    if c in columns {
      OptionalField(rd, cell, Needed(rd, cell, operation), columns, c);
    } else {
      PutAllPuts(Needed(rd, cell, operation), Says(rd, cell), columns, c);
    }
  }

  lemma TakenFields(rd: Reader, ref: string, cell: Cells) returns (operation: P.Operation)
    requires ParseRow(rd, ref, cell).Good?
    ensures OperationOf(rd.lower(cell(OPERATION))) == Some(operation)
    ensures ParseRow(rd, ref, cell).input.fields == PutAll(Needed(rd, cell, operation), Says(rd, cell), OPTIONAL_COLUMNS)
  {
    operation := OperationOf(rd.lower(cell(OPERATION))).value;
  }

  /** A row defines nothing for a blank cell, nor for the status, and the text or number of
      its own column for any other. */
  lemma CellsDefineFields(rd: Reader, ref: string, cell: Cells, c: Column)
    requires ParseRow(rd, ref, cell).Good? && rd.lower("") == ""
    ensures var input, raw := ParseRow(rd, ref, cell).input, cell(c);
      && input.ref == ref
      && (raw == "" || c == STATUS ==> c !in input.fields)
      && (raw != "" && IsText(c) ==> c in input.fields && input.fields[c] == Str(raw))
      && (raw != "" && IsNumber(c) ==> c in input.fields && input.fields[c] == Amount(rd.number(raw)))
  {
    TakenHasNeeded(rd, ref, cell, c);
    OptionalColumn(c);
    var operation := TakenFields(rd, ref, cell);
    FieldsDefined(rd, cell, operation, OPTIONAL_COLUMNS, c);
  }

  predicate IsFlag(c: Column) { c == GARAGE || c == PETS_ALLOWED }

  predicate IsList(c: Column) { c == FEATURES || c == PHOTOS }

  predicate SaysFlag(fields: Record, c: Column, on: Option<bool>) {
    (c in fields <==> on.Some?) && (on.Some? ==> fields[c] == Flag(on.value))
  }

  predicate SaysItems(fields: Record, c: Column, items: seq<string>) {
    (c in fields <==> items != []) && (items != [] ==> fields[c] == Items(items))
  }

  lemma OptionalSays(rd: Reader, cell: Cells, needed: Record, columns: seq<Column>, c: Column)
    requires (IsFlag(c) || IsList(c)) && c in columns && c !in needed
    ensures var fields := PutAll(needed, Says(rd, cell), columns);
      && (IsFlag(c) ==> SaysFlag(fields, c, YesNo(rd, cell(c))))
      && (IsList(c) ==> SaysItems(fields, c, SplitItems(cell(c), "")))
  {
    PutAllPuts(needed, Says(rd, cell), columns, c);
  }

  lemma OperationSays(rd: Reader, cell: Cells, operation: P.Operation, columns: seq<Column>)
    requires OPERATION !in columns
    ensures var fields := PutAll(Needed(rd, cell, operation), Says(rd, cell), columns);
      OPERATION in fields && fields[OPERATION] == Op(operation)
  {
    NeededFields(rd, cell, operation, OPERATION);
    PutAllPuts(Needed(rd, cell, operation), Says(rd, cell), columns, OPERATION);
  }

  lemma WordsDefined(rd: Reader, cell: Cells, operation: P.Operation, columns: seq<Column>, c: Column)
    requires c in columns <==> !IsNeeded(c) && c != STATUS
    ensures var fields := PutAll(Needed(rd, cell, operation), Says(rd, cell), columns);
      && (IsFlag(c) ==> SaysFlag(fields, c, YesNo(rd, cell(c))))
      && (IsList(c) ==> SaysItems(fields, c, SplitItems(cell(c), "")))
      && (c == OPERATION ==> c in fields && fields[c] == Op(operation))
  {
    if IsFlag(c) || IsList(c) {
      NeededFields(rd, cell, operation, c);
      OptionalSays(rd, cell, Needed(rd, cell, operation), columns, c);
    } else if c == OPERATION {
      OperationSays(rd, cell, operation, columns);
    }
  }

  /** The other columns: the operation is the one its word names, a yes/no cell counts when
      it says either, and a list cell when some item is left. */
  lemma WordsDefineFields(rd: Reader, ref: string, cell: Cells, c: Column)
    requires ParseRow(rd, ref, cell).Good?
    ensures var fields := ParseRow(rd, ref, cell).input.fields;
      && (IsFlag(c) ==> SaysFlag(fields, c, YesNo(rd, cell(c))))
      && (IsList(c) ==> SaysItems(fields, c, SplitItems(cell(c), "")))
      && (c == OPERATION ==> c in fields && fields[c].Op? && OperationOf(rd.lower(cell(c))) == Some(fields[c].operation))
  {
    var operation := TakenFields(rd, ref, cell);
    OptionalColumn(c);
    WordsDefined(rd, cell, operation, OPTIONAL_COLUMNS, c);
  }

  /** A list is read piece by piece: what stands between two semicolons is one item,
      trimmed, unless it is blank. */
  lemma {:induction false} OnePiece(raw: string, open: string)
    requires ';' !in raw
    ensures SplitItems(raw, open) == Item(open + raw)
    decreases |raw|
  {
    if raw == [] {
      assert open + raw == open;
    } else {
      assert raw[0] in raw && open + raw == (open + [raw[0]]) + raw[1..];
      OnePiece(raw[1..], open + [raw[0]]);
    }
  }

  lemma {:induction false} SplitAtSemicolon(a: string, b: string, open: string)
    ensures SplitItems(a + [';'] + b, open) == SplitItems(a, open) + SplitItems(b, "")
    decreases |a|
  {
    var all := a + [';'] + b;
    if a == [] {
      assert all[0] == ';' && all[1..] == b;
    } else {
      assert all[0] == a[0] && all[1..] == a[1..] + [';'] + b;
      if a[0] == ';' {
        SplitAtSemicolon(a[1..], b, "");
      } else {
        SplitAtSemicolon(a[1..], b, open + [a[0]]);
      }
    }
  }

  function Join(items: seq<string>): string {
    if items == [] then "" else if |items| == 1 then items[0] else items[0] + [';'] + Join(items[1..])
  }

  predicate Plain(item: string) { item != "" && Trim(item) == item && ';' !in item }

  /** So a list of plain items written with semicolons between them is read back. */
  lemma {:induction false} SplitJoined(items: seq<string>)
    requires forall item :: item in items ==> Plain(item)
    ensures SplitItems(Join(items), "") == items
    decreases |items|
  {
    if items == [] {
      assert Trim("") == "";
    } else {
      assert Plain(items[0]) && "" + items[0] == items[0];
      OnePiece(items[0], "");
      if |items| > 1 {
        SplitAtSemicolon(items[0], Join(items[1..]), "");
        SplitJoined(items[1..]);
        assert items == [items[0]] + items[1..];
      }
    }
  }

  function CellsOf(r: map<string, string>): Cells { (c: Column) => CellOf(r, NameOf(c)) }

  function RowParser(rd: Reader, header: seq<string>): Row -> Parsed {
    row =>
      var r := ToRecord(header, row);
      ParseRow(rd, CellOf(r, "external_ref"), CellsOf(r))
  }

  /** What becomes of a parsed row once the database has its say. */
  function Attempt(rd: Reader, parsed: Parsed, number: nat): Parsed {
    if parsed.Good? && rd.refuses(number, parsed.input) then Bad(Refused) else parsed
  }

  // ----- the store -----

  /** The fields as written: the zone in its canonical form, and no empty list of photos,
      which would leave the stored ones alone. */
  function Written(rd: Reader, fields: Record): Record {
    var named :=
      if NEIGHBORHOOD in fields && fields[NEIGHBORHOOD].Str?
      then fields[NEIGHBORHOOD := Str(NormalizeNeighborhood(rd.fold, rd.aliases, fields[NEIGHBORHOOD].text))]
      else fields;
    if PHOTOS in named && named[PHOTOS] == Items([]) then named - {PHOTOS} else named
  }

  /** The property a row starts from: the stored one, or the column defaults. */
  function Base(store: Store, ref: string): Record { if ref in store then store[ref] else DEFAULTS }

  function Upsert(rd: Reader, store: Store, input: Input): Store {
    store[input.ref := Base(store, input.ref) + Written(rd, input.fields)]
  }

  // ----- the batch -----

  datatype Batch = Batch(store: Store, imported: nat, errors: seq<ImportError>)

  /** What becomes of each data row; the first one is row 2 of the file. */
  function Outcomes(rd: Reader, parse: Row -> Parsed, rows: seq<Row>): seq<Parsed> {
    if rows == [] then []
    else Outcomes(rd, parse, rows[..|rows| - 1]) + [Attempt(rd, parse(rows[|rows| - 1]), |rows| + 1)]
  }

  /** The outcomes applied in order: good ones to the store, bad ones to the report. */
  function Apply(rd: Reader, store: Store, outcomes: seq<Parsed>): Batch {
    if outcomes == [] then Batch(store, 0, [])
    else
      var before := Apply(rd, store, outcomes[..|outcomes| - 1]);
      match outcomes[|outcomes| - 1]
      case Good(input) => before.(store := Upsert(rd, before.store, input), imported := before.imported + 1)
      case Bad(error) => before.(errors := before.errors + [ImportError(|outcomes| + 1, error)])
  }

  function TrimAll(row: Row): seq<string> {
    if row == [] then [] else TrimAll(row[..|row| - 1]) + [Trim(row[|row| - 1])]
  }

  predicate HasColumns(header: seq<string>) { forall c :: c in REQUIRED_COLUMNS ==> c in header }

  /** Nothing when the header lacks a column. */
  function ImportText(rd: Reader, store: Store, text: string): Option<Batch> {
    var rows := Parse(text);
    if rows == [] then Some(Batch(store, 0, []))
    else if !HasColumns(TrimAll(rows[0])) then None
    else Some(Apply(rd, store, Outcomes(rd, RowParser(rd, TrimAll(rows[0])), rows[1..])))
  }

  lemma {:induction false} OneOutcomeEach(rd: Reader, parse: Row -> Parsed, rows: seq<Row>)
    ensures var o := Outcomes(rd, parse, rows);
      |o| == |rows| && forall k :: 0 <= k < |rows| ==> o[k] == Attempt(rd, parse(rows[k]), k + 2)
    decreases |rows|
  {
    if rows != [] { OneOutcomeEach(rd, parse, rows[..|rows| - 1]); }
  }

  /** One more row. */
  lemma ApplyNext(rd: Reader, store: Store, parse: Row -> Parsed, rows: seq<Row>, k: nat)
    requires k < |rows|
    ensures var before := Apply(rd, store, Outcomes(rd, parse, rows[..k]));
      Apply(rd, store, Outcomes(rd, parse, rows[..k + 1])) == match Attempt(rd, parse(rows[k]), k + 2)
        case Good(input) => before.(store := Upsert(rd, before.store, input), imported := before.imported + 1)
        case Bad(error) => before.(errors := before.errors + [ImportError(k + 2, error)])
  {
    var some, more := rows[..k], rows[..k + 1];
    assert more[..k] == some;
    OneOutcomeEach(rd, parse, some);
    var o := Outcomes(rd, parse, more);
    assert o[..k] == Outcomes(rd, parse, some);
  }

  // ----- the report -----

  /** Row `number` of the file failed for the reason `error`. */
  predicate Failed(outcomes: seq<Parsed>, number: nat, error: RowError) {
    2 <= number <= |outcomes| + 1 && outcomes[number - 2] == Bad(error)
  }

  predicate RowsIncrease(errors: seq<ImportError>) {
    forall i, j :: 0 <= i < j < |errors| ==> errors[i].row < errors[j].row
  }

  /** Whatever mix of rows fails, every data row is counted once, as imported or as an
      error; the errors are exactly the failing rows, each with its reason, in the order
      of the file. */
  lemma {:induction false} ReportIsExact(rd: Reader, store: Store, outcomes: seq<Parsed>)
    ensures var b := Apply(rd, store, outcomes);
      && b.imported + |b.errors| == |outcomes| && RowsIncrease(b.errors)
      && (forall n, error :: ImportError(n, error) in b.errors <==> Failed(outcomes, n, error))
    decreases |outcomes|
  {
    if outcomes != [] {
      var front, last := outcomes[..|outcomes| - 1], outcomes[|outcomes| - 1];
      ReportIsExact(rd, store, front);
      var before, b := Apply(rd, store, front), Apply(rd, store, outcomes);
      forall i | 0 <= i < |before.errors| ensures before.errors[i].row <= |front| + 1 {
        var e := before.errors[i];
        assert ImportError(e.row, e.error) in before.errors;
      }
      forall n: nat, error ensures ImportError(n, error) in b.errors <==> Failed(outcomes, n, error) {
        assert Failed(outcomes, n, error)
          <==> Failed(front, n, error) || (n == |outcomes| + 1 && last == Bad(error));
      }
    }
  }

  // ----- the store after the batch -----

  /** The inputs taken, in order. */
  function Taken(outcomes: seq<Parsed>): seq<Input> {
    if outcomes == [] then []
    else
      var last := outcomes[|outcomes| - 1];
      Taken(outcomes[..|outcomes| - 1]) + if last.Good? then [last.input] else []
  }

  /** What a list of inputs says about one property: field by field, the last word. */
  function Said(rd: Reader, inputs: seq<Input>, ref: string): Record {
    if inputs == [] then map[]
    else
      var last := inputs[|inputs| - 1];
      Said(rd, inputs[..|inputs| - 1], ref) + if last.ref == ref then Written(rd, last.fields) else map[]
  }

  predicate Mentions(inputs: seq<Input>, ref: string) { exists i :: 0 <= i < |inputs| && inputs[i].ref == ref }

  /** A property no input mentions is untouched; any other is what it was, or the
      defaults, with what the inputs say laid over. */
  predicate LaidOver(rd: Reader, store: Store, t: Store, inputs: seq<Input>, ref: string) {
    && (ref in t <==> ref in store || Mentions(inputs, ref))
    && (ref in t ==> t[ref] == Base(store, ref) + Said(rd, inputs, ref))
    && (!Mentions(inputs, ref) ==> Said(rd, inputs, ref) == map[])
  }

  lemma MentionsSnoc(inputs: seq<Input>, x: Input, ref: string)
    ensures Mentions(inputs + [x], ref) <==> Mentions(inputs, ref) || x.ref == ref
  {
    var all := inputs + [x];
    assert all[|inputs|] == x && forall i :: 0 <= i < |inputs| ==> all[i] == inputs[i];
  }

  lemma SaidSnoc(rd: Reader, inputs: seq<Input>, x: Input, ref: string)
    ensures Said(rd, inputs + [x], ref)
            == if x.ref == ref then Said(rd, inputs, ref) + Written(rd, x.fields) else Said(rd, inputs, ref)
  {
    assert (inputs + [x])[..|inputs|] == inputs;
    assert Said(rd, inputs, ref) + map[] == Said(rd, inputs, ref);
  }

  lemma LayTwice(base: Record, said: Record, news: Record)
    ensures (base + said) + news == base + (said + news) && base + map[] == base
  {
  }

  lemma UpsertLaysOver(rd: Reader, store: Store, t: Store, inputs: seq<Input>, x: Input, ref: string)
    requires LaidOver(rd, store, t, inputs, ref)
    ensures LaidOver(rd, store, Upsert(rd, t, x), inputs + [x], ref)
  {
    MentionsSnoc(inputs, x, ref);
    SaidSnoc(rd, inputs, x, ref);
    if x.ref == ref {
      LayTwice(Base(store, ref), Said(rd, inputs, ref), Written(rd, x.fields));
      if ref !in t { LayTwice(Base(store, ref), map[], map[]); }
    }
  }

  /** A failing row changes nothing in the store; the others lay what they say over it. */
  lemma {:induction false} StoreAfter(rd: Reader, store: Store, outcomes: seq<Parsed>, ref: string)
    ensures LaidOver(rd, store, Apply(rd, store, outcomes).store, Taken(outcomes), ref)
    decreases |outcomes|
  {
    if outcomes == [] {
      if ref in store { assert Base(store, ref) + map[] == Base(store, ref); }
    } else {
      var front, last := outcomes[..|outcomes| - 1], outcomes[|outcomes| - 1];
      StoreAfter(rd, store, front, ref);
      if last.Good? {
        UpsertLaysOver(rd, store, Apply(rd, store, front).store, Taken(front), last.input, ref);
      } else {
        assert Taken(front) + [] == Taken(front);
      }
    }
  }

  predicate Defines(rd: Reader, inputs: seq<Input>, i: nat, ref: string, c: Column) {
    i < |inputs| && inputs[i].ref == ref && c in Written(rd, inputs[i].fields)
  }

  /** The `i`-th input is the last one to define the field, and it is what is said. */
  predicate IsLastWord(rd: Reader, inputs: seq<Input>, i: nat, ref: string, c: Column) {
    && Defines(rd, inputs, i, ref, c) && c in Said(rd, inputs, ref)
    && Said(rd, inputs, ref)[c] == Written(rd, inputs[i].fields)[c]
    && (forall j :: i < j < |inputs| ==> !Defines(rd, inputs, j, ref, c))
  }

  lemma LastWordSnoc(rd: Reader, inputs: seq<Input>, x: Input, ref: string, c: Column, i: nat)
    requires IsLastWord(rd, inputs, i, ref, c) && !(x.ref == ref && c in Written(rd, x.fields))
    ensures IsLastWord(rd, inputs + [x], i, ref, c)
  {
    SaidSnoc(rd, inputs, x, ref);
    var all := inputs + [x];
    assert all[|inputs|] == x && forall j :: 0 <= j < |inputs| ==> all[j] == inputs[j];
    forall j | i < j < |all| ensures !Defines(rd, all, j, ref, c) {
      if j < |inputs| { assert !Defines(rd, inputs, j, ref, c); }
    }
  }

  /** Per property and field the last defined value wins, and only a defined one counts. */
  lemma {:induction false} LastWordWins(rd: Reader, inputs: seq<Input>, ref: string, c: Column)
    ensures (exists i: nat :: IsLastWord(rd, inputs, i, ref, c))
      || (c !in Said(rd, inputs, ref) && forall i: nat :: !Defines(rd, inputs, i, ref, c))
    decreases |inputs|
  {
    if inputs != [] {
      var front, x := inputs[..|inputs| - 1], inputs[|inputs| - 1];
      assert inputs == front + [x];
      LastWordWins(rd, front, ref, c);
      SaidSnoc(rd, front, x, ref);
      if x.ref == ref && c in Written(rd, x.fields) {
        assert IsLastWord(rd, inputs, |front|, ref, c);
      } else if i: nat :| IsLastWord(rd, front, i, ref, c) {
        LastWordSnoc(rd, front, x, ref, c, i);
      } else {
        forall i: nat ensures !Defines(rd, inputs, i, ref, c) {
          assert !Defines(rd, front, i, ref, c);
        }
      }
    }
  }

  /** A field with a value keeps one: no row erases. */
  lemma NothingIsErased(rd: Reader, store: Store, outcomes: seq<Parsed>, ref: string, c: Column)
    requires ref in store && c in store[ref]
    ensures var t := Apply(rd, store, outcomes).store; ref in t && c in t[ref]
  {
    StoreAfter(rd, store, outcomes, ref);
  }

  lemma {:induction false} ReportIgnoresStore(rd: Reader, s: Store, t: Store, outcomes: seq<Parsed>)
    ensures var a, b := Apply(rd, s, outcomes), Apply(rd, t, outcomes); a.imported == b.imported && a.errors == b.errors
    decreases |outcomes|
  {
    if outcomes != [] { ReportIgnoresStore(rd, s, t, outcomes[..|outcomes| - 1]); }
  }

  lemma ApplyTwice(rd: Reader, store: Store, outcomes: seq<Parsed>)
    ensures var once := Apply(rd, store, outcomes); Apply(rd, once.store, outcomes) == once
  {
    var once := Apply(rd, store, outcomes);
    var twice := Apply(rd, once.store, outcomes);
    ReportIgnoresStore(rd, store, once.store, outcomes);
    forall ref
      ensures ref in twice.store <==> ref in once.store
      ensures ref in once.store ==> twice.store[ref] == once.store[ref]
    {
      StoreAfter(rd, store, outcomes, ref);
      StoreAfter(rd, once.store, outcomes, ref);
      var said := Said(rd, Taken(outcomes), ref);
      assert (Base(store, ref) + said) + said == Base(store, ref) + said;
    }
    assert twice.store == once.store;
  }

  /** Importing the same file again changes nothing and reports the same. */
  lemma ImportIsIdempotent(rd: Reader, store: Store, text: string)
    requires ImportText(rd, store, text).Some?
    ensures var once := ImportText(rd, store, text).value; ImportText(rd, once.store, text) == Some(once)
  {
    var rows := Parse(text);
    if rows != [] { ApplyTwice(rd, store, Outcomes(rd, RowParser(rd, TrimAll(rows[0])), rows[1..])); }
  }

  // ----- as it runs -----

  class PropertiesAdminService {
    const rd: Reader
    var store: Store

    constructor (rd: Reader)
      ensures this.rd == rd && store == map[]
    {
      this.rd, store := rd, map[];
    }

    /** Creates or patches; `false` when the database refuses the row. */
    method UpsertByExternalRef(number: nat, input: Input) returns (ok: bool)
      modifies this
      ensures ok == !rd.refuses(number, input)
      ensures store == if ok then Upsert(rd, old(store), input) else old(store)
    {
      ok := !rd.refuses(number, input);
      if !ok { return; }
      var written := Written(rd, input.fields);
      if input.ref in store {
        store := store[input.ref := store[input.ref] + written];
      } else {
        store := store[input.ref := DEFAULTS + written];
      }
    }

    method ImportRows(parse: Row -> Parsed, rows: seq<Row>) returns (imported: nat, errors: seq<ImportError>)
      requires rows != []
      modifies this
      ensures Batch(store, imported, errors) == Apply(rd, old(store), Outcomes(rd, parse, rows[1..]))
    {
      imported, errors := 0, [];
      ghost var data := rows[1..];
      for i := 1 to |rows|
        invariant Batch(store, imported, errors) == Apply(rd, old(store), Outcomes(rd, parse, data[..i - 1]))
      {
        ApplyNext(rd, old(store), parse, data, i - 1);
        var parsed := parse(rows[i]);
        if parsed.Bad? {
          errors := errors + [ImportError(i + 1, parsed.error)];
          continue;
        }
        var ok := UpsertByExternalRef(i + 1, parsed.input);
        if ok {
          imported := imported + 1;
        } else {
          errors := errors + [ImportError(i + 1, Refused)];
        }
      }
      assert data[..|rows| - 1] == data;
    }

    method ImportFile(text: string) returns (result: Option<(nat, seq<ImportError>)>)
      modifies this
      ensures match ImportText(rd, old(store), text)
        case None => result.None? && store == old(store)
        case Some(b) => result == Some((b.imported, b.errors)) && store == b.store
    {
      var rows := ParseCsv(text);
      if |rows| == 0 { return Some((0, [])); }
      var header := TrimAll(rows[0]);
      if !HasColumns(header) { return None; }
      var imported, errors := ImportRows(RowParser(rd, header), rows);
      result := Some((imported, errors));
    }
  }
}
