/** Reading one product out of a spreadsheet row (file_processing/services.py,
 *  ExcelProcessor): find the column for each field, clean the cell into a
 *  typed value, and validate the result. */
module FileRows {
  import opened Wrappers
  import opened Seqs
  import opened Texts

  /** A decimal number m × 10^-e, as Python's Decimal holds it. */
  datatype Dec = Dec(m: int, e: nat)

  function Pow10(e: nat): (r: nat)
    ensures r >= 1
  {
    if e == 0 then 1 else 10 * Pow10(e - 1)
  }

  /** a < b on the decimal values. */
  predicate DecLess(a: Dec, b: Dec)
  {
    a.m * Pow10(b.e) < b.m * Pow10(a.e)
  }

  /** One cell as pandas hands it over. An empty cell is NaN (`Missing`),
   *  never Python's None. A float cell carries its value m × 10^-e and the
   *  text str() gives for it; a timestamp carries its day number and its
   *  str() text. */
  datatype Cell =
    | Missing
    | Text(s: string)
    | Int(i: int)
    | Real(m: int, e: nat, repr: string)
    | Flag(b: bool)
    | Day(d: int, repr: string)

  datatype Column = Column(header: string, cell: Cell)

  /** A row: its columns in sheet order, each with its header. */
  type Row = seq<Column>

  /** str(value) for a cell. */
  function Str(c: Cell): string
  {
    match c
    case Missing => "nan"
    case Text(s) => s
    case Int(i) => IntToString(i)
    case Real(_, _, repr) => repr
    case Flag(b) => if b then "True" else "False"
    case Day(_, repr) => repr
  }

  /** The product fields a row can fill, in the order the column table lists them. */
  datatype Field =
    | Name | Barcode | Category | Supplier | Brand | Description
    | CostPrice | SellingPrice | Price | Quantity | MinStockLevel
    | Weight | Origin | ExpiryDate | Location | HalalCertified

  const Fields: seq<Field> := [Name, Barcode, Category, Supplier, Brand, Description,
    CostPrice, SellingPrice, Price, Quantity, MinStockLevel,
    Weight, Origin, ExpiryDate, Location, HalalCertified]

  /** The column headers tried for each field, in order. */
  function Candidates(f: Field): seq<string>
  {
    match f
    case Name => ["name", "product_name", "product", "item_name", "title"]
    case Barcode => ["barcode", "ean", "upc", "code", "product_code"]
    case Category => ["category", "category_name", "type", "product_type"]
    case Supplier => ["supplier", "vendor", "manufacturer", "brand"]
    case Brand => ["brand", "brand_name", "make"]
    case Description => ["description", "desc", "details", "notes"]
    case CostPrice => ["cost_price", "cost", "purchase_price", "buy_price"]
    case SellingPrice => ["selling_price", "sell_price", "retail_price", "price"]
    case Price => ["price", "current_price", "unit_price"]
    case Quantity => ["quantity", "qty", "stock", "inventory", "units"]
    case MinStockLevel => ["min_stock", "reorder_level", "minimum_stock"]
    case Weight => ["weight", "size", "unit_size"]
    case Origin => ["origin", "country", "made_in"]
    case ExpiryDate => ["expiry_date", "expiry", "exp_date", "best_before"]
    case Location => ["location", "aisle", "shelf", "position"]
    case HalalCertified => ["halal", "halal_certified", "is_halal"]
  }

  // ---------------------------------------------------------------------
  // Column lookup

  /** Index of the first column, from k on, whose header is exactly `col`. */
  function ExactFrom(row: Row, col: string, k: nat): (r: Option<nat>)
    requires k <= |row|
    ensures r.Some? ==> k <= r.value < |row| && row[r.value].header == col
    ensures r.Some? ==> forall j :: k <= j < r.value ==> row[j].header != col
    ensures r.None? ==> forall j :: k <= j < |row| ==> row[j].header != col
    decreases |row| - k
  {
    if k == |row| then None
    else if row[k].header == col then Some(k)
    else ExactFrom(row, col, k + 1)
  }

  /** Index of the first column, from k on, whose header equals `col` ignoring case. */
  function FoldedFrom(row: Row, col: string, k: nat): (r: Option<nat>)
    requires k <= |row|
    ensures r.Some? ==> k <= r.value < |row| && FoldEq(row[r.value].header, col)
    ensures r.Some? ==> forall j :: k <= j < r.value ==> !FoldEq(row[j].header, col)
    ensures r.None? ==> forall j :: k <= j < |row| ==> !FoldEq(row[j].header, col)
    decreases |row| - k
  {
    if k == |row| then None
    else if FoldEq(row[k].header, col) then Some(k)
    else FoldedFrom(row, col, k + 1)
  }

  /** The cell one candidate header finds: an exact match first, then the
   *  first header equal to it ignoring case. Nothing is found exactly when
   *  no header equals it ignoring case. */
  function Hit(row: Row, col: string): (r: Option<Cell>)
    ensures r.None? <==> forall j :: 0 <= j < |row| ==> !FoldEq(row[j].header, col)
  {
    match ExactFrom(row, col, 0)
    case Some(i) => Some(row[i].cell)
    case None =>
      match FoldedFrom(row, col, 0)
      case Some(i) => Some(row[i].cell)
      case None => None
  }

  /** A header that matches exactly wins over every header that matches
   *  only ignoring case, even one further left. */
  lemma {:induction false} ExactBeatsFolded(row: Row, col: string, i: nat)
    requires i < |row| && row[i].header == col
    requires forall j :: 0 <= j < i ==> row[j].header != col
    ensures Hit(row, col) == Some(row[i].cell)
  {
    var e := ExactFrom(row, col, 0);
    assert e.Some?;
    assert e.value == i;
  }

  /** find_column_value from candidate k on: the first candidate that hits
   *  decides, and None means no candidate matches any header. */
  function FindFrom(row: Row, cols: seq<string>, k: nat): (r: Option<Cell>)
    requires k <= |cols|
    ensures r.None? <==> forall j :: k <= j < |cols| ==> Hit(row, cols[j]).None?
    decreases |cols| - k
  {
    if k == |cols| then None
    else
      match Hit(row, cols[k])
      case Some(c) => Some(c)
      case None => FindFrom(row, cols, k + 1)
  }

  /** find_column_value: the value of the first candidate column that hits. */
  function FindColumnValue(row: Row, cols: seq<string>): (r: Option<Cell>)
    ensures r.None? <==> forall j :: 0 <= j < |cols| ==> Hit(row, cols[j]).None?
  {
    FindFrom(row, cols, 0)
  }

  /** The first candidate with a hit decides: its hit is the result,
   *  whatever later candidates would find. */
  lemma {:induction false} FirstCandidateWins(row: Row, cols: seq<string>, j: nat)
    requires j < |cols| && Hit(row, cols[j]).Some?
    requires forall j' :: 0 <= j' < j ==> Hit(row, cols[j']).None?
    ensures FindColumnValue(row, cols) == Hit(row, cols[j])
  {
    FindFromReaches(row, cols, 0, j);
  }

  lemma {:induction false} FindFromReaches(row: Row, cols: seq<string>, k: nat, j: nat)
    requires k <= j < |cols| && Hit(row, cols[j]).Some?
    requires forall j' :: k <= j' < j ==> Hit(row, cols[j']).None?
    ensures FindFrom(row, cols, k) == Hit(row, cols[j])
    decreases j - k
  {
    var h := Hit(row, cols[k]);
    if k < j {
      assert h.None?;
      FindFromReaches(row, cols, k + 1, j);
      assert FindFrom(row, cols, k) == FindFrom(row, cols, k + 1);
    } else {
      assert FindFrom(row, cols, k) == h;
    }
  }

  /** The raw cell for a field, if any of its candidate headers is present. */
  function RawValue(row: Row, f: Field): Option<Cell>
  {
    FindColumnValue(row, Candidates(f))
  }

  // ---------------------------------------------------------------------
  // Cleaning

  /** A cleaned value. */
  datatype Value = VText(s: string) | VDec(d: Dec) | VInt(i: int) | VDate(day: int) | VBool(b: bool)

  /** What clean_value gives: a value or None, or the OverflowError that
   *  int(float("inf")) raises and clean_value does not catch. */
  datatype Cleaned = Clean(value: Option<Value>) | Overflow

  /** The kind of value each field holds once cleaned. */
  predicate ValueFits(f: Field, v: Value)
  {
    match f
    case CostPrice | SellingPrice | Price => v.VDec?
    case Quantity | MinStockLevel => v.VInt?
    case ExpiryDate => v.VDate?
    case HalalCertified => v.VBool?
    case _ => v.VText?
  }

  predicate IsPriceChar(c: char)
  {
    IsDigit(c) || c == '.' || c == ','
  }

  /** re.sub(r'[^\d.,]', '', s): keeps digits, points and commas. */
  function PriceChars(s: string): (r: string)
    ensures |r| <= |s|
    ensures forall i :: 0 <= i < |r| ==> IsPriceChar(r[i])
  {
    if |s| == 0 then ""
    else (if IsPriceChar(s[0]) then [s[0]] else []) + PriceChars(s[1..])
  }

  /** Index of the first occurrence of `c` in `t`. */
  function IndexOf(t: string, c: char, k: nat): (r: Option<nat>)
    requires k <= |t|
    ensures r.Some? ==> k <= r.value < |t| && t[r.value] == c
    ensures r.Some? ==> forall j :: k <= j < r.value ==> t[j] != c
    ensures r.None? ==> forall j :: k <= j < |t| ==> t[j] != c
    decreases |t| - k
  {
    if k == |t| then None
    else if t[k] == c then Some(k)
    else IndexOf(t, c, k + 1)
  }

  /** Decimal(t) for unsigned text without exponent: digits, at most one
   *  point, and at least one digit. Anything else is refused. */
  function DecimalText(t: string): (r: Option<Dec>)
    ensures r.Some? ==> r.value.m >= 0
  {
    match IndexOf(t, '.', 0)
    case None =>
      if |t| > 0 && AllDigits(t) then Some(Dec(DigitsValue(t), 0)) else None
    case Some(k) =>
      var ip := t[..k];
      var fp := t[k + 1..];
      if AllDigits(ip) && AllDigits(fp) && |ip| + |fp| > 0 then
        assert AllDigits(ip + fp);
        Some(Dec(DigitsValue(ip + fp), |fp|))
      else None
  }

  /** The price of a cell: currency signs, spaces and minus signs are
   *  dropped from text before Decimal() reads it. */
  function PriceOf(c: Cell): Option<Value>
  {
    match c
    case Text(s) =>
      var cleaned := PriceChars(s);
      if cleaned == "" then None
      else (match DecimalText(cleaned)
            case Some(d) => Some(VDec(d))
            case None => None)
    case Int(i) => Some(VDec(Dec(i, 0)))
    case Real(m, e, _) => Some(VDec(Dec(m, e)))
    case _ => None
  }

  /** Floor division of a natural number brackets it between two
   *  consecutive multiples of the divisor. */
  lemma {:induction false} DivBrackets(a: nat, b: nat)
    requires b > 0
    ensures 0 <= (a / b) * b <= a < (a / b + 1) * b
  {
    var q := a / b;
    assert a == q * b + a % b;
    assert (q + 1) * b == q * b + b;
  }

  /** a / b rounded toward zero, as int() of a float does. */
  function TruncDiv(a: int, b: nat): (r: int)
    requires b > 0
    ensures a >= 0 ==> 0 <= r * b <= a < (r + 1) * b
    ensures a < 0 ==> (r - 1) * b < a <= r * b <= 0
  {
    if a >= 0 then
      DivBrackets(a, b);
      a / b
    else
      var q := (-a) / b;
      DivBrackets(-a, b);
      assert (-q) * b == -(q * b) && (-q - 1) * b == -((q + 1) * b);
      -q
  }

  /** An exponent: an optional sign and at least one digit. */
  function ExponentText(t: string): Option<int>
  {
    if |t| > 0 && (t[0] == '+' || t[0] == '-') then
      (if |t| > 1 && AllDigits(t[1..]) then
         var v: int := DigitsValue(t[1..]);
         Some(if t[0] == '-' then -v else v)
       else None)
    else if |t| > 0 && AllDigits(t) then Some(DigitsValue(t))
    else None
  }

  /** Where the exponent marker of a float literal sits, if it has one. */
  function ExponentAt(body: string): (r: Option<nat>)
    ensures r.Some? ==> r.value < |body|
  {
    match IndexOf(body, 'e', 0)
    case Some(k) => Some(k)
    case None => IndexOf(body, 'E', 0)
  }

  /** m × 10^(x - e) truncated to an integer, for a non-negative m. */
  function Scaled(d: Dec, x: int): nat
    requires d.m >= 0
  {
    var m: nat := d.m;
    if x >= d.e then m * Pow10(x - d.e) else m / Pow10(d.e - x)
  }

  /** The magnitude of an unsigned finite float literal, truncated to an
   *  integer; None when float() refuses it. */
  function FloatMagnitude(body: string): Option<nat>
  {
    match ExponentAt(body)
    case None =>
      var d := DecimalText(body);
      if d.Some? then Some(Scaled(d.value, 0)) else None
    case Some(k) =>
      var d := DecimalText(body[..k]);
      var x := ExponentText(body[k + 1..]);
      if d.Some? && x.Some? then Some(Scaled(d.value, x.value)) else None
  }

  predicate IsInfinityWord(body: string)
  {
    Lower(body) == "inf" || Lower(body) == "infinity"
  }

  /** int(float(s)) for text: float() trims whitespace and takes a sign,
   *  "inf" and "infinity" give an infinity that int() cannot convert, and
   *  "nan" gives a value int() refuses. */
  function TruncatedText(s: string): Cleaned
  {
    var t := Strip(s);
    var signed := |t| > 0 && (t[0] == '-' || t[0] == '+');
    var body := if signed then t[1..] else t;
    if IsInfinityWord(body) then Overflow
    else
      var n := FloatMagnitude(body);
      if n.None? then Clean(None)
      else
        var v: int := n.value;
        Clean(Some(VInt(if signed && t[0] == '-' then -v else v)))
  }

  /** int(float(value)) for a cell; a timestamp makes float() fail. */
  function Truncated(c: Cell): Cleaned
  {
    match c
    case Int(i) => Clean(Some(VInt(i)))
    case Real(m, e, _) => Clean(Some(VInt(TruncDiv(m, Pow10(e)))))
    case Flag(b) => Clean(Some(VInt(if b then 1 else 0)))
    case Text(s) => TruncatedText(s)
    case _ => Clean(None)
  }

  const HalalWords: seq<string> := ["true", "yes", "1", "halal", "certified"]

  /** clean_value. A failed conversion gives None; only an infinite
   *  quantity escapes as an error. Date text goes to pandas' date parser,
   *  which is the parameter `parseDate`. */
  function CleanValue(f: Field, c: Cell, parseDate: Cell -> Option<int>): (r: Cleaned)
    ensures c.Missing? || c == Text("") ==> r == Clean(None)
    ensures r.Overflow? ==> f == Quantity || f == MinStockLevel
    ensures r.Clean? && r.value.Some? ==> ValueFits(f, r.value.value)
    ensures f == HalalCertified && !c.Missing? && c != Text("") ==> r.Clean? && r.value.Some?
    ensures f.Name? && !c.Missing? && c != Text("") ==> r == Clean(Some(VText(TextOf(c))))
  {
    if c.Missing? || c == Text("") then Clean(None)
    else
      match f
      case CostPrice | SellingPrice | Price => Clean(PriceOf(c))
      case Quantity | MinStockLevel => Truncated(c)
      case ExpiryDate => DateOf(c, parseDate)
      case HalalCertified => Clean(Some(VBool(HalalOf(c))))
      case _ => Clean(Some(VText(TextOf(c))))
  }

  /** pd.to_datetime(value).date(), or the date a cell already holds. */
  function DateOf(c: Cell, parseDate: Cell -> Option<int>): (r: Cleaned)
    ensures r.Clean? && (r.value.Some? ==> r.value.value.VDate?)
  {
    if c.Day? then Clean(Some(VDate(c.d)))
    else (match parseDate(c)
          case Some(d) => Clean(Some(VDate(d)))
          case None => Clean(None))
  }

  /** A flag cell as it is, any other cell true iff its lower-cased text
   *  is one of the halal words. */
  function HalalOf(c: Cell): bool
  {
    if c.Flag? then c.b else Lower(Str(c)) in HalalWords
  }

  /** str(value).strip() */
  function TextOf(c: Cell): string
  {
    Strip(Str(c))
  }

  /** Digits alone read as that whole number, both by Decimal() and by float(). */
  lemma {:induction false} DigitsRead(s: string)
    requires |s| > 0 && AllDigits(s)
    ensures DecimalText(s) == Some(Dec(DigitsValue(s), 0))
    ensures FloatMagnitude(s) == Some(DigitsValue(s))
    ensures !IsInfinityWord(s)
  {
    assert IndexOf(s, '.', 0).None?;
    assert ExponentAt(s).None?;
    assert IsDigit(Lower(s)[0]);
  }

  /** re.sub keeps all of a digit string and drops a leading non-price character. */
  lemma {:induction false} DigitsKept(c: char, s: string)
    requires AllDigits(s) && !IsPriceChar(c)
    ensures PriceChars([c] + s) == s
  {
    assert ([c] + s)[1..] == s;
    DigitsKeptAll(s);
  }

  lemma {:induction false} DigitsKeptAll(s: string)
    requires AllDigits(s)
    ensures PriceChars(s) == s
  {
    if |s| > 0 {
      DigitsKeptAll(s[1..]);
      assert [s[0]] + s[1..] == s;
    }
  }

  /** A price column cleans through PriceOf. */
  lemma {:induction false} CleanPrice(f: Field, c: Cell, parseDate: Cell -> Option<int>)
    requires f == CostPrice || f == SellingPrice || f == Price
    requires !c.Missing? && c != Text("")
    ensures CleanValue(f, c, parseDate) == Clean(PriceOf(c))
  {
  }

  /** One character that is no price character followed by digits is
   *  priced at the digits' value. */
  lemma {:induction false} PrefixedDigitsPriceOf(c: char, s: string)
    requires |s| > 0 && AllDigits(s) && !IsPriceChar(c)
    ensures PriceOf(Text([c] + s)) == Some(VDec(Dec(DigitsValue(s), 0)))
  {
    DigitsKept(c, s);
    DigitsRead(s);
  }

  /** A price column holding one character that is no price character
   *  followed by digits cleans to the digits' value. */
  lemma {:induction false} PrefixedDigitsPrice(f: Field, c: char, s: string, parseDate: Cell -> Option<int>)
    requires f == CostPrice || f == SellingPrice || f == Price
    requires |s| > 0 && AllDigits(s) && !IsPriceChar(c)
    ensures CleanValue(f, Text([c] + s), parseDate) == Clean(Some(VDec(Dec(DigitsValue(s), 0))))
  {
    assert |[c] + s| > 0;
    CleanPrice(f, Text([c] + s), parseDate);
    PrefixedDigitsPriceOf(c, s);
  }

  /** A price typed as digits behind a currency sign cleans to its value. */
  lemma {:induction false} CurrencyPrice(n: nat, parseDate: Cell -> Option<int>)
    ensures CleanValue(Price, Text("$" + NatToString(n)), parseDate) == Clean(Some(VDec(Dec(n, 0))))
  {
    var s := NatToString(n);
    assert "$" + s == ['$'] + s;
    PrefixedDigitsPrice(Price, '$', s, parseDate);
    NatToStringRoundTrip(n);
  }

  /** The text path drops a minus sign, so "-5" cleans to the price 5. */
  lemma {:induction false} MinusSignDropped(n: nat, parseDate: Cell -> Option<int>)
    ensures CleanValue(CostPrice, Text("-" + NatToString(n)), parseDate) == Clean(Some(VDec(Dec(n, 0))))
  {
    var s := NatToString(n);
    assert "-" + s == ['-'] + s;
    PrefixedDigitsPrice(CostPrice, '-', s, parseDate);
    NatToStringRoundTrip(n);
  }

  /** A thousands separator makes Decimal() fail, so "1,000" is no price. */
  lemma {:induction false} ThousandsSeparatorRefused(parseDate: Cell -> Option<int>)
    ensures CleanValue(SellingPrice, Text("1,000"), parseDate) == Clean(None)
  {
    assert PriceOf(Text("1,000")) == None by {
      DigitsKeptAll("1");
      assert PriceChars("1,000") == "1,000";
      assert IndexOf("1,000", '.', 0).None?;
      assert !IsDigit("1,000"[1]);
    }
    CleanPrice(SellingPrice, Text("1,000"), parseDate);
  }

  /** Text whose trimmed form is a digit string truncates to that number. */
  lemma {:induction false} TruncatedDigits(s: string)
    requires |Strip(s)| > 0 && AllDigits(Strip(s))
    ensures TruncatedText(s) == Clean(Some(VInt(DigitsValue(Strip(s)))))
  {
    DigitsRead(Strip(s));
  }

  /** A whole-number quantity, with blanks around it, cleans to that number. */
  lemma {:induction false} QuantityText(n: nat, parseDate: Cell -> Option<int>)
    ensures CleanValue(Quantity, Text(" " + NatToString(n) + " "), parseDate) == Clean(Some(VInt(n)))
  {
    var padded := " " + NatToString(n) + " ";
    PaddedDigitsText(n);
    CleanQuantityText(padded, parseDate);
  }

  /** A minus sign in a quantity is kept: "-" and digits clean to minus
   *  the digits' value. */
  lemma {:induction false} NegativeQuantityText(s: string, parseDate: Cell -> Option<int>)
    requires |s| > 0 && AllDigits(s)
    ensures CleanValue(Quantity, Text("-" + s), parseDate) == Clean(Some(VInt(-(DigitsValue(s) as int))))
  {
    NegativeDigits(s);
    CleanQuantityText("-" + s, parseDate);
  }

  lemma {:induction false} PaddedDigitsText(n: nat)
    ensures TruncatedText(" " + NatToString(n) + " ") == Clean(Some(VInt(n)))
  {
    var s := NatToString(n);
    StripPadded(s, " ", " ");
    StripTrimmed(s);
    TruncatedDigits(" " + s + " ");
    NatToStringRoundTrip(n);
  }

  /** A minus sign before the digits negates the number. */
  lemma {:induction false} NegativeDigits(s: string)
    requires |s| > 0 && AllDigits(s)
    ensures TruncatedText("-" + s) == Clean(Some(VInt(-(DigitsValue(s) as int))))
  {
    var t := "-" + s;
    assert Strip(t) == t by {
      assert t[0] == '-' && t[|t| - 1] == s[|s| - 1];
      StripTrimmed(t);
    }
    assert t[1..] == s;
    DigitsRead(s);
  }

  /** Quantity text goes straight to int(float(...)). */
  lemma {:induction false} CleanQuantityText(s: string, parseDate: Cell -> Option<int>)
    requires s != ""
    ensures CleanValue(Quantity, Text(s), parseDate) == TruncatedText(s)
  {
    assert Text(s) != Text("") && !Text(s).Missing?;
    assert Truncated(Text(s)) == TruncatedText(s);
  }

  /** An infinity in a quantity column, "inf" or "infinity" in any case
   *  and with any sign, is the one error clean_value lets through. */
  lemma {:induction false} InfiniteQuantity(s: string, parseDate: Cell -> Option<int>)
    requires var t := Strip(s);
      IsInfinityWord(if |t| > 0 && (t[0] == '-' || t[0] == '+') then t[1..] else t)
    ensures CleanValue(Quantity, Text(s), parseDate) == Overflow
  {
    assert |Strip(s)| > 0;
    StripSlice(s);
    assert TruncatedText(s) == Overflow;
    CleanQuantityText(s, parseDate);
  }

  /** A float quantity is truncated toward zero, not rounded. */
  lemma {:induction false} FloatQuantityTruncates(parseDate: Cell -> Option<int>)
    ensures CleanValue(Quantity, Real(19, 1, "1.9"), parseDate) == Clean(Some(VInt(1)))
    ensures CleanValue(Quantity, Real(-19, 1, "-1.9"), parseDate) == Clean(Some(VInt(-1)))
  {
  }

  // ---------------------------------------------------------------------
  // Extraction

  type ProductData = map<Field, Option<Value>>

  /** Cleaning this field's cell raises. */
  predicate Overflows(row: Row, f: Field, parseDate: Cell -> Option<int>)
  {
    RawValue(row, f).Some? && CleanValue(f, RawValue(row, f).value, parseDate).Overflow?
  }

  /** Looking a field up raises when its column is present and cleaning
   *  that column's cell raises. */
  predicate Raises(lookup: Field -> Option<Cell>, clean: (Field, Cell) -> Cleaned, f: Field)
  {
    lookup(f).Some? && clean(f, lookup(f).value).Overflow?
  }

  /** The loop of extract_product_data over some fields of the table, given
   *  the column lookup and the cleaner: every field whose column is present
   *  gets its cleaned value (None included); None once cleaning raised. */
  function Gather(lookup: Field -> Option<Cell>, clean: (Field, Cell) -> Cleaned, fields: seq<Field>): Option<ProductData>
  {
    if |fields| == 0 then Some(map[])
    else
      match Gather(lookup, clean, fields[..|fields| - 1])
      case None => None
      case Some(m) =>
        var f := fields[|fields| - 1];
        match lookup(f)
        case None => Some(m)
        case Some(c) =>
          match clean(f, c)
          case Overflow => None
          case Clean(v) => Some(m[f := v])
  }

  /** The gathering fails exactly when some listed field raises. */
  lemma {:induction false} GatherNone(lookup: Field -> Option<Cell>, clean: (Field, Cell) -> Cleaned, fields: seq<Field>)
    ensures Gather(lookup, clean, fields).None? <==>
      exists k :: 0 <= k < |fields| && Raises(lookup, clean, fields[k])
  {
    if |fields| > 0 {
      var init := fields[..|fields| - 1];
      var f := fields[|fields| - 1];
      GatherNone(lookup, clean, init);
      if Gather(lookup, clean, init).None? {
        var k :| 0 <= k < |init| && Raises(lookup, clean, init[k]);
        assert fields[k] == init[k];
      } else if !Raises(lookup, clean, f) {
        forall k | 0 <= k < |fields|
          ensures !Raises(lookup, clean, fields[k])
        {
          if k < |init| {
            assert fields[k] == init[k];
          }
        }
      }
    }
  }

  /** Once a prefix of the fields raises, so does the whole list. */
  lemma {:induction false} GatherNoneExtends(lookup: Field -> Option<Cell>, clean: (Field, Cell) -> Cleaned, fields: seq<Field>, n: nat)
    requires n <= |fields| && Gather(lookup, clean, fields[..n]).None?
    ensures Gather(lookup, clean, fields).None?
  {
    GatherNone(lookup, clean, fields[..n]);
    GatherNone(lookup, clean, fields);
    var k :| 0 <= k < n && Raises(lookup, clean, fields[..n][k]);
    assert fields[k] == fields[..n][k];
  }

  /** When the gathering succeeds, its keys are the listed fields whose
   *  column is present, each holding that column's cleaned value. */
  lemma {:induction false} GatherKeys(lookup: Field -> Option<Cell>, clean: (Field, Cell) -> Cleaned, fields: seq<Field>, f: Field)
    requires Gather(lookup, clean, fields).Some?
    ensures var m := Gather(lookup, clean, fields).value;
      (f in m <==> f in fields && lookup(f).Some?)
      && (f in m ==> clean(f, lookup(f).value) == Clean(m[f]))
  {
    if |fields| > 0 {
      var init := fields[..|fields| - 1];
      GatherKeys(lookup, clean, init, f);
      assert fields == init + [fields[|fields| - 1]];
    }
  }

  /** The column lookup of a row. */
  function Lookup(row: Row): Field -> Option<Cell>
  {
    f => RawValue(row, f)
  }

  /** clean_value with a given date parser. */
  function Cleaner(parseDate: Cell -> Option<int>): (Field, Cell) -> Cleaned
  {
    (f, c) => CleanValue(f, c, parseDate)
  }

  /** extract_product_data: the loop over the whole field table. */
  function ProductDataOf(row: Row, parseDate: Cell -> Option<int>): Option<ProductData>
  {
    Gather(Lookup(row), Cleaner(parseDate), Fields)
  }

  /** The product data is missing exactly when the quantity or the minimum
   *  stock level cell cannot be truncated to an integer. */
  lemma {:induction false} ProductDataNone(row: Row, parseDate: Cell -> Option<int>)
    ensures ProductDataOf(row, parseDate).None? <==>
      Overflows(row, Quantity, parseDate) || Overflows(row, MinStockLevel, parseDate)
  {
    GatherNone(Lookup(row), Cleaner(parseDate), Fields);
    if ProductDataOf(row, parseDate).None? {
      var k :| 0 <= k < |Fields| && Raises(Lookup(row), Cleaner(parseDate), Fields[k]);
      RaisesIffOverflows(row, parseDate, Fields[k]);
    } else {
      FieldListed(Quantity);
      FieldListed(MinStockLevel);
      RaisesIffOverflows(row, parseDate, Quantity);
      RaisesIffOverflows(row, parseDate, MinStockLevel);
    }
  }

  lemma {:induction false} RaisesIffOverflows(row: Row, parseDate: Cell -> Option<int>, f: Field)
    ensures Raises(Lookup(row), Cleaner(parseDate), f) <==> Overflows(row, f, parseDate)
    ensures Overflows(row, f, parseDate) ==> f == Quantity || f == MinStockLevel
  {
  }

  /** The product data holds exactly the fields whose column is present,
   *  each with its column's cleaned value. */
  lemma {:induction false} ProductDataEntries(row: Row, parseDate: Cell -> Option<int>, f: Field)
    requires ProductDataOf(row, parseDate).Some?
    ensures var m := ProductDataOf(row, parseDate).value;
      (f in m <==> RawValue(row, f).Some?)
      && (f in m ==> CleanValue(f, RawValue(row, f).value, parseDate) == Clean(m[f]))
  {
    GatherKeys(Lookup(row), Cleaner(parseDate), Fields, f);
    FieldListed(f);
  }

  /** A field is a key of the product data exactly when one of its
   *  candidate headers is present, whatever the cell holds. */
  lemma {:induction false} ProductDataKeys(row: Row, parseDate: Cell -> Option<int>, f: Field)
    requires ProductDataOf(row, parseDate).Some?
    ensures f in ProductDataOf(row, parseDate).value <==>
      exists j, i :: 0 <= j < |Candidates(f)| && 0 <= i < |row| && FoldEq(row[i].header, Candidates(f)[j])
  {
    ProductDataEntries(row, parseDate, f);
    FoundIffHeaderMatches(row, Candidates(f));
  }

  /** Every value in the product data is its column's cleaned value, and so
   *  of its field's kind. */
  lemma {:induction false} ProductDataFits(row: Row, parseDate: Cell -> Option<int>, f: Field)
    requires ProductDataOf(row, parseDate).Some?
    requires f in ProductDataOf(row, parseDate).value && ProductDataOf(row, parseDate).value[f].Some?
    ensures ValueFits(f, ProductDataOf(row, parseDate).value[f].value)
  {
    ProductDataEntries(row, parseDate, f);
  }

  /** find_column_value finds nothing exactly when no candidate equals any
   *  header ignoring case. */
  lemma {:induction false} FoundIffHeaderMatches(row: Row, cols: seq<string>)
    ensures FindColumnValue(row, cols).None? <==>
      forall j, i :: 0 <= j < |cols| && 0 <= i < |row| ==> !FoldEq(row[i].header, cols[j])
  {
    if FindColumnValue(row, cols).None? {
      forall j, i | 0 <= j < |cols| && 0 <= i < |row|
        ensures !FoldEq(row[i].header, cols[j])
      {
        assert Hit(row, cols[j]).None?;
      }
    } else {
      var j :| 0 <= j < |cols| && Hit(row, cols[j]).Some?;
      var i :| 0 <= i < |row| && FoldEq(row[i].header, cols[j]);
    }
  }

  /** The field table lists every field. */
  lemma {:induction false} FieldListed(f: Field)
    ensures f in Fields
  {
    match f
    case Name => assert Fields[0] == f;
    case Barcode => assert Fields[1] == f;
    case Category => assert Fields[2] == f;
    case Supplier => assert Fields[3] == f;
    case Brand => assert Fields[4] == f;
    case Description => assert Fields[5] == f;
    case CostPrice => assert Fields[6] == f;
    case SellingPrice => assert Fields[7] == f;
    case Price => assert Fields[8] == f;
    case Quantity => assert Fields[9] == f;
    case MinStockLevel => assert Fields[10] == f;
    case Weight => assert Fields[11] == f;
    case Origin => assert Fields[12] == f;
    case ExpiryDate => assert Fields[13] == f;
    case Location => assert Fields[14] == f;
    case HalalCertified => assert Fields[15] == f;
  }

  // ---------------------------------------------------------------------
  // Validation

  function Get(data: ProductData, f: Field): Option<Value>
  {
    if f in data then data[f] else None
  }

  /** Python truthiness of an optional cleaned value. */
  predicate Truthy(v: Option<Value>)
  {
    match v
    case None => false
    case Some(VText(s)) => s != ""
    case Some(VDec(d)) => d.m != 0
    case Some(VInt(i)) => i != 0
    case Some(VDate(_)) => true
    case Some(VBool(b)) => b
  }

  /** a < b between two values of the same kind. */
  predicate ValueLess(a: Value, b: Value)
  {
    match (a, b)
    case (VDec(x), VDec(y)) => DecLess(x, y)
    case (VInt(x), VInt(y)) => x < y
    case (VDate(x), VDate(y)) => x < y
    case _ => false
  }

  const NameRequired := "Product name is required"
  const BarcodeRequired := "Barcode is required"
  const SellingBelowCost := "Selling price cannot be less than cost price"
  const NegativeQuantity := "Quantity cannot be negative"
  const ExpiryInPast := "Expiry date cannot be in the past"

  predicate MissingName(data: ProductData) { !Truthy(Get(data, Name)) }
  predicate MissingBarcode(data: ProductData) { !Truthy(Get(data, Barcode)) }

  /** The price rule applies only when both prices are non-zero. */
  predicate PricesInverted(data: ProductData)
  {
    Truthy(Get(data, SellingPrice)) && Truthy(Get(data, CostPrice))
    && ValueLess(Get(data, SellingPrice).value, Get(data, CostPrice).value)
  }

  predicate QuantityNegative(data: ProductData)
  {
    Get(data, Quantity).Some? && ValueLess(Get(data, Quantity).value, VInt(0))
  }

  predicate ExpiredAlready(data: ProductData, today: int)
  {
    Truthy(Get(data, ExpiryDate)) && ValueLess(Get(data, ExpiryDate).value, VDate(today))
  }

  /** validate_product_data: one message per failed rule, in rule order. */
  function ValidateProductData(data: ProductData, today: int): (errors: seq<string>)
    ensures |errors| <= 5
    ensures NameRequired in errors <==> MissingName(data)
    ensures BarcodeRequired in errors <==> MissingBarcode(data)
    ensures SellingBelowCost in errors <==> PricesInverted(data)
    ensures NegativeQuantity in errors <==> QuantityNegative(data)
    ensures ExpiryInPast in errors <==> ExpiredAlready(data, today)
  {
    (if MissingName(data) then [NameRequired] else [])
    + (if MissingBarcode(data) then [BarcodeRequired] else [])
    + (if PricesInverted(data) then [SellingBelowCost] else [])
    + (if QuantityNegative(data) then [NegativeQuantity] else [])
    + (if ExpiredAlready(data, today) then [ExpiryInPast] else [])
  }

  /** A row is valid exactly when it has a non-blank name and barcode, a
   *  selling price not below a non-zero cost price, no negative quantity
   *  and no expiry date before today. */
  lemma {:induction false} ValidIffNoErrors(data: ProductData, today: int)
    ensures ValidateProductData(data, today) == [] <==>
      Truthy(Get(data, Name)) && Truthy(Get(data, Barcode))
      && !PricesInverted(data) && !QuantityNegative(data) && !ExpiredAlready(data, today)
  {
    var errs := ValidateProductData(data, today);
    if errs != [] {
      assert errs[0] in errs;
    }
  }

  /** Decimal zero is false, so a zero selling price is never compared
   *  with the cost price. */
  lemma {:induction false} ZeroSellingPriceNotCompared(data: ProductData, today: int)
    requires Get(data, SellingPrice) == Some(VDec(Dec(0, 2)))
    requires Get(data, CostPrice) == Some(VDec(Dec(500, 2)))
    ensures SellingBelowCost !in ValidateProductData(data, today)
  {
  }

  /** A row without any name column is never valid, whatever else it holds. */
  lemma {:induction false} NoNameColumnInvalid(row: Row, parseDate: Cell -> Option<int>, today: int)
    requires forall i :: 0 <= i < |row| ==> Lower(row[i].header) !in LowerAll(Candidates(Name))
    requires ProductDataOf(row, parseDate).Some?
    ensures NameRequired in ValidateProductData(ProductDataOf(row, parseDate).value, today)
  {
    ProductDataKeys(row, parseDate, Name);
    forall j, i | 0 <= j < |Candidates(Name)| && 0 <= i < |row|
      ensures !FoldEq(row[i].header, Candidates(Name)[j])
    {
      assert LowerAll(Candidates(Name))[j] == Lower(Candidates(Name)[j]);
    }
  }

  /** The lower-cased forms of a list of headers. */
  function LowerAll(cols: seq<string>): (r: seq<string>)
    ensures |r| == |cols|
    ensures forall j :: 0 <= j < |cols| ==> r[j] == Lower(cols[j])
  {
    seq(|cols|, j requires 0 <= j < |cols| => Lower(cols[j]))
  }
}
