/** The text rules of ImageProcessor (file_processing/services.py) applied
 *  to OCR results: is_product_name, detect_products and detect_barcodes.
 *  OCR itself is not modelled; its results are the input. */
module ImageText {
  import opened Seqs
  import opened Texts

  /** One OCR result: the box, the text read and the reader's confidence. */
  datatype OcrResult = OcrResult(bbox: seq<(real, real)>, text: string, confidence: real)

  // ---------------------------------------------------------------------
  // Product names

  /** The confidence below which a result is not read as a product name. */
  const ProductThreshold: real := 0.5

  /** The confidence below which a result is not searched for barcodes. */
  const BarcodeThreshold: real := 0.7

  const SkipWords: seq<string> := ["price", "total", "qty", "quantity", "barcode", "sku"]

  /** re.search(r'[a-zA-Z]', text) finds something. */
  predicate HasAsciiLetter(s: string)
  {
    exists i :: 0 <= i < |s| && IsAsciiLetter(s[i])
  }

  /** is_product_name: the four early returns in the source's order. */
  predicate IsProductName(text: string)
  {
    if |Strip(text)| < 3 then false
    else if AllDigits(Strip(text)) then false
    else if Strip(Lower(text)) in SkipWords then false
    else HasAsciiLetter(text)
  }

  /** The pure-number check never decides anything: text with an ASCII
   *  letter is never all digits once stripped, and text without one is
   *  refused by the last check anyway. */
  lemma {:induction false} ProductNameWithoutDigitCheck(text: string)
    ensures IsProductName(text) <==>
      |Strip(text)| >= 3 && Strip(Lower(text)) !in SkipWords && HasAsciiLetter(text)
  {
    if HasAsciiLetter(text) {
      LetterSurvivesStrip(text);
    }
  }

  /** A letter of the text is not whitespace, so strip() keeps it. */
  lemma {:induction false} LetterSurvivesStrip(text: string)
    requires HasAsciiLetter(text)
    ensures !AllDigits(Strip(text))
  {
    var i :| 0 <= i < |text| && IsAsciiLetter(text[i]);
    var t := StripStart(text);
    var lo := |text| - |t|;
    assert !IsSpace(text[i]);
    assert lo <= i;
    assert t[i - lo] == text[i];
    var u := StripEnd(t);
    assert i - lo < |u|;
    assert u[i - lo] == text[i];
  }

  /** A product name has at least three characters left after stripping. */
  lemma {:induction false} ProductNameLongEnough(text: string)
    requires IsProductName(text)
    ensures |Strip(text)| >= 3 && HasAsciiLetter(text)
  {
  }

  // ---------------------------------------------------------------------
  // Detected products

  /** One detected product: the stripped text, its confidence and box. */
  datatype DetectedProduct = DetectedProduct(name: string, confidence: real, bbox: seq<(real, real)>)

  /** The products detect_products reports from the given results, in order:
   *  confidence at least 0.5 and a product-like text. */
  function ProductsOf(results: seq<OcrResult>): seq<DetectedProduct>
  {
    if |results| == 0 then []
    else
      var init := ProductsOf(results[..|results| - 1]);
      var r := results[|results| - 1];
      if r.confidence < ProductThreshold || !IsProductName(r.text) then init
      else init + [DetectedProduct(Strip(r.text), r.confidence, r.bbox)]
  }

  /** detect_products. */
  method DetectProducts(results: seq<OcrResult>) returns (products: seq<DetectedProduct>)
    ensures products == ProductsOf(results)
  {
    products := [];
    for i := 0 to |results|
      invariant products == ProductsOf(results[..i])
    {
      assert results[..i + 1][..i] == results[..i];
      var r := results[i];
      if r.confidence < ProductThreshold {
        continue;
      }
      if IsProductName(r.text) {
        products := products + [DetectedProduct(Strip(r.text), r.confidence, r.bbox)];
      }
    }
    assert results[..|results|] == results;
  }

  /** Every detected product is confident enough, and its name is already
   *  stripped, at least three characters long and holds a letter. */
  lemma {:induction false} DetectedProductsWellFormed(results: seq<OcrResult>)
    ensures forall p :: p in ProductsOf(results) ==>
      p.confidence >= ProductThreshold && |p.name| >= 3 && Strip(p.name) == p.name
  {
    if |results| > 0 {
      DetectedProductsWellFormed(results[..|results| - 1]);
      var r := results[|results| - 1];
      StripIdempotent(r.text);
    }
  }

  // ---------------------------------------------------------------------
  // Barcodes

  /** The pattern \b\d{lo,hi}\b. */
  datatype Pattern = Pattern(lo: nat, hi: nat)

  /** EAN-13 and UPC-A, EAN-8, GTIN-14, tried in this order. */
  const BarcodePatterns: seq<Pattern> := [Pattern(12, 13), Pattern(8, 8), Pattern(14, 14)]

  /** The number of consecutive digits from position i. */
  function DigitRun(text: string, i: nat): (n: nat)
    requires i <= |text|
    ensures i + n <= |text|
    ensures forall k :: i <= k < i + n ==> IsDigit(text[k])
    ensures i + n < |text| ==> !IsDigit(text[i + n])
    decreases |text| - i
  {
    if i < |text| && IsDigit(text[i]) then 1 + DigitRun(text, i + 1) else 0
  }

  /** \b holds at i before a word character. */
  predicate WordStartsAt(text: string, i: nat)
    requires i <= |text|
  {
    i == 0 || !IsWordChar(text[i - 1])
  }

  /** \b holds at j after a word character. */
  predicate WordEndsAt(text: string, j: nat)
    requires j <= |text|
  {
    j == |text| || !IsWordChar(text[j])
  }

  /** What the regular expression means: some count n of digits within the
   *  pattern's range starts at i, with a word boundary on either side. */
  ghost predicate MatchesAt(text: string, i: nat, p: Pattern)
  {
    i <= |text| && WordStartsAt(text, i)
    && (exists n :: p.lo <= n <= p.hi && 0 < n && DigitsAt(text, i, n) && WordEndsAt(text, i + n))
  }

  /** n digits stand at position i. */
  predicate DigitsAt(text: string, i: nat, n: nat)
  {
    i + n <= |text| && forall k :: i <= k < i + n ==> IsDigit(text[k])
  }

  /** Whether the scan finds a match at i: the whole digit run from i is
   *  bounded on both sides and its length is in range. */
  predicate FoundAt(text: string, i: nat, p: Pattern)
    requires i <= |text|
  {
    var n := DigitRun(text, i);
    0 < n && p.lo <= n <= p.hi && WordStartsAt(text, i) && WordEndsAt(text, i + n)
  }

  /** The start positions re.findall reports from position i on: a match
   *  resumes the scan after its end, a miss one position further. */
  function FindStarts(text: string, i: nat, p: Pattern): (r: seq<nat>)
    requires i <= |text|
    ensures forall k :: 0 <= k < |r| ==> i <= r[k] < |text| && FoundAt(text, r[k], p)
    ensures forall k, l :: 0 <= k < l < |r| ==> r[k] < r[l]
    decreases |text| - i
  {
    if i == |text| then []
    else if FoundAt(text, i, p) then [i] + FindStarts(text, i + DigitRun(text, i), p)
    else FindStarts(text, i + 1, p)
  }

  /** The scan's test is the regular expression's meaning. */
  lemma {:induction false} FoundAtMeansMatch(text: string, i: nat, p: Pattern)
    requires i <= |text|
    ensures FoundAt(text, i, p) <==> MatchesAt(text, i, p)
  {
    if MatchesAt(text, i, p) {
      var n :| p.lo <= n <= p.hi && 0 < n && DigitsAt(text, i, n) && WordEndsAt(text, i + n);
      DigitRunExact(text, i, n);
    }
    if FoundAt(text, i, p) {
      assert DigitsAt(text, i, DigitRun(text, i));
    }
  }

  /** A run of n digits followed by a non-digit (or the end) is the whole run. */
  lemma {:induction false} DigitRunExact(text: string, i: nat, n: nat)
    requires i + n <= |text|
    requires forall k :: i <= k < i + n ==> IsDigit(text[k])
    requires i + n == |text| || !IsWordChar(text[i + n])
    ensures DigitRun(text, i) == n
    decreases n
  {
    if n > 0 {
      DigitRunExact(text, i + 1, n - 1);
    }
  }

  /** No match starts strictly inside a digit run that begins at i. */
  lemma {:induction false} NoMatchInsideRun(text: string, i: nat, j: nat, p: Pattern)
    requires i < j && i <= |text| && j < i + DigitRun(text, i)
    ensures !MatchesAt(text, j, p)
  {
    assert IsDigit(text[j - 1]);
  }

  /** The scan misses no match and reports nothing else: from any position
   *  on, it reports exactly the positions where the pattern matches. */
  lemma {:induction false} FindStartsComplete(text: string, i: nat, p: Pattern, j: nat)
    requires i <= |text|
    ensures j in FindStarts(text, i, p) <==> i <= j < |text| && MatchesAt(text, j, p)
    decreases |text| - i
  {
    if i < |text| {
      FoundAtMeansMatch(text, i, p);
      if FoundAt(text, i, p) {
        var n := DigitRun(text, i);
        var rest := FindStarts(text, i + n, p);
        FindStartsComplete(text, i + n, p, j);
        assert FindStarts(text, i, p) == [i] + rest;
        assert j in [i] + rest <==> j == i || j in rest;
        if i < j < i + n {
          NoMatchInsideRun(text, i, j, p);
        }
      } else {
        FindStartsComplete(text, i + 1, p, j);
        assert FindStarts(text, i, p) == FindStarts(text, i + 1, p);
        if j == i {
          assert !MatchesAt(text, i, p);
        }
      }
    } else if j in FindStarts(text, i, p) {
      assert false;
    }
  }

  /** re.findall(pattern, text): the matched texts in order. */
  function FindAll(text: string, p: Pattern): (r: seq<string>)
    ensures forall k :: 0 <= k < |r| ==> AllDigits(r[k]) && p.lo <= |r[k]| <= p.hi
  {
    var starts := FindStarts(text, 0, p);
    seq(|starts|, k requires 0 <= k < |starts| => text[starts[k]..starts[k] + DigitRun(text, starts[k])])
  }

  /** Any thirteen digits standing alone are reported as a barcode: no check
   *  digit is computed. */
  lemma {:induction false} AnyThirteenDigits(d: string)
    requires |d| == 13 && AllDigits(d)
    ensures FindAll(d, Pattern(12, 13)) == [d]
  {
    DigitRunExact(d, 0, 13);
    assert FindStarts(d, 0, Pattern(12, 13)) == [0] + FindStarts(d, 13, Pattern(12, 13));
    assert d[0..13] == d;
  }

  /** One detected barcode: the digits, the confidence and the box. */
  datatype DetectedBarcode = DetectedBarcode(code: string, confidence: real, bbox: seq<(real, real)>)

  function Tagged(codes: seq<string>, r: OcrResult): (b: seq<DetectedBarcode>)
    ensures |b| == |codes|
    ensures forall k :: 0 <= k < |b| ==> b[k] == DetectedBarcode(codes[k], r.confidence, r.bbox)
  {
    seq(|codes|, k requires 0 <= k < |codes| => DetectedBarcode(codes[k], r.confidence, r.bbox))
  }

  /** The barcodes of one result under the patterns, in pattern order. */
  function PatternsBarcodes(r: OcrResult, patterns: seq<Pattern>): seq<DetectedBarcode>
  {
    if |patterns| == 0 then []
    else PatternsBarcodes(r, patterns[..|patterns| - 1]) + Tagged(FindAll(r.text, patterns[|patterns| - 1]), r)
  }

  /** The barcodes detect_barcodes reports: results below 0.7 confidence
   *  are skipped; the others give every pattern's matches in turn. */
  function BarcodesOf(results: seq<OcrResult>): seq<DetectedBarcode>
  {
    if |results| == 0 then []
    else
      var r := results[|results| - 1];
      BarcodesOf(results[..|results| - 1])
      + (if r.confidence < BarcodeThreshold then [] else PatternsBarcodes(r, BarcodePatterns))
  }

  /** detect_barcodes: for each confident result, for each pattern, every
   *  match. */
  method DetectBarcodes(results: seq<OcrResult>) returns (barcodes: seq<DetectedBarcode>)
    ensures barcodes == BarcodesOf(results)
  {
    barcodes := [];
    for i := 0 to |results|
      invariant barcodes == BarcodesOf(results[..i])
    {
      assert results[..i + 1][..i] == results[..i];
      var r := results[i];
      if r.confidence < BarcodeThreshold {
        continue;
      }
      var found := ResultBarcodes(r);
      barcodes := barcodes + found;
    }
    assert results[..|results|] == results;
  }

  /** The inner loops of detect_barcodes for one confident result. */
  method ResultBarcodes(r: OcrResult) returns (found: seq<DetectedBarcode>)
    ensures found == PatternsBarcodes(r, BarcodePatterns)
  {
    found := [];
    for j := 0 to |BarcodePatterns|
      invariant found == PatternsBarcodes(r, BarcodePatterns[..j])
    {
      assert BarcodePatterns[..j + 1][..j] == BarcodePatterns[..j];
      var matches := FindAll(r.text, BarcodePatterns[j]);
      ghost var before := found;
      for k := 0 to |matches|
        invariant found == before + Tagged(matches[..k], r)
      {
        found := found + [DetectedBarcode(matches[k], r.confidence, r.bbox)];
      }
      assert matches[..|matches|] == matches;
    }
    assert BarcodePatterns[..|BarcodePatterns|] == BarcodePatterns;
  }

  /** The lengths a barcode pattern of the table accepts. */
  predicate BarcodeLength(n: nat)
  {
    n == 8 || n == 12 || n == 13 || n == 14
  }

  lemma {:induction false} PatternsBarcodesWellFormed(r: OcrResult, patterns: seq<Pattern>)
    requires forall k :: 0 <= k < |patterns| ==> patterns[k] in BarcodePatterns
    ensures forall b :: b in PatternsBarcodes(r, patterns) ==>
      AllDigits(b.code) && BarcodeLength(|b.code|) && b.confidence == r.confidence
  {
    if |patterns| > 0 {
      PatternsBarcodesWellFormed(r, patterns[..|patterns| - 1]);
    }
  }

  /** Every reported barcode comes from a result of confidence at least 0.7
   *  and is 8, 12, 13 or 14 digits long. */
  lemma {:induction false} DetectedBarcodesWellFormed(results: seq<OcrResult>)
    ensures forall b :: b in BarcodesOf(results) ==>
      b.confidence >= BarcodeThreshold && AllDigits(b.code) && BarcodeLength(|b.code|)
  {
    if |results| > 0 {
      DetectedBarcodesWellFormed(results[..|results| - 1]);
      PatternsBarcodesWellFormed(results[|results| - 1], BarcodePatterns);
    }
  }
}
