/** The findings report built from an extraction result: the confidence
    buckets and colours, how a field value is shown, the summary figures,
    and which sections the report holds. The document itself (styles, tables
    as drawn, the file format) is not modelled; a section is a list of
    blocks carrying the text and colour that would be drawn. */
module Report {
  import opened Shared
  import opened Extraction

  // ---------------------------------------------------------------------------
  // Confidence buckets
  // ---------------------------------------------------------------------------

  const Green: string := "22C55E"
  const Yellow: string := "EAB308"
  const Red: string := "EF4444"
  const Grey: string := "6B7280"

  /** The colour of a confidence: green from 0.85, yellow from 0.7, red below;
      both thresholds are inclusive. */
  function ConfidenceColor(confidence: real): (color: string)
    ensures color == Green <==> confidence >= 0.85
    ensures color == Yellow <==> 0.7 <= confidence < 0.85
    ensures color == Red <==> confidence < 0.7
  {
    if confidence >= 0.85 then Green
    else if confidence >= 0.7 then Yellow
    else Red
  }

  /** The label of a confidence, on the same thresholds. */
  function ConfidenceLabel(confidence: real): (bucket: string)
    ensures bucket == "High" <==> confidence >= 0.85
    ensures bucket == "Medium" <==> 0.7 <= confidence < 0.85
    ensures bucket == "Low" <==> confidence < 0.7
  {
    if confidence >= 0.85 then "High"
    else if confidence >= 0.7 then "Medium"
    else "Low"
  }

  /** Rank of a bucket: 0 for red/Low up to 2 for green/High. */
  function Rank(confidence: real): nat {
    if confidence >= 0.85 then 2 else if confidence >= 0.7 then 1 else 0
  }

  /** Label and colour always name the same bucket, and a higher confidence
      never falls into a lower bucket. */
  lemma LabelAgreesWithColor(confidence: real, higher: real)
    ensures ConfidenceLabel(confidence) == "High" <==> ConfidenceColor(confidence) == Green
    ensures ConfidenceLabel(confidence) == "Medium" <==> ConfidenceColor(confidence) == Yellow
    ensures ConfidenceLabel(confidence) == "Low" <==> ConfidenceColor(confidence) == Red
    ensures confidence <= higher ==> Rank(confidence) <= Rank(higher)
  {
  }

  /** The colour of the review count: yellow when anything needs review. */
  function ReviewCountColor(count: int): (color: string)
    ensures color == Yellow <==> count > 0
    ensures color == Green <==> count <= 0
  {
    if count > 0 then Yellow else Green
  }

  /** `text || 'Not detected'`. */
  function OrNotDetected(text: Option<string>): (shown: string)
    ensures shown != ""
    ensures text.Some? && text.value != "" ==> shown == text.value
    ensures text.None? || text == Some("") ==> shown == "Not detected"
  {
    if text.Some? && text.value != "" then text.value else "Not detected"
  }

  // ---------------------------------------------------------------------------
  // Field values
  // ---------------------------------------------------------------------------

  /** `items.join(separator)`. */
  function JoinWith(items: seq<string>, separator: string): string {
    if items == [] then ""
    else if |items| == 1 then items[0]
    else items[0] + separator + JoinWith(items[1..], separator)
  }

  /** How a field value is shown: circled options first (joined by ", "),
      then a set check mark (YES/NO), then the text, or "(empty)" when the
      text is missing or empty. */
  function FormatValue(fv: FieldValue): (shown: string)
    ensures fv.circledOptions.Some? && |fv.circledOptions.value| > 0 ==> shown == JoinWith(fv.circledOptions.value, ", ")
    ensures !(fv.circledOptions.Some? && |fv.circledOptions.value| > 0) && fv.isChecked.Some? ==>
      shown == (if fv.isChecked.value then "YES" else "NO")
    ensures !(fv.circledOptions.Some? && |fv.circledOptions.value| > 0) && fv.isChecked.None? ==>
      shown == OrText(fv.value, "(empty)")
  {
    if fv.circledOptions.Some? && |fv.circledOptions.value| > 0 then JoinWith(fv.circledOptions.value, ", ")
    else if fv.isChecked.Some? then (if fv.isChecked.value then "YES" else "NO")
    else OrText(fv.value, "(empty)")
  }

  function OrText(text: Option<string>, fallback: string): string {
    if text.Some? && text.value != "" then text.value else fallback
  }

  /** A single circled option is shown as itself, whatever else is set, and
      a check mark is shown only when no option is circled. */
  lemma FormatValuePriority(fv: FieldValue, option: string)
    ensures fv.circledOptions == Some([option]) ==> FormatValue(fv) == option
    ensures fv.circledOptions.None? && fv.isChecked == Some(true) ==> FormatValue(fv) == "YES"
    ensures fv.circledOptions == Some([]) && fv.isChecked == Some(false) ==> FormatValue(fv) == "NO"
    ensures fv.circledOptions.None? && fv.isChecked.None? && fv.value.None? ==> FormatValue(fv) == "(empty)"
  {
  }

  // ---------------------------------------------------------------------------
  // Sections
  // ---------------------------------------------------------------------------

  datatype Row =
    | HeaderRow
    | DataRow(fieldId: string, shown: string, confidence: real, color: string)

  datatype Block =
    | Heading1(text: string)
    | Heading2(text: string)
    | Note(text: string, color: string)
    | FieldTable(rows: seq<Row>)
    | Spacer
    | NumberedItem(text: string)
    | BulletItem(text: string)

  function PageTitle(page: PageResult): string {
    "Page " + IntToString(page.pageNumber)
  }

  /** One table row per field, in entry order. */
  function FieldRows(entries: seq<(string, FieldValue)>): (rows: seq<Row>)
    ensures |rows| == |entries|
    ensures forall i :: 0 <= i < |entries| ==>
      rows[i] == DataRow(entries[i].0, FormatValue(entries[i].1), entries[i].1.confidence, ConfidenceColor(entries[i].1.confidence))
  {
    seq(|entries|, i requires 0 <= i < |entries| =>
      DataRow(entries[i].0, FormatValue(entries[i].1), entries[i].1.confidence, ConfidenceColor(entries[i].1.confidence)))
  }

  const NoFieldsMessage: string := "No fields extracted from this page."

  /** The field section of one page: a heading and a note when the page has
      no fields, otherwise a heading, a table of a header row and one row per
      field, and a spacer. */
  function PageFields(page: PageResult): (blocks: seq<Block>)
    ensures |blocks| >= 2 && blocks[0] == Heading2(PageTitle(page))
    ensures page.fieldValues == [] ==> blocks == [Heading2(PageTitle(page)), Note(NoFieldsMessage, Grey)]
    ensures page.fieldValues != [] ==>
      && |blocks| == 3 && blocks[2] == Spacer
      && blocks[1].FieldTable? && |blocks[1].rows| >= 1 && blocks[1].rows[0] == HeaderRow
      && blocks[1].rows[1..] == FieldRows(page.fieldValues)
  {
    if page.fieldValues == [] then [Heading2(PageTitle(page)), Note(NoFieldsMessage, Grey)]
    else [Heading2(PageTitle(page)), FieldTable([HeaderRow] + FieldRows(page.fieldValues)), Spacer]
  }

  /** The field sections of all pages, page after page. */
  function AllPageFields(pages: seq<PageResult>): seq<Block> {
    if pages == [] then [] else AllPageFields(pages[..|pages| - 1]) + PageFields(pages[|pages| - 1])
  }

  /** The number of data rows in a list of blocks. */
  function DataRows(blocks: seq<Block>): nat {
    if blocks == [] then 0
    else DataRows(blocks[..|blocks| - 1]) + (if blocks[|blocks| - 1].FieldTable? then CountData(blocks[|blocks| - 1].rows) else 0)
  }

  function CountData(rows: seq<Row>): nat {
    if rows == [] then 0 else CountData(rows[..|rows| - 1]) + (if rows[|rows| - 1].DataRow? then 1 else 0)
  }

  lemma {:induction false} CountDataRows(entries: seq<(string, FieldValue)>)
    ensures CountData([HeaderRow] + FieldRows(entries)) == |entries|
    decreases |entries|
  {
    if entries != [] {
      var n := |entries| - 1;
      CountDataRows(entries[..n]);
      var rows := [HeaderRow] + FieldRows(entries);
      assert rows[..|rows| - 1] == [HeaderRow] + FieldRows(entries[..n]);
    }
  }

  lemma {:induction false} DataRowsAppend(a: seq<Block>, b: seq<Block>)
    ensures DataRows(a + b) == DataRows(a) + DataRows(b)
    decreases |b|
  {
    if b != [] {
      var n := |b| - 1;
      assert (a + b)[..|a + b| - 1] == a + b[..n];
      assert (a + b)[|a + b| - 1] == b[n];
      DataRowsAppend(a, b[..n]);
    } else {
      assert a + b == a;
    }
  }

  /** `pages.reduce((sum, p) => sum + keys(p.field_values).length, 0)`. */
  function TotalFields(pages: seq<PageResult>): nat {
    if pages == [] then 0 else TotalFields(pages[..|pages| - 1]) + |pages[|pages| - 1].fieldValues|
  }

  /** "Total Fields Extracted" is the number of field rows the report goes on
      to list. */
  lemma {:induction false} TotalFieldsAreListed(pages: seq<PageResult>)
    ensures DataRows(AllPageFields(pages)) == TotalFields(pages)
    decreases |pages|
  {
    if pages != [] {
      var n := |pages| - 1;
      TotalFieldsAreListed(pages[..n]);
      DataRowsAppend(AllPageFields(pages[..n]), PageFields(pages[n]));
      var page := pages[n];
      if page.fieldValues == [] {
        var blocks := PageFields(page);
        assert blocks[..1][..0] == [];
        assert DataRows(blocks[..1]) == 0;
        assert DataRows(blocks) == 0;
      } else {
        var blocks := PageFields(page);
        CountDataRows(page.fieldValues);
        assert blocks[..2][..1][..0] == [];
        assert DataRows(blocks[..2][..1]) == 0;
        assert blocks[..2][..1] == blocks[..1];
        assert DataRows(blocks) == |page.fieldValues|;
      }
    }
  }

  const ReviewHeading: string := "Items Requiring Review"
  const ReviewIntro: string := "The following items were flagged during extraction and may require manual verification:"

  /** The review section: present exactly when there are review reasons, with
      one numbered item per reason, in order, after a heading and a note. */
  function ReviewSection(reasons: seq<string>): (blocks: seq<Block>)
    ensures blocks == [] <==> reasons == []
    ensures reasons != [] ==>
      && |blocks| == |reasons| + 2
      && blocks[0] == Heading1(ReviewHeading) && blocks[1] == Note(ReviewIntro, Grey)
      && forall i :: 0 <= i < |reasons| ==> blocks[i + 2] == NumberedItem(reasons[i])
  {
    if reasons == [] then []
    else [Heading1(ReviewHeading), Note(ReviewIntro, Grey)] + seq(|reasons|, i requires 0 <= i < |reasons| => NumberedItem(reasons[i]))
  }

  /** The review part of a page's annotation section: present exactly when
      the page has review reasons, one bullet per reason, in order. */
  function PageReviewItems(page: PageResult): (blocks: seq<Block>)
    ensures blocks == [] <==> page.reviewReasons == []
    ensures page.reviewReasons != [] ==>
      && |blocks| == |page.reviewReasons| + 1
      && blocks[0] == Note("Review Required:", Yellow)
      && forall i :: 0 <= i < |page.reviewReasons| ==> blocks[i + 1] == BulletItem(page.reviewReasons[i])
  {
    if page.reviewReasons == [] then []
    else [Note("Review Required:", Yellow)] + seq(|page.reviewReasons|, i requires 0 <= i < |page.reviewReasons| => BulletItem(page.reviewReasons[i]))
  }

  /** The colour of a page's review-item count: yellow when positive, grey
      otherwise. */
  function PageReviewCountColor(page: PageResult): (color: string)
    ensures color == Yellow <==> page.itemsNeedingReview > 0
  {
    if page.itemsNeedingReview > 0 then Yellow else Grey
  }

  // ---------------------------------------------------------------------------
  // Summary
  // ---------------------------------------------------------------------------

  datatype SummaryRow = SummaryRow(caption: string, text: string, color: Option<string>)

  /** The patient details, each falling back to "Not detected". */
  function PatientDetails(result: ExtractionResult): (rows: seq<SummaryRow>)
    ensures |rows| == 3
    ensures forall i :: 0 <= i < 3 ==> rows[i].text != ""
  {
    [ SummaryRow("Patient Name", OrNotDetected(result.patientName), None),
      SummaryRow("Date of Birth", OrNotDetected(result.patientDob), None),
      SummaryRow("Form Date", OrNotDetected(result.formDate), None) ]
  }

  /** The extraction statistics: pages, fields and the coloured review
      count. */
  function Statistics(result: ExtractionResult): (rows: seq<SummaryRow>)
    ensures |rows| == 3
    ensures rows[0].text == NatToString(|result.pages|)
    ensures rows[1].text == NatToString(TotalFields(result.pages))
    ensures rows[2].text == IntToString(result.totalItemsNeedingReview)
    ensures rows[2].color == Some(ReviewCountColor(result.totalItemsNeedingReview))
    ensures rows[0].caption == "Total Pages Analyzed" && rows[0].color == None
    ensures rows[1].caption == "Total Fields Extracted" && rows[1].color == None
    ensures rows[2].caption == "Items Requiring Review"
  {
    [ SummaryRow("Total Pages Analyzed", NatToString(|result.pages|), None),
      SummaryRow("Total Fields Extracted", NatToString(TotalFields(result.pages)), None),
      SummaryRow("Items Requiring Review", IntToString(result.totalItemsNeedingReview),
                 Some(ReviewCountColor(result.totalItemsNeedingReview))) ]
  }
}
