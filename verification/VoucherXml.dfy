/**
 The bank-voucher documents exchanged with Tiger: the insert document built from scratch, and the
 edit of an exported document by which a line is appended to an existing voucher.
 */
module VoucherXml {
  import opened Basics
  import opened AmountText

  datatype Date = Date(year: nat, month: nat, day: nat)

  /** Text content. Markers are SHA-256 digests in the source and constructors here, so they are injective. */
  datatype Content =
    | Plain(s: string)
    | LineMarker(invoice: string)
    | GroupMarker(date: Date, account: string)
    | Reference(n: nat)

  datatype Xml = Element(name: string, attributes: map<string, string>, content: Content, kids: seq<Xml>)

  function Leaf(name: string, content: Content): Xml {
    Element(name, map[], content, [])
  }

  function Parent(name: string, kids: seq<Xml>): Xml {
    Element(name, map[], Plain(""), kids)
  }

  // ----- XElement -----

  /** The position of the first child of that name, or the number of children. */
  function Find(kids: seq<Xml>, name: string): (i: nat)
    ensures i <= |kids|
    ensures i < |kids| ==> kids[i].name == name
    ensures forall j | 0 <= j < i :: kids[j].name != name
  {
    FindFrom(kids, name, 0)
  }

  function FindFrom(kids: seq<Xml>, name: string, start: nat): (i: nat)
    requires start <= |kids|
    ensures start <= i <= |kids|
    ensures i < |kids| ==> kids[i].name == name
    ensures forall j | start <= j < i :: kids[j].name != name
    decreases |kids| - start
  {
    if start == |kids| || kids[start].name == name then start else FindFrom(kids, name, start + 1)
  }

  predicate Has(kids: seq<Xml>, name: string) {
    Find(kids, name) < |kids|
  }

  /** element.Element(name) */
  function ChildOf(kids: seq<Xml>, name: string): Option<Xml> {
    if Has(kids, name) then Some(kids[Find(kids, name)]) else None
  }

  /** element.Element(name)?.Value */
  function ValueOf(kids: seq<Xml>, name: string): Option<Content> {
    if Has(kids, name) then Some(kids[Find(kids, name)].content) else None
  }

  /** Setting Value drops whatever the element contained. */
  function SetElement(kids: seq<Xml>, name: string, value: Content): seq<Xml> {
    var i := Find(kids, name);
    if i == |kids| then kids + [Leaf(name, value)]
    else kids[i := kids[i].(content := value, kids := [])]
  }

  function RemoveElement(kids: seq<Xml>, name: string): seq<Xml> {
    var i := Find(kids, name);
    if i == |kids| then kids else kids[..i] + kids[i + 1..]
  }

  ghost predicate UniqueNames(kids: seq<Xml>) {
    forall i, j | 0 <= i < j < |kids| :: kids[i].name != kids[j].name
  }

  /** A name in a list of children, however it is looked up. */
  lemma FindIs(kids: seq<Xml>, name: string, i: nat)
    requires i <= |kids| && (i < |kids| ==> kids[i].name == name)
    requires forall j | 0 <= j < i :: kids[j].name != name
    ensures Find(kids, name) == i
  {
  }

  lemma SetElementEffect(kids: seq<Xml>, name: string, value: Content, other: string)
    ensures ValueOf(SetElement(kids, name, value), name) == Some(value)
    ensures other != name ==> ChildOf(SetElement(kids, name, value), other) == ChildOf(kids, other)
    ensures UniqueNames(kids) ==> UniqueNames(SetElement(kids, name, value))
  {
  }

  lemma RemoveElementAt(kids: seq<Xml>, name: string)
    requires Has(kids, name)
    ensures var after, i := RemoveElement(kids, name), Find(kids, name);
            && |after| == |kids| - 1
            && (forall j | 0 <= j < i :: after[j] == kids[j])
            && (forall j | i <= j < |after| :: after[j] == kids[j + 1])
  {
  }

  lemma RemoveElementEffect(kids: seq<Xml>, name: string, other: string)
    requires UniqueNames(kids)
    ensures UniqueNames(RemoveElement(kids, name))
    ensures !Has(RemoveElement(kids, name), name)
    ensures other != name ==> ChildOf(RemoveElement(kids, name), other) == ChildOf(kids, other)
  {
    var after, i := RemoveElement(kids, name), Find(kids, name);
    if i < |kids| {
      RemoveElementAt(kids, name);
      FindIs(after, name, |after|);
      if other != name {
        var k := Find(kids, other);
        assert k != i;
        FindIs(after, other, if k < i then k else k - 1);
      }
    }
  }

  // ----- The line -----

  const GENERATED_NAMES: seq<string> := [
    "INTERNAL_REFERENCE", "DATA_REFERENCE", "SOURCEFREF", "TRANNO", "GUID", "ORGLOGOID", "PAYMENT_LIST",
    "DEFNFLDSLIST", "PREACCLINES"]

  /** What the worker posts for an invoice; codes are already cleaned. */
  datatype Posting = Posting(account: string, client: string, amount: nat, date: Date, invoice: string)

  function TwoDigits(n: nat): string {
    [Digit(n % 100 / 10), Digit(n % 10)]
  }

  /** dd/MM/yyyy */
  function FormatDate(d: Date): string {
    TwoDigits(d.day) + "/" + TwoDigits(d.month) + "/" + TwoDigits(d.year / 100) + TwoDigits(d.year % 100)
  }

  predicate CalendarDate(d: Date) { d.day < 100 && d.month < 100 && d.year < 10000 }

  function TwoDigitsAt(s: string, i: nat): nat {
    if i + 1 < |s| then 10 * DigitValue(s[i]) + DigitValue(s[i + 1]) else 0
  }

  /** Reading dd/MM/yyyy */
  function ParseDate(s: string): Date {
    Date(100 * TwoDigitsAt(s, 6) + TwoDigitsAt(s, 8), TwoDigitsAt(s, 3), TwoDigitsAt(s, 0))
  }

  lemma TwoDigitsRead(n: nat)
    requires n < 100
    ensures TwoDigitsAt(TwoDigits(n), 0) == n
  {
  }

  lemma DateRoundTrip(d: Date)
    requires CalendarDate(d)
    ensures ParseDate(FormatDate(d)) == d
  {
    var s := FormatDate(d);
    TwoDigitsRead(d.day);
    TwoDigitsRead(d.month);
    TwoDigitsRead(d.year / 100);
    TwoDigitsRead(d.year % 100);
    assert s[..2] == TwoDigits(d.day) && s[3..5] == TwoDigits(d.month);
    assert s[6..8] == TwoDigits(d.year / 100) && s[8..] == TwoDigits(d.year % 100);
  }

  datatype Field = Field(name: string, value: Content)

  /** The 18 business fields of a line. */
  function BusinessFields(p: Posting): seq<Field> {
    var date, amount := Plain(FormatDate(p.date)), Plain(FormatAmount(p.amount));
    [ Field("TYPE", Plain("1")), Field("BANKACC_CODE", Plain(p.account)), Field("ARP_CODE", Plain(p.client)),
      Field("DATE", date), Field("TRCODE", Plain("3")), Field("MODULENR", Plain("7")),
      Field("CURR_TRANS", Plain("37")), Field("DEBIT", amount), Field("AMOUNT", amount),
      Field("TC_XRATE", Plain("1")), Field("TC_AMOUNT", amount), Field("BANK_PROC_TYPE", Plain("2")),
      Field("DUE_DATE", date), Field("AFFECT_RISK", Plain("1")), Field("BN_CRDTYPE", Plain("3")),
      Field("DIVISION", Plain("0")), Field("COSTTYPE", Plain("1")), Field("DESCRIPTION", LineMarker(p.invoice)) ]
  }

  function Leaves(fields: seq<Field>): (kids: seq<Xml>)
    ensures |kids| == |fields|
    ensures forall i | 0 <= i < |fields| :: kids[i] == Leaf(fields[i].name, fields[i].value)
  {
    seq(|fields|, i requires 0 <= i < |fields| => Leaf(fields[i].name, fields[i].value))
  }

  function BuildTransactionElement(p: Posting): Xml {
    Parent("TRANSACTION", Leaves(BusinessFields(p)))
  }

  function RemoveAll(kids: seq<Xml>, names: seq<string>): seq<Xml>
    decreases |names|
  {
    if names == [] then kids else RemoveAll(RemoveElement(kids, names[0]), names[1..])
  }

  function SetAll(kids: seq<Xml>, fields: seq<Field>): seq<Xml>
    decreases |fields|
  {
    if fields == [] then kids else SetAll(SetElement(kids, fields[0].name, fields[0].value), fields[1..])
  }

  /** The children of a copied line without the generated names and with every given field. */
  function Rewritten(kids: seq<Xml>, generated: seq<string>, fields: seq<Field>): seq<Xml> {
    SetAll(RemoveAll(kids, generated), fields)
  }

  function AppendedLine(template: Xml, p: Posting): Xml {
    template.(kids := Rewritten(template.kids, GENERATED_NAMES, BusinessFields(p)))
  }

  predicate Names(fields: seq<Field>, name: string) {
    exists i | 0 <= i < |fields| :: fields[i].name == name
  }

  ghost predicate Distinct(fields: seq<Field>) {
    forall i, j | 0 <= i < j < |fields| :: fields[i].name != fields[j].name
  }

  /** Every field reads as listed. */
  ghost predicate Carries(kids: seq<Xml>, fields: seq<Field>) {
    forall i | 0 <= i < |fields| :: ValueOf(kids, fields[i].name) == Some(fields[i].value)
  }

  lemma {:induction false} RemoveAllEffect(kids: seq<Xml>, names: seq<string>, other: string)
    requires UniqueNames(kids)
    ensures UniqueNames(RemoveAll(kids, names))
    ensures ChildOf(RemoveAll(kids, names), other) == if other in names then None else ChildOf(kids, other)
    decreases |names|
  {
    if names != [] {
      assert names == [names[0]] + names[1..];
      RemoveElementEffect(kids, names[0], other);
      RemoveAllEffect(RemoveElement(kids, names[0]), names[1..], other);
    }
  }

  lemma {:induction false} SetAllFrame(kids: seq<Xml>, fields: seq<Field>, other: string)
    ensures UniqueNames(kids) ==> UniqueNames(SetAll(kids, fields))
    ensures !Names(fields, other) ==> ChildOf(SetAll(kids, fields), other) == ChildOf(kids, other)
    decreases |fields|
  {
    if fields != [] {
      SetElementEffect(kids, fields[0].name, fields[0].value, other);
      SetAllFrame(SetElement(kids, fields[0].name, fields[0].value), fields[1..], other);
    }
  }

  lemma {:induction false} SetAllSets(kids: seq<Xml>, fields: seq<Field>, i: nat)
    requires Distinct(fields) && i < |fields|
    ensures ValueOf(SetAll(kids, fields), fields[i].name) == Some(fields[i].value)
    decreases |fields|
  {
    var next := SetElement(kids, fields[0].name, fields[0].value);
    SetElementEffect(kids, fields[0].name, fields[0].value, fields[0].name);
    if i == 0 {
      SetAllFrame(next, fields[1..], fields[0].name);
    } else {
      SetAllSets(next, fields[1..], i - 1);
    }
  }

  lemma LeavesCarry(fields: seq<Field>)
    requires Distinct(fields)
    ensures Carries(Leaves(fields), fields) && UniqueNames(Leaves(fields))
    ensures forall name | !Names(fields, name) :: ChildOf(Leaves(fields), name) == None
  {
  }

  /** The edit, for any list of generated names and any list of fields that does not touch them. */
  lemma RewrittenEffect(kids: seq<Xml>, generated: seq<string>, fields: seq<Field>)
    requires UniqueNames(kids) && Distinct(fields)
    requires forall name | name in generated :: !Names(fields, name)
    ensures var after := Rewritten(kids, generated, fields);
            && UniqueNames(after) && Carries(after, fields)
            && (forall name | name in generated :: ChildOf(after, name) == None)
            && (forall name | name !in generated && !Names(fields, name) :: ChildOf(after, name) == ChildOf(kids, name))
  {
    var bare := RemoveAll(kids, generated);
    RemoveAllEffect(kids, generated, "");
    SetAllFrame(bare, fields, "");
    forall i | 0 <= i < |fields| ensures ValueOf(SetAll(bare, fields), fields[i].name) == Some(fields[i].value) {
      SetAllSets(bare, fields, i);
    }
    forall name | !Names(fields, name)
      ensures ChildOf(SetAll(bare, fields), name) == if name in generated then None else ChildOf(kids, name)
    {
      RemoveAllEffect(kids, generated, name);
      SetAllFrame(bare, fields, name);
    }
  }

  ghost predicate Apart(fields: seq<Field>, from: nat, to: nat, others: nat, end: nat)
    requires to <= |fields| && end <= |fields|
  {
    forall i, j | from <= i < to && others <= j < end && i < j :: fields[i].name != fields[j].name
  }

  lemma FirstNamesAreDistinct(p: Posting)
    ensures |BusinessFields(p)| == 18 && Apart(BusinessFields(p), 0, 9, 0, 9)
  {
  }

  lemma LastNamesAreDistinct(p: Posting)
    ensures |BusinessFields(p)| == 18 && Apart(BusinessFields(p), 9, 18, 9, 18)
  {
  }

  lemma FirstAndLastNamesDiffer(p: Posting)
    ensures |BusinessFields(p)| == 18 && Apart(BusinessFields(p), 0, 9, 9, 18)
  {
  }

  lemma BusinessNamesAreDistinct(p: Posting)
    ensures |BusinessFields(p)| == 18 && Distinct(BusinessFields(p))
  {
    FirstNamesAreDistinct(p);
    LastNamesAreDistinct(p);
    FirstAndLastNamesDiffer(p);
    DistinctByHalves(BusinessFields(p));
  }

  lemma DistinctByHalves(fields: seq<Field>)
    requires |fields| == 18 && Apart(fields, 0, 9, 0, 9) && Apart(fields, 9, 18, 9, 18) && Apart(fields, 0, 9, 9, 18)
    ensures Distinct(fields)
  {
  }

  lemma GeneratedNamesAreNoBusiness(p: Posting)
    ensures forall name | name in GENERATED_NAMES :: !Names(BusinessFields(p), name)
  {
  }

  /** The fields that Tiger numbers or fills itself are taken off the copy, which is otherwise one of the template. */
  lemma AppendedLineIsBare(template: Xml, p: Posting)
    requires UniqueNames(template.kids)
    ensures AppendedLine(template, p) == template.(kids := AppendedLine(template, p).kids)
    ensures var kids := AppendedLine(template, p).kids;
            && ChildOf(kids, "INTERNAL_REFERENCE") == ChildOf(kids, "DATA_REFERENCE") == ChildOf(kids, "SOURCEFREF")
               == ChildOf(kids, "TRANNO") == ChildOf(kids, "GUID") == ChildOf(kids, "ORGLOGOID") == None
            && ChildOf(kids, "PAYMENT_LIST") == ChildOf(kids, "DEFNFLDSLIST") == ChildOf(kids, "PREACCLINES") == None
  {
    AppendRefinesInsert(template, p);
    var names := GENERATED_NAMES;
    assert names[0] in names && names[1] in names && names[2] in names && names[3] in names && names[4] in names;
    assert names[5] in names && names[6] in names && names[7] in names && names[8] in names;
  }

  /** A date as it is written. */
  lemma WrittenDate()
    ensures FormatDate(Date(2026, 7, 16)) == "16/07/2026"
  {
  }

  /** Four amounts as they are written. */
  lemma WrittenAmounts()
    ensures FormatAmount(12345) == "123.45" && FormatAmount(12340) == "123.4" && FormatAmount(12300) == "123"
    ensures FormatAmount(5) == "0.05"
  {
    WrittenWholes();
    WrittenFrom("123", 12345);
    WrittenFrom("123", 12340);
    WrittenFrom("123", 12300);
    WrittenFrom("0", 5);
  }

  lemma WrittenWholes()
    ensures WholeText(123) == "123" && WholeText(0) == "0"
  {
    assert WholeText(12) == "12" by { assert WholeText(1) == "1"; }
  }

  lemma WrittenFrom(whole: string, n: nat)
    requires WholeText(n / 100) == whole
    ensures FormatAmount(n) == if n % 100 == 0 then whole
                               else if n % 10 == 0 then whole + ['.', Digit(n % 100 / 10)]
                               else whole + ['.', Digit(n % 100 / 10), Digit(n % 10)]
  {
  }

  /** Whatever the template held, the appended line has no generated field, all 18 business fields of the
      freshly built line, and the template's value for every other field. */
  lemma AppendRefinesInsert(template: Xml, p: Posting)
    requires UniqueNames(template.kids)
    ensures var line, built, fields := AppendedLine(template, p), BuildTransactionElement(p), BusinessFields(p);
            && line.name == template.name && UniqueNames(line.kids) && UniqueNames(built.kids)
            && Carries(line.kids, fields) && Carries(built.kids, fields)
            && (forall name | name in GENERATED_NAMES :: ChildOf(line.kids, name) == None == ChildOf(built.kids, name))
            && (forall name | name !in GENERATED_NAMES && !Names(fields, name) ::
                  ChildOf(line.kids, name) == ChildOf(template.kids, name))
  {
    BusinessNamesAreDistinct(p);
    GeneratedNamesAreNoBusiness(p);
    LeavesCarry(BusinessFields(p));
    RewrittenEffect(template.kids, GENERATED_NAMES, BusinessFields(p));
  }
}
