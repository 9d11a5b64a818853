/** PrepareExportedXmlForAppend: the edit of a whole exported document. */
module VoucherEdit {
  import opened Basics
  import opened AmountText
  import opened VoucherXml

  function HeaderFields(reference: nat, total: nat, group: Content): seq<Field> {
    [ Field("DATA_REFERENCE", Reference(reference)), Field("TYPE", Plain("3")),
      Field("TOTAL_DEBIT", Plain(FormatAmount(total))), Field("NOTES1", group) ]
  }

  function WithHeader(voucher: Xml, header: seq<Field>): Xml {
    voucher.(attributes := voucher.attributes["DBOP" := "UPD"], kids := SetAll(voucher.kids, header))
  }

  /** A copy of the first line, edited, becomes the last line. */
  function WithLine(transactions: Xml, p: Posting): Option<Xml> {
    match ChildOf(transactions.kids, "TRANSACTION")
    case None => None
    case Some(template) => Some(transactions.(kids := transactions.kids + [AppendedLine(template, p)]))
  }

  function WithLineIn(voucher: Xml, p: Posting): Option<Xml> {
    var t := Find(voucher.kids, "TRANSACTIONS");
    if t == |voucher.kids| then None
    else
      match WithLine(voucher.kids[t], p)
      case None => None
      case Some(transactions) => Some(voucher.(kids := voucher.kids[t := transactions]))
  }

  /** The edited document; None stands for an exception. */
  function Prepared(root: Xml, header: seq<Field>, p: Posting): Option<Xml> {
    var i := Find(root.kids, "BANK_VOUCHER");
    if i == |root.kids| then None
    else
      match WithLineIn(WithHeader(root.kids[i], header), p)
      case None => None
      case Some(voucher) => Some(root.(kids := root.kids[i := voucher]))
  }

  /** The lines of a document, if it has the expected elements. */
  function LinesOf(root: Xml): Option<seq<Xml>> {
    match ChildOf(root.kids, "BANK_VOUCHER")
    case None => None
    case Some(voucher) =>
      match ChildOf(voucher.kids, "TRANSACTIONS")
      case None => None
      case Some(transactions) => Some(transactions.kids)
  }

  lemma ReplaceChild(kids: seq<Xml>, name: string, child: Xml, other: string)
    requires Has(kids, name) && child.name == name
    ensures ChildOf(kids[Find(kids, name) := child], name) == Some(child)
    ensures other != name ==> ChildOf(kids[Find(kids, name) := child], other) == ChildOf(kids, other)
  {
    var i := Find(kids, name);
    FindIs(kids[i := child], name, i);
    if other != name { FindIs(kids[i := child], other, Find(kids, other)); }
  }

  /** The edit succeeds exactly if there is a voucher with a template line; it keeps every earlier line, adds the
      edited copy at the end, sets the header fields and leaves every other field of the voucher alone. */
  lemma PreparedEffect(root: Xml, header: seq<Field>, p: Posting)
    requires Distinct(header) && !Names(header, "TRANSACTIONS")
    ensures Prepared(root, header, p).Some? <==> LinesOf(root).Some? && Has(LinesOf(root).value, "TRANSACTION")
    ensures Prepared(root, header, p).Some? ==>
              var after, lines := Prepared(root, header, p).value, LinesOf(root).value;
              var was, now := ChildOf(root.kids, "BANK_VOUCHER").value, ChildOf(after.kids, "BANK_VOUCHER");
              && now.Some?
              && LinesOf(after) == Some(lines + [AppendedLine(ChildOf(lines, "TRANSACTION").value, p)])
              && now.value.attributes == was.attributes["DBOP" := "UPD"]
              && Carries(now.value.kids, header)
              && (forall name | name != "TRANSACTIONS" && !Names(header, name) ::
                    ChildOf(now.value.kids, name) == ChildOf(was.kids, name))
  {
    PreparedIff(root, header, p);
    if Prepared(root, header, p).Some? {
      var was := ChildOf(root.kids, "BANK_VOUCHER").value;
      var voucher := WithLineIn(WithHeader(was, header), p).value;
      ReplaceChild(root.kids, "BANK_VOUCHER", voucher, "");
      WithLineInEffect(was, header, p);
    }
  }

  lemma PreparedIff(root: Xml, header: seq<Field>, p: Posting)
    requires !Names(header, "TRANSACTIONS")
    ensures Prepared(root, header, p).Some? <==> LinesOf(root).Some? && Has(LinesOf(root).value, "TRANSACTION")
  {
    if Has(root.kids, "BANK_VOUCHER") {
      SetAllFrame(ChildOf(root.kids, "BANK_VOUCHER").value.kids, header, "TRANSACTIONS");
    }
  }

  /** Around the voucher, and around its lines, the document stays as it was exported. */
  lemma EditKeepsTheRest(root: Xml, header: seq<Field>, p: Posting)
    requires Prepared(root, header, p).Some? && !Names(header, "TRANSACTIONS")
    ensures var after, i := Prepared(root, header, p).value, Find(root.kids, "BANK_VOUCHER");
            && i < |root.kids| && |after.kids| == |root.kids|
            && after == root.(kids := root.kids[i := after.kids[i]])
            && after.kids[i] == root.kids[i].(attributes := after.kids[i].attributes, kids := after.kids[i].kids)
            && ChildOf(root.kids[i].kids, "TRANSACTIONS").Some? && ChildOf(after.kids[i].kids, "TRANSACTIONS").Some?
            && var was, now := ChildOf(root.kids[i].kids, "TRANSACTIONS").value, ChildOf(after.kids[i].kids, "TRANSACTIONS").value;
               now == was.(kids := now.kids)
  {
    var i := Find(root.kids, "BANK_VOUCHER");
    var headed := WithHeader(root.kids[i], header);
    SetAllFrame(root.kids[i].kids, header, "TRANSACTIONS");
    var t := Find(headed.kids, "TRANSACTIONS");
    var transactions := WithLine(headed.kids[t], p).value;
    ReplaceChild(headed.kids, "TRANSACTIONS", transactions, "");
  }

  lemma WithLineInEffect(was: Xml, header: seq<Field>, p: Posting)
    requires Distinct(header) && !Names(header, "TRANSACTIONS")
    requires WithLineIn(WithHeader(was, header), p).Some?
    ensures var now := WithLineIn(WithHeader(was, header), p).value;
            var transactions := ChildOf(was.kids, "TRANSACTIONS");
            && transactions.Some? && ChildOf(transactions.value.kids, "TRANSACTION").Some?
            && ChildOf(now.kids, "TRANSACTIONS") == WithLine(transactions.value, p)
            && Carries(now.kids, header)
            && (forall name | name != "TRANSACTIONS" && !Names(header, name) ::
                  ChildOf(now.kids, name) == ChildOf(was.kids, name))
  {
    var kids := SetAll(was.kids, header);
    SetAllFrame(was.kids, header, "TRANSACTIONS");
    var child := WithLine(kids[Find(kids, "TRANSACTIONS")], p).value;
    HeaderThenChild(was.kids, header, "TRANSACTIONS", child);
  }

  /** Setting fields and then replacing a child that is none of them. */
  lemma HeaderThenChild(kids: seq<Xml>, header: seq<Field>, name: string, child: Xml)
    requires Distinct(header) && !Names(header, name)
    requires Has(SetAll(kids, header), name) && child.name == name
    ensures var filled := SetAll(kids, header);
            var after := filled[Find(filled, name) := child];
            && ChildOf(after, name) == Some(child) && Carries(after, header)
            && (forall other | other != name && !Names(header, other) :: ChildOf(after, other) == ChildOf(kids, other))
  {
    var filled := SetAll(kids, header);
    var after := filled[Find(filled, name) := child];
    ReplaceChild(filled, name, child, "");
    forall i | 0 <= i < |header| ensures ValueOf(after, header[i].name) == Some(header[i].value) {
      SetAllSets(kids, header, i);
      ReplaceChild(filled, name, child, header[i].name);
      SameChildSameValue(after, filled, header[i].name);
    }
    forall other | other != name && !Names(header, other) ensures ChildOf(after, other) == ChildOf(kids, other) {
      SetAllFrame(kids, header, other);
      ReplaceChild(filled, name, child, other);
    }
  }

  lemma SameChildSameValue(a: seq<Xml>, b: seq<Xml>, name: string)
    requires ChildOf(a, name) == ChildOf(b, name)
    ensures ValueOf(a, name) == ValueOf(b, name)
  {
  }

  // ----- The edit step by step -----

  method ApplyFields(kids: seq<Xml>, fields: seq<Field>) returns (after: seq<Xml>)
    ensures after == SetAll(kids, fields)
  {
    after := kids;
    var i := 0;
    while i < |fields|
      invariant i <= |fields|
      invariant SetAll(after, fields[i..]) == SetAll(kids, fields)
    {
      assert fields[i..][1..] == fields[i + 1..];
      after := SetElement(after, fields[i].name, fields[i].value);
      i := i + 1;
    }
  }

  method RemoveGenerated(kids: seq<Xml>, names: seq<string>) returns (after: seq<Xml>)
    ensures after == RemoveAll(kids, names)
  {
    after := kids;
    var i := 0;
    while i < |names|
      invariant i <= |names|
      invariant RemoveAll(after, names[i..]) == RemoveAll(kids, names)
    {
      assert names[i..][1..] == names[i + 1..];
      after := RemoveElement(after, names[i]);
      i := i + 1;
    }
  }

  method EditedCopy(template: Xml, generated: seq<string>, fields: seq<Field>) returns (newLine: Xml)
    ensures newLine == template.(kids := Rewritten(template.kids, generated, fields))
  {
    var kids := RemoveGenerated(template.kids, generated);
    kids := ApplyFields(kids, fields);
    newLine := template.(kids := kids);
  }

  method AddLine(transactions: Xml, p: Posting) returns (edited: Option<Xml>)
    ensures edited == WithLine(transactions, p)
  {
    var k := Find(transactions.kids, "TRANSACTION");
    if k == |transactions.kids| { return None; }
    var newLine := EditedCopy(transactions.kids[k], GENERATED_NAMES, BusinessFields(p));
    edited := Some(transactions.(kids := transactions.kids + [newLine]));
  }

  method EditVoucher(exported: Xml, header: seq<Field>, p: Posting) returns (edited: Option<Xml>)
    ensures edited == WithLineIn(WithHeader(exported, header), p)
  {
    var kids := ApplyFields(exported.kids, header);
    var voucher := exported.(attributes := exported.attributes["DBOP" := "UPD"], kids := kids);
    var t := Find(voucher.kids, "TRANSACTIONS");
    if t == |voucher.kids| { return None; }
    var transactions := AddLine(voucher.kids[t], p);
    if transactions.None? { return None; }
    edited := Some(voucher.(kids := voucher.kids[t := transactions.value]));
  }

  method PrepareExportedXmlForAppend(root: Xml, header: seq<Field>, p: Posting) returns (edited: Option<Xml>)
    ensures edited == Prepared(root, header, p)
  {
    var i := Find(root.kids, "BANK_VOUCHER");
    if i == |root.kids| { return None; }
    var voucher := EditVoucher(root.kids[i], header, p);
    if voucher.None? { return None; }
    edited := Some(root.(kids := root.kids[i := voucher.value]));
  }
}
