/**
 * The invoice list page: the WhatsApp link it builds for each invoice and the list
 * after a delete.
 */
module InvoicesPage {
  import opened Wrappers
  import opened Text
  import opened Seqs

  /** A listed invoice, reduced to the fields the page reads. The total is carried as
      the text JavaScript prints for it. */
  datatype Row = Row(id: string, invoiceNumber: string, customerName: string,
                     customerPhone: Option<string>, totalText: string)

  /** `(customerPhone || '').replace(/[^0-9]/g, '')`, then a leading `0` replaced by the
      country code `966`. */
  function NormalizePhone(phone: Option<string>): (r: string)
    ensures AllDigits(r)
  {
    var digits := KeepDigits(if phone.Some? then phone.value else "");
    if StartsWith(digits, "0") then "966" + digits[1..] else digits
  }

  /** The digits of the phone with a local leading `0` exchanged for `966`; any other
      number passes through as its digits alone, and a normalised number never starts
      with `0`. */
  lemma NormalizePhoneCases(phone: Option<string>)
    ensures var digits := KeepDigits(if phone.Some? then phone.value else "");
            && (StartsWith(digits, "0") ==> NormalizePhone(phone) == "966" + digits[1..])
            && (!StartsWith(digits, "0") ==> NormalizePhone(phone) == digits)
            && !StartsWith(NormalizePhone(phone), "0")
  {
    var digits := KeepDigits(if phone.Some? then phone.value else "");
    var r := NormalizePhone(phone);
    if StartsWith(digits, "0") {
      assert r[0] == '9';
    } else {
      assert r == digits;
    }
  }

  /** The rewrite happens once: normalising a normalised number changes nothing. */
  lemma NormalizePhoneIdempotent(phone: Option<string>)
    ensures NormalizePhone(Some(NormalizePhone(phone))) == NormalizePhone(phone)
  {
    NormalizePhoneCases(phone);
    var r := NormalizePhone(phone);
    assert KeepDigits(r) == r;
  }

  const MsgHeader: string := "🌷 أريج الأقحوان\nفاتورة رقم: "
  const MsgCustomerLine: string := "\nالعميل: "
  const MsgTotalLine: string := "\nالمجموع: "
  const MsgFooter: string := " ر.س\nشكراً لثقتكم 🌸"

  /** The message text with the invoice number, customer name and total filled in. */
  function Message(row: Row): string {
    MsgHeader + row.invoiceNumber + MsgCustomerLine + row.customerName + MsgTotalLine
    + row.totalText + MsgFooter
  }

  /** The message carries the number, the name and the total, each right after its
      label. */
  lemma MessageFields(row: Row)
    ensures var m := Message(row);
            && OccursAt(m, row.invoiceNumber, |MsgHeader|)
            && OccursAt(m, row.customerName, |MsgHeader + row.invoiceNumber + MsgCustomerLine|)
            && OccursAt(m, row.totalText,
                        |MsgHeader + row.invoiceNumber + MsgCustomerLine + row.customerName + MsgTotalLine|)
            && Contains(m, row.invoiceNumber) && Contains(m, row.customerName) && Contains(m, row.totalText)
  {
    var m := Message(row);
    var a := MsgHeader;
    var b := a + row.invoiceNumber + MsgCustomerLine;
    var c := b + row.customerName + MsgTotalLine;
    assert m == a + row.invoiceNumber + (MsgCustomerLine + row.customerName + MsgTotalLine + row.totalText + MsgFooter);
    assert m[|a|..|a| + |row.invoiceNumber|] == row.invoiceNumber;
    assert m == b + row.customerName + (MsgTotalLine + row.totalText + MsgFooter);
    assert m[|b|..|b| + |row.customerName|] == row.customerName;
    assert m == c + row.totalText + MsgFooter;
    assert m[|c|..|c| + |row.totalText|] == row.totalText;
    assert OccursAt(m, row.invoiceNumber, |a|);
    assert OccursAt(m, row.customerName, |b|);
    assert OccursAt(m, row.totalText, |c|);
  }

  const WaBase: string := "https://wa.me/"

  /** `getWhatsAppUrl(inv)`; `encode` stands for `encodeURIComponent`. */
  function WhatsAppUrl(row: Row, encode: string -> string): string {
    var phone := NormalizePhone(row.customerPhone);
    if phone != "" then WaBase + phone + "?text=" + encode(Message(row))
    else WaBase + "?text=" + encode(Message(row))
  }

  /** The link addresses the normalised number when there is one and no number
      otherwise, and always ends with the encoded message. */
  lemma WhatsAppUrlShape(row: Row, encode: string -> string)
    ensures var url := WhatsAppUrl(row, encode);
            var phone := NormalizePhone(row.customerPhone);
            && StartsWith(url, WaBase + phone + "?text=")
            && EndsWith(url, encode(Message(row)))
            && (phone == "" <==> StartsWith(url, WaBase + "?"))
  {
    var url := WhatsAppUrl(row, encode);
    var phone := NormalizePhone(row.customerPhone);
    var head := WaBase + phone + "?text=";
    assert url == head + encode(Message(row));
    assert url[..|head|] == head;
    assert url[|url| - |encode(Message(row))|..] == encode(Message(row));
    if phone != "" {
      assert url[|WaBase|] == phone[0];
      assert IsDigit(phone[0]);
      assert (WaBase + "?")[|WaBase|] == '?';
    }
  }

  /** The list after `handleDelete(id)`: unchanged unless the delete was confirmed and
      the server answered OK, and then without the invoices carrying that id. `rows` is
      the list the handler filters: the one captured by the render in which the delete
      button was pressed, not the list shown when the reply arrives. */
  function AfterDelete(rows: seq<Row>, id: string, confirmed: bool, ok: bool): (r: seq<Row>)
    ensures !(confirmed && ok) ==> r == rows
    ensures confirmed && ok ==> forall x :: x in r <==> x in rows && x.id != id
  {
    if confirmed && ok then Filter(rows, (x: Row) => x.id != id) else rows
  }

  predicate UniqueIds(rows: seq<Row>) {
    forall i, j :: 0 <= i < j < |rows| ==> rows[i].id != rows[j].id
  }

  /** With unique ids a successful delete removes exactly the one invoice, keeping the
      others in order. */
  lemma DeleteRemovesOne(rows: seq<Row>, k: nat)
    requires UniqueIds(rows) && k < |rows|
    ensures AfterDelete(rows, rows[k].id, true, true) == rows[..k] + rows[k + 1..]
  {
    var id := rows[k].id;
    var p := (x: Row) => x.id != id;
    assert rows == rows[..k] + [rows[k]] + rows[k + 1..];
    FilterDropsOne(rows[..k], rows[k], rows[k + 1..], p);
  }

  /** The delete buttons stay enabled while a delete is pending. Deleting `a` and then
      `b` before `a`'s reply has both handlers filter the list captured at the clicks:
      `a`'s reply shows `[b]`, and `b`'s reply then shows `[a]` again, although `a` is
      gone on the server. */
  lemma OverlappingDeletesRestore(a: Row, b: Row)
    requires a.id != b.id
    ensures AfterDelete([a, b], a.id, true, true) == [b]
    ensures AfterDelete([a, b], b.id, true, true) == [a]
  {
    var p := (x: Row) => x.id != a.id;
    var q := (x: Row) => x.id != b.id;
    assert [a, b] == [] + [a] + [b];
    FilterDropsOne([], a, [b], p);
    FilterAll([b], p);
    assert [a, b] == [a] + [b] + [];
    FilterDropsOne([a], b, [], q);
    FilterAll([a], q);
  }

  /** Each reply filtering the list shown when it arrives, as a functional state update
      would: two successful deletes, in either order, leave exactly the rows carrying
      neither id, in their order. */
  lemma DeletesFromCurrentList(rows: seq<Row>, id1: string, id2: string)
    ensures AfterDelete(AfterDelete(rows, id1, true, true), id2, true, true)
         == Filter(rows, (x: Row) => x.id != id1 && x.id != id2)
    ensures AfterDelete(AfterDelete(rows, id1, true, true), id2, true, true)
         == AfterDelete(AfterDelete(rows, id2, true, true), id1, true, true)
  {
    var not1 := (x: Row) => x.id != id1;
    var not2 := (x: Row) => x.id != id2;
    var neither := (x: Row) => x.id != id1 && x.id != id2;
    FilterFilter(rows, not1, not2, neither);
    FilterFilter(rows, not2, not1, neither);
  }
}
