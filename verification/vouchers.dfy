/** Payment and receipt vouchers: the next voucher number, the voucher-type codes the form offers
    for each kind of transaction, and the display name of a code in the transaction list. */
module Vouchers {
  import opened Numbering

  /** The voucher number following `count` existing vouchers of the kind: "PMT-" for payments,
      "RCT-" for anything else, then `count + 1` zero-padded to at least four digits. */
  function VoucherNumber(transactionType: string, count: nat): (r: string)
    ensures |r| >= 8 && r[3] == '-'
    ensures transactionType == "payment" ==> r[..3] == "PMT"
    ensures transactionType != "payment" ==> r[..3] == "RCT"
    ensures r[4..] == Padded(count + 1)
    ensures AllDigits(r[4..]) && DigitsValue(r[4..]) == count + 1
  {
    DocumentNumber(if transactionType == "payment" then "PMT" else "RCT", count)
  }

  /** Vouchers of one kind with different counts never share a number. */
  lemma VoucherNumberInjective(transactionType: string, c1: nat, c2: nat)
    ensures VoucherNumber(transactionType, c1) == VoucherNumber(transactionType, c2) <==> c1 == c2
  {
    if VoucherNumber(transactionType, c1) == VoucherNumber(transactionType, c2) {
      DocumentNumberInjective(if transactionType == "payment" then "PMT" else "RCT", c1, c2);
    }
  }

  /** The first payment voucher is PMT-0001. */
  lemma FirstPaymentVoucher()
    ensures VoucherNumber("payment", 0) == "PMT-0001"
  {
    assert Decimal(1) == "1";
    assert PadStart("1", Width, '0') == "0001";
  }

  /** Past 9999 the count keeps all its digits: PMT-12345. */
  lemma LongPaymentVoucher(count: nat)
    requires count == 12344
    ensures VoucherNumber("payment", count) == "PMT-12345"
  {
    assert Decimal(12345) == "12345";
    PaddedWide(count + 1);
  }

  /** A choice in the voucher-type drop-down: the code stored and the title shown. */
  datatype VoucherOption = VoucherOption(code: string, title: string)

  /** The voucher types the add-transaction form offers (the empty "Select Type" placeholder aside). */
  function OfferedTypes(transactionType: string): (r: seq<VoucherOption>)
    ensures forall o :: o in r ==>
      && o.code in KnownCodes && |o.code| == 3 && o.code[2] == 'V'
      && (o.code[1] == 'P' <==> transactionType == "payment")
    ensures |r| == 2 && r[0].code[0] == 'B' && r[1].code[0] == 'C'
  {
    if transactionType == "payment" then
      [VoucherOption("BPV", "Bank Payment Voucher"), VoucherOption("CPV", "Cash Payment Voucher")]
    else
      [VoucherOption("BRV", "Bank Receipt Voucher"), VoucherOption("CRV", "Cash Receipt Voucher")]
  }

  /** The codes the list knows a name for. */
  const KnownCodes: set<string> := {"BPV", "CPV", "BRV", "CRV"}

  /** The display name of a voucher-type code, "Unknown" for any code outside the four known. */
  function TypeName(code: string): (name: string)
    ensures code == "BPV" ==> name == "Bank Payment Voucher"
    ensures code == "CPV" ==> name == "Cash Payment Voucher"
    ensures code == "BRV" ==> name == "Bank Receipt Voucher"
    ensures code == "CRV" ==> name == "Cash Receipt Voucher"
    ensures name == "Unknown" <==> code !in KnownCodes
  {
    var names := map[
      "BPV" := "Bank Payment Voucher",
      "CPV" := "Cash Payment Voucher",
      "BRV" := "Bank Receipt Voucher",
      "CRV" := "Cash Receipt Voucher"];
    if code in names then names[code] else "Unknown"
  }

  /** Payments offer exactly the payment codes and receipts exactly the receipt codes, and every
      offered code's listed name is the title the form showed for it. */
  lemma OfferedTypesAreNamed(transactionType: string)
    ensures var codes := set o | o in OfferedTypes(transactionType) :: o.code;
      && (transactionType == "payment" ==> codes == {"BPV", "CPV"})
      && (transactionType != "payment" ==> codes == {"BRV", "CRV"})
    ensures forall o :: o in OfferedTypes(transactionType) ==>
      TypeName(o.code) == o.title && TypeName(o.code) != "Unknown"
  {
    var opts := OfferedTypes(transactionType);
    assert forall o :: o in opts ==> o == opts[0] || o == opts[1];
  }
}
