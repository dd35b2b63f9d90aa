/** The add-product and edit-product forms: how an input event updates the product record, the
    tax-exemption rule that clears the sales tax, and the invariant it keeps. */
module ProductForm {
  import opened Common

  /** A field value: the raw string from an input, a number, or NaN from a failed parse. */
  datatype Value = Str(s: string) | Num(x: real) | NaN

  datatype Field = Name | CoreCompany | Rate | Status | TaxExempted | SalesTax | Notes

  datatype Product = Product(
    name: Value,
    coreCompany: Value,
    rate: Value,
    status: Value,
    taxExempted: Value,
    salesTax: Value,
    notes: Value)
  {
    function Get(f: Field): Value
    {
      match f
      case Name => name
      case CoreCompany => coreCompany
      case Rate => rate
      case Status => status
      case TaxExempted => taxExempted
      case SalesTax => salesTax
      case Notes => notes
    }

    /** `{ ...product, [f]: v }` */
    function Set(f: Field, v: Value): (r: Product)
      ensures r.Get(f) == v
      ensures forall g :: g != f ==> r.Get(g) == Get(g)
    {
      match f
      case Name => this.(name := v)
      case CoreCompany => this.(coreCompany := v)
      case Rate => this.(rate := v)
      case Status => this.(status := v)
      case TaxExempted => this.(taxExempted := v)
      case SalesTax => this.(salesTax := v)
      case Notes => this.(notes := v)
    }
  }

  /** The empty add-product form: text fields blank, rate and sales tax the number 0. Neither
      exemption answer is chosen yet, so the sales-tax input is hidden and the exemption rule holds. */
  function Initial(): (p: Product)
    ensures forall f :: f != Rate && f != SalesTax ==> p.Get(f) == Str("")
    ensures p.rate == Num(0.0) && p.salesTax == Num(0.0)
    ensures ExemptHasNoTax(p) && !SalesTaxShown(p)
  {
    Product(Str(""), Str(""), Num(0.0), Str(""), Str(""), Num(0.0), Str(""))
  }

  /** Choosing "Yes" for tax exemption. */
  predicate ExemptionChosen(f: Field, raw: string)
  {
    f == TaxExempted && raw == "Yes"
  }

  /** The add-product change handler: choosing "Yes" for tax exemption stores "Yes" and sets the
      sales tax to the number 0; any other event stores the raw input in the named field alone. */
  function AddChange(p: Product, f: Field, raw: string): (r: Product)
    ensures ExemptionChosen(f, raw) ==>
      && r.taxExempted == Str("Yes") && r.salesTax == Num(0.0)
      && forall g :: g != TaxExempted && g != SalesTax ==> r.Get(g) == p.Get(g)
    ensures !ExemptionChosen(f, raw) ==>
      && r.Get(f) == Str(raw)
      && forall g :: g != f ==> r.Get(g) == p.Get(g)
  {
    if ExemptionChosen(f, raw) then p.Set(TaxExempted, Str(raw)).Set(SalesTax, Num(0.0))
    else p.Set(f, Str(raw))
  }

  /** `parseFloat` of the raw input, supplied by the caller: a number, or None for NaN. */
  function NumberValue(parsed: Option<real>): Value
  {
    match parsed
    case Some(x) => Num(x)
    case None => NaN
  }

  /** The edit-product change handler: as on the add form, except that rate and sales tax are
      stored as parsed numbers. */
  function EditChange(p: Product, f: Field, raw: string, parsed: Option<real>): (r: Product)
    ensures ExemptionChosen(f, raw) ==>
      && r.taxExempted == Str("Yes") && r.salesTax == Num(0.0)
      && forall g :: g != TaxExempted && g != SalesTax ==> r.Get(g) == p.Get(g)
    ensures !ExemptionChosen(f, raw) && (f == Rate || f == SalesTax) ==>
      r.Get(f) == NumberValue(parsed) && !r.Get(f).Str?
    ensures !ExemptionChosen(f, raw) && f != Rate && f != SalesTax ==> r.Get(f) == Str(raw)
    ensures !ExemptionChosen(f, raw) ==> forall g :: g != f ==> r.Get(g) == p.Get(g)
  {
    var value := if f == Rate || f == SalesTax then NumberValue(parsed) else Str(raw);
    if ExemptionChosen(f, raw) then p.Set(TaxExempted, Str(raw)).Set(SalesTax, Num(0.0))
    else p.Set(f, value)
  }

  /** The sales-tax input is rendered only while tax exemption is "No". */
  predicate SalesTaxShown(p: Product)
  {
    p.taxExempted == Str("No")
  }

  /** An event on field `f` can happen in state `p`: the sales-tax field only while it is shown. */
  predicate CanEdit(p: Product, f: Field)
  {
    f != SalesTax || SalesTaxShown(p)
  }

  /** Tax-exempt products carry no sales tax. */
  predicate ExemptHasNoTax(p: Product)
  {
    p.taxExempted == Str("Yes") ==> p.salesTax == Num(0.0)
  }

  /** Setting tax exemption to anything other than "Yes" keeps the sales tax as it was. */
  lemma OtherExemptionKeepsTax(p: Product, raw: string, parsed: Option<real>)
    requires raw != "Yes"
    ensures AddChange(p, TaxExempted, raw).salesTax == p.salesTax
    ensures EditChange(p, TaxExempted, raw, parsed).salesTax == p.salesTax
  {
  }

  /** One input event on either form. */
  datatype Input = Input(field: Field, raw: string, parsed: Option<real>)

  function ReplayAdd(p: Product, inputs: seq<Input>): Product
    decreases |inputs|
  {
    if |inputs| == 0 then p
    else ReplayAdd(AddChange(p, inputs[0].field, inputs[0].raw), inputs[1..])
  }

  function ReplayEdit(p: Product, inputs: seq<Input>): Product
    decreases |inputs|
  {
    if |inputs| == 0 then p
    else ReplayEdit(EditChange(p, inputs[0].field, inputs[0].raw, inputs[0].parsed), inputs[1..])
  }

  /** Every input targets a field the form shows at that moment (add form). */
  predicate PossibleOnAdd(p: Product, inputs: seq<Input>)
    decreases |inputs|
  {
    |inputs| == 0 ||
    (CanEdit(p, inputs[0].field) && PossibleOnAdd(AddChange(p, inputs[0].field, inputs[0].raw), inputs[1..]))
  }

  /** Every input targets a field the form shows at that moment (edit form). */
  predicate PossibleOnEdit(p: Product, inputs: seq<Input>)
    decreases |inputs|
  {
    |inputs| == 0 ||
    (CanEdit(p, inputs[0].field)
     && PossibleOnEdit(EditChange(p, inputs[0].field, inputs[0].raw, inputs[0].parsed), inputs[1..]))
  }

  /** A single possible event keeps "exempt implies no tax" (add form). */
  lemma AddChangeKeepsExemption(p: Product, f: Field, raw: string)
    requires ExemptHasNoTax(p) && CanEdit(p, f)
    ensures ExemptHasNoTax(AddChange(p, f, raw))
  {
  }

  /** A single possible event keeps "exempt implies no tax" (edit form). */
  lemma EditChangeKeepsExemption(p: Product, f: Field, raw: string, parsed: Option<real>)
    requires ExemptHasNoTax(p) && CanEdit(p, f)
    ensures ExemptHasNoTax(EditChange(p, f, raw, parsed))
  {
  }

  /** From the empty add form, every sequence of possible events leaves a tax-exempt product with
      sales tax 0. */
  lemma {:induction false} AddFormKeepsExemption(p: Product, inputs: seq<Input>)
    requires ExemptHasNoTax(p) && PossibleOnAdd(p, inputs)
    ensures ExemptHasNoTax(ReplayAdd(p, inputs))
    decreases |inputs|
  {
    if |inputs| > 0 {
      AddChangeKeepsExemption(p, inputs[0].field, inputs[0].raw);
      AddFormKeepsExemption(AddChange(p, inputs[0].field, inputs[0].raw), inputs[1..]);
    }
  }

  lemma InitialReachesOnlyExemptWithoutTax(inputs: seq<Input>)
    requires PossibleOnAdd(Initial(), inputs)
    ensures ExemptHasNoTax(ReplayAdd(Initial(), inputs))
  {
    AddFormKeepsExemption(Initial(), inputs);
  }

  /** On the edit form the loaded record is taken as it comes: edits keep "exempt implies no tax"
      when the record already satisfied it. */
  lemma {:induction false} EditFormKeepsExemption(loaded: Product, inputs: seq<Input>)
    requires ExemptHasNoTax(loaded) && PossibleOnEdit(loaded, inputs)
    ensures ExemptHasNoTax(ReplayEdit(loaded, inputs))
    decreases |inputs|
  {
    if |inputs| > 0 {
      var i := inputs[0];
      EditChangeKeepsExemption(loaded, i.field, i.raw, i.parsed);
      EditFormKeepsExemption(EditChange(loaded, i.field, i.raw, i.parsed), inputs[1..]);
    }
  }

  /** Loading does not establish the rule: a stored exempt product with a 5% tax stays that way
      until tax exemption is chosen again. */
  lemma LoadingDoesNotRepairExemption()
    ensures var loaded := Initial().(taxExempted := Str("Yes"), salesTax := Num(5.0));
      var edited := ReplayEdit(loaded, [Input(Name, "Pen", None)]);
      !ExemptHasNoTax(edited)
  {
    var loaded := Initial().(taxExempted := Str("Yes"), salesTax := Num(5.0));
    assert ReplayEdit(loaded, [Input(Name, "Pen", None)])
        == ReplayEdit(EditChange(loaded, Name, "Pen", None), []);
  }

  /** The guard matters: were the sales-tax input available on an exempt product, an edit would
      break the rule. */
  lemma HiddenTaxFieldIsNeeded()
    ensures var exempt := AddChange(Initial(), TaxExempted, "Yes");
      && ExemptHasNoTax(exempt)
      && !CanEdit(exempt, SalesTax)
      && !ExemptHasNoTax(AddChange(exempt, SalesTax, "5"))
  {
  }
}
