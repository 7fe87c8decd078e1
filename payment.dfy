/** The payment-methods screen: a list of bank accounts, an add form in a modal, and a
    delete button per account. */
module Payment {
  import opened JsString
  import opened JsArray

  datatype PaymentMethod = PaymentMethod(id: string, bank: string, accountNumber: string, accountName: string)

  /** `methods.filter(m => m.id !== id)`. */
  function WithoutId(methods: seq<PaymentMethod>, id: string): (r: seq<PaymentMethod>)
    ensures forall i :: 0 <= i < |r| ==> r[i].id != id && r[i] in methods
    ensures forall i :: 0 <= i < |methods| && methods[i].id != id ==> methods[i] in r
  {
    Filter(methods, (m: PaymentMethod) => m.id != id)
  }

  /** Removing a freshly added method, whose id no other method has, gives back the list
      as it was before the add. */
  lemma RemoveUndoesSave(methods: seq<PaymentMethod>, added: PaymentMethod)
    requires forall i :: 0 <= i < |methods| ==> methods[i].id != added.id
    ensures WithoutId([added] + methods, added.id) == methods
  {
    FilterCons(added, methods, (m: PaymentMethod) => m.id != added.id);
    FilterAll(methods, (m: PaymentMethod) => m.id != added.id);
  }

  /** The methods that stay keep their relative order: removing from a concatenation
      removes from each part. */
  lemma RemoveKeepsOrder(a: seq<PaymentMethod>, b: seq<PaymentMethod>, id: string)
    ensures WithoutId(a + b, id) == WithoutId(a, id) + WithoutId(b, id)
  {
    FilterConcat(a, b, (m: PaymentMethod) => m.id != id);
  }

  class PaymentScreen {
    var methods: seq<PaymentMethod>
    var modalVisible: bool
    var bank: string
    var accountNumber: string
    var accountName: string

    constructor ()
      ensures methods == [] && !modalVisible && bank == "" && accountNumber == "" && accountName == ""
    {
      methods := [];
      modalVisible := false;
      bank := "";
      accountNumber := "";
      accountName := "";
    }

    /** `resetForm()`: clears the three form fields. */
    method ResetForm()
      modifies this`bank, this`accountNumber, this`accountName
      ensures bank == "" && accountNumber == "" && accountName == ""
    {
      bank := "";
      accountNumber := "";
      accountName := "";
    }

    /** `openAddModal()`: an empty form in a visible modal. */
    method OpenAddModal()
      modifies this`bank, this`accountNumber, this`accountName, this`modalVisible
      ensures bank == "" && accountNumber == "" && accountName == "" && modalVisible
    {
      ResetForm();
      modalVisible := true;
    }

    /** `saveMethod()`: the trimmed form values, under the given id, go in front of the
        existing methods, which follow unchanged; the modal closes. The saved fields need
        no further trimming. */
    method SaveMethod(newId: string)
      modifies this`methods, this`modalVisible
      ensures |methods| == |old(methods)| + 1 && methods[1..] == old(methods)
      ensures methods[0] == PaymentMethod(newId, Trim(bank), Trim(accountNumber), Trim(accountName))
      ensures Trim(methods[0].bank) == methods[0].bank && Trim(methods[0].accountNumber) == methods[0].accountNumber
              && Trim(methods[0].accountName) == methods[0].accountName
      ensures !modalVisible
    {
      TrimIdempotent(bank);
      TrimIdempotent(accountNumber);
      TrimIdempotent(accountName);
      var newItem := PaymentMethod(newId, Trim(bank), Trim(accountNumber), Trim(accountName));
      methods := [newItem] + methods;
      modalVisible := false;
    }

    /** `removeMethod(id)`: every method with that id goes. */
    method RemoveMethod(id: string)
      modifies this`methods
      ensures methods == WithoutId(old(methods), id)
    {
      methods := WithoutId(methods, id);
    }

    /** The modal's cancel button. */
    method CloseModal()
      modifies this`modalVisible
      ensures !modalVisible
    {
      modalVisible := false;
    }
  }
}
