/** The customer's address book: a list of addresses, at most one primary
    address per type, and a form sheet for adding and editing. Each awaited
    request is split at its `await`: `Start*` runs up to the request and
    records it in `pending` together with the address list the handler's
    closure captured; `Finish*` runs the continuation with the request's
    outcome. */
module Addresses {
  import opened Common

  datatype AddressType = Billing | Service

  datatype Address = Address(
    id: int,
    name: string,
    line1: string,
    city: string,
    state: string,
    postcode: string,
    phone: string,
    email: string,
    isPrimary: bool,
    kind: AddressType)

  /** The sheet's fields. */
  datatype AddressForm = AddressForm(
    name: string,
    line1: string,
    city: string,
    state: string,
    postcode: string,
    phone: string,
    email: string,
    isPrimary: bool,
    kind: AddressType)

  const EmptyForm := AddressForm("", "", "", "", "", "", "", false, Billing)

  /** `{ ...address }`. */
  function FormOf(a: Address): AddressForm {
    AddressForm(a.name, a.line1, a.city, a.state, a.postcode, a.phone, a.email, a.isPrimary, a.kind)
  }

  /** Street, city, state and postcode must be non-empty; name, phone and
      email are optional. The test is for the empty string only. */
  predicate MissingRequired(f: AddressForm) {
    f.line1 == "" || f.city == "" || f.state == "" || f.postcode == ""
  }

  const RequiredFieldsMessage := "Please fill in all required fields (Street, City, State, Zip Code)"

  // ---------------------------------------------------------------------
  // The list invariants

  predicate HasId(list: seq<Address>, id: int) {
    exists i :: 0 <= i < |list| && list[i].id == id
  }

  predicate UniqueIds(list: seq<Address>) {
    forall i, j :: 0 <= i < j < |list| ==> list[i].id != list[j].id
  }

  /** No two primary addresses share a type. */
  predicate OnePrimaryPerType(list: seq<Address>) {
    forall i, j :: 0 <= i < j < |list| && list[i].isPrimary && list[j].isPrimary ==> list[i].kind != list[j].kind
  }

  /** Equal except possibly for the primary flag. */
  predicate SameButPrimary(a: Address, b: Address) {
    a.(isPrimary := b.isPrimary) == b
  }

  // ---------------------------------------------------------------------
  // List updates

  /** Clears the primary flag of every address of `kind` whose id is not `keep`. */
  function DemoteOthers(list: seq<Address>, kind: AddressType, keep: int): (r: seq<Address>)
    ensures |r| == |list|
    ensures forall i :: 0 <= i < |list| ==> SameButPrimary(r[i], list[i])
    ensures forall i :: 0 <= i < |list| ==>
              (r[i].isPrimary <==> list[i].isPrimary && (list[i].kind != kind || list[i].id == keep))
  {
    seq(|list|, i requires 0 <= i < |list| =>
      if list[i].kind == kind && list[i].id != keep then list[i].(isPrimary := false) else list[i])
  }

  /** Puts the server's record in place of every address with id `id`. */
  function ReplaceById(list: seq<Address>, id: int, saved: Address): (r: seq<Address>)
    ensures |r| == |list|
    ensures forall i :: 0 <= i < |list| ==> r[i] == (if list[i].id == id then saved else list[i])
  {
    seq(|list|, i requires 0 <= i < |list| => if list[i].id == id then saved else list[i])
  }

  /** The list after a successful edit of the address `editedId`. */
  function AfterEdit(list: seq<Address>, editedId: int, saved: Address): (r: seq<Address>)
    ensures |r| == |list|
    ensures forall i :: 0 <= i < |list| && list[i].id == editedId ==> r[i] == saved
    ensures forall i :: 0 <= i < |list| && list[i].id != editedId ==>
              SameButPrimary(r[i], list[i]) &&
              (r[i].isPrimary <==> list[i].isPrimary && !(saved.isPrimary && list[i].kind == saved.kind && list[i].id != saved.id))
  {
    var replaced := ReplaceById(list, editedId, saved);
    if saved.isPrimary then DemoteOthers(replaced, saved.kind, saved.id) else replaced
  }

  /** The list after a successful add: the old addresses in their order, then
      the new one. */
  function AfterAdd(list: seq<Address>, added: Address): (r: seq<Address>)
    ensures |r| == |list| + 1 && r[|list|] == added
    ensures forall i :: 0 <= i < |list| ==>
              SameButPrimary(r[i], list[i]) &&
              (r[i].isPrimary <==> list[i].isPrimary && !(added.isPrimary && list[i].kind == added.kind && list[i].id != added.id))
  {
    (if added.isPrimary then DemoteOthers(list, added.kind, added.id) else list) + [added]
  }

  /** `addresses.find(addr => addr.id === id)`, as a position. */
  function FirstIndexOf(list: seq<Address>, id: int): (r: Option<nat>)
    ensures r.None? <==> !HasId(list, id)
    ensures r.Some? ==> r.value < |list| && list[r.value].id == id &&
                        forall j :: 0 <= j < r.value ==> list[j].id != id
  {
    if list == [] then None
    else if list[0].id == id then Some(0)
    else
      var rest := FirstIndexOf(list[1..], id);
      if rest.None? then
        assert forall i :: 1 <= i < |list| ==> list[i] == list[1..][i - 1];
        None
      else
        assert forall j :: 1 <= j < rest.value + 1 ==> list[j] == list[1..][j - 1];
        Some(rest.value + 1)
  }

  /** The list after a successful set-primary of `id`: that address becomes
      primary, and every other address of the type of the first address with
      that id is demoted. */
  function AfterSetPrimary(list: seq<Address>, id: int): (r: seq<Address>)
    ensures |r| == |list|
    ensures forall i :: 0 <= i < |list| ==> SameButPrimary(r[i], list[i])
    ensures var found := FirstIndexOf(list, id);
            forall i :: 0 <= i < |list| ==>
              (r[i].isPrimary <==> list[i].id == id ||
                                   (list[i].isPrimary && !(found.Some? && list[i].kind == list[found.value].kind)))
  {
    var found := FirstIndexOf(list, id);
    seq(|list|, i requires 0 <= i < |list| =>
      if list[i].id == id then list[i].(isPrimary := true)
      else if found.Some? && list[i].kind == list[found.value].kind then list[i].(isPrimary := false)
      else list[i])
  }

  /** `addresses.filter(addr => addr.id !== id)`. */
  function RemoveById(list: seq<Address>, id: int): (r: seq<Address>)
    ensures |r| <= |list|
    ensures forall a :: a in r <==> a in list && a.id != id
  {
    var hasId := (a: Address) => a.id == id;
    RejectIn(list, hasId);
    Reject(list, hasId)
  }

  // ---------------------------------------------------------------------
  // What the updates preserve

  /** Saving an edit keeps ids unique and at most one primary per type, when
      the server returns the record under the edited id; a primary saved
      record is then the only primary of its type. */
  lemma EditKeepsInvariants(list: seq<Address>, editedId: int, saved: Address)
    requires UniqueIds(list) && OnePrimaryPerType(list) && saved.id == editedId
    ensures UniqueIds(AfterEdit(list, editedId, saved))
    ensures OnePrimaryPerType(AfterEdit(list, editedId, saved))
    ensures saved.isPrimary ==>
              var r := AfterEdit(list, editedId, saved);
              forall i :: 0 <= i < |r| && r[i].isPrimary && r[i].kind == saved.kind ==> r[i] == saved
  {
  }

  /** Adding an address whose id is new keeps at most one primary per type
      (and unique ids); a primary new address is the only primary of its type. */
  lemma AddKeepsInvariants(list: seq<Address>, added: Address)
    requires OnePrimaryPerType(list) && !HasId(list, added.id)
    ensures OnePrimaryPerType(AfterAdd(list, added))
    ensures UniqueIds(list) ==> UniqueIds(AfterAdd(list, added))
    ensures added.isPrimary ==>
              var r := AfterAdd(list, added);
              forall i :: 0 <= i < |r| && r[i].isPrimary && r[i].kind == added.kind ==> i == |list|
  {
    var r := AfterAdd(list, added);
    forall i, j | 0 <= i < j < |r| && r[i].isPrimary && r[j].isPrimary
      ensures r[i].kind != r[j].kind
    {
      if j == |list| {
        assert list[i].id != added.id;
      }
    }
  }

  /** With unique ids, set-primary keeps at most one primary per type and makes
      the target the only primary of its type; an address of another type is
      never touched. */
  lemma SetPrimaryKeepsInvariants(list: seq<Address>, id: int)
    requires UniqueIds(list) && OnePrimaryPerType(list)
    ensures UniqueIds(AfterSetPrimary(list, id))
    ensures OnePrimaryPerType(AfterSetPrimary(list, id))
    ensures forall k :: 0 <= k < |list| && list[k].id == id ==>
              var r := AfterSetPrimary(list, id);
              r[k].isPrimary &&
              forall i :: 0 <= i < |r| && r[i].isPrimary && r[i].kind == list[k].kind ==> i == k
    ensures forall k :: 0 <= k < |list| && list[k].id == id ==>
              forall i :: 0 <= i < |list| && list[i].kind != list[k].kind ==> AfterSetPrimary(list, id)[i] == list[i]
  {
  }

  /** Set-primary of an id that no address carries changes nothing. */
  lemma SetPrimaryUnknownId(list: seq<Address>, id: int)
    requires !HasId(list, id)
    ensures AfterSetPrimary(list, id) == list
  {
    var r := AfterSetPrimary(list, id);
    forall i | 0 <= i < |list| ensures r[i] == list[i] {
      assert list[i].id != id;
    }
  }

  /** Delete drops exactly the addresses with that id, keeps every other one
      (in order, since the filter works piecewise) and keeps the invariants. */
  lemma RemoveKeepsInvariants(list: seq<Address>, id: int)
    ensures !HasId(RemoveById(list, id), id)
    ensures forall a: Address :: a.id != id ==> multiset(RemoveById(list, id))[a] == multiset(list)[a]
    ensures UniqueIds(list) ==> UniqueIds(RemoveById(list, id))
    ensures OnePrimaryPerType(list) ==> OnePrimaryPerType(RemoveById(list, id))
  {
    var p := (a: Address) => a.id == id;
    RejectMultiset(list, p);
    if UniqueIds(list) {
      RejectKeepsPairwise(list, p, (a: Address, b: Address) => a.id != b.id);
    }
    if OnePrimaryPerType(list) {
      RejectKeepsPairwise(list, p, (a: Address, b: Address) => !(a.isPrimary && b.isPrimary && a.kind == b.kind));
    }
  }

  // ---------------------------------------------------------------------
  // The screen's state

  /** The request in flight, with the list the handler's closure captured. */
  datatype Pending =
    | SaveRequest(editing: Option<Address>, body: AddressForm, base: seq<Address>)
    | PrimaryRequest(id: int, base: seq<Address>)

  /** What the server is assumed to do on a successful save: echo the edited
      id, or hand out an id not yet in the list. */
  predicate ServerKeepsIds(req: Pending, saved: Address)
    requires req.SaveRequest?
  {
    if req.editing.Some? then saved.id == req.editing.value.id else !HasId(req.base, saved.id)
  }

  class AddressBook {
    var addresses: seq<Address>
    var showModal: bool
    var editing: Option<Address>
    var form: AddressForm
    var isSaving: bool
    var pending: Option<Pending>

    /** `isSaving` is true exactly while a save or set-primary is in flight. */
    ghost predicate Valid()
      reads this
    {
      isSaving <==> pending.Some?
    }

    /** Both invariants hold on the list and on the list a pending request
        will build on. */
    ghost predicate Consistent()
      reads this
    {
      UniqueIds(addresses) && OnePrimaryPerType(addresses) &&
      (pending.Some? ==> UniqueIds(pending.value.base) && OnePrimaryPerType(pending.value.base))
    }

    constructor ()
      ensures Valid() && Consistent()
      ensures addresses == [] && !showModal && editing.None? && form == EmptyForm && !isSaving
    {
      addresses := [];
      showModal := false;
      editing := None;
      form := EmptyForm;
      isSaving := false;
      pending := None;
    }

    /** `fetchAddresses`: the server's list replaces the local one; a failure
        only logs. */
    method Fetch(fetched: Outcome<seq<Address>>)
      requires Valid()
      modifies this
      ensures Valid()
      ensures addresses == (if fetched.Ok? then fetched.value else old(addresses))
      ensures showModal == old(showModal) && editing == old(editing) && form == old(form)
      ensures isSaving == old(isSaving) && pending == old(pending)
    {
      if fetched.Ok? {
        addresses := fetched.value;
      }
    }

    /** `handleAddAddress`: a blank billing form in "add" mode. */
    method AddAddress()
      requires Valid()
      modifies this
      ensures Valid()
      ensures editing.None? && form == EmptyForm && showModal
      ensures addresses == old(addresses) && isSaving == old(isSaving) && pending == old(pending)
    {
      editing := None;
      form := EmptyForm;
      showModal := true;
    }

    /** `handleEditAddress`: the form is a copy of the address. */
    method EditAddress(a: Address)
      requires Valid()
      modifies this
      ensures Valid()
      ensures editing == Some(a) && form == FormOf(a) && showModal
      ensures addresses == old(addresses) && isSaving == old(isSaving) && pending == old(pending)
    {
      editing := Some(a);
      form := FormOf(a);
      showModal := true;
    }

    /** Typing in the sheet; the inputs are not editable while saving. */
    method ChangeForm(f: AddressForm)
      requires Valid()
      modifies this
      ensures Valid()
      ensures form == (if old(isSaving) then old(form) else f)
      ensures addresses == old(addresses) && showModal == old(showModal) && editing == old(editing)
      ensures isSaving == old(isSaving) && pending == old(pending)
    {
      if !isSaving {
        form := f;
      }
    }

    /** The sheet's `onDismiss`: ignored while saving. */
    method Dismiss()
      requires Valid()
      modifies this
      ensures Valid()
      ensures showModal == (old(showModal) && old(isSaving))
      ensures addresses == old(addresses) && editing == old(editing) && form == old(form)
      ensures isSaving == old(isSaving) && pending == old(pending)
    {
      if !isSaving {
        showModal := false;
      }
    }

    /** `handleDeleteAddress`, after the confirmation dialog: only the
        "Delete" choice sends the request; success filters the list and a
        failure shows the server's message or the fallback. */
    method Delete(id: int, confirmed: bool, deleted: Outcome<()>) returns (alert: Option<Alert>)
      requires Valid()
      modifies this
      ensures Valid() && (old(Consistent()) ==> Consistent())
      ensures confirmed && deleted.Ok? ==> addresses == RemoveById(old(addresses), id) && alert.None?
      ensures confirmed && deleted.Fail? ==>
                addresses == old(addresses) &&
                alert == Some(Alert("Error", OrElse(deleted.message, "Failed to delete address. Please try again.")))
      ensures !confirmed ==> addresses == old(addresses) && alert.None?
      ensures showModal == old(showModal) && editing == old(editing) && form == old(form)
      ensures isSaving == old(isSaving) && pending == old(pending)
    {
      alert := None;
      if !confirmed {
        return;
      }
      if deleted.Ok? {
        if old(Consistent()) {
          RemoveKeepsInvariants(addresses, id);
        }
        var updatedAddresses := RemoveById(addresses, id);
        addresses := updatedAddresses;
      } else {
        alert := Some(Alert("Error", OrElse(deleted.message, "Failed to delete address. Please try again.")));
      }
    }

    /** `handleSaveAddress` up to its request: ignored while saving; rejected
        with an alert and no request when a required field is empty. */
    method StartSave() returns (alert: Option<Alert>)
      requires Valid()
      modifies this
      ensures Valid() && (old(Consistent()) ==> Consistent())
      ensures old(isSaving) ==> alert.None? && pending == old(pending)
      ensures !old(isSaving) && MissingRequired(old(form)) ==>
                alert == Some(Alert("Error", RequiredFieldsMessage)) && !isSaving && pending.None?
      ensures !old(isSaving) && !MissingRequired(old(form)) ==>
                alert.None? && isSaving && pending == Some(SaveRequest(old(editing), old(form), old(addresses)))
      ensures addresses == old(addresses) && showModal == old(showModal) && editing == old(editing) && form == old(form)
    {
      alert := None;
      if isSaving {
        return;
      }
      if MissingRequired(form) {
        alert := Some(Alert("Error", RequiredFieldsMessage));
        return;
      }
      isSaving := true;
      pending := Some(SaveRequest(editing, form, addresses));
    }

    /** The rest of `handleSaveAddress`, once the request resolves. On success
        the list is rebuilt step by step from the captured list and the sheet
        closes; on failure the list and the sheet stay. `isSaving` ends false
        either way. */
    method FinishSave(saved: Outcome<Address>) returns (alert: Option<Alert>)
      requires Valid() && pending.Some? && pending.value.SaveRequest?
      modifies this
      ensures Valid() && !isSaving && pending.None?
      ensures saved.Ok? ==>
                var req := old(pending).value;
                addresses == (if req.editing.Some? then AfterEdit(req.base, req.editing.value.id, saved.value)
                              else AfterAdd(req.base, saved.value)) &&
                !showModal && alert.None?
      ensures saved.Ok? && old(Consistent()) && ServerKeepsIds(old(pending).value, saved.value) ==> Consistent()
      ensures saved.Fail? ==>
                addresses == old(addresses) && showModal == old(showModal) &&
                alert == Some(Alert("Error", OrElse(saved.message, "Failed to save address. Please try again.")))
      ensures editing == old(editing) && form == old(form)
    {
      var req := pending.value;
      alert := None;
      if saved.Ok? {
        var s := saved.value;
        var updatedAddresses: seq<Address>;
        if req.editing.Some? {
          updatedAddresses := ReplaceById(req.base, req.editing.value.id, s);
          if s.isPrimary {
            updatedAddresses := DemoteOthers(updatedAddresses, s.kind, s.id);
          }
          if old(Consistent()) && ServerKeepsIds(req, s) {
            EditKeepsInvariants(req.base, req.editing.value.id, s);
          }
        } else {
          updatedAddresses := req.base;
          if s.isPrimary {
            updatedAddresses := DemoteOthers(updatedAddresses, s.kind, s.id);
          }
          updatedAddresses := updatedAddresses + [s];
          if old(Consistent()) && ServerKeepsIds(req, s) {
            AddKeepsInvariants(req.base, s);
          }
        }
        addresses := updatedAddresses;
        showModal := false;
      } else {
        alert := Some(Alert("Error", OrElse(saved.message, "Failed to save address. Please try again.")));
      }
      isSaving := false;
      pending := None;
    }

    /** `handleSetPrimaryAddress` up to its request; ignored while saving. */
    method StartSetPrimary(id: int) returns (started: bool)
      requires Valid()
      modifies this
      ensures Valid() && (old(Consistent()) ==> Consistent())
      ensures started <==> !old(isSaving)
      ensures started ==> isSaving && pending == Some(PrimaryRequest(id, old(addresses)))
      ensures !started ==> pending == old(pending)
      ensures addresses == old(addresses) && showModal == old(showModal) && editing == old(editing) && form == old(form)
    {
      if isSaving {
        return false;
      }
      isSaving := true;
      pending := Some(PrimaryRequest(id, addresses));
      return true;
    }

    /** The rest of `handleSetPrimaryAddress`. */
    method FinishSetPrimary(done: Outcome<()>) returns (alert: Option<Alert>)
      requires Valid() && pending.Some? && pending.value.PrimaryRequest?
      modifies this
      ensures Valid() && !isSaving && pending.None?
      ensures done.Ok? ==> addresses == AfterSetPrimary(old(pending).value.base, old(pending).value.id) && alert.None?
      ensures done.Ok? && old(Consistent()) ==> Consistent()
      ensures done.Fail? ==>
                addresses == old(addresses) &&
                alert == Some(Alert("Error", OrElse(done.message, "Failed to set primary address. Please try again.")))
      ensures showModal == old(showModal) && editing == old(editing) && form == old(form)
    {
      var req := pending.value;
      alert := None;
      if done.Ok? {
        if old(Consistent()) {
          SetPrimaryKeepsInvariants(req.base, req.id);
        }
        addresses := AfterSetPrimary(req.base, req.id);
      } else {
        alert := Some(Alert("Error", OrElse(done.message, "Failed to set primary address. Please try again.")));
      }
      isSaving := false;
      pending := None;
    }
  }
}
