/** The customer's saved payment methods: a list replaced by the fetch, a
    set-default that leaves exactly the chosen id marked, and delete by id. */
module PaymentMethods {
  import opened Common

  datatype PaymentMethod = PaymentMethod(
    id: int,
    last4: string,
    brand: string,
    expMonth: int,
    expYear: int,
    isDefault: bool)

  /** `paymentMethods.map(pm => ({ ...pm, is_default: pm.id === id }))`. */
  function WithDefault(list: seq<PaymentMethod>, id: int): (r: seq<PaymentMethod>)
    ensures |r| == |list|
    ensures forall i :: 0 <= i < |list| ==> r[i].(isDefault := list[i].isDefault) == list[i]
    ensures forall i :: 0 <= i < |list| ==> (r[i].isDefault <==> r[i].id == id)
  {
    seq(|list|, i requires 0 <= i < |list| => list[i].(isDefault := list[i].id == id))
  }

  /** `paymentMethods.filter(pm => pm.id !== id)`. */
  function RemoveById(list: seq<PaymentMethod>, id: int): (r: seq<PaymentMethod>)
    ensures |r| <= |list|
    ensures forall m :: m in r <==> m in list && m.id != id
  {
    var hasId := (m: PaymentMethod) => m.id == id;
    RejectIn(list, hasId);
    Reject(list, hasId)
  }

  function CountDefaults(list: seq<PaymentMethod>): nat {
    if list == [] then 0 else (if list[0].isDefault then 1 else 0) + CountDefaults(list[1..])
  }

  function CountId(list: seq<PaymentMethod>, id: int): nat {
    if list == [] then 0 else (if list[0].id == id then 1 else 0) + CountId(list[1..], id)
  }

  /** After set-default the number of default methods is the number of
      methods carrying the id: exactly one when the id occurs once, none when
      it is absent. */
  lemma {:induction false} DefaultCount(list: seq<PaymentMethod>, id: int)
    ensures CountDefaults(WithDefault(list, id)) == CountId(list, id)
  {
    if list != [] {
      DefaultCount(list[1..], id);
      assert WithDefault(list, id)[1..] == WithDefault(list[1..], id);
    }
  }

  /** With unique ids an id that occurs counts once, so a successful
      set-default leaves exactly one default method. */
  lemma {:induction false} ExactlyOneDefault(list: seq<PaymentMethod>, k: nat)
    requires forall i, j :: 0 <= i < j < |list| ==> list[i].id != list[j].id
    requires k < |list|
    ensures CountId(list, list[k].id) == 1
    ensures CountDefaults(WithDefault(list, list[k].id)) == 1
  {
    var id := list[k].id;
    var tail := list[1..];
    if k == 0 {
      assert forall i :: 0 <= i < |tail| ==> tail[i].id != id by {
        forall i | 0 <= i < |tail| ensures tail[i].id != id {
          assert tail[i] == list[i + 1];
        }
      }
      CountIdAbsent(tail, id);
    } else {
      assert tail[k - 1] == list[k];
      assert forall i, j :: 0 <= i < j < |tail| ==> tail[i].id != tail[j].id by {
        forall i, j | 0 <= i < j < |tail| ensures tail[i].id != tail[j].id {
          assert tail[i] == list[i + 1] && tail[j] == list[j + 1];
        }
      }
      ExactlyOneDefault(tail, k - 1);
    }
    DefaultCount(list, id);
  }

  lemma {:induction false} CountIdAbsent(list: seq<PaymentMethod>, id: int)
    requires forall i :: 0 <= i < |list| ==> list[i].id != id
    ensures CountId(list, id) == 0
  {
    if list != [] {
      assert forall i :: 0 <= i < |list[1..]| ==> list[1..][i] == list[i + 1];
      CountIdAbsent(list[1..], id);
    }
  }

  /** Set-default is idempotent, and it forgets which method was default before. */
  lemma WithDefaultIdempotent(list: seq<PaymentMethod>, id: int)
    ensures WithDefault(WithDefault(list, id), id) == WithDefault(list, id)
  {
  }

  lemma CountsOfCons(x: PaymentMethod, t: seq<PaymentMethod>, id: int)
    ensures CountId([x] + t, id) == (if x.id == id then 1 else 0) + CountId(t, id)
    ensures CountDefaults([x] + t) == (if x.isDefault then 1 else 0) + CountDefaults(t)
  {
    assert ([x] + t)[1..] == t;
  }

  /** `RemoveById` peels off one element at a time. */
  lemma RemoveByIdCons(list: seq<PaymentMethod>, id: int)
    requires list != []
    ensures RemoveById(list, id) == (if list[0].id == id then [] else [list[0]]) + RemoveById(list[1..], id)
  {
  }

  /** Delete drops every method with that id. */
  lemma {:induction false} RemoveDropsId(list: seq<PaymentMethod>, id: int)
    ensures CountId(RemoveById(list, id), id) == 0
  {
    if list != [] {
      RemoveDropsId(list[1..], id);
      RemoveByIdCons(list, id);
      if list[0].id != id {
        CountsOfCons(list[0], RemoveById(list[1..], id), id);
      } else {
        assert [] + RemoveById(list[1..], id) == RemoveById(list[1..], id);
      }
    }
  }

  /** Delete keeps every other method with its multiplicity. */
  lemma RemoveKeepsOthers(list: seq<PaymentMethod>, id: int)
    ensures forall m: PaymentMethod :: m.id != id ==> multiset(RemoveById(list, id))[m] == multiset(list)[m]
  {
    RejectMultiset(list, (m: PaymentMethod) => m.id == id);
  }

  /** The default flag of the kept methods is untouched, so deleting methods
      that are not the default never changes how many defaults there are. */
  lemma {:induction false} RemoveNonDefaultKeepsDefaults(list: seq<PaymentMethod>, id: int)
    requires forall i :: 0 <= i < |list| && list[i].id == id ==> !list[i].isDefault
    ensures CountDefaults(RemoveById(list, id)) == CountDefaults(list)
  {
    if list != [] {
      assert list[0].id == id ==> !list[0].isDefault;
      assert forall i :: 0 <= i < |list[1..]| ==> list[1..][i] == list[i + 1];
      RemoveNonDefaultKeepsDefaults(list[1..], id);
      RemoveByIdCons(list, id);
      if list[0].id != id {
        CountsOfCons(list[0], RemoveById(list[1..], id), id);
      } else {
        assert [] + RemoveById(list[1..], id) == RemoveById(list[1..], id);
      }
    }
  }

  /** The "Set Default" button is offered only for a method that is not
      already the default. */
  predicate OffersSetDefault(m: PaymentMethod) {
    !m.isDefault
  }

  const ComingSoon := Alert("Add Payment Method",
    "This feature will be available soon. We're working on integrating secure payment processing.")

  class PaymentMethodsSection {
    var methods: seq<PaymentMethod>
    var isLoading: bool

    constructor ()
      ensures methods == [] && isLoading
    {
      methods := [];
      isLoading := true;
    }

    /** `fetchPaymentMethods`: the server's list replaces the local one, and
        loading ends on both paths. */
    method Fetch(fetched: Outcome<seq<PaymentMethod>>)
      modifies this
      ensures methods == (if fetched.Ok? then fetched.value else old(methods))
      ensures !isLoading
    {
      if fetched.Ok? {
        methods := fetched.value;
      }
      isLoading := false;
    }

    /** `handleAddPaymentMethod`: only an informational alert. */
    method AddPaymentMethod() returns (alert: Alert)
      ensures alert == ComingSoon
    {
      alert := ComingSoon;
    }

    /** `handleSetDefault`. */
    method SetDefault(id: int, done: Outcome<()>) returns (alert: Option<Alert>)
      modifies this
      ensures done.Ok? ==> methods == WithDefault(old(methods), id) && alert.None?
      ensures done.Ok? ==> CountDefaults(methods) == CountId(old(methods), id)
      ensures done.Fail? ==>
                methods == old(methods) &&
                alert == Some(Alert("Error", "Failed to set default payment method. Please try again."))
      ensures isLoading == old(isLoading)
    {
      alert := None;
      if done.Ok? {
        DefaultCount(methods, id);
        methods := WithDefault(methods, id);
      } else {
        alert := Some(Alert("Error", "Failed to set default payment method. Please try again."));
      }
    }

    /** `handleDeletePaymentMethod`, after the confirmation dialog. */
    method Delete(id: int, confirmed: bool, deleted: Outcome<()>) returns (alert: Option<Alert>)
      modifies this
      ensures confirmed && deleted.Ok? ==> methods == RemoveById(old(methods), id) && alert.None?
      ensures confirmed && deleted.Fail? ==>
                methods == old(methods) &&
                alert == Some(Alert("Error", "Failed to delete payment method. Please try again."))
      ensures !confirmed ==> methods == old(methods) && alert.None?
      ensures isLoading == old(isLoading)
    {
      alert := None;
      if !confirmed {
        return;
      }
      if deleted.Ok? {
        methods := RemoveById(methods, id);
      } else {
        alert := Some(Alert("Error", "Failed to delete payment method. Please try again."));
      }
    }
  }
}
