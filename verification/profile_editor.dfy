/**
 * The profile editor: a private copy of the user's profile whose recurring payments are added,
 * removed and edited field by field, and which is handed back to the application on save.
 */
module ProfileEditor {
  import opened Wrappers
  import opened Text
  import opened Domain

  /** One field edit of a recurring payment (`updateRecurring(id, field, value)`); an empty day
    * field reads as day 0 (`Number('')`). */
  datatype RecurringEdit =
    | SetName(name: string)
    | SetAmount(amount: real)
    | SetDay(day: Option<int>)
    | SetCategory(category: string)

  /** The payment with the edited field: `{ ...r, [field]: value }`. */
  function Edited(r: RecurringPayment, e: RecurringEdit): (s: RecurringPayment)
    ensures s.id == r.id
    ensures e.SetName? ==> s == r.(name := e.name)
    ensures e.SetAmount? ==> s == r.(amount := e.amount)
    ensures e.SetDay? ==> s == r.(day := if e.day.Some? then e.day.value else 0)
    ensures e.SetCategory? ==> s == r.(category := e.category)
  {
    match e
    case SetName(n) => r.(name := n)
    case SetAmount(a) => r.(amount := a)
    case SetDay(d) => r.(day := if d.Some? then d.value else 0)
    case SetCategory(c) => r.(category := c)
  }

  /** `recurringPayments.map(r => r.id === id ? edited : r)`. */
  function Updated(ps: seq<RecurringPayment>, id: string, e: RecurringEdit): (r: seq<RecurringPayment>)
    ensures |r| == |ps|
    ensures forall i :: 0 <= i < |ps| ==> r[i].id == ps[i].id
    ensures forall i :: 0 <= i < |ps| && ps[i].id != id ==> r[i] == ps[i]
    ensures forall i :: 0 <= i < |ps| && ps[i].id == id ==> r[i] == Edited(ps[i], e)
  {
    seq(|ps|, i requires 0 <= i < |ps| => if ps[i].id == id then Edited(ps[i], e) else ps[i])
  }

  /** `recurringPayments.filter(r => r.id !== id)`. */
  function WithoutPayment(ps: seq<RecurringPayment>, id: string): (r: seq<RecurringPayment>)
    ensures forall p :: p in r <==> p in ps && p.id != id
    ensures |r| <= |ps|
    ensures |ps| == 1 ==> r == if ps[0].id != id then ps else []
  {
    if |ps| == 0 then []
    else
      var rest := WithoutPayment(ps[1..], id);
      assert forall p :: p in ps <==> p == ps[0] || p in ps[1..];
      if ps[0].id != id then [ps[0]] + rest else rest
  }

  /** The filter keeps the other payments in their order and with their multiplicity: it
    * distributes over concatenation (and keeps or drops a single payment by its id). */
  lemma {:induction false} WithoutPaymentAppend(a: seq<RecurringPayment>, b: seq<RecurringPayment>, id: string)
    ensures WithoutPayment(a + b, id) == WithoutPayment(a, id) + WithoutPayment(b, id)
  {
    if |a| > 0 {
      var head := if a[0].id != id then [a[0]] else [];
      assert (a + b)[0] == a[0] && (a + b)[1..] == a[1..] + b;
      assert WithoutPayment(a + b, id) == head + WithoutPayment(a[1..] + b, id);
      assert WithoutPayment(a, id) == head + WithoutPayment(a[1..], id);
      WithoutPaymentAppend(a[1..], b, id);
    } else {
      assert a + b == b;
    }
  }

  /** The payment `addRecurring` appends at the moment `nowMs`. */
  function NewPayment(nowMs: nat): (p: RecurringPayment)
    ensures p.id == "rec_" + NatToString(nowMs)
    ensures p.day == 1 && p.amount == 0.0 && p.name == "Yeni Ödeme" && p.category == "Diğer"
  {
    RecurringPayment("rec_" + NatToString(nowMs), 1, 0.0, "Yeni Ödeme", "Diğer")
  }

  /** Repeating an edit changes nothing more. */
  lemma UpdateIdempotent(ps: seq<RecurringPayment>, id: string, e: RecurringEdit)
    ensures Updated(Updated(ps, id, e), id, e) == Updated(ps, id, e)
  {
    var once := Updated(ps, id, e);
    var twice := Updated(once, id, e);
    forall i | 0 <= i < |ps| ensures twice[i] == once[i] {
      if ps[i].id == id {
        assert Edited(Edited(ps[i], e), e) == Edited(ps[i], e);
      }
    }
  }

  /** Removing a payment discards any edit made to it; the filter keeps the other payments. */
  lemma {:induction false} RemoveAfterUpdate(ps: seq<RecurringPayment>, id: string, e: RecurringEdit)
    ensures WithoutPayment(Updated(ps, id, e), id) == WithoutPayment(ps, id)
  {
    if |ps| > 0 {
      var u := Updated(ps, id, e);
      assert u[1..] == Updated(ps[1..], id, e);
      RemoveAfterUpdate(ps[1..], id, e);
    }
  }

  lemma {:induction false} WithoutAbsentPayment(ps: seq<RecurringPayment>, id: string)
    requires forall p :: p in ps ==> p.id != id
    ensures WithoutPayment(ps, id) == ps
  {
    if |ps| > 0 {
      assert ps[0] in ps;
      assert forall p :: p in ps[1..] ==> p in ps;
      WithoutAbsentPayment(ps[1..], id);
    }
  }

  /** Removing a payment that was just added (under a new id) restores the list. */
  lemma {:induction false} RemoveAfterAdd(ps: seq<RecurringPayment>, p: RecurringPayment)
    requires forall q :: q in ps ==> q.id != p.id
    ensures WithoutPayment(ps + [p], p.id) == ps
  {
    if |ps| == 0 {
      assert ps + [p] == [p];
    } else {
      assert (ps + [p])[1..] == ps[1..] + [p];
      assert ps[0] in ps;
      assert forall q :: q in ps[1..] ==> q in ps;
      RemoveAfterAdd(ps[1..], p);
    }
  }

  class Editor {
    var profile: Profile
    var saved: bool

    /** The editor starts from a copy of the user's profile, not yet saved. */
    constructor(userProfile: Profile)
      ensures profile == userProfile && !saved
    {
      profile := userProfile;
      saved := false;
    }

    /** `handleSave()`: the edited profile is handed to the application and `saved` is shown. */
    method Save() returns (handed: Profile)
      modifies this
      ensures handed == profile == old(profile) && saved
    {
      handed := profile;
      saved := true;
    }

    /** The timer two seconds after a save hides `saved` again. */
    method SavedTimeout()
      modifies this
      ensures !saved && profile == old(profile)
    {
      saved := false;
    }

    /** `addRecurring()` at the moment `nowMs`: one new payment is appended. */
    method AddRecurring(nowMs: nat)
      modifies this
      ensures profile == old(profile).(recurring := old(profile).recurring + [NewPayment(nowMs)])
      ensures saved == old(saved)
    {
      profile := profile.(recurring := profile.recurring + [NewPayment(nowMs)]);
    }

    /** `removeRecurring(id)`. */
    method RemoveRecurring(id: string)
      modifies this
      ensures profile == old(profile).(recurring := WithoutPayment(old(profile).recurring, id))
      ensures saved == old(saved)
    {
      profile := profile.(recurring := WithoutPayment(profile.recurring, id));
    }

    /** `updateRecurring(id, field, value)`. */
    method UpdateRecurring(id: string, e: RecurringEdit)
      modifies this
      ensures profile == old(profile).(recurring := Updated(old(profile).recurring, id, e))
      ensures saved == old(saved)
    {
      profile := profile.(recurring := Updated(profile.recurring, id, e));
    }
  }
}
