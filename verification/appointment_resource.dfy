/**
 * The reactive parts of the appointment form and table in
 * `AppointmentResource`: resetting the dog when the client changes,
 * deriving the status when the start time changes, the client's dog
 * options, and the status label, badge colour and row class.
 */
module AppointmentResource {
  import opened Base
  import opened Text
  import opened Records

  /** The form's field values as `$get` reads them; a blank select is null. */
  datatype AppointmentForm = AppointmentForm(
    clientId: Option<nat>,
    dogId: Option<nat>,
    startsAt: Option<string>,
    status: string,
    notes: Option<string>)

  /** `client_id`'s `afterStateUpdated`: the dog is cleared, nothing else changes. */
  function AfterClientUpdated(f: AppointmentForm, client: Option<nat>): (r: AppointmentForm)
    ensures r.clientId == client && r.dogId.None?
    ensures r.startsAt == f.startsAt && r.status == f.status && r.notes == f.notes
  {
    f.(clientId := client, dogId := None)
  }

  /**
   * `starts_at`'s `afterStateUpdated`: the status becomes "confirmed"
   * exactly when the new value is filled and "pending" otherwise. Unlike
   * the saving hook, a "cancelled" status is overwritten.
   */
  function AfterStartsAtUpdated(f: AppointmentForm, state: Option<string>): (r: AppointmentForm)
    ensures r.startsAt == state
    ensures r.status == Confirmed <==> Filled(state)
    ensures r.status == Pending <==> Blank(state)
    ensures r.clientId == f.clientId && r.dogId == f.dogId && r.notes == f.notes
  {
    f.(startsAt := state, status := if Filled(state) then Confirmed else Pending)
  }

  /** A cancelled appointment whose start time is edited in the form is no longer cancelled. */
  lemma StartsAtEditUncancels(f: AppointmentForm, state: Option<string>)
    requires f.status == Cancelled
    ensures AfterStartsAtUpdated(f, state).status != Cancelled
  {
  }

  /** The dog select is disabled while no client is chosen. */
  predicate DogSelectDisabled(f: AppointmentForm) {
    f.clientId.None?
  }

  /** While the dog select is disabled it offers nothing. */
  lemma DisabledDogSelectIsEmpty(db: Db, f: AppointmentForm)
    requires DogSelectDisabled(f)
    ensures DogOptions(db, f.clientId) == []
  {
  }

  /** The client's dogs, in table order. */
  function OwnDogs(dogs: seq<Dog>, clientId: nat): (r: seq<Dog>)
    ensures forall d :: d in r <==> d in dogs && d.clientId == clientId
    ensures forall k :: 0 <= k < |r| ==> r[k].clientId == clientId
    ensures multiset(r) <= multiset(dogs)
    decreases |dogs|
  {
    if dogs == [] then []
    else
      var rest := OwnDogs(dogs[1..], clientId);
      assert dogs == [dogs[0]] + dogs[1..];
      if dogs[0].clientId == clientId then [dogs[0]] + rest else rest
  }

  /** Each of the client's dogs is kept as often as it is stored, and no other dog is kept. */
  lemma {:induction false} OwnDogsCount(dogs: seq<Dog>, clientId: nat, d: Dog)
    ensures multiset(OwnDogs(dogs, clientId))[d] == if d.clientId == clientId then multiset(dogs)[d] else 0
    decreases |dogs|
  {
    if dogs != [] {
      var h, t := dogs[0], dogs[1..];
      OwnDogsCount(t, clientId, d);
      assert multiset(dogs) == multiset{h} + multiset(t) by {
        assert dogs == [h] + t;
      }
      if h.clientId == clientId {
        assert multiset(OwnDogs(dogs, clientId)) == multiset{h} + multiset(OwnDogs(t, clientId));
      }
    }
  }

  /** Lexicographic order on code points, the `orderBy('name')` collation assumed here. */
  predicate NameLe(a: string, b: string)
    decreases |a|
  {
    a == [] || (b != [] && (a[0] < b[0] || (a[0] == b[0] && NameLe(a[1..], b[1..]))))
  }

  lemma {:induction false} NameLeTotal(a: string, b: string)
    ensures NameLe(a, b) || NameLe(b, a)
    decreases |a|
  {
    if a != [] && b != [] && a[0] == b[0] {
      NameLeTotal(a[1..], b[1..]);
    }
  }

  lemma {:induction false} NameLeTransitive(a: string, b: string, c: string)
    requires NameLe(a, b) && NameLe(b, c)
    ensures NameLe(a, c)
    decreases |a|
  {
    if a != [] && b != [] && c != [] && a[0] == b[0] && b[0] == c[0] {
      NameLeTransitive(a[1..], b[1..], c[1..]);
    }
  }

  predicate SortedByName(ds: seq<Dog>) {
    forall k :: 0 <= k < |ds| - 1 ==> NameLe(ds[k].name, ds[k + 1].name)
  }

  /** Sortedness of neighbours gives sortedness of every pair. */
  lemma {:induction false} SortedPairwise(ds: seq<Dog>, i: int, j: int)
    requires SortedByName(ds) && 0 <= i <= j < |ds|
    ensures NameLe(ds[i].name, ds[j].name)
    decreases j - i
  {
    if i == j {
      NameLeTotal(ds[i].name, ds[i].name);
    } else {
      SortedPairwise(ds, i + 1, j);
      NameLeTransitive(ds[i].name, ds[i + 1].name, ds[j].name);
    }
  }

  /** A dog placed before a sorted list that starts no lower keeps it sorted. */
  lemma SortedCons(d: Dog, ds: seq<Dog>)
    requires SortedByName(ds) && (ds == [] || NameLe(d.name, ds[0].name))
    ensures SortedByName([d] + ds)
  {
    var r := [d] + ds;
    assert forall k :: 1 <= k < |r| ==> r[k] == ds[k - 1];
  }

  /** Inserts one dog into a name-sorted list. */
  function InsertByName(d: Dog, ds: seq<Dog>): (r: seq<Dog>)
    requires SortedByName(ds)
    ensures SortedByName(r)
    ensures multiset(r) == multiset(ds) + multiset{d}
    ensures |r| == |ds| + 1
    ensures r[0] == d || (ds != [] && r[0] == ds[0])
    decreases |ds|
  {
    if ds == [] then [d]
    else if NameLe(d.name, ds[0].name) then
      SortedCons(d, ds);
      [d] + ds
    else
      NameLeTotal(d.name, ds[0].name);
      var rest := InsertByName(d, ds[1..]);
      assert ds == [ds[0]] + ds[1..];
      assert NameLe(ds[0].name, rest[0].name) by {
        if rest[0] != d {
          assert rest[0] == ds[1];
        }
      }
      SortedCons(ds[0], rest);
      [ds[0]] + rest
  }

  /** Insertion sort by name: a name-sorted permutation of the input. */
  function SortByName(ds: seq<Dog>): (r: seq<Dog>)
    ensures SortedByName(r)
    ensures multiset(r) == multiset(ds)
    decreases |ds|
  {
    if ds == [] then []
    else
      assert ds == [ds[0]] + ds[1..];
      InsertByName(ds[0], SortByName(ds[1..]))
  }

  /**
   * The dogs offered by the `dog_id` select: none while the client is
   * blank; otherwise every dog of that client, each as often as it is
   * stored, ordered by name.
   */
  function DogsForClient(db: Db, clientId: Option<nat>): (r: seq<Dog>)
    ensures clientId.None? ==> r == []
    ensures clientId.Some? ==> SortedByName(r)
    ensures clientId.Some? ==> multiset(r) == multiset(OwnDogs(db.dogs, clientId.value))
    ensures forall d :: d in r <==> clientId.Some? && d in db.dogs && d.clientId == clientId.value
  {
    if clientId.None? then []
    else
      var r := SortByName(OwnDogs(db.dogs, clientId.value));
      assert forall d :: d in r <==> d in multiset(r);
      r
  }

  /** `->pluck('name', 'id')`: the select's id and label pairs, in the same order. */
  function DogOptions(db: Db, clientId: Option<nat>): (r: seq<(nat, string)>)
    ensures var ds := DogsForClient(db, clientId);
      |r| == |ds| && forall k :: 0 <= k < |r| ==> r[k] == (ds[k].id, ds[k].name)
  {
    var ds := DogsForClient(db, clientId);
    seq(|ds|, k requires 0 <= k < |ds| => (ds[k].id, ds[k].name))
  }

  /** The status select's options: stored value to Italian label. */
  const StatusOptions: map<string, string> :=
    map[Pending := "In attesa", Confirmed := "Confermata", Cancelled := "Annullata"]

  /**
   * The table's status badge text: a known status reads as the label the
   * form's select shows for it; any other string is shown as it is.
   */
  function StatusLabel(s: string): (r: string)
    ensures s in StatusOptions ==> r == StatusOptions[s]
    ensures s !in StatusOptions ==> r == s
  {
    if s == Pending then "In attesa"
    else if s == Confirmed then "Confermata"
    else if s == Cancelled then "Annullata"
    else s
  }

  /**
   * The badge colour: "warning", "success" or "danger" for the known
   * statuses, and "gray" exactly for the statuses the select does not offer.
   */
  function StatusColor(s: string): (r: string)
    ensures r == "gray" <==> s !in StatusOptions
    ensures r == "success" <==> s == Confirmed
    ensures r == "warning" <==> s == Pending
    ensures r == "danger" <==> s == Cancelled
  {
    if s == Pending then "warning"
    else if s == Confirmed then "success"
    else if s == Cancelled then "danger"
    else "gray"
  }

  /** The row class: highlighted exactly for rows whose badge is green ("success"). */
  function RowClass(a: Appointment): (r: string)
    ensures r == "bg-green-50" <==> StatusColor(a.status) == "success"
    ensures r == "" <==> a.status != Confirmed
  {
    if a.status == Confirmed then "bg-green-50" else ""
  }
}
