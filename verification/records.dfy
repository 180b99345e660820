/**
 * The stored records (the `$fillable` fields of the Eloquent models plus
 * the key) and an in-memory stand-in for the database: one sequence of
 * rows per table, looked up by primary key as `Client::find` does.
 */
module Records {
  import opened Base
  import opened CalendarDates

  datatype Client = Client(id: nat, firstName: string, lastName: string, phone: Option<string>, email: Option<string>)

  datatype Dog = Dog(id: nat, clientId: nat, name: string, breed: Option<string>, notes: Option<string>)

  /** `starts_at` is cast to a Carbon datetime, so a stored value is a moment or null. */
  datatype Appointment = Appointment(
    id: nat,
    clientId: nat,
    dogId: nat,
    startsAt: Option<Moment>,
    status: string,
    notes: Option<string>)

  datatype Db = Db(clients: seq<Client>, dogs: seq<Dog>, appointments: seq<Appointment>)

  const Pending := "pending"
  const Confirmed := "confirmed"
  const Cancelled := "cancelled"

  /** The first row whose key is `id`, or nothing when no row has that key. */
  function Find<T>(rows: seq<T>, key: T -> nat, id: nat): (r: Option<T>)
    ensures r.Some? ==> r.value in rows && key(r.value) == id
    ensures r.None? <==> forall k :: 0 <= k < |rows| ==> key(rows[k]) != id
    decreases |rows|
  {
    if rows == [] then None
    else if key(rows[0]) == id then Some(rows[0])
    else
      var r := Find(rows[1..], key, id);
      assert forall k :: 1 <= k < |rows| ==> rows[k] == rows[1..][k - 1];
      r
  }

  function FindClient(db: Db, id: nat): Option<Client> {
    Find(db.clients, (c: Client) => c.id, id)
  }

  function FindDog(db: Db, id: nat): Option<Dog> {
    Find(db.dogs, (d: Dog) => d.id, id)
  }

  /** `$client?->phone`: null when there is no client. */
  function PhoneOf(client: Option<Client>): Option<string> {
    if client.Some? then client.value.phone else None
  }

  /** `$client?->first_name`. */
  function FirstNameOf(client: Option<Client>): Option<string> {
    if client.Some? then Some(client.value.firstName) else None
  }

  /** `$dog?->name`. */
  function DogNameOf(dog: Option<Dog>): Option<string> {
    if dog.Some? then Some(dog.value.name) else None
  }
}
