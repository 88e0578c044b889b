/**
  The request handlers of main.py that only read the store, the errors the
  handlers raise, and the predicates their guards test. A handler's
  `HTTPException` is an `Err` carrying one of the error kinds below.
 */
module Api {
  import opened Models
  import opened Query

  datatype Error =
    | EmailTaken      // 400 "Email already registered."
    | Forbidden       // 403 on a booking for someone else, a non-barber adding a service, a non-owner editing a salon
    | SlotTaken       // 400 "Barber is already booked at this time"
    | NotFound        // 404 for an unknown appointment or salon id
    | DuplicateName   // 400 "Salon name already registered."
    | OwnerNotFound   // 404 "Owner not found."

  datatype Result<+T> = Ok(value: T) | Err(error: Error)

  // ---------------------------------------------------------------------------
  // What the guards ask of the store

  ghost predicate EmailRegistered(users: seq<User>, email: string) {
    exists i :: 0 <= i < |users| && users[i].email == email
  }

  ghost predicate UserExists(users: seq<User>, id: int) {
    exists i :: 0 <= i < |users| && users[i].id == id
  }

  /** Some appointment already holds the slot (barber, time). */
  ghost predicate Booked(apps: seq<Appointment>, barberId: int, time: Time) {
    exists i :: 0 <= i < |apps| && apps[i].barberId == barberId && apps[i].time == time
  }

  ghost predicate NameRegistered(salons: seq<Salon>, name: string) {
    exists i :: 0 <= i < |salons| && salons[i].name == name
  }

  // ---------------------------------------------------------------------------
  // What the handlers keep true of the store

  ghost predicate UniqueEmails(users: seq<User>) {
    forall i, j :: 0 <= i < j < |users| ==> users[i].email != users[j].email
  }

  /** No two appointments share a (barber, time) slot. */
  ghost predicate NoDoubleBooking(apps: seq<Appointment>) {
    forall i, j :: 0 <= i < j < |apps| ==> !(apps[i].barberId == apps[j].barberId && apps[i].time == apps[j].time)
  }

  ghost predicate OwnersExist(salons: seq<Salon>, users: seq<User>) {
    forall i :: 0 <= i < |salons| ==> UserExists(users, salons[i].ownerId)
  }

  /** Registration keeps salon names unique; an update does not (see Properties). */
  ghost predicate UniqueSalonNames(salons: seq<Salon>) {
    forall i, j :: 0 <= i < j < |salons| ==> salons[i].name != salons[j].name
  }

  ghost predicate Consistent(users: seq<User>, services: seq<Service>, apps: seq<Appointment>, salons: seq<Salon>) {
    && DistinctKeys(users, UserKey)
    && DistinctKeys(services, ServiceKey)
    && DistinctKeys(apps, AppointmentKey)
    && DistinctKeys(salons, SalonKey)
    && UniqueEmails(users)
    && NoDoubleBooking(apps)
    && OwnersExist(salons, users)
  }

  // ---------------------------------------------------------------------------
  // Lookups by primary key

  /** Position of the first appointment carrying `id`, none when no appointment does. */
  function AppointmentIndex(apps: seq<Appointment>, id: int): (r: Option<nat>)
    ensures r.Some? ==> r.value < |apps| && apps[r.value].id == id
    ensures r.Some? ==> forall j :: 0 <= j < r.value ==> apps[j].id != id
    ensures r.None? <==> forall j :: 0 <= j < |apps| ==> apps[j].id != id
  {
    First(apps, (a: Appointment) => a.id == id)
  }

  /** Position of the first salon carrying `id`, none when no salon does. */
  function SalonIndex(salons: seq<Salon>, id: int): (r: Option<nat>)
    ensures r.Some? ==> r.value < |salons| && salons[r.value].id == id
    ensures r.Some? ==> forall j :: 0 <= j < r.value ==> salons[j].id != id
    ensures r.None? <==> forall j :: 0 <= j < |salons| ==> salons[j].id != id
  {
    First(salons, (s: Salon) => s.id == id)
  }

  // ---------------------------------------------------------------------------
  // Read-only handlers

  /** GET /appointments/{id}: the stored appointment with that id, or NotFound. */
  function GetAppointment(apps: seq<Appointment>, id: int): (r: Result<Appointment>)
    ensures r.Ok? <==> exists i :: 0 <= i < |apps| && apps[i].id == id
    ensures r.Ok? ==> r.value in apps && r.value.id == id
    ensures r.Err? ==> r.error == NotFound
  {
    match AppointmentIndex(apps, id)
    case None => Err(NotFound)
    case Some(k) => Ok(apps[k])
  }

  /** GET /appointments: every stored appointment, in store order. */
  function ListAppointments(apps: seq<Appointment>): (r: seq<Appointment>)
    ensures |r| == |apps| && forall i :: 0 <= i < |r| ==> r[i] == apps[i]
  {
    apps
  }

  /** GET /services/: every stored service, in store order. */
  function ListServices(services: seq<Service>): (r: seq<Service>)
    ensures |r| == |services| && forall i :: 0 <= i < |r| ==> r[i] == services[i]
  {
    services
  }

  /** GET /salons/{id}: the stored salon with that id, or NotFound. */
  function GetSalon(salons: seq<Salon>, id: int): (r: Result<Salon>)
    ensures r.Ok? <==> exists i :: 0 <= i < |salons| && salons[i].id == id
    ensures r.Ok? ==> r.value in salons && r.value.id == id
    ensures r.Err? ==> r.error == NotFound
  {
    match SalonIndex(salons, id)
    case None => Err(NotFound)
    case Some(k) => Ok(salons[k])
  }

  /** The name of the user a salon's `owner` relationship resolves to. */
  function OwnerName(users: seq<User>, ownerId: int): (name: string)
    requires UserExists(users, ownerId)
    ensures exists i :: 0 <= i < |users| && users[i].id == ownerId && users[i].name == name
  {
    var k := First(users, (u: User) => u.id == ownerId);
    users[k.value].name
  }

  /** The listing entry of one salon. */
  function SalonEntry(s: Salon, users: seq<User>): (e: SalonView)
    requires UserExists(users, s.ownerId)
    ensures e.id == s.id && e.name == s.name && e.address == s.address
    ensures e.description == if s.description.Some? then s.description.value else ""
    ensures exists j :: 0 <= j < |users| && users[j].id == s.ownerId && users[j].name == e.owner
  {
    SalonView(s.id, s.name, s.address, OwnerName(users, s.ownerId), s.description.GetOr(""))
  }

  /**
    GET /salons: one entry per stored salon, in store order, with the owner's
    name inlined and a missing description shown as "".
   */
  function ListSalons(salons: seq<Salon>, users: seq<User>): (r: seq<SalonView>)
    requires OwnersExist(salons, users)
    ensures |r| == |salons|
    ensures forall i :: 0 <= i < |r| ==>
      r[i].id == salons[i].id && r[i].name == salons[i].name && r[i].address == salons[i].address
    ensures forall i :: 0 <= i < |r| ==>
      exists j :: 0 <= j < |users| && users[j].id == salons[i].ownerId && users[j].name == r[i].owner
    ensures forall i :: 0 <= i < |r| ==>
      r[i].description == if salons[i].description.Some? then salons[i].description.value else ""
  {
    var r := seq(|salons|, i requires 0 <= i < |salons| => SalonEntry(salons[i], users));
    assert forall i :: 0 <= i < |r| ==> r[i] == SalonEntry(salons[i], users);
    r
  }
}
