/**
  A client of the store that replays a booking session end to end, using only
  the handlers' contracts: two customers and a barber register, the barber adds
  a service, a customer books a slot, the same slot is refused, a third user
  cannot book on the customer's behalf, and the barber's salon is listed with
  the owner's name and an empty description.
 */
module Scenarios {
  import opened Models
  import opened Query
  import opened Api
  import opened Handlers

  /** Customer A, barber B and customer C register in that order on an empty store. */
  method RegisterPeople(store: Store) returns (a: User, b: User, c: User)
    requires store.Valid()
    requires store.users == [] && store.services == [] && store.appointments == [] && store.salons == []
    modifies store
    ensures store.Valid()
    ensures store.users == [a, b, c] && store.services == [] && store.appointments == [] && store.salons == []
    ensures a.id == 1 && b.id == 2 && c.id == 3
    ensures b.name == "B" && b.isBarber
  {
    var ra := store.RegisterUser(UserCreate("A", "a@example.com", "secret-a", false), "digest-a");
    assert ra.Ok? && ra.value.id == 1;
    a := ra.value;
    assert "a@example.com" != "b@example.com" by { assert "a@example.com"[0] != "b@example.com"[0]; }
    var rb := store.RegisterUser(UserCreate("B", "b@example.com", "secret-b", true), "digest-b");
    assert rb.Ok? && rb.value.id == 2;
    b := rb.value;
    assert "c@example.com" !in {"a@example.com", "b@example.com"} by {
      assert "a@example.com"[0] != "c@example.com"[0] && "b@example.com"[0] != "c@example.com"[0];
    }
    var rc := store.RegisterUser(UserCreate("C", "c@example.com", "secret-c", false), "digest-c");
    assert rc.Ok? && rc.value.id == 3;
    c := rc.value;
  }

  /** A books B at time t twice, then C tries to book the same slot in A's name. */
  method BookTwice(store: Store, a: User, b: User, c: User, t: Time)
    returns (first: Result<Appointment>, again: Result<Appointment>, onBehalf: Result<Appointment>)
    requires store.Valid() && a in store.users && c in store.users && c.id != a.id
    requires !Booked(store.appointments, b.id, t)
    modifies store
    ensures store.Valid()
    ensures store.users == old(store.users) && store.salons == old(store.salons)
    ensures first.Ok? && first.value.userId == a.id && first.value.barberId == b.id && first.value.time == t
    ensures first.value.serviceId == None
    ensures again == Err(SlotTaken)
    ensures onBehalf == Err(Forbidden)
  {
    first := store.CreateAppointment(a, AppointmentCreate(a.id, b.id, t));
    assert Booked(store.appointments, b.id, t) by {
      assert store.appointments[|store.appointments| - 1] == first.value;
    }
    again := store.CreateAppointment(a, AppointmentCreate(a.id, b.id, t));
    onBehalf := store.CreateAppointment(c, AppointmentCreate(a.id, b.id, t));
  }

  method BookingSession(t: Time)
    returns (first: Result<Appointment>, again: Result<Appointment>, onBehalf: Result<Appointment>,
             listing: seq<SalonView>)
    ensures first.Ok? && first.value.userId == 1 && first.value.barberId == 2 && first.value.time == t
    ensures first.value.serviceId == None
    ensures again == Err(SlotTaken)
    ensures onBehalf == Err(Forbidden)
    ensures |listing| == 1
    ensures listing[0].name == "Cuts" && listing[0].owner == "B" && listing[0].description == ""
  {
    var store := new Store();
    var a, b, c := RegisterPeople(store);
    var haircut := store.AddService(b, ServiceCreate("Haircut", "A classic cut", 10));
    assert haircut.Ok?;
    first, again, onBehalf := BookTwice(store, a, b, c, t);

    var cuts := store.RegisterSalon(SalonCreate("Cuts", "1 Main Street", "omitted", b.id));
    assert UserExists(store.users, b.id) by { assert store.users[1] == b; }
    assert cuts.Ok? && store.salons == [cuts.value] && cuts.value.ownerId == 2;
    var users := store.users;
    listing := ListSalons(store.salons, users);
    var j :| 0 <= j < |users| && users[j].id == 2 && users[j].name == listing[0].owner;
    assert j == 1 by {
      assert j == 0 || j == 1 || j == 2;
    }
  }
}
