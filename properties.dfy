/**
  Properties that relate several handlers of main.py to one another: what a
  successful write means for the reads that follow it, and which store-wide
  invariants the writes keep.
 */
module Properties {
  import opened Models
  import opened Query
  import opened Api
  import opened Handlers

  // ---------------------------------------------------------------------------
  // Bookings

  /** Appending a booking for a free slot keeps every slot held at most once. */
  lemma BookingKeepsSlotsUnique(apps: seq<Appointment>, a: Appointment)
    requires NoDoubleBooking(apps)
    requires !Booked(apps, a.barberId, a.time)
    ensures NoDoubleBooking(apps + [a])
  {
  }

  /** Once a booking is stored, its barber's slot at that time counts as taken. */
  lemma BookedAfterBooking(apps: seq<Appointment>, a: Appointment)
    ensures Booked(apps + [a], a.barberId, a.time)
  {
    assert (apps + [a])[|apps|] == a;
  }

  /** With distinct ids, looking up a stored appointment's id returns that appointment. */
  lemma GetFindsStoredAppointment(apps: seq<Appointment>, i: nat)
    requires DistinctKeys(apps, AppointmentKey)
    requires i < |apps|
    ensures GetAppointment(apps, apps[i].id) == Ok(apps[i])
  {
  }

  /**
    A successful booking is readable under its new id, and every other id
    reads as before.
   */
  lemma GetAfterBooking(apps: seq<Appointment>, a: Appointment, id: int)
    requires a.id == NextId(apps, AppointmentKey)
    ensures GetAppointment(apps + [a], a.id) == Ok(a)
    ensures id != a.id ==> GetAppointment(apps + [a], id) == GetAppointment(apps, id)
  {
    var apps' := apps + [a];
    assert forall j :: 0 <= j < |apps| ==> apps'[j] == apps[j];
    assert apps'[|apps|] == a;
    assert forall j :: 0 <= j < |apps| ==> AppointmentKey(apps[j]) < a.id;
    if id != a.id {
      match AppointmentIndex(apps, id)
      case None =>
      case Some(k) =>
        assert apps'[k] == apps[k];
    }
  }

  // ---------------------------------------------------------------------------
  // Salon updates and deletions

  /** After an update, the updated salon reads back under its id. */
  lemma GetAfterUpdate(salons: seq<Salon>, k: nat, s: Salon)
    requires DistinctKeys(salons, SalonKey)
    requires k < |salons| && s.id == salons[k].id
    ensures GetSalon(salons[k := s], s.id) == Ok(s)
  {
    var salons' := salons[k := s];
    assert salons'[k].id == s.id;
    var m := SalonIndex(salons', s.id).value;
    assert m < k || m > k ==> SalonKey(salons[m]) == SalonKey(salons[k]);
  }

  /** Replacing one salon by a record with the same id leaves every other id's lookup unchanged. */
  lemma UpdateLeavesOtherSalons(salons: seq<Salon>, k: nat, s: Salon, id: int)
    requires k < |salons| && s.id == salons[k].id
    requires id != s.id
    ensures GetSalon(salons[k := s], id) == GetSalon(salons, id)
  {
    var salons' := salons[k := s];
    assert forall j :: 0 <= j < |salons| && j != k ==> salons'[j] == salons[j];
    match SalonIndex(salons, id)
    case None =>
      assert forall j :: 0 <= j < |salons'| ==> salons'[j].id != id;
    case Some(m) =>
      assert m != k;
      match SalonIndex(salons', id)
      case None =>
        assert salons'[m] == salons[m];
      case Some(m') =>
        assert m' != k && salons'[m'] == salons[m'];
  }

  /** After a delete with distinct ids, the deleted id is NotFound. */
  lemma DeletedSalonIsGone(salons: seq<Salon>, k: nat)
    requires DistinctKeys(salons, SalonKey)
    requires k < |salons|
    ensures GetSalon(salons[..k] + salons[k + 1..], salons[k].id) == Err(NotFound)
  {
  }

  /** A delete leaves the lookup of every other id unchanged. */
  lemma DeleteLeavesOtherSalons(salons: seq<Salon>, k: nat, id: int)
    requires k < |salons|
    requires id != salons[k].id
    ensures GetSalon(salons[..k] + salons[k + 1..], id) == GetSalon(salons, id)
  {
    var rest := salons[..k] + salons[k + 1..];
    RemovedPositions(salons, k, rest);
    match SalonIndex(salons, id)
    case None =>
      assert forall i :: 0 <= i < |rest| ==> rest[i].id != id;
    case Some(m) =>
      DeleteKeepsFirstMatch(salons, k, rest, id, m);
  }

  /** Where each remaining salon sat before the removal of position k. */
  lemma RemovedPositions(salons: seq<Salon>, k: nat, rest: seq<Salon>)
    requires k < |salons| && rest == salons[..k] + salons[k + 1..]
    ensures |rest| == |salons| - 1
    ensures forall i :: 0 <= i < |rest| ==> rest[i] == salons[if i < k then i else i + 1]
  {
  }

  /** The first salon carrying an id other than the removed one is still the first after the removal. */
  lemma DeleteKeepsFirstMatch(salons: seq<Salon>, k: nat, rest: seq<Salon>, id: int, m: nat)
    requires k < |salons| && id != salons[k].id
    requires |rest| == |salons| - 1
    requires forall i :: 0 <= i < |rest| ==> rest[i] == salons[if i < k then i else i + 1]
    requires SalonIndex(salons, id) == Some(m)
    ensures SalonIndex(rest, id) == Some(if m < k then m else m - 1)
  {
    var m' := if m < k then m else m - 1;
    assert rest[m'] == salons[m];
    var n := SalonIndex(rest, id).value;
    assert n <= m';
    var n0 := if n < k then n else n + 1;
    assert rest[n] == salons[n0];
    assert m <= n0;
  }

  // ---------------------------------------------------------------------------
  // The salon listing

  /** Registering a salon appends exactly its entry to the listing. */
  lemma ListAfterRegister(salons: seq<Salon>, users: seq<User>, s: Salon)
    requires OwnersExist(salons, users) && UserExists(users, s.ownerId)
    ensures OwnersExist(salons + [s], users)
    ensures ListSalons(salons + [s], users) == ListSalons(salons, users) + [SalonEntry(s, users)]
  {
  }

  /** Deleting a salon removes exactly its entry from the listing and keeps the order of the rest. */
  lemma ListAfterDelete(salons: seq<Salon>, users: seq<User>, k: nat)
    requires OwnersExist(salons, users) && k < |salons|
    ensures OwnersExist(salons[..k] + salons[k + 1..], users)
    ensures ListSalons(salons[..k] + salons[k + 1..], users) ==
            ListSalons(salons, users)[..k] + ListSalons(salons, users)[k + 1..]
  {
  }

  /**
    Updating a salon replaces exactly its entry in the listing; every other
    entry and the order stay as they were.
   */
  lemma ListAfterUpdate(salons: seq<Salon>, users: seq<User>, k: nat, u: SalonUpdate)
    requires OwnersExist(salons, users) && k < |salons|
    ensures OwnersExist(salons[k := Revised(salons[k], u)], users)
    ensures ListSalons(salons[k := Revised(salons[k], u)], users) ==
            ListSalons(salons, users)[k := SalonEntry(Revised(salons[k], u), users)]
  {
  }

  /** The listing shows "" for a salon registered through POST /register-salon/, which stores no description. */
  lemma RegisteredSalonListsEmptyDescription(salons: seq<Salon>, users: seq<User>, s: Salon)
    requires OwnersExist(salons, users) && UserExists(users, s.ownerId)
    requires s.description == None
    ensures OwnersExist(salons + [s], users)
    ensures ListSalons(salons + [s], users)[|salons|].description == ""
  {
  }

  // ---------------------------------------------------------------------------
  // Uniqueness of emails and salon names

  /** Registering an unused email keeps emails unique. */
  lemma RegisterKeepsEmailsUnique(users: seq<User>, u: User)
    requires UniqueEmails(users) && !EmailRegistered(users, u.email)
    ensures UniqueEmails(users + [u])
  {
  }

  /** Registering an unused salon name keeps salon names unique. */
  lemma RegisterKeepsSalonNamesUnique(salons: seq<Salon>, s: Salon)
    requires UniqueSalonNames(salons) && !NameRegistered(salons, s.name)
    ensures UniqueSalonNames(salons + [s])
  {
  }

  /**
    PUT /salons/{id} does not look at other salons' names, so renaming a salon
    to another salon's name leaves two salons with one name, in any table.
   */
  lemma UpdateCanDuplicateName(salons: seq<Salon>, k: nat, m: nat, u: SalonUpdate)
    requires k < |salons| && m < |salons| && k != m
    requires u.name == salons[m].name
    ensures !UniqueSalonNames(salons[k := Revised(salons[k], u)])
  {
    var salons' := salons[k := Revised(salons[k], u)];
    assert salons'[k].name == salons'[m].name;
    assert k < m || m < k;
  }
}
