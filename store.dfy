/**
  The request handlers of main.py that change the store. The store is an
  object holding the four tables as sequences in insertion order; each handler
  is a method that runs the source's guards in the source's order and, on
  success, appends, replaces or removes exactly one row.

  The acting user of the authenticated handlers is a parameter that must be a
  stored user: it stands for what `get_current_user` resolves a bearer token to.
  The password digest of a new user is a parameter standing for
  `hash_password(password)`.
 */
module Handlers {
  import opened Models
  import opened Query
  import opened Api

  /** The keys of `SalonUpdate.dict()`, in declaration order. */
  datatype SalonField = NameField | AddressField | DescriptionField

  /** The value an update carries for one editable column. */
  function FieldValue(u: SalonUpdate, key: SalonField): string {
    match key
    case NameField => u.name
    case AddressField => u.address
    case DescriptionField => u.description
  }

  /**
    `salon_update.dict().items()`: each editable column exactly once, in
    declaration order, paired with the update's value for it.
   */
  function UpdateItems(u: SalonUpdate): (items: seq<(SalonField, string)>)
    ensures |items| == 3
    ensures items[0].0 == NameField && items[1].0 == AddressField && items[2].0 == DescriptionField
    ensures forall i :: 0 <= i < |items| ==> items[i].1 == FieldValue(u, items[i].0)
  {
    [(NameField, u.name), (AddressField, u.address), (DescriptionField, u.description)]
  }

  /** `setattr(salon, key, value)`: that one column takes the value and every other column is kept. */
  function SetAttr(s: Salon, key: SalonField, value: string): (r: Salon)
    ensures r.id == s.id && r.ownerId == s.ownerId
    ensures r.name == (if key == NameField then value else s.name)
    ensures r.address == (if key == AddressField then value else s.address)
    ensures r.description == (if key == DescriptionField then Some(value) else s.description)
  {
    match key
    case NameField => s.(name := value)
    case AddressField => s.(address := value)
    case DescriptionField => s.(description := Some(value))
  }

  /**
    The record after assigning each (key, value) pair in turn: the id and the
    owner are never touched, and a column no pair names keeps its value.
   */
  function ApplyItems(s: Salon, items: seq<(SalonField, string)>): (r: Salon)
    ensures r.id == s.id && r.ownerId == s.ownerId
    ensures (forall i :: 0 <= i < |items| ==> items[i].0 != NameField) ==> r.name == s.name
    ensures (forall i :: 0 <= i < |items| ==> items[i].0 != AddressField) ==> r.address == s.address
    ensures (forall i :: 0 <= i < |items| ==> items[i].0 != DescriptionField) ==> r.description == s.description
    decreases |items|
  {
    if |items| == 0 then s else ApplyItems(SetAttr(s, items[0].0, items[0].1), items[1..])
  }

  /** A salon with its name, address and description replaced by an update. */
  function Revised(s: Salon, u: SalonUpdate): (r: Salon)
    ensures r.id == s.id && r.ownerId == s.ownerId
    ensures r.name == u.name && r.address == u.address && r.description == Some(u.description)
  {
    s.(name := u.name, address := u.address, description := Some(u.description))
  }

  /** Assigning the update's items one by one yields the revised salon. */
  lemma {:induction false} ApplyUpdateItems(s: Salon, u: SalonUpdate)
    ensures ApplyItems(s, UpdateItems(u)) == Revised(s, u)
  {
    var items := UpdateItems(u);
    var s1 := SetAttr(s, NameField, u.name);
    var s2 := SetAttr(s1, AddressField, u.address);
    var s3 := SetAttr(s2, DescriptionField, u.description);
    calc {
      ApplyItems(s, items);
      { assert items[1..] == [(AddressField, u.address), (DescriptionField, u.description)]; }
      ApplyItems(s1, [(AddressField, u.address), (DescriptionField, u.description)]);
      { assert [(AddressField, u.address), (DescriptionField, u.description)][1..] == [(DescriptionField, u.description)]; }
      ApplyItems(s2, [(DescriptionField, u.description)]);
      ApplyItems(s3, []);
      s3;
    }
  }

  class Store {
    var users: seq<User>
    var services: seq<Service>
    var appointments: seq<Appointment>
    var salons: seq<Salon>

    ghost predicate Valid()
      reads this
    {
      Consistent(users, services, appointments, salons)
    }

    constructor ()
      ensures Valid()
      ensures users == [] && services == [] && appointments == [] && salons == []
    {
      users, services, appointments, salons := [], [], [], [];
    }

    /** POST /register/: a new user unless the email is already registered. */
    method RegisterUser(form: UserCreate, hashed: string) returns (r: Result<User>)
      requires Valid()
      modifies this
      ensures Valid()
      ensures services == old(services) && appointments == old(appointments) && salons == old(salons)
      ensures EmailRegistered(old(users), form.email) ==> r == Err(EmailTaken) && users == old(users)
      ensures !EmailRegistered(old(users), form.email) ==>
        && r == Ok(User(NextId(old(users), UserKey), form.name, form.email, hashed, form.isBarber))
        && users == old(users) + [r.value]
    {
      var existing := First(users, (u: User) => u.email == form.email);
      if existing.Some? {
        return Err(EmailTaken);
      }
      var user := User(NextId(users, UserKey), form.name, form.email, hashed, form.isBarber);
      AppendKeepsOwners(salons, users, user);
      users := users + [user];
      r := Ok(user);
    }

    /**
      POST /appointments: the actor may only book for themself, and only a
      slot no appointment holds yet. The new row has no service.
     */
    method CreateAppointment(actor: User, form: AppointmentCreate) returns (r: Result<Appointment>)
      requires Valid() && actor in users
      modifies this
      ensures Valid()
      ensures users == old(users) && services == old(services) && salons == old(salons)
      ensures actor.id != form.userId ==> r == Err(Forbidden) && appointments == old(appointments)
      ensures actor.id == form.userId && Booked(old(appointments), form.barberId, form.time) ==>
        r == Err(SlotTaken) && appointments == old(appointments)
      ensures actor.id == form.userId && !Booked(old(appointments), form.barberId, form.time) ==>
        && r == Ok(Appointment(NextId(old(appointments), AppointmentKey), form.userId, form.barberId, None, form.time))
        && appointments == old(appointments) + [r.value]
    {
      if actor.id != form.userId {
        return Err(Forbidden);
      }
      var existing := First(appointments, (a: Appointment) => a.barberId == form.barberId && a.time == form.time);
      if existing.Some? {
        return Err(SlotTaken);
      }
      var appointment := Appointment(NextId(appointments, AppointmentKey), form.userId, form.barberId, None, form.time);
      appointments := appointments + [appointment];
      r := Ok(appointment);
    }

    /** POST /services/: only a barber may add a service. */
    method AddService(actor: User, form: ServiceCreate) returns (r: Result<Service>)
      requires Valid() && actor in users
      modifies this
      ensures Valid()
      ensures users == old(users) && appointments == old(appointments) && salons == old(salons)
      ensures !actor.isBarber ==> r == Err(Forbidden) && services == old(services)
      ensures actor.isBarber ==>
        && r == Ok(Service(NextId(old(services), ServiceKey), form.name, form.description, form.price))
        && services == old(services) + [r.value]
    {
      if !actor.isBarber {
        return Err(Forbidden);
      }
      var service := Service(NextId(services, ServiceKey), form.name, form.description, form.price);
      services := services + [service];
      r := Ok(service);
    }

    /**
      POST /register-salon/: the name must be free, then the owner must exist.
      The description in the request body is not stored.
     */
    method RegisterSalon(form: SalonCreate) returns (r: Result<Salon>)
      requires Valid()
      modifies this
      ensures Valid()
      ensures users == old(users) && services == old(services) && appointments == old(appointments)
      ensures NameRegistered(old(salons), form.name) ==> r == Err(DuplicateName) && salons == old(salons)
      ensures !NameRegistered(old(salons), form.name) && !UserExists(users, form.ownerId) ==>
        r == Err(OwnerNotFound) && salons == old(salons)
      ensures !NameRegistered(old(salons), form.name) && UserExists(users, form.ownerId) ==>
        && r == Ok(Salon(NextId(old(salons), SalonKey), form.name, form.address, None, form.ownerId))
        && salons == old(salons) + [r.value]
    {
      var existing := First(salons, (s: Salon) => s.name == form.name);
      if existing.Some? {
        return Err(DuplicateName);
      }
      var owner := First(users, (u: User) => u.id == form.ownerId);
      if owner.None? {
        return Err(OwnerNotFound);
      }
      var salon := Salon(NextId(salons, SalonKey), form.name, form.address, None, users[owner.value].id);
      salons := salons + [salon];
      r := Ok(salon);
    }

    /**
      PUT /salons/{id}: an unknown id is NotFound before ownership is looked
      at; only the owner may assign the update's fields to the stored salon.
     */
    method UpdateSalon(actor: User, salonId: int, u: SalonUpdate) returns (r: Result<Salon>)
      requires Valid() && actor in users
      modifies this
      ensures Valid()
      ensures users == old(users) && services == old(services) && appointments == old(appointments)
      ensures GetSalon(old(salons), salonId).Err? ==> r == Err(NotFound) && salons == old(salons)
      ensures GetSalon(old(salons), salonId).Ok? && GetSalon(old(salons), salonId).value.ownerId != actor.id ==>
        r == Err(Forbidden) && salons == old(salons)
      ensures GetSalon(old(salons), salonId).Ok? && GetSalon(old(salons), salonId).value.ownerId == actor.id ==>
        && r == Ok(Revised(GetSalon(old(salons), salonId).value, u))
        && salons == old(salons)[SalonIndex(old(salons), salonId).value := r.value]
    {
      var found := SalonIndex(salons, salonId);
      if found.None? {
        return Err(NotFound);
      }
      var k := found.value;
      var salon := salons[k];
      if salon.ownerId != actor.id {
        return Err(Forbidden);
      }
      var items := UpdateItems(u);
      for i := 0 to |items|
        invariant ApplyItems(salon, items[i..]) == ApplyItems(salons[k], items)
      {
        salon := SetAttr(salon, items[i].0, items[i].1);
      }
      ApplyUpdateItems(salons[k], u);
      salons := salons[k := salon];
      r := Ok(salon);
    }

    /**
      DELETE /salons/{id}: the same two guards as an update; the owner's
      request removes that one salon.
     */
    method DeleteSalon(actor: User, salonId: int) returns (r: Result<()>)
      requires Valid() && actor in users
      modifies this
      ensures Valid()
      ensures users == old(users) && services == old(services) && appointments == old(appointments)
      ensures GetSalon(old(salons), salonId).Err? ==> r == Err(NotFound) && salons == old(salons)
      ensures GetSalon(old(salons), salonId).Ok? && GetSalon(old(salons), salonId).value.ownerId != actor.id ==>
        r == Err(Forbidden) && salons == old(salons)
      ensures GetSalon(old(salons), salonId).Ok? && GetSalon(old(salons), salonId).value.ownerId == actor.id ==>
        && r == Ok(())
        && var k := SalonIndex(old(salons), salonId).value;
           salons == old(salons)[..k] + old(salons)[k + 1..]
    {
      var found := SalonIndex(salons, salonId);
      if found.None? {
        return Err(NotFound);
      }
      var k := found.value;
      if salons[k].ownerId != actor.id {
        return Err(Forbidden);
      }
      salons := salons[..k] + salons[k + 1..];
      r := Ok(());
    }
  }

  // ---------------------------------------------------------------------------
  // Invariant bookkeeping for the methods above

  /** A new user keeps every salon's owner resolvable. */
  lemma AppendKeepsOwners(salons: seq<Salon>, users: seq<User>, user: User)
    requires OwnersExist(salons, users)
    ensures OwnersExist(salons, users + [user])
  {
    forall i | 0 <= i < |salons|
      ensures UserExists(users + [user], salons[i].ownerId)
    {
      var j :| 0 <= j < |users| && users[j].id == salons[i].ownerId;
      assert (users + [user])[j] == users[j];
    }
  }
}
