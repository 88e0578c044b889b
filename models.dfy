/**
  Records kept by the booking store and the request bodies its handlers accept
  (the ORM tables of models.py and the request schemas of schemas.py).

  Primary keys are naturals assigned by the store. Foreign keys that arrive in a
  request body (user_id, barber_id, owner_id) are arbitrary integers, because the
  handlers do not always check them against the users table. Instants are
  integers: the booking conflict check compares them by exact equality only.
 */
module Models {

  datatype Option<+T> = None | Some(value: T) {
    /** The wrapped value, or `default` when there is none. */
    function GetOr(default: T): T {
      match this
      case Some(v) => v
      case None => default
    }
  }

  type Time = int

  /** A row of `users`; `hashedPassword` is an opaque digest. */
  datatype User = User(id: nat, name: string, email: string, hashedPassword: string, isBarber: bool)

  /** A row of `services`: a catalogue entry with no link to a barber or a salon. */
  datatype Service = Service(id: nat, name: string, description: string, price: int)

  /** A row of `appointments`; `serviceId` is a nullable column that no handler fills. */
  datatype Appointment = Appointment(id: nat, userId: int, barberId: int, serviceId: Option<int>, time: Time)

  /** A row of `salons`; `description` is a nullable column. */
  datatype Salon = Salon(id: nat, name: string, address: string, description: Option<string>, ownerId: int)

  function UserKey(u: User): nat { u.id }
  function ServiceKey(s: Service): nat { s.id }
  function AppointmentKey(a: Appointment): nat { a.id }
  function SalonKey(s: Salon): nat { s.id }

  /** Body of POST /register/. */
  datatype UserCreate = UserCreate(name: string, email: string, password: string, isBarber: bool)

  /** Body of POST /appointments. */
  datatype AppointmentCreate = AppointmentCreate(userId: int, barberId: int, time: Time)

  /** Body of POST /services/. */
  datatype ServiceCreate = ServiceCreate(name: string, description: string, price: int)

  /** Body of POST /register-salon/: it inherits a required `description` that the handler drops. */
  datatype SalonCreate = SalonCreate(name: string, address: string, description: string, ownerId: int)

  /** Body of PUT /salons/{id}: a full replacement of the three editable fields. */
  datatype SalonUpdate = SalonUpdate(name: string, address: string, description: string)

  /** One entry of GET /salons: the owner's name inlined, the description never null. */
  datatype SalonView = SalonView(id: nat, name: string, address: string, owner: string, description: string)
}
