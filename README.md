# BarberBook booking API: a Dafny model of its request handlers

BarberBook is a small HTTP API for a barber marketplace. Users register,
barbers publish services, customers book a barber at a given time, and anyone
may register a salon that only its owner can then edit or delete. This project
models the handlers of `main.py` with the web framework and the ORM removed.
What is left is a sequential state machine over one store holding four
tables: users, services, appointments and salons.

- `models.dfy` (module `Models`): the table rows of `models.py` and the request
  bodies of `schemas.py` as datatypes. Primary keys are naturals. Foreign keys
  taken from a request body are integers. Instants are integers, because the
  booking conflict check only compares them for exact equality.
- `query.dfy` (module `Query`): the two store primitives the handlers use.
  `First` finds the first matching row in store order, the way
  `query(...).filter(...).first()` does. `NextId` picks the key of a new row:
  one more than the largest key in the table, or 1 for an empty table. This is
  how SQLite numbers an integer primary key, so the key of a deleted last row
  can be reused.
- `api.dfy` (module `Api`): the error kinds, the predicates the guards test,
  the store invariant `Consistent`, and the read-only handlers as functions
  over the tables. `Consistent` requires distinct keys in every table, unique
  emails, no two appointments in one (barber, time) slot, and an existing
  owner for every salon.
- `store.dfy` (module `Handlers`): the class `Store`, whose four fields are the
  tables as sequences. Each state-changing handler is a method that runs the
  source's guards in the source's order. On success it appends, replaces or
  removes exactly one row and leaves the other tables unchanged. `update_salon`
  keeps its loop: the update's (field, value) pairs are assigned one at a time,
  and a lemma shows that the loop replaces exactly name, address and
  description.
- `properties.dfy` (module `Properties`): lemmas that relate the handlers to one
  another. They cover what a read returns after a write, the invariants the
  writes keep, and the one invariant an update can break.
- `scenario.dfy` (module `Scenarios`): a client that replays a whole booking
  session through the methods' contracts alone.

The authenticated handlers take the acting user as a parameter, and that user
must already be stored. This stands for what `get_current_user` resolves a
bearer token to. The new user's password digest is also a parameter. It stands
for `hash_password(password)`, and the model treats it as an opaque string.

Salon names are kept unique only by registration. `register_salon` refuses a
name already in use (main.py:127-129). The column itself has no unique
constraint (models.py:40), and `update_salon` assigns the new name without any
check. `UpdateCanDuplicateName` states the result. The model follows the code
here and adds no check to the update.

## Model

| member | source | states |
|---|---|---|
| `Query.First` | main.py:73-76 | The first row in store order that satisfies the filter; none exactly when no row satisfies it |
| `Query.MaxKey` | models.py:7 | The largest key in a table is at least every row's key and is one of them (0 for an empty table) |
| `Query.NextId` | models.py:7 | A new row's id is positive and larger than every id in its table, so it is fresh; it is 1 in an empty table and otherwise one more than an id in use |
| `Api.AppointmentIndex` | main.py:95 | The lookup finds the first appointment carrying the id; it finds nothing exactly when no appointment carries it |
| `Api.SalonIndex` | main.py:166 | The lookup finds the first salon carrying the id; it finds nothing exactly when no salon carries it (the same filter runs at main.py:174 and main.py:191) |
| `Api.GetAppointment` | main.py:93-98 | Returns a stored appointment carrying the requested id exactly when one exists, and NotFound otherwise; reads only |
| `Api.ListAppointments` | main.py:100-102 | Every stored appointment, in store order, unfiltered |
| `Api.ListServices` | main.py:116-119 | Every stored service, in store order, unfiltered |
| `Api.GetSalon` | main.py:164-169 | Returns a stored salon carrying the requested id exactly when one exists, and NotFound otherwise |
| `Api.OwnerName` | main.py:158 | The name of a stored user whose id is the salon's owner id |
| `Api.SalonEntry` | main.py:154-160 | A listing entry carries the salon's id, name and address, its description or "" when it has none, and the name of a stored user whose id is the salon's owner id |
| `Api.ListSalons` | main.py:150-162 | One entry per stored salon, in store order. Each entry has the salon's id, name and address and the owner's name. Its description is the stored one, or "" when none is stored |
| `Handlers.Revised` | main.py:181-182 | An update replaces name, address and description (now present) and keeps id and owner |
| `Handlers.ApplyUpdateItems` | main.py:181-182 | Assigning the update's name, address and description pairs one after another gives exactly the revised salon |
| `Handlers.UpdateItems` | main.py:181 | The update's items are the name, the address and the description, each once and in that order, each paired with the update's value for it |
| `Handlers.SetAttr` | main.py:182 | Assigning one column sets that column to the value (the description becomes present) and keeps every other column, the id and the owner |
| `Handlers.ApplyItems` | main.py:181-182 | Assigning a sequence of pairs never changes the id or the owner, and a column no pair names keeps its value |
| `Handlers.Store.RegisterUser` | main.py:29-52 | A registered email gives EmailTaken and changes nothing. Otherwise it appends exactly one user with a fresh id, the given name, email and barber flag, and the supplied digest. The invariant is kept |
| `Handlers.Store.CreateAppointment` | main.py:64-89 | An actor booking for another user id gets Forbidden whether or not the slot is free. Otherwise a slot held by some appointment gives SlotTaken. Otherwise it appends one appointment with a fresh id, the given user, barber and time, and no service. Errors change nothing, and no slot is ever double-booked |
| `Handlers.Store.AddService` | main.py:105-113 | A non-barber actor gets Forbidden and nothing changes. Otherwise it appends one service with a fresh id and the given name, description and price |
| `Handlers.Store.RegisterSalon` | main.py:124-145 | A taken name gives DuplicateName, checked first. Then an unknown owner id gives OwnerNotFound. Otherwise it appends one salon with a fresh id, the given name, address and owner, and no description. The description in the request body is dropped |
| `Handlers.Store.UpdateSalon` | main.py:172-186 | An unknown id gives NotFound before ownership is checked, and a non-owner actor gets Forbidden; neither changes anything. Otherwise that one salon is replaced by its revised record and the others are unchanged |
| `Handlers.Store.DeleteSalon` | main.py:189-199 | An unknown id gives NotFound before ownership is checked, and a non-owner actor gets Forbidden; neither changes anything. Otherwise exactly that salon is removed and the others keep their order |
| `Properties.BookingKeepsSlotsUnique` | main.py:73-89 | Appending a booking for a slot no appointment holds keeps every (barber, time) slot held at most once |
| `Properties.BookedAfterBooking` | main.py:73-79 | After a booking is stored, its barber's slot at that time counts as taken by the filter the booking guard runs |
| `Properties.GetFindsStoredAppointment` | main.py:95-98 | When ids are distinct, looking up a stored appointment's id returns that appointment |
| `Properties.GetAfterBooking` | main.py:81-98 | A new booking is readable under its new id, and every other id reads as before |
| `Properties.GetAfterUpdate` | main.py:174-186 | After an update, the updated salon reads back under its id |
| `Properties.UpdateLeavesOtherSalons` | main.py:174-186 | An update leaves the lookup of every other salon id unchanged |
| `Properties.DeletedSalonIsGone` | main.py:191-199 | After a delete, the deleted id reads as NotFound |
| `Properties.DeleteLeavesOtherSalons` | main.py:191-199 | A delete leaves the lookup of every other salon id unchanged |
| `Properties.ListAfterRegister` | main.py:136-162 | Registering a salon appends exactly its entry to the salon listing |
| `Properties.ListAfterUpdate` | main.py:150-186 | Updating a salon replaces exactly its entry in the listing with the revised salon's entry; the other entries and their order are unchanged |
| `Properties.ListAfterDelete` | main.py:150-199 | Deleting a salon removes exactly its entry from the listing and keeps the rest in order |
| `Properties.RegisteredSalonListsEmptyDescription` | main.py:136-159 | A salon stored by registration, which has no description, is listed with description "" |
| `Properties.RegisterKeepsEmailsUnique` | main.py:32-43 | Registering an email no user has keeps emails unique |
| `Properties.RegisterKeepsSalonNamesUnique` | main.py:127-140 | Registering a salon name no salon has keeps salon names unique |
| `Properties.UpdateCanDuplicateName` | main.py:178-182 | In any table, renaming one salon to the name of a different salon leaves two salons with one name, because the update checks no names |
| `Scenarios.RegisterPeople` | main.py:29-52 | Three registrations with distinct emails on an empty store succeed and receive ids 1, 2 and 3 |
| `Scenarios.BookTwice` | main.py:64-89 | A booking of a free slot succeeds, the same booking again is SlotTaken, and a third user booking in the customer's name is Forbidden |
| `Scenarios.BookingSession` | main.py:29-162 | A whole session on an empty store: the first booking succeeds with the customer's and barber's ids, a repeat is SlotTaken, a booking on someone's behalf is Forbidden, and the one salon is listed with owner "B" and description "" |

## Left out

- HTTP routing, the `APIRouter` objects, dependency injection and status codes (main.py:16-26): each `HTTPException` becomes an `Err` of the matching kind.
- Response serialisation through `response_model` is not modelled. The handlers return the stored record, and `GetSalon`, `RegisterSalon` and `UpdateSalon` return that record, not what a client receives. Reading the declarations, the conversion cannot succeed in these cases:
  - `SalonResponse` declares `owner` and `description` as strings (schemas.py:61-66). The stored salon's `owner` is a user record (models.py:44), and a salon registered through POST /register-salon/ has no description (main.py:136-140).
  - So get_salon (main.py:169) should answer with a server error for every existing salon.
  - register_salon (main.py:145) and update_salon (main.py:186) should do the same, after their commit has already taken effect, so the client sees an error for a change that was stored.
  - `AppointmentResponse` requires a `barber` record (schemas.py:25-29). A booking whose barber id names no user is stored by main.py:81-88, and its response should then fail in the same way.
  - Only the listing at main.py:150-162 builds the response shape itself, and `ListSalons` models it.
- `login_for_access_token`, `authenticate_user`, `create_access_token`, `verify_token` and `get_current_user` (main.py:55-61, auth.py:24-79) are not modelled. They depend on the JWT library, the wall clock and the bcrypt verifier. The handlers take the acting user instead. Note that login looks a user up by name (auth.py:25), while the token carries the email (main.py:60) and `get_current_user` looks the user up by email (auth.py:74). With two users of one name, login picks the first of them. The model does not decide which user a token names.
- Password hashing (auth.py:34-39) is a foreign library call. Its digest is an opaque parameter of `RegisterUser`.
- The `IntegrityError` handler around the user insert (main.py:44-50) is not modelled. It catches the sqlite3 exception type, which the ORM does not raise.
- Table creation (main.py:14, main.py:20), sessions, commits, refreshes and rollbacks are not modelled. Each handler is one atomic step on the store.
- The race between the slot check and the insert in `create_appointment` is not modelled. It needs concurrent requests, and the model is sequential.
- Request validation by Pydantic (for example, `EmailStr` in schemas.py:7) is not modelled. Request bodies are already-typed datatypes.
- The unreachable second `return db_salon` (main.py:148) is not modelled.
- Stored rows are values, not ORM objects. `update_salon` assigns the fields to a copy of the stored salon, and that copy then replaces the stored one. Object identity and aliasing are not modelled.
- The key a new row receives follows SQLite's numbering (one more than the largest key), as `NextId` states. database.py is not part of this model, so the numbering of another database is not captured. The end-to-end scenarios (`Scenarios.RegisterPeople`, `Scenarios.BookingSession`) rely on this exact numbering. The other properties use only the fact that the key is fresh.
- Datetimes are integers compared by equality. Time zones and sub-second precision are not modelled.
- The database's integer widths are not modelled: ids and prices are unbounded.
