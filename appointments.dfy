/** Appointment management (app/routes/app.appointments.tsx): the admin loader
    lists the shop's appointments with its active services and barbers; the
    action books an appointment or changes one's status; the page encodes
    what it submits and picks a badge tone per status. */
module Appointments {
  import opened Js
  import opened Records
  import opened Database
  import opened Listing

  /** What the form's `action` field asks for. */
  datatype AppointmentRequest =
    | UpdateStatus(id: Option<string>, status: Option<string>)
    | Create(data: AppointmentData)
    | Unknown

  const ShopMissing := Thrown("Shop not found")
  const StoreRefused := Thrown("Prisma rejected the write")

  /** The booking as the admin action reads it: every field as sent, except
      that an empty or missing barber becomes null; the status is left to
      the column default. */
  function DataOf(form: Form): AppointmentData {
    AppointmentData(Get(form, "customerName"), Get(form, "customerEmail"),
                    Get(form, "customerPhone"), Get(form, "serviceId"),
                    OrNull(Get(form, "barberId")), Get(form, "appointmentDate"),
                    Get(form, "notes"), None)
  }

  /** How the action reads a submitted form. */
  function Decode(form: Form): (r: AppointmentRequest)
    ensures r.UpdateStatus? <==> Get(form, "action") == Some("updateStatus")
    ensures r.Create? <==> Get(form, "action") == Some("create")
    ensures r.UpdateStatus? ==> r.id == Get(form, "id") && r.status == Get(form, "status")
    ensures r.Create? ==> r.data == DataOf(form)
  {
    var action := Get(form, "action");
    if action == Some("updateStatus") then UpdateStatus(Get(form, "id"), Get(form, "status"))
    else if action == Some("create") then Create(DataOf(form))
    else Unknown
  }

  /** The id of the one row a request may touch. */
  function Target(req: AppointmentRequest, newId: string): Option<string> {
    match req
    case UpdateStatus(id, _) => id
    case Create(_) => Some(newId)
    case Unknown => None
  }

  /** The appointment table and the response after a request from the shop
      with id `shopId`, given the service and barber tables, when the store
      would give a new row `newId`, `now`, the verdict `dateValid` on its date
      and the default status `statusDefault`. A created appointment is
      answered with the service and barber rows it names. */
  function Apply(appointments: map<string, Appointment>, services: map<string, Service>,
                 barbers: map<string, Barber>, shopId: string, req: AppointmentRequest,
                 newId: string, now: int, dateValid: bool, statusDefault: string)
    : (r: (map<string, Appointment>, Response))
    requires newId !in appointments
    ensures forall k :: Some(k) != Target(req, newId) ==>
              (k in r.0 <==> k in appointments) && (k in appointments ==> r.0[k] == appointments[k])
    ensures !(r.1.Reply? && r.1.status == 200) ==> r.0 == appointments
    ensures r.1 == Reply(400, Outcome(false)) <==> req.Unknown?
    ensures req.UpdateStatus? ==>
              (r.1.Reply? <==> req.id.Some? && req.id.value in appointments && req.status.Some?)
              && (r.1.Reply? ==> req.id.value in r.0
                                 && r.1 == Reply(200, SavedAppointment(r.0[req.id.value]))
                                 && r.0[req.id.value]
                                    == appointments[req.id.value].(status := req.status.value))
    ensures req.Create? ==>
              (r.1.Reply? <==> dateValid && req.data.customerName.Some?
                               && req.data.customerEmail.Some? && req.data.customerPhone.Some?
                               && LinksResolve(req.data, services, barbers))
              && (r.1.Reply? ==> newId in r.0
                                 && r.1 == Reply(200, SavedBooking(r.0[newId],
                                             services[req.data.serviceId.value],
                                             IncludedBarber(req.data.barberId, barbers)))
                                 && r.0[newId] == Appointment(newId, shopId,
                                      req.data.customerName.value, req.data.customerEmail.value,
                                      req.data.customerPhone.value, req.data.serviceId.value,
                                      req.data.barberId, req.data.appointmentDate, req.data.notes,
                                      if req.data.status.Some? then req.data.status.value
                                      else statusDefault,
                                      now))
  {
    match req
    case UpdateStatus(id, status) =>
      if id.None? || id.value !in appointments || status.None? then (appointments, StoreRefused)
      else
        var row := appointments[id.value].(status := status.value);
        (appointments[id.value := row], Reply(200, SavedAppointment(row)))
    case Create(data) =>
      if !dateValid || data.customerName.None? || data.customerEmail.None?
         || data.customerPhone.None? || !LinksResolve(data, services, barbers)
      then (appointments, StoreRefused)
      else
        var row := Appointment(newId, shopId, data.customerName.value, data.customerEmail.value,
                               data.customerPhone.value, data.serviceId.value, data.barberId,
                               data.appointmentDate, data.notes,
                               if data.status.Some? then data.status.value else statusDefault,
                               now);
        (appointments[newId := row],
         Reply(200, SavedBooking(row, services[data.serviceId.value],
                                 IncludedBarber(data.barberId, barbers))))
    case Unknown => (appointments, Reply(400, Outcome(false)))
  }

  /** The action. `session` is the admin session's shop domain; `newId`, `now`
      and `dateValid` are the store's id and clock and whether the date is valid. */
  method Action(db: Db, session: Option<string>, form: Form, newId: string, now: int,
                dateValid: bool)
    returns (resp: Response)
    requires db.Valid() && newId !in db.appointments
    modifies db
    ensures db.Valid()
    ensures db.shops == old(db.shops) && db.barbers == old(db.barbers)
    ensures db.services == old(db.services)
    ensures session.None? ==> resp == LoginRequired && db.appointments == old(db.appointments)
    ensures session.Some? && session.value !in old(db.shops) ==>
              resp == ShopMissing && db.appointments == old(db.appointments)
    ensures session.Some? && session.value in old(db.shops) ==>
              (db.appointments, resp)
              == Apply(old(db.appointments), db.services, db.barbers,
                       old(db.shops)[session.value].id, Decode(form),
                       newId, now, dateValid, db.defaults.appointmentStatus)
  {
    if session.None? {
      return LoginRequired;
    }
    var shop := db.FindShop(session.value);
    if shop.None? {
      return ShopMissing;
    }
    var req := Decode(form);
    match req
    case UpdateStatus(id, status) =>
      var row := db.SetAppointmentStatus(id, status);
      resp := if row.Some? then Reply(200, SavedAppointment(row.value)) else StoreRefused;
    case Create(data) =>
      var row := db.CreateAppointment(newId, shop.value.id, data, now, dateValid);
      if row.Some? {
        resp := Reply(200, SavedBooking(row.value, db.services[data.serviceId.value],
                                        IncludedBarber(data.barberId, db.barbers)));
      } else {
        resp := StoreRefused;
      }
    case Unknown =>
      resp := Reply(400, Outcome(false));
  }

  /** The loader: this shop's appointments, latest date first (`instant` is
      the instant each stored date text denotes), with the shop's active
      services and barbers in no particular order. */
  method Loader(db: Db, session: Option<string>, instant: Option<string> -> int)
    returns (resp: Response)
    requires db.Valid()
    ensures session.None? ==> resp == LoginRequired
    ensures session.Some? && session.value !in db.shops ==> resp == ShopMissing
    ensures session.Some? && session.value in db.shops ==>
              var shop := db.shops[session.value];
              && resp.Reply? && resp.status == 200 && resp.body.AppointmentPage?
              && resp.body.shop == shop && shop.shopDomain == session.value
              && Lists(resp.body.appointments, db.appointments, AppointmentOf(shop.id),
                       Descending(AppointmentInstant(instant)))
              && Lists(resp.body.services, db.services, ActiveServiceOf(shop.id), Unordered())
              && Lists(resp.body.barbers, db.barbers, ActiveBarberOf(shop.id), Unordered())
              && (forall a :: a in resp.body.appointments ==>
                    OwnedBy(db.shops, session.value, a.shopId))
              && (forall s :: s in resp.body.services ==> OwnedBy(db.shops, session.value, s.shopId))
              && (forall b :: b in resp.body.barbers ==> OwnedBy(db.shops, session.value, b.shopId))
  {
    if session.None? {
      return LoginRequired;
    }
    var shop := db.FindShop(session.value);
    if shop.None? {
      return ShopMissing;
    }
    DescendingIsPreorder(AppointmentInstant(instant));
    UnorderedIsPreorder<Service>();
    UnorderedIsPreorder<Barber>();
    var appointmentIds, appointments :=
      SelectSorted(db.appointments, AppointmentOf(shop.value.id), Descending(AppointmentInstant(instant)));
    var serviceIds, services := SelectSorted(db.services, ActiveServiceOf(shop.value.id), Unordered());
    var barberIds, barbers := SelectSorted(db.barbers, ActiveBarberOf(shop.value.id), Unordered());
    resp := Reply(200, AppointmentPage(appointments, services, barbers, shop.value));
  }

  /** The booking dialog's state: seven text fields, empty when it opens. */
  datatype AppointmentDraft = AppointmentDraft(customerName: string, customerEmail: string,
                                               customerPhone: string, serviceId: string,
                                               barberId: string, appointmentDate: string,
                                               notes: string)

  /** What the booking dialog submits: "create", then every field as typed. */
  function EncodeBooking(draft: AppointmentDraft): Form {
    [Entry("action", "create"),
     Entry("customerName", draft.customerName), Entry("customerEmail", draft.customerEmail),
     Entry("customerPhone", draft.customerPhone), Entry("serviceId", draft.serviceId),
     Entry("barberId", draft.barberId), Entry("appointmentDate", draft.appointmentDate),
     Entry("notes", draft.notes)]
  }

  /** What a row's status select submits when it changes. */
  function EncodeStatusChange(id: string, status: string): Form {
    [Entry("action", "updateStatus"), Entry("id", id), Entry("status", status)]
  }

  /** The action reads a booking back as typed, with an empty barber choice
      meaning "any barber". */
  lemma BookingRoundTrip(draft: AppointmentDraft)
    ensures Decode(EncodeBooking(draft)) ==
              Create(AppointmentData(Some(draft.customerName), Some(draft.customerEmail),
                                     Some(draft.customerPhone), Some(draft.serviceId),
                                     if draft.barberId == "" then None else Some(draft.barberId),
                                     Some(draft.appointmentDate), Some(draft.notes), None))
  {
    var form := EncodeBooking(draft);
    GetAt(form, 0);
    GetAt(form, 1);
    GetAt(form, 2);
    GetAt(form, 3);
    GetAt(form, 4);
    GetAt(form, 5);
    GetAt(form, 6);
    GetAt(form, 7);
  }

  /** A booking from the admin dialog whose service and barber exist and whose
      date is valid is stored as typed and answered with those rows: unlike the
      storefront booking, empty customer fields are not refused, and the status
      is the column default. */
  lemma BookingSavesDraft(appointments: map<string, Appointment>, services: map<string, Service>,
                          barbers: map<string, Barber>, shopId: string,
                          draft: AppointmentDraft, newId: string, now: int, statusDefault: string)
    requires newId !in appointments && draft.serviceId in services
    requires draft.barberId != "" ==> draft.barberId in barbers
    ensures Apply(appointments, services, barbers, shopId, Decode(EncodeBooking(draft)), newId,
                  now, true, statusDefault)
            == var row := Appointment(newId, shopId, draft.customerName, draft.customerEmail,
                                      draft.customerPhone, draft.serviceId,
                                      if draft.barberId == "" then None else Some(draft.barberId),
                                      Some(draft.appointmentDate), Some(draft.notes),
                                      statusDefault, now);
               var barber := if draft.barberId == "" then None else Some(barbers[draft.barberId]);
               (appointments[newId := row],
                Reply(200, SavedBooking(row, services[draft.serviceId], barber)))
  {
    BookingRoundTrip(draft);
  }

  /** Choosing a status in a row's select sets that appointment's status, to
      any text sent, and changes nothing else. */
  lemma StatusChangeSetsStatus(appointments: map<string, Appointment>,
                               services: map<string, Service>, barbers: map<string, Barber>,
                               shopId: string, id: string, status: string, newId: string,
                               now: int, dateValid: bool, statusDefault: string)
    requires newId !in appointments && id in appointments
    ensures Apply(appointments, services, barbers, shopId, Decode(EncodeStatusChange(id, status)),
                  newId, now, dateValid, statusDefault).0
            == appointments[id := appointments[id].(status := status)]
  {
    var form := EncodeStatusChange(id, status);
    GetAt(form, 0);
    GetAt(form, 1);
    GetAt(form, 2);
  }

  /** The tone of a status badge. */
  datatype Tone = Success | Info | Critical | Warning

  /** Confirmed is a success, completed is information, cancelled is
      critical; any other status, "scheduled" included, is a warning. */
  function StatusTone(status: string): (t: Tone)
    ensures t == Success <==> status == "confirmed"
    ensures t == Info <==> status == "completed"
    ensures t == Critical <==> status == "cancelled"
    ensures t == Warning <==> status !in {"confirmed", "completed", "cancelled"}
  {
    if status == "confirmed" then Success
    else if status == "completed" then Info
    else if status == "cancelled" then Critical
    else Warning
  }
}
