/** The storefront proxy (app/routes/app_proxy.tsx): a public, unauthenticated
    endpoint addressed by a `shop` query parameter. Its loader lists what a
    customer may book; its action books an appointment. */
module AppProxy {
  import opened Js
  import opened Records
  import opened Database
  import opened Listing

  /** A request as the action sees it: its HTTP method, its query string and
      its form body. */
  datatype ProxyRequest = ProxyRequest(httpMethod: string, query: Form, form: Form)

  /** The action's checks end either in a response or in a booking to insert
      for a resolved shop. */
  datatype Screening = Reject(response: Response) | Accept(shop: Shop, data: AppointmentData)

  const MethodNotAllowed := Reply(405, Error("Method not allowed", None))
  const ShopRequired := Reply(400, Error("Shop parameter is required", None))
  const ShopNotFound := Reply(404, Error("Shop not found", None))
  const MissingFields := Reply(400, Error("Missing required fields",
    Some("Name, email, phone, service, and appointment date are required")))
  const BookingFailed := Reply(500, Error("Failed to create appointment",
    Some("Please try again or contact the shop directly")))

  /** The fields a booking must carry; barberId and notes are optional. */
  const RequiredFields: seq<string> :=
    ["customerName", "customerEmail", "customerPhone", "serviceId", "appointmentDate"]

  /** Each required field is present and non-empty; nothing is trimmed. */
  predicate HasRequiredFields(form: Form) {
    forall i :: 0 <= i < |RequiredFields| ==> Truthy(Get(form, RequiredFields[i]))
  }

  /** The row data the action inserts: optional fields that are missing or
      empty become null, and the status is always "scheduled". */
  function BookingData(form: Form): AppointmentData {
    AppointmentData(Get(form, "customerName"), Get(form, "customerEmail"),
                    Get(form, "customerPhone"), Get(form, "serviceId"),
                    OrNull(Get(form, "barberId")), Get(form, "appointmentDate"),
                    OrNull(Get(form, "notes")), Some("scheduled"))
  }

  /** The action's checks, in the order the handler makes them. */
  function Screen(req: ProxyRequest, shops: map<string, Shop>): (r: Screening)
    ensures req.httpMethod != "POST" <==> r == Reject(MethodNotAllowed)
    ensures req.httpMethod == "POST" && !Truthy(Get(req.query, "shop")) ==> r == Reject(ShopRequired)
    ensures (req.httpMethod == "POST" && Truthy(Get(req.query, "shop"))
             && Get(req.query, "shop").value !in shops) ==> r == Reject(ShopNotFound)
    ensures r == Reject(MissingFields) <==>
              req.httpMethod == "POST" && Truthy(Get(req.query, "shop"))
              && Get(req.query, "shop").value in shops && !HasRequiredFields(req.form)
    ensures r.Accept? <==>
              req.httpMethod == "POST" && Truthy(Get(req.query, "shop"))
              && Get(req.query, "shop").value in shops && HasRequiredFields(req.form)
    ensures r.Accept? ==> r.shop == shops[Get(req.query, "shop").value]
                          && r.data == BookingData(req.form)
  {
    if req.httpMethod != "POST" then Reject(MethodNotAllowed)
    else
      var shop := Get(req.query, "shop");
      if !Truthy(shop) then Reject(ShopRequired)
      else if shop.value !in shops then Reject(ShopNotFound)
      else if !HasRequiredFields(req.form) then Reject(MissingFields)
      else Accept(shops[shop.value], BookingData(req.form))
  }

  /** The shop is resolved before the fields are looked at: a request for an
      unknown shop gets 404 whatever its form holds. */
  lemma UnknownShopBeforeFields(req: ProxyRequest, shops: map<string, Shop>, form': Form)
    requires req.httpMethod == "POST" && Truthy(Get(req.query, "shop"))
    requires Get(req.query, "shop").value !in shops
    ensures Screen(req, shops) == Screen(req.(form := form'), shops) == Reject(ShopNotFound)
  {
  }

  /** Any of the five required fields missing or empty rejects the booking
      with 400 (or an earlier check's response), never a booking. */
  lemma {:induction false} MissingFieldRejects(req: ProxyRequest, shops: map<string, Shop>, i: nat)
    requires i < |RequiredFields| && !Truthy(Get(req.form, RequiredFields[i]))
    ensures Screen(req, shops).Reject?
    ensures (req.httpMethod == "POST" && Truthy(Get(req.query, "shop"))
             && Get(req.query, "shop").value in shops) ==> Screen(req, shops) == Reject(MissingFields)
  {
    assert !HasRequiredFields(req.form);
  }

  /** What the storefront is told about a booking: the appointment's id,
      customer, date and status, with the names of the service and of the
      barber, if any, that `include` brings along. */
  function Confirmation(a: Appointment, services: map<string, Service>,
                        barbers: map<string, Barber>): Body
    requires a.serviceId in services && (a.barberId.Some? ==> a.barberId.value in barbers)
  {
    var barber := IncludedBarber(a.barberId, barbers);
    Booked(a.id, a.customerName, services[a.serviceId].name,
           if barber.Some? then Some(barber.value.name) else None,
           a.appointmentDate, a.status)
  }

  /** The booking succeeds exactly when the store takes the row: the date is
      valid and the service and barber it names exist. */
  predicate Bookable(data: AppointmentData, dateValid: bool, services: map<string, Service>,
                     barbers: map<string, Barber>)
  {
    dateValid && LinksResolve(data, services, barbers)
  }

  /** The action. `newId` and `now` are the id and creation time the store
      gives the new row; `dateValid` is whether `new Date(...)` gave a valid
      date, which this model leaves opaque. */
  method Action(db: Db, req: ProxyRequest, newId: string, now: int, dateValid: bool)
    returns (resp: Response)
    requires db.Valid() && newId !in db.appointments
    modifies db
    ensures db.Valid()
    ensures db.shops == old(db.shops) && db.barbers == old(db.barbers)
    ensures db.services == old(db.services)
    ensures Screen(req, old(db.shops)).Reject? ==>
              resp == Screen(req, old(db.shops)).response && db.appointments == old(db.appointments)
    ensures Screen(req, old(db.shops)).Accept?
            && !Bookable(Screen(req, old(db.shops)).data, dateValid, db.services, db.barbers) ==>
              resp == BookingFailed && db.appointments == old(db.appointments)
    ensures Screen(req, old(db.shops)).Accept?
            && Bookable(Screen(req, old(db.shops)).data, dateValid, db.services, db.barbers) ==>
              newId in db.appointments
              && db.appointments == old(db.appointments)[newId := db.appointments[newId]]
              && db.appointments[newId].serviceId in db.services
              && (db.appointments[newId].barberId.Some? ==>
                    db.appointments[newId].barberId.value in db.barbers)
              && resp == Reply(200, Confirmation(db.appointments[newId], db.services, db.barbers))
    ensures Screen(req, old(db.shops)).Accept?
            && Bookable(Screen(req, old(db.shops)).data, dateValid, db.services, db.barbers) ==>
              var a := db.appointments[newId];
              var form := req.form;
              && a.status == "scheduled"
              && a.shopId == Screen(req, old(db.shops)).shop.id
              && Some(a.customerName) == Get(form, "customerName")
              && Some(a.customerEmail) == Get(form, "customerEmail")
              && Some(a.customerPhone) == Get(form, "customerPhone")
              && Some(a.serviceId) == Get(form, "serviceId")
              && a.appointmentDate == Get(form, "appointmentDate")
              && a.barberId == OrNull(Get(form, "barberId"))
              && a.notes == OrNull(Get(form, "notes"))
  {
    var screening := Screen(req, db.shops);
    if screening.Reject? {
      return screening.response;
    }
    assert Truthy(Get(req.form, RequiredFields[0])) && Truthy(Get(req.form, RequiredFields[1]));
    assert Truthy(Get(req.form, RequiredFields[2])) && Truthy(Get(req.form, RequiredFields[3]));
    var created := db.CreateAppointment(newId, screening.shop.id, screening.data, now, dateValid);
    if created.None? {
      return BookingFailed;
    }
    resp := Reply(200, Confirmation(created.value, db.services, db.barbers));
  }

  /** The loader: the shop with its active services and active barbers, each
      sorted by name. */
  method Loader(db: Db, query: Form) returns (resp: Response)
    requires db.Valid()
    ensures !Truthy(Get(query, "shop")) ==> resp == ShopRequired
    ensures Truthy(Get(query, "shop")) && Get(query, "shop").value !in db.shops ==>
              resp == ShopNotFound
    ensures Truthy(Get(query, "shop")) && Get(query, "shop").value in db.shops ==>
              var shop := db.shops[Get(query, "shop").value];
              && resp.Reply? && resp.status == 200 && resp.body.Storefront?
              && resp.body.shop == shop && shop.shopDomain == Get(query, "shop").value
              && Lists(resp.body.services, db.services, ActiveServiceOf(shop.id), Ascending(ServiceName))
              && Lists(resp.body.barbers, db.barbers, ActiveBarberOf(shop.id), Ascending(BarberName))
              && (forall s :: s in resp.body.services ==>
                    OwnedBy(db.shops, Get(query, "shop").value, s.shopId))
              && (forall b :: b in resp.body.barbers ==>
                    OwnedBy(db.shops, Get(query, "shop").value, b.shopId))
  {
    var domain := Get(query, "shop");
    if !Truthy(domain) {
      return ShopRequired;
    }
    var found := db.FindShop(domain.value);
    if found.None? {
      return ShopNotFound;
    }
    var shop := found.value;
    AscendingIsPreorder(ServiceName);
    AscendingIsPreorder(BarberName);
    var serviceIds, services := SelectSorted(db.services, ActiveServiceOf(shop.id), Ascending(ServiceName));
    var barberIds, barbers := SelectSorted(db.barbers, ActiveBarberOf(shop.id), Ascending(BarberName));
    resp := Reply(200, Storefront(shop, services, barbers));
  }
}
