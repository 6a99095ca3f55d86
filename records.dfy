/** The rows of the app's four tables, the data its handlers hand to the store,
    and the responses they produce. Ids, creation times and the date an
    appointment is for are opaque values here: the store's id generator, its
    clock and `new Date(...)` are not part of this model. */
module Records {
  import opened Js

  /** A merchant's storefront, keyed by its unique domain. */
  datatype Shop = Shop(id: string, shopDomain: string, shopName: string,
                       isActive: bool, subscriptionStatus: string)

  datatype Barber = Barber(id: string, shopId: string, name: string,
                           specialty: Option<string>, bio: Option<string>,
                           imageUrl: Option<string>, isActive: bool, createdAt: int)

  /** Price and duration are free text, never parsed. */
  datatype Service = Service(id: string, shopId: string, name: string,
                             description: Option<string>, price: string,
                             duration: Option<string>, isActive: bool, createdAt: int)

  /** `appointmentDate` is the text given to `new Date(...)` (null included);
      the instant it denotes is opaque. `status` is an open string set. */
  datatype Appointment = Appointment(id: string, shopId: string,
                                     customerName: string, customerEmail: string,
                                     customerPhone: string, serviceId: string,
                                     barberId: Option<string>,
                                     appointmentDate: Option<string>,
                                     notes: Option<string>, status: string,
                                     createdAt: int)

  /** The values a handler passes for a barber's columns, as read from the form
      (`formData.get(...) as string`, so possibly null). */
  datatype BarberData = BarberData(name: Option<string>, specialty: Option<string>,
                                   bio: Option<string>, imageUrl: Option<string>)

  datatype ServiceData = ServiceData(name: Option<string>, description: Option<string>,
                                     price: Option<string>, duration: Option<string>)

  /** `status` is None when the handler leaves the column to its default. */
  datatype AppointmentData = AppointmentData(customerName: Option<string>,
                                             customerEmail: Option<string>,
                                             customerPhone: Option<string>,
                                             serviceId: Option<string>,
                                             barberId: Option<string>,
                                             appointmentDate: Option<string>,
                                             notes: Option<string>,
                                             status: Option<string>)

  /** Column defaults that the handlers rely on without setting them. */
  datatype ColumnDefaults = ColumnDefaults(barberIsActive: bool, serviceIsActive: bool,
                                           appointmentStatus: string)

  /** The JSON bodies and plain-text bodies the handlers return. */
  datatype Body =
    | Empty
    | Text(text: string)
    | Error(error: string, details: Option<string>)
    | Outcome(success: bool)
    | SavedBarber(barber: Barber)
    | SavedService(service: Service)
    | SavedAppointment(appointment: Appointment)
    | SavedBooking(appointment: Appointment, includedService: Service,
                   includedBarber: Option<Barber>)
    | Booked(id: string, customerName: string, serviceName: string, barberName: Option<string>,
             appointmentDate: Option<string>, status: string)
    | Storefront(shop: Shop, services: seq<Service>, barbers: seq<Barber>)
    | BarberPage(barbers: seq<Barber>, shop: Shop)
    | ServicePage(services: seq<Service>, shop: Shop)
    | AppointmentPage(appointments: seq<Appointment>, services: seq<Service>,
                      barbers: seq<Barber>, shop: Shop)

  /** What a handler ends with: a response it returns or throws, a redirect, an
      uncaught exception (which the host turns into a 500), or the platform
      SDK's own login response when there is no admin session. */
  datatype Response =
    | Reply(status: nat, body: Body)
    | Redirect(location: string)
    | Thrown(message: string)
    | LoginRequired

  /** The foreign keys of a new appointment: the service it must name, and the
      barber it names, if any, are rows of their tables. */
  predicate LinksResolve(data: AppointmentData, services: map<string, Service>,
                         barbers: map<string, Barber>)
  {
    && data.serviceId.Some? && data.serviceId.value in services
    && (data.barberId.Some? ==> data.barberId.value in barbers)
  }

  /** `include: { barber: true }`: the barber row an appointment names, if any. */
  function IncludedBarber(barberId: Option<string>, barbers: map<string, Barber>): Option<Barber>
    requires barberId.Some? ==> barberId.value in barbers
  {
    if barberId.Some? then Some(barbers[barberId.value]) else None
  }

  // The `where` filters and `orderBy` keys of the handlers' queries.

  function BarberOf(shopId: string): Barber -> bool {
    (b: Barber) => b.shopId == shopId
  }

  function ActiveBarberOf(shopId: string): Barber -> bool {
    (b: Barber) => b.shopId == shopId && b.isActive
  }

  function ServiceOf(shopId: string): Service -> bool {
    (s: Service) => s.shopId == shopId
  }

  function ActiveServiceOf(shopId: string): Service -> bool {
    (s: Service) => s.shopId == shopId && s.isActive
  }

  function AppointmentOf(shopId: string): Appointment -> bool {
    (a: Appointment) => a.shopId == shopId
  }

  function BarberName(b: Barber): string { b.name }
  function ServiceName(s: Service): string { s.name }
  function BarberCreatedAt(b: Barber): int { b.createdAt }
  function ServiceCreatedAt(s: Service): int { s.createdAt }

  /** The instant of an appointment, given the instant each date text denotes. */
  function AppointmentInstant(instant: Option<string> -> int): Appointment -> int {
    (a: Appointment) => instant(a.appointmentDate)
  }
}
