/** The app's relational store, held in memory: the shop table keyed by its
    unique domain, and the barber, service and appointment tables keyed by row
    id. Each method is one ORM call as the handlers use it; a call the store
    refuses (no row with that id, null in a required column, a constraint of
    the schema) changes nothing and reports the refusal. */
module Database {
  import opened Js
  import opened Records

  /** A row whose `shopId` is this belongs to the shop with `domain` and to no
      other shop. */
  predicate OwnedBy(shops: map<string, Shop>, domain: string, shopId: string) {
    && domain in shops && shops[domain].id == shopId
    && forall d :: d in shops && shops[d].id == shopId ==> d == domain
  }

  class Db {
    var shops: map<string, Shop>
    var barbers: map<string, Barber>
    var services: map<string, Service>
    var appointments: map<string, Appointment>
    const defaults: ColumnDefaults

    /** Every row is stored under its own key, and no two shops share an id
        (the primary key the other tables' `shopId` refers to). */
    ghost predicate Valid()
      reads this
    {
      && (forall d :: d in shops ==> shops[d].shopDomain == d)
      && (forall d, e :: d in shops && e in shops && d != e ==> shops[d].id != shops[e].id)
      && (forall k :: k in barbers ==> barbers[k].id == k)
      && (forall k :: k in services ==> services[k].id == k)
      && (forall k :: k in appointments ==> appointments[k].id == k)
    }

    constructor (defaults: ColumnDefaults)
      ensures Valid() && this.defaults == defaults
      ensures shops == map[] && barbers == map[] && services == map[] && appointments == map[]
    {
      this.defaults := defaults;
      shops, barbers, services, appointments := map[], map[], map[], map[];
    }

    /** The ids already given to shops, which the id generator never reuses. */
    function ShopIds(): set<string>
      reads this
    {
      set d | d in shops :: shops[d].id
    }

    /** `prisma.shop.findUnique({ where: { shopDomain } })`. */
    function FindShop(domain: string): (r: Option<Shop>)
      reads this
      ensures r.Some? <==> domain in shops
      ensures r.Some? ==> r.value == shops[domain]
      ensures Valid() ==> (r.None? <==> forall d :: d in shops ==> shops[d].shopDomain != domain)
      ensures Valid() && r.Some? ==> r.value.shopDomain == domain
      ensures Valid() && r.Some? ==>
                forall d :: d in shops && shops[d].id == r.value.id ==> d == domain
    {
      if domain in shops then Some(shops[domain]) else None
    }

    /** `prisma.shop.create`: refused when the domain is already taken. */
    method CreateShop(s: Shop) returns (ok: bool)
      requires Valid() && s.id !in ShopIds()
      modifies this
      ensures Valid()
      ensures ok <==> s.shopDomain !in old(shops)
      ensures shops == if ok then old(shops)[s.shopDomain := s] else old(shops)
      ensures barbers == old(barbers) && services == old(services)
      ensures appointments == old(appointments)
    {
      ok := s.shopDomain !in shops;
      if ok {
        shops := shops[s.shopDomain := s];
      }
    }

    /** `prisma.shop.update({ where: { shopDomain }, data: { isActive } })`:
        refused when no shop has that domain. */
    method SetShopActive(domain: string, isActive: bool) returns (r: Option<Shop>)
      requires Valid()
      modifies this
      ensures Valid()
      ensures r.Some? <==> domain in old(shops)
      ensures r.Some? ==> r.value == old(shops)[domain].(isActive := isActive)
      ensures shops == if r.Some? then old(shops)[domain := r.value] else old(shops)
      ensures barbers == old(barbers) && services == old(services)
      ensures appointments == old(appointments)
    {
      if domain in shops {
        r := Some(shops[domain].(isActive := isActive));
        shops := shops[domain := r.value];
      } else {
        r := None;
      }
    }

    /** `prisma.barber.create`: the name column is required; `isActive` takes its default. */
    method CreateBarber(id: string, shopId: string, data: BarberData, now: int)
      returns (r: Option<Barber>)
      requires Valid() && id !in barbers
      modifies this
      ensures Valid()
      ensures r.Some? <==> data.name.Some?
      ensures r.Some? ==> r.value == Barber(id, shopId, data.name.value, data.specialty, data.bio,
                                            data.imageUrl, defaults.barberIsActive, now)
      ensures barbers == if r.Some? then old(barbers)[id := r.value] else old(barbers)
      ensures shops == old(shops) && services == old(services)
      ensures appointments == old(appointments)
    {
      if data.name.Some? {
        r := Some(Barber(id, shopId, data.name.value, data.specialty, data.bio,
                         data.imageUrl, defaults.barberIsActive, now));
        barbers := barbers[id := r.value];
      } else {
        r := None;
      }
    }

    /** `prisma.barber.update({ where: { id }, data })`: refused for a null or
        unknown id or a null name; the owner and creation time stay. */
    method UpdateBarber(id: Option<string>, data: BarberData, isActive: bool)
      returns (r: Option<Barber>)
      requires Valid()
      modifies this
      ensures Valid()
      ensures r.Some? <==> id.Some? && id.value in old(barbers) && data.name.Some?
      ensures r.Some? ==> r.value == old(barbers)[id.value].(name := data.name.value,
                                       specialty := data.specialty, bio := data.bio,
                                       imageUrl := data.imageUrl, isActive := isActive)
      ensures barbers == if r.Some? then old(barbers)[id.value := r.value] else old(barbers)
      ensures shops == old(shops) && services == old(services)
      ensures appointments == old(appointments)
    {
      if id.Some? && id.value in barbers && data.name.Some? {
        r := Some(barbers[id.value].(name := data.name.value, specialty := data.specialty,
                                     bio := data.bio, imageUrl := data.imageUrl,
                                     isActive := isActive));
        barbers := barbers[id.value := r.value];
      } else {
        r := None;
      }
    }

    /** `prisma.barber.delete({ where: { id } })`: refused for a null or unknown id. */
    method DeleteBarber(id: Option<string>) returns (ok: bool)
      requires Valid()
      modifies this
      ensures Valid()
      ensures ok <==> id.Some? && id.value in old(barbers)
      ensures barbers == if ok then old(barbers) - {id.value} else old(barbers)
      ensures shops == old(shops) && services == old(services)
      ensures appointments == old(appointments)
    {
      ok := id.Some? && id.value in barbers;
      if ok {
        barbers := barbers - {id.value};
      }
    }

    /** `prisma.service.create`: name and price are required; `isActive` takes its default. */
    method CreateService(id: string, shopId: string, data: ServiceData, now: int)
      returns (r: Option<Service>)
      requires Valid() && id !in services
      modifies this
      ensures Valid()
      ensures r.Some? <==> data.name.Some? && data.price.Some?
      ensures r.Some? ==> r.value == Service(id, shopId, data.name.value, data.description,
                                             data.price.value, data.duration,
                                             defaults.serviceIsActive, now)
      ensures services == if r.Some? then old(services)[id := r.value] else old(services)
      ensures shops == old(shops) && barbers == old(barbers)
      ensures appointments == old(appointments)
    {
      if data.name.Some? && data.price.Some? {
        r := Some(Service(id, shopId, data.name.value, data.description, data.price.value,
                          data.duration, defaults.serviceIsActive, now));
        services := services[id := r.value];
      } else {
        r := None;
      }
    }

    /** `prisma.service.update({ where: { id }, data })`. */
    method UpdateService(id: Option<string>, data: ServiceData, isActive: bool)
      returns (r: Option<Service>)
      requires Valid()
      modifies this
      ensures Valid()
      ensures r.Some? <==> id.Some? && id.value in old(services)
                           && data.name.Some? && data.price.Some?
      ensures r.Some? ==> r.value == old(services)[id.value].(name := data.name.value,
                                       description := data.description,
                                       price := data.price.value, duration := data.duration,
                                       isActive := isActive)
      ensures services == if r.Some? then old(services)[id.value := r.value] else old(services)
      ensures shops == old(shops) && barbers == old(barbers)
      ensures appointments == old(appointments)
    {
      if id.Some? && id.value in services && data.name.Some? && data.price.Some? {
        r := Some(services[id.value].(name := data.name.value, description := data.description,
                                      price := data.price.value, duration := data.duration,
                                      isActive := isActive));
        services := services[id.value := r.value];
      } else {
        r := None;
      }
    }

    /** `prisma.service.delete({ where: { id } })`. */
    method DeleteService(id: Option<string>) returns (ok: bool)
      requires Valid()
      modifies this
      ensures Valid()
      ensures ok <==> id.Some? && id.value in old(services)
      ensures services == if ok then old(services) - {id.value} else old(services)
      ensures shops == old(shops) && barbers == old(barbers)
      ensures appointments == old(appointments)
    {
      ok := id.Some? && id.value in services;
      if ok {
        services := services - {id.value};
      }
    }

    /** `prisma.appointment.create`: the customer's name, email and phone and the
        service are required, the service and the barber, if one is named, must
        exist, and a status left out takes the column default. `dateValid` is
        whether `new Date(...)` gave a valid date, which this model leaves
        opaque. */
    method CreateAppointment(id: string, shopId: string, data: AppointmentData, now: int,
                             dateValid: bool)
      returns (r: Option<Appointment>)
      requires Valid() && id !in appointments
      modifies this
      ensures Valid()
      ensures r.Some? <==> dateValid && data.customerName.Some? && data.customerEmail.Some?
                           && data.customerPhone.Some? && LinksResolve(data, services, barbers)
      ensures r.Some? ==> r.value == Appointment(id, shopId, data.customerName.value,
                            data.customerEmail.value, data.customerPhone.value,
                            data.serviceId.value, data.barberId, data.appointmentDate,
                            data.notes,
                            if data.status.Some? then data.status.value
                            else defaults.appointmentStatus,
                            now)
      ensures appointments == if r.Some? then old(appointments)[id := r.value]
                              else old(appointments)
      ensures shops == old(shops) && barbers == old(barbers) && services == old(services)
    {
      if dateValid && data.customerName.Some? && data.customerEmail.Some?
         && data.customerPhone.Some? && LinksResolve(data, services, barbers)
      {
        var status := if data.status.Some? then data.status.value else defaults.appointmentStatus;
        r := Some(Appointment(id, shopId, data.customerName.value, data.customerEmail.value,
                              data.customerPhone.value, data.serviceId.value, data.barberId,
                              data.appointmentDate, data.notes, status, now));
        appointments := appointments[id := r.value];
      } else {
        r := None;
      }
    }

    /** `prisma.appointment.update({ where: { id }, data: { status } })`. */
    method SetAppointmentStatus(id: Option<string>, status: Option<string>)
      returns (r: Option<Appointment>)
      requires Valid()
      modifies this
      ensures Valid()
      ensures r.Some? <==> id.Some? && id.value in old(appointments) && status.Some?
      ensures r.Some? ==> r.value == old(appointments)[id.value].(status := status.value)
      ensures appointments == if r.Some? then old(appointments)[id.value := r.value]
                              else old(appointments)
      ensures shops == old(shops) && barbers == old(barbers) && services == old(services)
    {
      if id.Some? && id.value in appointments && status.Some? {
        r := Some(appointments[id.value].(status := status.value));
        appointments := appointments[id.value := r.value];
      } else {
        r := None;
      }
    }
  }
}
