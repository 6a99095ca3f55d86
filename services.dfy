/** Service management (app/routes/app.services.tsx): the admin loader lists
    the shop's services; the action creates, updates or deletes one service,
    chosen by the form's `action` field; the edit dialog encodes what it submits.
    Price and duration are stored as the text typed, never parsed. */
module Services {
  import opened Js
  import opened Records
  import opened Database
  import opened Listing

  /** What the form's `action` field asks for. */
  datatype ServiceRequest =
    | Create(data: ServiceData)
    | Update(id: Option<string>, data: ServiceData, isActive: bool)
    | Delete(id: Option<string>)
    | Unknown

  const ShopMissing := Thrown("Shop not found")
  const StoreRefused := Thrown("Prisma rejected the write")

  /** The column values as the form carries them. */
  function DataOf(form: Form): ServiceData {
    ServiceData(Get(form, "name"), Get(form, "description"), Get(form, "price"), Get(form, "duration"))
  }

  /** How the action reads a submitted form. */
  function Decode(form: Form): (r: ServiceRequest)
    ensures r.Create? <==> Get(form, "action") == Some("create")
    ensures r.Update? <==> Get(form, "action") == Some("update")
    ensures r.Delete? <==> Get(form, "action") == Some("delete")
    ensures (r.Create? || r.Update?) ==> r.data == DataOf(form)
    ensures (r.Update? || r.Delete?) ==> r.id == Get(form, "id")
    ensures r.Update? ==> (r.isActive <==> Get(form, "isActive") == Some("true"))
  {
    var action := Get(form, "action");
    if action == Some("create") then Create(DataOf(form))
    else if action == Some("update")
    then Update(Get(form, "id"), DataOf(form), Get(form, "isActive") == Some("true"))
    else if action == Some("delete") then Delete(Get(form, "id"))
    else Unknown
  }

  /** The id of the one row a request may touch. */
  function Target(req: ServiceRequest, newId: string): Option<string> {
    match req
    case Create(_) => Some(newId)
    case Update(id, _, _) => id
    case Delete(id) => id
    case Unknown => None
  }

  /** The service table and the response after a request from the shop with id
      `shopId`, when the store would give a new row `newId`, `now` and the
      default `activeDefault`. */
  function Apply(services: map<string, Service>, shopId: string, req: ServiceRequest,
                 newId: string, now: int, activeDefault: bool)
    : (r: (map<string, Service>, Response))
    requires newId !in services
    ensures forall k :: Some(k) != Target(req, newId) ==>
              (k in r.0 <==> k in services) && (k in services ==> r.0[k] == services[k])
    ensures !(r.1.Reply? && r.1.status == 200) ==> r.0 == services
    ensures r.1 == Reply(400, Outcome(false)) <==> req.Unknown?
    ensures req.Create? ==>
              (r.1.Reply? <==> req.data.name.Some? && req.data.price.Some?)
              && (r.1.Reply? ==> newId in r.0 && r.1 == Reply(200, SavedService(r.0[newId]))
                                 && r.0[newId] == Service(newId, shopId, req.data.name.value,
                                      req.data.description, req.data.price.value,
                                      req.data.duration, activeDefault, now))
    ensures req.Update? ==>
              (r.1.Reply? <==> req.id.Some? && req.id.value in services
                               && req.data.name.Some? && req.data.price.Some?)
              && (r.1.Reply? ==> req.id.value in r.0
                                 && r.1 == Reply(200, SavedService(r.0[req.id.value]))
                                 && r.0[req.id.value] == services[req.id.value].(
                                      name := req.data.name.value,
                                      description := req.data.description,
                                      price := req.data.price.value,
                                      duration := req.data.duration, isActive := req.isActive))
    ensures req.Delete? ==>
              (r.1.Reply? <==> req.id.Some? && req.id.value in services)
              && (r.1.Reply? ==> r.0 == services - {req.id.value} && r.1 == Reply(200, Outcome(true)))
  {
    match req
    case Create(data) =>
      if data.name.None? || data.price.None? then (services, StoreRefused)
      else
        var row := Service(newId, shopId, data.name.value, data.description, data.price.value,
                           data.duration, activeDefault, now);
        (services[newId := row], Reply(200, SavedService(row)))
    case Update(id, data, isActive) =>
      if id.None? || id.value !in services || data.name.None? || data.price.None?
      then (services, StoreRefused)
      else
        var row := services[id.value].(name := data.name.value, description := data.description,
                                       price := data.price.value, duration := data.duration,
                                       isActive := isActive);
        (services[id.value := row], Reply(200, SavedService(row)))
    case Delete(id) =>
      if id.None? || id.value !in services then (services, StoreRefused)
      else (services - {id.value}, Reply(200, Outcome(true)))
    case Unknown => (services, Reply(400, Outcome(false)))
  }

  /** The action. `session` is the admin session's shop domain (None when the
      platform answers with its login response); `newId` and `now` are the id
      and creation time the store gives a new row. */
  method Action(db: Db, session: Option<string>, form: Form, newId: string, now: int)
    returns (resp: Response)
    requires db.Valid() && newId !in db.services
    modifies db
    ensures db.Valid()
    ensures db.shops == old(db.shops) && db.barbers == old(db.barbers)
    ensures db.appointments == old(db.appointments)
    ensures session.None? ==> resp == LoginRequired && db.services == old(db.services)
    ensures session.Some? && session.value !in old(db.shops) ==>
              resp == ShopMissing && db.services == old(db.services)
    ensures session.Some? && session.value in old(db.shops) ==>
              (db.services, resp) == Apply(old(db.services), old(db.shops)[session.value].id,
                                           Decode(form), newId, now, db.defaults.serviceIsActive)
  {
    if session.None? {
      return LoginRequired;
    }
    var shop := db.FindShop(session.value);
    if shop.None? {
      return ShopMissing;
    }
    var req := Decode(form);
    match req
    case Create(data) =>
      var row := db.CreateService(newId, shop.value.id, data, now);
      resp := if row.Some? then Reply(200, SavedService(row.value)) else StoreRefused;
    case Update(id, data, isActive) =>
      var row := db.UpdateService(id, data, isActive);
      resp := if row.Some? then Reply(200, SavedService(row.value)) else StoreRefused;
    case Delete(id) =>
      var ok := db.DeleteService(id);
      resp := if ok then Reply(200, Outcome(true)) else StoreRefused;
    case Unknown =>
      resp := Reply(400, Outcome(false));
  }

  /** The loader: this shop's services, newest first. */
  method Loader(db: Db, session: Option<string>) returns (resp: Response)
    requires db.Valid()
    ensures session.None? ==> resp == LoginRequired
    ensures session.Some? && session.value !in db.shops ==> resp == ShopMissing
    ensures session.Some? && session.value in db.shops ==>
              var shop := db.shops[session.value];
              && resp.Reply? && resp.status == 200 && resp.body.ServicePage?
              && resp.body.shop == shop && shop.shopDomain == session.value
              && Lists(resp.body.services, db.services, ServiceOf(shop.id), Descending(ServiceCreatedAt))
              && (forall s :: s in resp.body.services ==> OwnedBy(db.shops, session.value, s.shopId))
  {
    if session.None? {
      return LoginRequired;
    }
    var shop := db.FindShop(session.value);
    if shop.None? {
      return ShopMissing;
    }
    DescendingIsPreorder(ServiceCreatedAt);
    var ids, rows := SelectSorted(db.services, ServiceOf(shop.value.id), Descending(ServiceCreatedAt));
    resp := Reply(200, ServicePage(rows, shop.value));
  }

  /** The add/edit dialog's state: the four text fields and the status select. */
  datatype ServiceDraft = ServiceDraft(name: string, description: string, price: string,
                                       duration: string, isActive: bool)

  /** What the dialog submits: "update" with the edited service's id, or
      "create" without an id, then every field, the flag as `isActive.toString()`. */
  function Encode(editing: Option<string>, draft: ServiceDraft): Form {
    [Entry("action", if editing.Some? then "update" else "create")]
    + (if editing.Some? then [Entry("id", editing.value)] else [])
    + [Entry("name", draft.name), Entry("description", draft.description),
       Entry("price", draft.price), Entry("duration", draft.duration),
       Entry("isActive", BoolString(draft.isActive))]
  }

  function DraftData(draft: ServiceDraft): ServiceData {
    ServiceData(Some(draft.name), Some(draft.description), Some(draft.price), Some(draft.duration))
  }

  /** Each field the dialog submits is read back as it was written. */
  lemma EncodedFields(editing: Option<string>, draft: ServiceDraft)
    ensures var form := Encode(editing, draft);
            && Get(form, "action") == Some(if editing.Some? then "update" else "create")
            && Get(form, "id") == editing
            && DataOf(form) == DraftData(draft)
            && Get(form, "isActive") == Some(BoolString(draft.isActive))
  {
    var form := Encode(editing, draft);
    var at := if editing.Some? then 2 else 1;
    GetAt(form, 0);
    if editing.Some? {
      GetAt(form, 1);
    } else {
      GetAbsent(form, "id");
    }
    GetAt(form, at);
    GetAt(form, at + 1);
    GetAt(form, at + 2);
    GetAt(form, at + 3);
    GetAt(form, at + 4);
  }

  /** The action reads back exactly what the dialog meant: an update of the
      edited service, flag included, or a create. */
  lemma SubmitRoundTrip(editing: Option<string>, draft: ServiceDraft)
    ensures Decode(Encode(editing, draft)) ==
              if editing.Some? then Update(editing, DraftData(draft), draft.isActive)
              else Create(DraftData(draft))
  {
    EncodedFields(editing, draft);
  }

  /** Saving the edit dialog for an existing service overwrites that one row
      with the draft, price and duration verbatim, status included. */
  lemma EditSavesDraft(services: map<string, Service>, shopId: string, id: string,
                       draft: ServiceDraft, newId: string, now: int, activeDefault: bool)
    requires newId !in services && id in services
    ensures Apply(services, shopId, Decode(Encode(Some(id), draft)), newId, now, activeDefault).0
            == services[id := services[id].(name := draft.name,
                                            description := Some(draft.description),
                                            price := draft.price,
                                            duration := Some(draft.duration),
                                            isActive := draft.isActive)]
  {
    SubmitRoundTrip(Some(id), draft);
  }

  /** The add dialog also has a status select, but the create branch does not
      read `isActive`: a new service always gets the column default. */
  lemma AddIgnoresStatus(services: map<string, Service>, shopId: string, draft: ServiceDraft,
                         newId: string, now: int, activeDefault: bool)
    requires newId !in services
    ensures var r := Apply(services, shopId, Decode(Encode(None, draft)), newId, now, activeDefault);
            newId in r.0 && r.0[newId].isActive == activeDefault
  {
    SubmitRoundTrip(None, draft);
  }
}
