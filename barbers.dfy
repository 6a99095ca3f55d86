/** Barber management (app/routes/app.barbers.tsx): the admin loader lists the
    shop's barbers; the action creates, updates or deletes one barber, chosen by
    the form's `action` field; the edit dialog encodes what it submits. */
module Barbers {
  import opened Js
  import opened Records
  import opened Database
  import opened Listing

  /** What the form's `action` field asks for. */
  datatype BarberRequest =
    | Create(data: BarberData)
    | Update(id: Option<string>, data: BarberData, isActive: bool)
    | Delete(id: Option<string>)
    | Unknown

  const ShopMissing := Thrown("Shop not found")
  const StoreRefused := Thrown("Prisma rejected the write")

  /** The column values as the form carries them. */
  function DataOf(form: Form): BarberData {
    BarberData(Get(form, "name"), Get(form, "specialty"), Get(form, "bio"), Get(form, "imageUrl"))
  }

  /** How the action reads a submitted form. */
  function Decode(form: Form): (r: BarberRequest)
    ensures r.Create? <==> Get(form, "action") == Some("create")
    ensures r.Update? <==> Get(form, "action") == Some("update")
    ensures r.Delete? <==> Get(form, "action") == Some("delete")
    ensures (r.Create? || r.Update?) ==> r.data == DataOf(form)
    ensures (r.Update? || r.Delete?) ==> r.id == Get(form, "id")
    ensures r.Update? ==> (r.isActive <==> Get(form, "isActive") == Some("true"))
  {
    var action := Get(form, "action");
    if action == Some("create") then Create(DataOf(form))
    else if action == Some("update")
    then Update(Get(form, "id"), DataOf(form), Get(form, "isActive") == Some("true"))
    else if action == Some("delete") then Delete(Get(form, "id"))
    else Unknown
  }

  /** The id of the one row a request may touch. */
  function Target(req: BarberRequest, newId: string): Option<string> {
    match req
    case Create(_) => Some(newId)
    case Update(id, _, _) => id
    case Delete(id) => id
    case Unknown => None
  }

  /** The barber table and the response after a request from the shop with id
      `shopId`, when the store would give a new row `newId`, `now` and the
      default `activeDefault`. */
  function Apply(barbers: map<string, Barber>, shopId: string, req: BarberRequest,
                 newId: string, now: int, activeDefault: bool)
    : (r: (map<string, Barber>, Response))
    requires newId !in barbers
    ensures forall k :: Some(k) != Target(req, newId) ==>
              (k in r.0 <==> k in barbers) && (k in barbers ==> r.0[k] == barbers[k])
    ensures !(r.1.Reply? && r.1.status == 200) ==> r.0 == barbers
    ensures r.1 == Reply(400, Outcome(false)) <==> req.Unknown?
    ensures req.Create? ==>
              (r.1.Reply? <==> req.data.name.Some?)
              && (r.1.Reply? ==> newId in r.0 && r.1 == Reply(200, SavedBarber(r.0[newId]))
                                 && r.0[newId] == Barber(newId, shopId, req.data.name.value,
                                      req.data.specialty, req.data.bio, req.data.imageUrl,
                                      activeDefault, now))
    ensures req.Update? ==>
              (r.1.Reply? <==> req.id.Some? && req.id.value in barbers && req.data.name.Some?)
              && (r.1.Reply? ==> req.id.value in r.0
                                 && r.1 == Reply(200, SavedBarber(r.0[req.id.value]))
                                 && r.0[req.id.value] == barbers[req.id.value].(
                                      name := req.data.name.value, specialty := req.data.specialty,
                                      bio := req.data.bio, imageUrl := req.data.imageUrl,
                                      isActive := req.isActive))
    ensures req.Delete? ==>
              (r.1.Reply? <==> req.id.Some? && req.id.value in barbers)
              && (r.1.Reply? ==> r.0 == barbers - {req.id.value} && r.1 == Reply(200, Outcome(true)))
  {
    match req
    case Create(data) =>
      if data.name.None? then (barbers, StoreRefused)
      else
        var row := Barber(newId, shopId, data.name.value, data.specialty, data.bio,
                          data.imageUrl, activeDefault, now);
        (barbers[newId := row], Reply(200, SavedBarber(row)))
    case Update(id, data, isActive) =>
      if id.None? || id.value !in barbers || data.name.None? then (barbers, StoreRefused)
      else
        var row := barbers[id.value].(name := data.name.value, specialty := data.specialty,
                                      bio := data.bio, imageUrl := data.imageUrl,
                                      isActive := isActive);
        (barbers[id.value := row], Reply(200, SavedBarber(row)))
    case Delete(id) =>
      if id.None? || id.value !in barbers then (barbers, StoreRefused)
      else (barbers - {id.value}, Reply(200, Outcome(true)))
    case Unknown => (barbers, Reply(400, Outcome(false)))
  }

  /** The action. `session` is the admin session's shop domain (None when the
      platform answers with its login response); `newId` and `now` are the id
      and creation time the store gives a new row. */
  method Action(db: Db, session: Option<string>, form: Form, newId: string, now: int)
    returns (resp: Response)
    requires db.Valid() && newId !in db.barbers
    modifies db
    ensures db.Valid()
    ensures db.shops == old(db.shops) && db.services == old(db.services)
    ensures db.appointments == old(db.appointments)
    ensures session.None? ==> resp == LoginRequired && db.barbers == old(db.barbers)
    ensures session.Some? && session.value !in old(db.shops) ==>
              resp == ShopMissing && db.barbers == old(db.barbers)
    ensures session.Some? && session.value in old(db.shops) ==>
              (db.barbers, resp) == Apply(old(db.barbers), old(db.shops)[session.value].id,
                                          Decode(form), newId, now, db.defaults.barberIsActive)
  {
    if session.None? {
      return LoginRequired;
    }
    var shop := db.FindShop(session.value);
    if shop.None? {
      return ShopMissing;
    }
    var req := Decode(form);
    match req
    case Create(data) =>
      var row := db.CreateBarber(newId, shop.value.id, data, now);
      resp := if row.Some? then Reply(200, SavedBarber(row.value)) else StoreRefused;
    case Update(id, data, isActive) =>
      var row := db.UpdateBarber(id, data, isActive);
      resp := if row.Some? then Reply(200, SavedBarber(row.value)) else StoreRefused;
    case Delete(id) =>
      var ok := db.DeleteBarber(id);
      resp := if ok then Reply(200, Outcome(true)) else StoreRefused;
    case Unknown =>
      resp := Reply(400, Outcome(false));
  }

  /** The loader: this shop's barbers, newest first. */
  method Loader(db: Db, session: Option<string>) returns (resp: Response)
    requires db.Valid()
    ensures session.None? ==> resp == LoginRequired
    ensures session.Some? && session.value !in db.shops ==> resp == ShopMissing
    ensures session.Some? && session.value in db.shops ==>
              var shop := db.shops[session.value];
              && resp.Reply? && resp.status == 200 && resp.body.BarberPage?
              && resp.body.shop == shop && shop.shopDomain == session.value
              && Lists(resp.body.barbers, db.barbers, BarberOf(shop.id), Descending(BarberCreatedAt))
              && (forall b :: b in resp.body.barbers ==> OwnedBy(db.shops, session.value, b.shopId))
  {
    if session.None? {
      return LoginRequired;
    }
    var shop := db.FindShop(session.value);
    if shop.None? {
      return ShopMissing;
    }
    DescendingIsPreorder(BarberCreatedAt);
    var ids, rows := SelectSorted(db.barbers, BarberOf(shop.value.id), Descending(BarberCreatedAt));
    resp := Reply(200, BarberPage(rows, shop.value));
  }

  /** The add/edit dialog's state: the four text fields and the status select. */
  datatype BarberDraft = BarberDraft(name: string, specialty: string, bio: string,
                                     imageUrl: string, isActive: bool)

  /** What the dialog submits: "update" with the edited barber's id, or "create"
      without an id, then every field, the flag as `isActive.toString()`. */
  function Encode(editing: Option<string>, draft: BarberDraft): Form {
    [Entry("action", if editing.Some? then "update" else "create")]
    + (if editing.Some? then [Entry("id", editing.value)] else [])
    + [Entry("name", draft.name), Entry("specialty", draft.specialty), Entry("bio", draft.bio),
       Entry("imageUrl", draft.imageUrl), Entry("isActive", BoolString(draft.isActive))]
  }

  function DraftData(draft: BarberDraft): BarberData {
    BarberData(Some(draft.name), Some(draft.specialty), Some(draft.bio), Some(draft.imageUrl))
  }

  /** Each field the dialog submits is read back as it was written. */
  lemma EncodedFields(editing: Option<string>, draft: BarberDraft)
    ensures var form := Encode(editing, draft);
            && Get(form, "action") == Some(if editing.Some? then "update" else "create")
            && Get(form, "id") == editing
            && DataOf(form) == DraftData(draft)
            && Get(form, "isActive") == Some(BoolString(draft.isActive))
  {
    var form := Encode(editing, draft);
    var at := if editing.Some? then 2 else 1;
    GetAt(form, 0);
    if editing.Some? {
      GetAt(form, 1);
    } else {
      GetAbsent(form, "id");
    }
    GetAt(form, at);
    GetAt(form, at + 1);
    GetAt(form, at + 2);
    GetAt(form, at + 3);
    GetAt(form, at + 4);
  }

  /** The action reads back exactly what the dialog meant: an update of the
      edited barber, flag included, or a create. */
  lemma SubmitRoundTrip(editing: Option<string>, draft: BarberDraft)
    ensures Decode(Encode(editing, draft)) ==
              if editing.Some? then Update(editing, DraftData(draft), draft.isActive)
              else Create(DraftData(draft))
  {
    EncodedFields(editing, draft);
  }

  /** Saving the edit dialog for an existing barber overwrites that one row with
      the draft, status included. */
  lemma EditSavesDraft(barbers: map<string, Barber>, shopId: string, id: string,
                       draft: BarberDraft, newId: string, now: int, activeDefault: bool)
    requires newId !in barbers && id in barbers
    ensures Apply(barbers, shopId, Decode(Encode(Some(id), draft)), newId, now, activeDefault).0
            == barbers[id := barbers[id].(name := draft.name, specialty := Some(draft.specialty),
                                          bio := Some(draft.bio), imageUrl := Some(draft.imageUrl),
                                          isActive := draft.isActive)]
  {
    SubmitRoundTrip(Some(id), draft);
  }

  /** The add dialog also has a status select, but the create branch does not
      read `isActive`: a new barber always gets the column default. */
  lemma AddIgnoresStatus(barbers: map<string, Barber>, shopId: string, draft: BarberDraft,
                         newId: string, now: int, activeDefault: bool)
    requires newId !in barbers
    ensures var r := Apply(barbers, shopId, Decode(Encode(None, draft)), newId, now, activeDefault);
            newId in r.0 && r.0[newId].isActive == activeDefault
  {
    SubmitRoundTrip(None, draft);
  }
}
