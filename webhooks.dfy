/** The webhook endpoint (app/routes/webhooks.tsx): an uninstall marks the
    shop inactive; every other topic is refused. */
module Webhooks {
  import opened Js
  import opened Records
  import opened Database
  import AppBootstrap

  /** What the platform's webhook authentication yields for a delivery: the
      topic, the shop's domain, and whether a session and an admin API context
      exist for that shop. */
  datatype WebhookContext = WebhookContext(topic: string, shop: string,
                                           hasSession: bool, hasAdmin: bool)

  const AppUninstalled := "APP_UNINSTALLED"

  /** The shop table after `domain` uninstalls the app. */
  function Uninstall(shops: map<string, Shop>, domain: string): (r: map<string, Shop>)
    requires domain in shops
    ensures r.Keys == shops.Keys
    ensures !r[domain].isActive && r[domain] == shops[domain].(isActive := false)
    ensures forall d :: d in shops && d != domain ==> r[d] == shops[d]
  {
    shops[domain := shops[domain].(isActive := false)]
  }

  /** The action. Every response here is thrown: an empty `Response()` (status
      200) or the 404 for unhandled topics. */
  method Action(db: Db, ctx: WebhookContext) returns (resp: Response)
    requires db.Valid()
    modifies db
    ensures db.Valid()
    ensures !ctx.hasAdmin ==> resp == Reply(200, Empty) && db.shops == old(db.shops)
    ensures ctx.hasAdmin && ctx.topic != AppUninstalled ==>
              resp == Reply(404, Text("Unhandled webhook topic")) && db.shops == old(db.shops)
    ensures ctx.hasAdmin && ctx.topic == AppUninstalled && !ctx.hasSession ==>
              resp == Reply(200, Empty) && db.shops == old(db.shops)
    ensures ctx.hasAdmin && ctx.topic == AppUninstalled && ctx.hasSession ==>
              if ctx.shop in old(db.shops)
              then resp == Reply(200, Empty) && db.shops == Uninstall(old(db.shops), ctx.shop)
              else resp.Thrown? && db.shops == old(db.shops)
    ensures db.barbers == old(db.barbers) && db.services == old(db.services)
    ensures db.appointments == old(db.appointments)
  {
    if !ctx.hasAdmin {
      return Reply(200, Empty);
    }
    if ctx.topic == AppUninstalled {
      if ctx.hasSession {
        var updated := db.SetShopActive(ctx.shop, false);
        if updated.None? {
          return Thrown("Record to update not found");
        }
      }
      return Reply(200, Empty);
    }
    resp := Reply(404, Text("Unhandled webhook topic"));
  }

  /** An uninstall followed by a visit to the app leaves the shop active again,
      with every other column and row as it was. */
  lemma UninstallThenVisit(shops: map<string, Shop>, domain: string, id: string)
    requires domain in shops
    ensures AppBootstrap.Bootstrap(Uninstall(shops, domain), domain, id)
            == shops[domain := shops[domain].(isActive := true)]
  {
  }

  /** For a shop that was active, uninstalling and visiting again restores the
      shop table exactly. */
  lemma ReinstallRestores(shops: map<string, Shop>, domain: string, id: string)
    requires domain in shops && shops[domain].isActive
    ensures AppBootstrap.Bootstrap(Uninstall(shops, domain), domain, id) == shops
  {
    UninstallThenVisit(shops, domain, id);
    assert shops[domain].(isActive := true) == shops[domain];
  }
}
