/** The embedded app's root loader (app/routes/app.tsx): on every
    authenticated visit it makes sure the session's shop exists and is active,
    then redirects to `/app`. */
module AppBootstrap {
  import opened Js
  import opened Records
  import opened Database

  /** The suffix of every domain the platform hands out to a store. */
  const StoreSuffix := ".myshopify.com"

  /** `session.shop.replace('.myshopify.com', '')`: the display name of a new shop. */
  function ShopName(domain: string): string {
    ReplaceFirst(domain, StoreSuffix, "")
  }

  /** The row a first visit creates: active, on a trial subscription. */
  function NewShop(id: string, domain: string): Shop {
    Shop(id, domain, ShopName(domain), true, "trial")
  }

  /** The shop table after a visit by the shop with `domain`; `id` is the id
      the store would give a new row. */
  function Bootstrap(shops: map<string, Shop>, domain: string, id: string): (r: map<string, Shop>)
    ensures domain in r && r[domain].isActive
    ensures forall d :: d != domain ==> (d in r <==> d in shops)
    ensures forall d :: d != domain && d in shops ==> r[d] == shops[d]
    ensures domain in shops ==> r[domain] == shops[domain].(isActive := true)
    ensures domain !in shops ==> r[domain] == NewShop(id, domain)
  {
    if domain !in shops then shops[domain := NewShop(id, domain)]
    else if !shops[domain].isActive then shops[domain := shops[domain].(isActive := true)]
    else shops
  }

  /** A visit by a shop that is already active changes nothing. */
  lemma ActiveShopUntouched(shops: map<string, Shop>, domain: string, id: string)
    requires domain in shops && shops[domain].isActive
    ensures Bootstrap(shops, domain, id) == shops
  {
  }

  /** Visiting twice leaves the table as visiting once, whatever id the second
      visit would have used. */
  lemma BootstrapIdempotent(shops: map<string, Shop>, domain: string, id: string, id': string)
    ensures Bootstrap(Bootstrap(shops, domain, id), domain, id') == Bootstrap(shops, domain, id)
  {
    ActiveShopUntouched(Bootstrap(shops, domain, id), domain, id');
  }

  /** A platform domain `handle.myshopify.com` gets the display name `handle`,
      provided `handle` does not itself contain the suffix. */
  lemma {:induction false} ShopNameOfStoreDomain(handle: string)
    requires forall j :: 0 <= j <= |handle| ==> !OccursAt(handle, StoreSuffix, j)
    ensures ShopName(handle + StoreSuffix) == handle
  {
    var s := handle + StoreSuffix;
    var n := |handle|;
    assert s[n..n + |StoreSuffix|] == StoreSuffix;
    assert OccursAt(s, StoreSuffix, n);
    forall j | 0 <= j < n ensures !OccursAt(s, StoreSuffix, j) {
      if j + |StoreSuffix| <= n {
        assert !OccursAt(handle, StoreSuffix, j);
        assert handle[j..j + |StoreSuffix|] == s[j..j + |StoreSuffix|];
      } else {
        // such an occurrence would overlap the real suffix by d characters, so
        // the suffix would have to read "." at position d (only d == 10 does)
        // and "m" right after it (it reads "c" there)
        var d := n - j;
        var w := s[j..j + |StoreSuffix|];
        assert w[d] == s[n] == '.';
        if d == 10 {
          assert w[d + 1] == s[n + 1] == 'm' != StoreSuffix[d + 1];
        } else {
          assert w[d] != StoreSuffix[d];
        }
        assert w != StoreSuffix;
      }
    }
    assert s[..n] == handle;
    assert s[n + |StoreSuffix|..] == [];
  }

  /** A domain without the suffix is used verbatim as the display name. */
  lemma ShopNameOfOtherDomain(domain: string)
    requires forall j :: 0 <= j <= |domain| ==> !OccursAt(domain, StoreSuffix, j)
    ensures ShopName(domain) == domain
  {
  }

  /** The loader. `session` is what the platform's admin authentication yields:
      the session's shop domain, or None when it answers with its own login
      response instead. `newId` is the id the store gives a new shop row. */
  method Loader(db: Db, session: Option<string>, newId: string) returns (resp: Response)
    requires db.Valid() && newId !in db.ShopIds()
    modifies db
    ensures db.Valid()
    ensures session.None? ==> resp == LoginRequired && db.shops == old(db.shops)
    ensures session.Some? ==> resp == Redirect("/app")
    ensures session.Some? ==> db.shops == Bootstrap(old(db.shops), session.value, newId)
    ensures db.barbers == old(db.barbers) && db.services == old(db.services)
    ensures db.appointments == old(db.appointments)
  {
    if session.None? {
      return LoginRequired;
    }
    var domain := session.value;
    var existing := db.FindShop(domain);
    if existing.None? {
      var created := db.CreateShop(NewShop(newId, domain));
    } else if !existing.value.isActive {
      var reactivated := db.SetShopActive(domain, true);
    }
    resp := Redirect("/app");
  }
}
