# Barber shop admin app: a verified model of its decision logic

The app is an embedded admin for barber shops. Staff manage barbers, services
and appointments, and a public storefront proxy lets customers see what can be
booked and book an appointment. Under the ORM calls and the UI there is a thin
layer of the app's own decisions. This project models that layer in Dafny:

- **The store** (`database.dfy`, `Database.Db`): a class that holds one map per
  table. Shops are keyed by domain; barbers, services and appointments are keyed
  by id. Each ORM write the routes make is a method of this class, which
  states the table's new state outright. `findUnique` on a shop is the function
  `FindShop`, and `findMany` is `Listing.SelectSorted` (below). Every method keeps
  `Valid()`: every row is stored under its own key, and no two shops share an id.
- **Shop lifecycle** (`app_bootstrap.dfy`, `webhooks.dfy`). The first
  authenticated visit creates the shop, active and on a `trial` subscription.
  Its display name is the domain with the first `.myshopify.com` removed. A
  later visit reactivates an inactive shop. The `APP_UNINSTALLED` webhook
  deactivates the shop; every other topic gets a 404.
- **Storefront booking** (`app_proxy.dfy`, `AppProxy`). The checks run in a
  fixed order: 405, 400 for a missing shop, 404 for an unknown shop, 400 for
  missing fields. Then comes one insert, or a 500 when the store refuses it. A
  booking always starts as `scheduled`, and the confirmation names its service
  and barber. The loader lists the shop's active
  services and barbers, sorted by name.
- **Admin dispatchers** (`barbers.dfy`, `services.dfy`, `appointments.dfy`). The
  form's `action` field selects create, update, delete or updateStatus. Each
  request touches at most one row, addressed by id, and an unknown action gets
  400. Each dispatcher is the method `Action`, proved equal to the pure table
  transformer `Apply`. The dialogs' form encodings are modelled too, with their
  round trips through the action's decoding. So is the status-to-badge-tone
  mapping.
- **JavaScript semantics** the decisions rely on (`js.dfy`):
  - `FormData.get` returns the first value under a key, or null.
  - The truthiness of a string.
  - `x || null`
  - `Boolean.toString`
  - `String.replace` of a string pattern, which replaces the first occurrence only.
- **Query evaluation** (`listing.dfy`). `findMany` with `where`/`orderBy` is the
  loop method `SelectSorted`. Its result is specified by `Lists`: the rows of a
  duplicate-free listing of exactly the matching ids, sorted by a total preorder.

Oracles are parameters:
- the admin session, as `Option<string>`;
- the webhook context;
- the id and the `createdAt` value the store gives a new row;
- whether a new appointment's date text gives a valid date (`dateValid`);
- the instant an appointment's date text denotes.

Column defaults that the code does not set are the constant `Db.defaults`.

## Model

| member | source | states |
|---|---|---|
| Js.Get | app/routes/app_proxy.tsx:61-68 | `formData.get(key)`; specified by `Js.GetFindsFirst` |
| Js.GetFindsFirst | app/routes/app_proxy.tsx:61-68 | A form field reads as null exactly when no pair has that key, and otherwise as the value of the first pair with that key |
| Js.Truthy | app/routes/app_proxy.tsx:71 | JavaScript truthiness of a nullable string (`!x` is its negation): neither null nor empty. Its meaning is stated by `Js.OrNull`, `AppProxy.Screen` and `AppProxy.MissingFieldRejects` |
| Js.OrNull | app/routes/app_proxy.tsx:85-87 | A field or else null is non-null exactly when the field is a non-empty string, and then it is that string |
| Js.BoolString | app/routes/app.barbers.tsx:147 | `b.toString()` equals `"true"` exactly when `b` holds, so comparing with `"true"` decodes it |
| Js.IndexOf | app/routes/app.tsx:18 | Finds the first position where the pattern occurs, or none when it occurs nowhere |
| Js.ReplaceFirst | app/routes/app.tsx:18 | A string without the pattern is returned unchanged; otherwise only the first occurrence is replaced |
| Listing.Insert | app/routes/app_proxy.tsx:20 | Adding one id to a listing keeps it within the table, adds exactly that id, and keeps the ids distinct |
| Listing.InsertSorted | app/routes/app_proxy.tsx:20 | Inserting before the first greater row keeps a sorted listing sorted under a total preorder |
| Listing.SelectSorted | app/routes/app_proxy.tsx:17-26 | Returns every row that matches the filter and no other row, each once, sorted by the requested order |
| Listing.StrLeTotal | app/routes/app_proxy.tsx:20 | Ordering names by code points is total: of any two names, one comes first |
| Listing.StrLeTransitive | app/routes/app_proxy.tsx:24 | Ordering names by code points is transitive |
| Listing.StrLe | app/routes/app_proxy.tsx:20 | Name order as code-point lexicographic order; specified by `Listing.StrLeTotal` and `Listing.StrLeTransitive` |
| Listing.Ascending | app/routes/app_proxy.tsx:20 | The order `orderBy: { name: "asc" }` builds from a text key; specified by `Listing.AscendingIsPreorder` |
| Listing.AscendingIsPreorder | app/routes/app_proxy.tsx:20 | `orderBy: { name: "asc" }` is a total preorder on rows, so the listing is well defined |
| Listing.Descending | app/routes/app.barbers.tsx:38 | The order `orderBy: { createdAt: "desc" }` builds from a numeric key, latest first; specified by `Listing.DescendingIsPreorder` |
| Listing.DescendingIsPreorder | app/routes/app.barbers.tsx:38 | Latest-first order on a numeric key is a total preorder, so the listing is well defined |
| Listing.Unordered | app/routes/app.appointments.tsx:44-50 | A `findMany` without `orderBy`: every order of the rows is allowed; specified by `Listing.UnorderedIsPreorder` |
| Listing.UnorderedIsPreorder | app/routes/app.appointments.tsx:44-50 | Allowing every order is a total preorder, so the listing is the matching rows in any order |
| Records.BarberOf | app/routes/app.barbers.tsx:37 | `where: { shopId }` on barbers; its meaning is stated by `Barbers.Loader` |
| Records.ActiveBarberOf | app/routes/app_proxy.tsx:22-25 | `where: { isActive: true }` on a shop's barbers; its meaning is stated by `AppProxy.Loader` and `Appointments.Loader` |
| Records.ServiceOf | app/routes/app.services.tsx:35 | `where: { shopId }` on services; its meaning is stated by `Services.Loader` |
| Records.ActiveServiceOf | app/routes/app_proxy.tsx:18-21 | `where: { isActive: true }` on a shop's services; its meaning is stated by `AppProxy.Loader` and `Appointments.Loader` |
| Records.AppointmentOf | app/routes/app.appointments.tsx:36 | `where: { shopId }` on appointments; its meaning is stated by `Appointments.Loader` |
| Records.LinksResolve | app/routes/app.appointments.tsx:85-86 | The appointment's foreign keys: its service exists, and so does its barber when it names one. `Database.Db.CreateAppointment` states that a booking succeeds only when they hold |
| Records.IncludedBarber | app/routes/app.appointments.tsx:91-94 | `include: { barber: true }`, the barber row an appointment names, if any; used in the success bodies that `Appointments.Apply` and `AppProxy.Action` state |
| Database.Db.FindShop | app/routes/app.tsx:10-12 | Finds a shop exactly when some shop's `shopDomain` column equals the domain searched for. The shop found has that domain, and no other shop has its id |
| Database.Db.CreateShop | app/routes/app.tsx:15-22 | Inserts the shop unless its domain is taken; no other table changes |
| Database.Db.SetShopActive | app/routes/webhooks.tsx:17-20 | Sets only that shop's active flag; with no such shop the table is unchanged and the call fails |
| Database.Db.CreateBarber | app/routes/app.barbers.tsx:58-66 | Inserts one barber with the submitted columns and the default active flag; a null name is refused |
| Database.Db.UpdateBarber | app/routes/app.barbers.tsx:72-81 | Overwrites only the addressed barber's four columns and active flag; a missing id is refused |
| Database.Db.DeleteBarber | app/routes/app.barbers.tsx:87-89 | Removes only the addressed barber; a missing id is refused |
| Database.Db.CreateService | app/routes/app.services.tsx:56-64 | Inserts one service with the submitted columns, price and duration as text; a null name or price is refused |
| Database.Db.UpdateService | app/routes/app.services.tsx:70-79 | Overwrites only the addressed service's four columns and active flag; a missing id is refused |
| Database.Db.DeleteService | app/routes/app.services.tsx:85-87 | Removes only the addressed service; a missing id is refused |
| Database.Db.CreateAppointment | app/routes/app_proxy.tsx:79-95 | Inserts one appointment with the given columns and the given or default status exactly when the date is valid, the customer fields are non-null, the service exists and the barber, if one is named, exists. Otherwise nothing changes |
| Database.Db.SetAppointmentStatus | app/routes/app.appointments.tsx:72-75 | Changes only the status of the addressed appointment; a missing id is refused |
| AppBootstrap.ShopName | app/routes/app.tsx:18 | `session.shop.replace('.myshopify.com', '')`; specified by `AppBootstrap.ShopNameOfStoreDomain` and `AppBootstrap.ShopNameOfOtherDomain` |
| AppBootstrap.NewShop | app/routes/app.tsx:15-22 | The row a first visit creates; specified through `AppBootstrap.Bootstrap` |
| AppBootstrap.Bootstrap | app/routes/app.tsx:14-29 | After a visit the shop exists and is active. A new shop is active, on `trial`, and named from its domain. An existing shop changes only its flag, and no other shop changes |
| AppBootstrap.ActiveShopUntouched | app/routes/app.tsx:23 | A visit by an already active shop leaves the table exactly as it was |
| AppBootstrap.BootstrapIdempotent | app/routes/app.tsx:10-29 | Visiting twice gives the same shop table as visiting once |
| AppBootstrap.ShopNameOfStoreDomain | app/routes/app.tsx:18 | The domain `handle.myshopify.com` is named `handle` |
| AppBootstrap.ShopNameOfOtherDomain | app/routes/app.tsx:18 | A domain without the suffix is used verbatim as the name |
| AppBootstrap.Loader | app/routes/app.tsx:6-31 | Without a session the platform's login response is returned and nothing changes. Otherwise the shop table becomes `Bootstrap`'s result, the other tables are untouched, and the response redirects to `/app` |
| Webhooks.Uninstall | app/routes/webhooks.tsx:17-20 | Only the uninstalling shop changes, and only its active flag, which becomes false |
| Webhooks.Action | app/routes/webhooks.tsx:5-31 | Without an admin context nothing changes. Any topic but `APP_UNINSTALLED` gets 404 "Unhandled webhook topic" and changes nothing. Uninstall without a session changes nothing. Uninstall with a session deactivates the shop and answers with an empty response |
| Webhooks.UninstallThenVisit | app/routes/webhooks.tsx:17-20 | An uninstall followed by a visit leaves the shop active again with every other column as before |
| Webhooks.ReinstallRestores | app/routes/webhooks.tsx:14-22 | For an active shop, uninstall then visit restores the shop table exactly |
| AppProxy.Screen | app/routes/app_proxy.tsx:41-76 | The checks in order: a non-POST gets 405 whatever else holds. Then a missing or empty shop gets 400, an unknown shop 404, and a missing or empty required field 400. Otherwise the booking goes ahead for that shop, with empty optional fields as null and status `scheduled` |
| AppProxy.BookingData | app/routes/app_proxy.tsx:79-90 | The columns of a storefront booking; its meaning is stated by `AppProxy.Screen` and `AppProxy.Action` |
| AppProxy.Confirmation | app/routes/app_proxy.tsx:97-107 | The success body with the included service's and barber's names; `AppProxy.Action` states when it is returned |
| AppProxy.HasRequiredFields | app/routes/app_proxy.tsx:71 | Each of the five required fields is present and non-empty, with nothing trimmed, so whitespace passes; specified by `AppProxy.Screen` and `AppProxy.MissingFieldRejects` |
| AppProxy.UnknownShopBeforeFields | app/routes/app_proxy.tsx:53-59 | An unknown shop gets 404 whatever the form holds, so missing fields never mask it |
| AppProxy.MissingFieldRejects | app/routes/app_proxy.tsx:71-76 | Any one of the five required fields missing or empty prevents a booking, and for a known shop gives the 400 |
| AppProxy.Action | app/routes/app_proxy.tsx:41-115 | A rejected request returns its response and inserts nothing. An invalid date or a service or barber that does not exist gives 500 with an error and inserts nothing. Otherwise exactly one appointment is inserted, status `scheduled`, owned by the resolved shop, with the form's fields and null for an empty barber or notes. The response confirms it with the names of its service and barber |
| AppProxy.Loader | app/routes/app_proxy.tsx:6-38 | A missing or empty shop gets 400 and an unknown shop 404. Otherwise the response holds the shop with the domain asked for, and exactly its active services and active barbers, each sorted by name ascending. Every listed row belongs to that shop and to no other |
| Barbers.DataOf | app/routes/app.barbers.tsx:60-63 | The barber columns as the form carries them; specified through `Barbers.Decode` and `Barbers.EncodedFields` |
| Barbers.Decode | app/routes/app.barbers.tsx:47-93 | The `action` value selects create, update or delete. Update and delete carry the form's id, and the update's flag is true exactly when `isActive` is `"true"` |
| Barbers.Apply | app/routes/app.barbers.tsx:57-93 | Only the addressed row can change, and any failure leaves the table as it was. An unknown action and nothing else gives 400. Create, update and delete each have their exact effect |
| Barbers.Action | app/routes/app.barbers.tsx:44-94 | Without a session the login response; a missing shop throws before dispatch, even for an unknown action, and changes nothing. Otherwise the barber table and the response are `Apply`'s |
| Barbers.Loader | app/routes/app.barbers.tsx:25-42 | Lists exactly the barbers of the session's shop, newest first, and each belongs to that shop and to no other; a missing shop throws |
| Barbers.Encode | app/routes/app.barbers.tsx:137-147 | The form the dialog submits; specified by `Barbers.EncodedFields` and `Barbers.SubmitRoundTrip` |
| Barbers.EncodedFields | app/routes/app.barbers.tsx:137-147 | The dialog sends `update` with the id only when editing, and `create` with no id otherwise. Every field reads back as typed |
| Barbers.SubmitRoundTrip | app/routes/app.barbers.tsx:137-147 | Decoding what the dialog sends gives the update of the edited barber, flag included, or a create |
| Barbers.EditSavesDraft | app/routes/app.barbers.tsx:70-83 | Saving an edit overwrites that one barber with the draft, its active flag included |
| Barbers.AddIgnoresStatus | app/routes/app.barbers.tsx:57-66 | A barber added through the dialog gets the default active flag, whatever status the dialog shows |
| Services.DataOf | app/routes/app.services.tsx:58-61 | The service columns as the form carries them; specified through `Services.Decode` and `Services.EncodedFields` |
| Services.Decode | app/routes/app.services.tsx:45-91 | The `action` value selects create, update or delete. Update and delete carry the form's id, and the update's flag is true exactly when `isActive` is `"true"` |
| Services.Apply | app/routes/app.services.tsx:55-91 | Only the addressed row can change, and any failure leaves the table as it was. An unknown action and nothing else gives 400. Create, update and delete each have their exact effect, with price and duration kept as text |
| Services.Action | app/routes/app.services.tsx:42-92 | Without a session the login response; a missing shop throws before dispatch and changes nothing. Otherwise the service table and the response are `Apply`'s |
| Services.Loader | app/routes/app.services.tsx:23-40 | Lists exactly the services of the session's shop, newest first, and each belongs to that shop and to no other; a missing shop throws |
| Services.Encode | app/routes/app.services.tsx:135-145 | The form the dialog submits; specified by `Services.EncodedFields` and `Services.SubmitRoundTrip` |
| Services.EncodedFields | app/routes/app.services.tsx:135-145 | The dialog sends `update` with the id only when editing, and `create` with no id otherwise. Every field reads back as typed |
| Services.SubmitRoundTrip | app/routes/app.services.tsx:135-145 | Decoding what the dialog sends gives the update of the edited service, flag included, or a create |
| Services.EditSavesDraft | app/routes/app.services.tsx:68-81 | Saving an edit overwrites that one service with the draft, price and duration verbatim, flag included |
| Services.AddIgnoresStatus | app/routes/app.services.tsx:55-64 | A service added through the dialog gets the default active flag, whatever status the dialog shows |
| Appointments.DataOf | app/routes/app.appointments.tsx:80-90 | The booking columns as the admin form carries them; specified through `Appointments.Decode` and `Appointments.BookingRoundTrip` |
| Appointments.Decode | app/routes/app.appointments.tsx:58-99 | `updateStatus` carries the form's id and status. `create` carries the fields as sent, except that an empty barber becomes null and the status is left unset |
| Appointments.Apply | app/routes/app.appointments.tsx:68-99 | Only the addressed row can change, and any failure leaves the table as it was. An unknown action and nothing else gives 400. A status update changes only the status. A create succeeds exactly when the customer fields are non-null, the date is valid and the service and barber it names exist. It inserts one row for the shop with the default status, and answers with that row and the service and barber rows it names |
| Appointments.Action | app/routes/app.appointments.tsx:55-100 | Without a session the login response; a missing shop throws before dispatch and changes nothing. Otherwise the appointment table and the response are `Apply`'s |
| Appointments.Loader | app/routes/app.appointments.tsx:24-53 | Lists exactly the appointments of the session's shop, latest date first, and exactly its active services and active barbers. Every listed row belongs to that shop and to no other |
| Appointments.EncodeBooking | app/routes/app.appointments.tsx:133-146 | The form the booking dialog submits; specified by `Appointments.BookingRoundTrip` |
| Appointments.EncodeStatusChange | app/routes/app.appointments.tsx:148-154 | The form a row's status select submits; specified by `Appointments.StatusChangeSetsStatus` |
| Appointments.BookingRoundTrip | app/routes/app.appointments.tsx:133-146 | The booking dialog's fields decode as typed, and an empty barber choice becomes null |
| Appointments.BookingSavesDraft | app/routes/app.appointments.tsx:79-97 | An admin booking with a valid date whose service and barber exist is inserted as typed, with the default status, and answered with those rows. Unlike the storefront, empty customer fields are not refused |
| Appointments.StatusChangeSetsStatus | app/routes/app.appointments.tsx:68-77 | Choosing a status sets that appointment's status to whatever string is sent, and changes nothing else |
| Appointments.StatusTone | app/routes/app.appointments.tsx:156-163 | Maps every status to a tone: confirmed to success, completed to info, cancelled to critical, and any other string, `scheduled` included, to warning |

## Left out

- Platform authentication (`app/shopify.server.ts`, `authenticate.admin`, `authenticate.webhook`): SDK configuration, modelled only by what it yields. That is the session's shop domain or none, and for webhooks the topic, the shop and whether a session and an admin context exist.
- `app/routes/app._index.tsx` and `app/routes/auth.$.tsx` are not part of this model. The dashboard only reads and aggregates. The auth route only hands over to the SDK.
- Id generation and the `createdAt` clock are parameters. The generator is assumed to give an unused id.
- Column defaults the code leaves to the schema (`isActive` on create, the status of an admin booking) are the constant `Db.defaults`. The schema is not part of this model.
- Nullability of columns is not part of the source. The model takes these columns as required, as the UI's handling of them implies: barber name; service name and price; appointment customer name, email, phone, service and status. Writing null to them is refused.
- Database.Db.CreateAppointment: whether `new Date(...)` gives a valid date is an opaque input, `dateValid`. Dates are their text. The foreign keys are modelled as the schema's relations imply: the service must exist, and the barber must exist when one is named.
- Database.Db.DeleteBarber: what the schema does to appointments that reference a deleted barber is not modelled. A delete of an existing id always succeeds.
- Database.Db.DeleteService: what the schema does to appointments that reference a deleted service is not modelled. A delete of an existing id always succeeds.
- Listing.StrLe: names are ordered by code point, not by the database's collation.
- Appointments.Loader: dates are ordered through an opaque `instant` oracle. The included service and barber rows of each appointment are not modelled.
- AppProxy.Loader: the shop in the response is the shop row without the nested service and barber lists. Those lists are returned beside it.
- Form parsing failures, and `console.error` logging. The store's refusals that are modelled are these: record not found, a null required column, a taken shop domain, a missing service or barber, and an invalid appointment date. No other thrown error is modelled.
- Concurrency and atomicity: the lookup and the write are separate round trips, and races are not modelled.
- React and Polaris rendering and component state. Only the submit encodings, the status change encoding and `getStatusTone` are kept.
