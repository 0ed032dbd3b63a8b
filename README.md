# PG-Habita rule code in Dafny

PG-Habita is a holiday-rental platform: a Django REST backend (properties, bookings,
subscriptions, loyalty points and rewards, favourites, images, notifications, ads, an
audit log and a dynamic report engine) and a React frontend. This project models the
backend's rule code and three frontend decision helpers, and proves what they promise.

Each module follows one source file or component:

- **Reports** (`apps/reportes`):
  - `ReportesCatalog` holds the catalog of the six report types.
  - `ReportesData` holds the in-memory tables and the per-user scope.
  - `ReportesFilters` models `_apply_filters`.
  - `ReportesRows` covers field selection, row projection, ordering and the `limite` cut.
  - `ReportesTrends` covers the monthly revenue trend, the occupancy estimate and the booking charts.
  - `ReportesStats` covers the summary and the insight sentences.
  - `ReportesEngine` models `_generar_reporte_desde_payload`.
  - `ReportesExport` covers CSV, the spreadsheet grid, the PDF print layout, the format parameter and the file name.
  - `ReportesSerializers` models the two request serializers.
  - `ReportesService` models the three endpoints and the history table (`ReportHistory`, a class).
- **Bookings** (`apps/reservas`):
  - `ReservasModel` covers the enums, `clean`, `save` with its notifications and `calcular_total`, over a `BookingTable` class.
  - `ReservasSerializers` covers the derived fields, `validate`, and the amounts on create and update.
  - `ReservasViews` covers visibility and the occupied-dates expansion.
- **Prices and dates**:
  - `Suscripciones` covers the six-month and annual prices in exact decimals.
  - `Planes` covers the plan end date.
  - `Calendar` models Python's `date` and `relativedelta` arithmetic.
- **Ledgers and toggles**, each a class whose methods update its fields in place:
  - `Puntos` (points balance)
  - `Recompensas` (rewards and redemptions)
  - `Favoritos`
  - `Files` (principal image)
  - `Notificaciones`
  - `Ads`
  - `PropiedadesViews` (deactivation and reactivation)
- **Authorisation and classification**:
  - `Permisos` (`HasPermission`)
  - `BitacoraMiddleware` and `BitacoraViews` (audit log)
  - `PropiedadesModel`, `PropiedadesSerializers` and `GeoService`
- **Frontend**:
  - `AuthContext` (capabilities and reducer)
  - `PropertyValidation` (can a user create a property)
  - `PropiedadesFilters` (the property list filter)
- **Shared helpers**: `Wrappers`, `Text`, `Seqs`, `Sorting`, `Json`, `DrfFields`, `Accounts`.

How the source is modelled:

- Querysets are sequences of records. Where the model class declares a `Meta.ordering` (bookings, files, ads, notifications, the audit log) the listing is sorted by it; otherwise it keeps stored order.
- Exceptions become `Result`/`Option` values or HTTP status codes.
- Decimal money is an exact `real` or a whole number of cents.
- Dates are `Calendar.Date` values.

Two behaviours of the code that are easy to misread, modelled as the code has them:

- With no fields requested, the default field list is the first ten items of a Python `set` of the catalog's fields (`apps/reportes/views.py` line 359). Its order is unspecified, not "the catalog's order", so the model takes that order as an input (`order`).
- A validation error in `generar_reporte_dinamico` and `exportar_reporte` is caught by the view's own `except Exception`. It is answered with a 500, not a 400.

## Model

| member | source | states |
|---|---|---|
| Calendar.DaysInMonth | PG-Habita-Backend/apps/reportes/views.py:408-409 | a month has 28 to 31 days, and 29 exactly for February of a leap year |
| Calendar.DayNumberOrder | PG-Habita-Backend/apps/reservas/views.py:100 | date comparison agrees with day numbers, both for order and for equality |
| Calendar.NextDay | PG-Habita-Backend/apps/reservas/views.py:102 | `+ timedelta(days=1)` gives a valid date one day number later |
| Calendar.AddMonths | PG-Habita-Backend/apps/planes/models.py:38-40 | `+ relativedelta(months=n)` moves n months on and clamps the day to the target month's length |
| Calendar.AddYears | PG-Habita-Backend/apps/planes/models.py:42 | `+ relativedelta(years=n)` keeps the month, adds n years and clamps the day |
| Calendar.AddYearsIsTwelveMonths | PG-Habita-Backend/apps/planes/models.py:38-42 | adding n years is adding 12n months |
| Calendar.AddMonthsLater | PG-Habita-Backend/apps/planes/models.py:38-42 | adding at least one month always gives a later date |
| Calendar.FirstOfNextMonth | PG-Habita-Backend/apps/reportes/views.py:408 | `(d.replace(day=28) + 4 days).replace(day=1)` is the first day of the following month |
| Calendar.DaysInMonthViaNextMonth | PG-Habita-Backend/apps/reportes/views.py:408-409 | the next month's first day minus this month's first day is this month's length |
| Calendar.ParseIsoDate | PG-Habita-Backend/apps/reportes/views.py:247-256 | an accepted ISO date text is a valid date of a four-digit year |
| Calendar.IsoDateRoundTrip | PG-Habita-Backend/apps/reservas/views.py:101 | a date's `isoformat()` text parses back to the same date |
| DrfFields.BooleanField | PG-Habita-Backend/apps/reportes/serializers.py:70-79 | booleans as given; the listed true and false texts; 1 and 0; anything else is a validation error |
| DrfFields.PyStr | PG-Habita-Backend/apps/reportes/serializers.py:36-45 | the text a scalar is read as: itself for text, the decimal digits for an integer; lists and objects have none |
| DrfFields.CutDecimalZerosSound | PG-Habita-Backend/apps/reportes/serializers.py:65-69 | what the integer field cuts from its text is a decimal point followed only by zeros and spaces |
| DrfFields.CutDecimalZerosComplete | PG-Habita-Backend/apps/reportes/serializers.py:65-69 | a decimal point followed only by zeros and spaces is cut |
| Text.ParseInt | PG-Habita-Backend/apps/reportes/serializers.py:65-69 | after stripping blanks, ASCII digits with an optional sign are read as that signed decimal value, and any other text is refused |
| DrfFields.IntegerField | PG-Habita-Backend/apps/reportes/serializers.py:65-69 | overlong text and null, boolean, list or object values are errors; other text is parsed after cutting a zero decimal part |
| DrfFields.IntegerFieldText | PG-Habita-Backend/apps/reportes/serializers.py:65-69 | an integer's decimal text is read back as that integer |
| DrfFields.FloatField | PG-Habita-Backend/apps/propiedades/models.py:54-57 | a number is read as its value and a boolean as 1 or 0; text longer than 1000 characters, null, lists and objects are refused; other text is read by `float()` |
| DrfFields.CharField | PG-Habita-Backend/apps/reportes/serializers.py:53-64 | blank text is empty text only where blanks are allowed, null only where null is allowed; lists, objects and booleans are errors; other text is stripped; no result holds a NUL |
| DrfFields.RequiredText | PG-Habita-Backend/apps/reportes/serializers.py:84-86 | a required text is never blank, never null and never empty |
| DrfFields.ChoiceField | PG-Habita-Backend/apps/reportes/serializers.py:36-43 | accepted exactly when the value's text is one of the choices, and then that choice |
| DrfFields.TextListField | PG-Habita-Backend/apps/reportes/serializers.py:44-48 | accepted exactly when the value is a list of required texts, item by item |
| DrfFields.DictField | PG-Habita-Backend/apps/reportes/serializers.py:49-52 | accepted exactly when the value is an object, its members unchanged |
| ReservasModel.DefaultsArePendiente | PG-Habita-Backend/apps/reservas/models.py:9-33 | both status columns default to `pendiente`, and the six booking states and four payment states are stored as distinct texts |
| ReservasModel.OverlapsIffSharedNight | PG-Habita-Backend/apps/reservas/models.py:65-70 | the overlap query (`checkin < new checkout` and `checkout > new checkin`) holds exactly when the two half-open stays share a night |
| ReservasModel.CleanErrors | PG-Habita-Backend/apps/reservas/models.py:53-80 | the error keys of `clean`: `fecha_checkout` iff checkout is not after checkin, `fecha_checkin` iff checkin is before today, `__all__` iff a live booking of the property (not cancelled or rejected, not the booking itself) overlaps; all reported together |
| ReservasModel.IndexOfId | PG-Habita-Backend/apps/reservas/models.py:87-93 | the primary-key lookup finds the row with that id, or reports that none has it |
| ReservasModel.StatusNotice | PG-Habita-Backend/apps/reservas/models.py:131-153 | the status notifier: nothing when the status did not change or became `pendiente`; otherwise exactly the notice of the new state (a cancellation counts as by the host) |
| ReservasModel.PaymentNotice | PG-Habita-Backend/apps/reservas/models.py:158-167 | a change to `pagado` sends the payment-received notice, a change to `fallido` the payment-failed one, anything else nothing |
| ReservasModel.SaveNotices | PG-Habita-Backend/apps/reservas/models.py:98-110 | a new booking gets only the creation notice; an update gets at most one status and one payment notice and never the creation one |
| ReservasModel.StatusChangeNotifiesOnce | PG-Habita-Backend/apps/reservas/models.py:105-153 | a status-only change notifies exactly once, or not at all when the new status is `pendiente` |
| ReservasModel.QuietSave | PG-Habita-Backend/apps/reservas/models.py:103-110 | saving with unchanged status and payment sends no notice |
| ReservasModel.CalcularTotal | PG-Habita-Backend/apps/reservas/models.py:116-120 | the total is the stored amount plus the sum of the linked service prices |
| ReservasModel.BookingTable.constructor | PG-Habita-Backend/apps/reservas/models.py:8-44 | an empty booking table with no notices |
| ReservasModel.BookingTable.Save | PG-Habita-Backend/apps/reservas/models.py:82-110 | `save` runs `clean` first: on any error nothing is stored or notified; otherwise a new booking is appended with the next key and the creation notice, and an existing one replaces its row and gets the status/payment notices; a table free of double bookings stays so |
| ReservasModel.NoDoubleBookingAppend | PG-Habita-Backend/apps/reservas/models.py:65-77 | adding a booking that passes the overlap check keeps the table free of double bookings |
| ReservasModel.NoDoubleBookingReplace | PG-Habita-Backend/apps/reservas/models.py:72-77 | replacing a row by a booking that passes the overlap check (excluding its own key) keeps the table free of double bookings |
| ReservasModel.PastCheckinNeverSaves | PG-Habita-Backend/apps/reservas/models.py:61-95 | a booking whose check-in is past is rejected by every save, including a status-only update |
| ReservasSerializers.TotalNoches | PG-Habita-Backend/apps/reservas/serializers.py:26-29 | `total_noches` is 0 when a date is missing, otherwise the day difference, positive iff checkout is after checkin |
| ReservasSerializers.ActiveAndBlocking | PG-Habita-Backend/apps/reservas/serializers.py:31-92 | every active booking (`pendiente`, `aceptada`, `confirmada`) blocks its dates, and `completada` is the one state that blocks without being active |
| ReservasSerializers.Validate | PG-Habita-Backend/apps/reservas/serializers.py:76-97 | no check without both dates; otherwise the booking is accepted iff checkout is after checkin, checkin is not past and (with a property) nothing overlaps; the overlap error uses key `fechas` |
| ReservasSerializers.ValidateAgreesWithClean | PG-Habita-Backend/apps/reservas/serializers.py:76-97 | the serializer and the model's `clean` accept exactly the same bookings, and the serializer's error is one `clean` reports too |
| ReservasSerializers.CreateAmount | PG-Habita-Backend/apps/reservas/serializers.py:99-105 | the created amount is nights times the nightly price plus every service price, never negative for non-negative inputs |
| ReservasSerializers.Create | PG-Habita-Backend/apps/reservas/serializers.py:74-110 | 400 iff `validate` fails, with nothing stored; otherwise 201 and the booking is stored with the requesting user and the computed amount, ignoring any amount the client sent |
| ReservasSerializers.ApplyPatch | PG-Habita-Backend/apps/reservas/serializers.py:112-114 | an update overwrites only the sent fields; key, owner, amount, services and creation time stay |
| ReservasSerializers.ConflictIgnoresOwnRow | PG-Habita-Backend/apps/reservas/serializers.py:93-94 | the overlap check of an update does not depend on what the booking's own row holds |
| ReservasSerializers.UpdatedBooking | PG-Habita-Backend/apps/reservas/serializers.py:112-119 | an update with services replaces them and adds their prices to the previous amount; without services the amount stays |
| ReservasSerializers.UpdatesAccumulate | PG-Habita-Backend/apps/reservas/serializers.py:115-118 | two updates with services add both service sums to the amount |
| ReservasSerializers.Update | PG-Habita-Backend/apps/reservas/serializers.py:112-119 | 400 iff `validate` fails, 500 iff the model's `clean` then rejects the merged booking, otherwise 200 with the row replaced by `UpdatedBooking` |
| ReservasSerializers.SaveUpdate | PG-Habita-Backend/apps/reservas/serializers.py:112-119 | after validation: 500 iff `clean` rejects the merged booking (nothing changes then), otherwise 200 with the row replaced by `UpdatedBooking` and no double booking introduced |
| ReservasSerializers.SetServicesAndResave | PG-Habita-Backend/apps/reservas/serializers.py:115-118 | setting the services and recomputing the amount re-saves without error and keeps the table free of double bookings |
| ReservasViews.VisibleBookings | PG-Habita-Backend/apps/reservas/views.py:14-22 | a superuser sees every booking, anyone else exactly their own, newest first |
| ReservasViews.LiveOf | PG-Habita-Backend/apps/reservas/views.py:90-94 | the live bookings of a property are exactly its bookings that are not cancelled or rejected |
| ReservasViews.StayDays | PG-Habita-Backend/apps/reservas/views.py:99-102 | the days from checkin up to checkout, one per night, consecutive |
| ReservasViews.StayDaysMembership | PG-Habita-Backend/apps/reservas/views.py:99-102 | a day is listed iff it lies in `[checkin, checkout)`; the checkout day never is |
| ReservasViews.StayDaysConsecutive | PG-Habita-Backend/apps/reservas/views.py:99-102 | within one stay the listed days ascend strictly, each the day after the previous |
| ReservasViews.OccupiedDaysLength | PG-Habita-Backend/apps/reservas/views.py:96-102 | the occupied-day list is as long as all the stays together, so overlapping stays repeat days |
| ReservasViews.OccupiedDaysMembership | PG-Habita-Backend/apps/reservas/views.py:96-102 | a day is listed iff it is a night of some live booking |
| ReservasViews.DefaultOrder | PG-Habita-Backend/apps/reservas/models.py:44 | the stored ordering is a permutation of the rows sorted newest first |
| ReservasViews.FechasOcupadas | PG-Habita-Backend/apps/reservas/views.py:87-108 | the loop yields the ISO days of every live booking's stay in stored order, and `total_reservas` counts the live bookings |
| ReservasViews.StayIso | PG-Habita-Backend/apps/reservas/views.py:99-102 | stepping one day at a time from check-in while before checkout yields exactly the ISO days of the stay |
| Suscripciones.PrecioSemestral | PG-Habita-Backend/apps/suscripciones/models.py:25-28 | six months at 85 %, i.e. 5.1 times the monthly price exactly; between 0 and six monthly prices, strictly below when the monthly price is positive |
| Suscripciones.PrecioAnual | PG-Habita-Backend/apps/suscripciones/models.py:30-33 | twelve months at 70 %, i.e. 8.4 times the monthly price exactly; between 0 and twelve monthly prices, strictly below when the monthly price is positive |
| Suscripciones.PricesAreExactDecimals | PG-Habita-Backend/apps/suscripciones/models.py:26-33 | for a two-decimal monthly price both discounted prices are exact four-decimal values, as `Decimal` arithmetic gives |
| Suscripciones.PrecioTotal | PG-Habita-Backend/apps/suscripciones/models.py:35-44 | the six-month or annual price for `Semestral`/`Anual`, the monthly price for `Mensual` (the default) and for any other value; never negative for a non-negative monthly price |
| Suscripciones.LongerIsCheaperPerMonth | PG-Habita-Backend/apps/suscripciones/models.py:26-33 | per month the annual plan costs no more than the six-month plan, which costs no more than the monthly one |
| Planes.FechaFinal | PG-Habita-Backend/apps/planes/models.py:33-43 | `None` iff the start date is missing or the duration is not `Mensual`/`Semestral`/`Anual`; otherwise a valid date 1, 6 or 12 months later, strictly after the start, keeping the day clamped to the target month's last day |
| Planes.EndOfMonthClamps | PG-Habita-Backend/apps/planes/models.py:37-38 | 31 January plus one month is 28 or 29 February |
| Planes.LeapDayPlusYear | PG-Habita-Backend/apps/planes/models.py:41-42 | 29 February plus one year is 28 February |
| Puntos.Puntos.constructor | PG-Habita-Backend/apps/puntos/models.py:4-7 | a new record starts with balance and lifetime total 0 |
| Puntos.Puntos.AgregarPuntos | PG-Habita-Backend/apps/puntos/models.py:14-17 | both the balance and the lifetime total grow by the amount, keeping the balance within the lifetime total |
| Puntos.Puntos.RestarPuntos | PG-Habita-Backend/apps/puntos/models.py:19-24 | succeeds iff the balance covers the amount, then subtracts it; otherwise nothing changes; the lifetime total never changes and never falls below the balance |
| Recompensas.Recompensa.constructor | PG-Habita-Backend/apps/recompensas/models.py:4-10 | a reward record with its price, active flag and stock |
| Recompensas.CanjeTable.constructor | PG-Habita-Backend/apps/recompensas/models.py:15-19 | an empty redemption table |
| Recompensas.CanjeTable.Insert | PG-Habita-Backend/apps/recompensas/views.py:38-42 | a redemption is appended |
| Recompensas.ActiveRewards | PG-Habita-Backend/apps/recompensas/views.py:13-14 | the listed rewards are exactly the active ones |
| Recompensas.CanjearRecompensa | PG-Habita-Backend/apps/recompensas/views.py:28-49 | 404 when the reward is missing, inactive or out of stock, or the user has no points; 400 when the balance is short; otherwise 200, the balance pays the price, the stock drops by one and one redemption is recorded; every refusal changes nothing |
| Favoritos.Toggled | PG-Habita-Backend/apps/favoritos/views.py:18-24 | toggling flips exactly the one user/property pair |
| Favoritos.ToggleTwice | PG-Habita-Backend/apps/favoritos/views.py:18-24 | toggling twice restores the favourites |
| Favoritos.Without | PG-Habita-Backend/apps/favoritos/views.py:19-20 | deleting a favourite removes exactly that pair |
| Favoritos.ListarFavoritos | PG-Habita-Backend/apps/favoritos/views.py:29-32 | the list holds exactly the caller's favourites |
| Favoritos.FavoritosTable.constructor | PG-Habita-Backend/apps/favoritos/models.py:5-12 | an empty favourites table |
| Favoritos.FavoritosTable.ToggleFavorito | PG-Habita-Backend/apps/favoritos/views.py:10-25 | 400 without a property id, 404 unless the property exists and is active, otherwise 200 with the pair toggled and `es_favorito` telling whether it is now a favourite; refusals change nothing |
| Files.ClearPrincipal | PG-Habita-Backend/apps/files/views.py:87-107 | every file of the property loses the principal mark; other files are untouched |
| Files.OfProperty | PG-Habita-Backend/apps/files/views.py:66 | exactly the files of the property, each as often as stored, principal files first and then newest first (the model ordering of files/models.py line 22) |
| Files.PropertyRows | PG-Habita-Backend/apps/files/views.py:66 | exactly the files of the property, in stored order |
| Files.FileOrder | PG-Habita-Backend/apps/files/models.py:22 | the same rows, each as often, with principal files before the others and each group newest first |
| Files.SplitByPrincipal | PG-Habita-Backend/apps/files/models.py:22 | the principal and the other files together are exactly the table |
| Files.FileOrderSorted | PG-Habita-Backend/apps/files/models.py:22 | two groups each sorted newest first, principal files before the others, concatenate into the default ordering |
| Files.IndexOfFile | PG-Habita-Backend/apps/files/views.py:104-119 | the id lookup finds the file with that id or reports there is none |
| Files.FilesByPropiedad | PG-Habita-Backend/apps/files/views.py:61-70 | 404 iff the property does not exist, 403 iff the caller is neither its owner nor staff, otherwise exactly its files in the default ordering |
| Files.FileTable.constructor | PG-Habita-Backend/apps/files/models.py:5-22 | an empty file table whose next key is 1 |
| Files.ValidateUpload | PG-Habita-Backend/apps/files/serializers.py:24-30 | an upload is accepted iff the file list is present, holds at most ten files and all are images, `propiedad_id` is an integer and `es_principal` is absent or a boolean; the result carries that id and flag (absent means false) |
| Files.Names | PG-Habita-Backend/apps/files/views.py:79 | the names of the uploaded files, in order |
| Files.FileTable.UploadMultipleFiles | PG-Habita-Backend/apps/files/views.py:74-98 | 400 iff the upload serializer refuses the payload (no file list, more than 10 files, a file that is not an image, a non-integer property id, a non-boolean flag), then 500 for a missing property (the 404 is caught by the generic handler), 403 for a stranger, otherwise 201 with one new file per upload, stamped with the upload instant, only the first marked principal when asked, the property's old marks cleared, and then it has exactly one principal image |
| Files.FileTable.AppendBatch | PG-Habita-Backend/apps/files/views.py:88-91 | the batch is appended in order with consecutive ids and the upload instant, the principal flag only on the first |
| Files.FileTable.SetPrincipalImage | PG-Habita-Backend/apps/files/views.py:102-113 | 404 for an unknown file, 403 for a stranger, otherwise the chosen file becomes the property's only principal image and nothing else changes |
| Files.FileTable.DeleteFile | PG-Habita-Backend/apps/files/views.py:117-125 | 404 for an unknown file, 403 for a stranger, otherwise exactly that file is removed |
| Files.BatchPrincipal | PG-Habita-Backend/apps/files/views.py:86-91 | after clearing the marks, a batch whose first file is principal leaves exactly one principal image |
| Permisos.HasPermission | PG-Habita-Backend/apps/permisos/permissions.py:5-43 | anonymous users are refused, superusers always admitted, views without a codename open to every authenticated user, and otherwise access is granted iff the codename is among the token's `permisos` claim |
| Permisos.NoClaimDenied | PG-Habita-Backend/apps/permisos/permissions.py:16-43 | without a token or a `permisos` claim a protected view admits only authenticated superusers |
| Permisos.MorePermissionsNeverDeny | PG-Habita-Backend/apps/permisos/permissions.py:36-43 | a token holding more permissions never loses access |
| BitacoraMiddleware.DeterminarAccion | PG-Habita-Backend/apps/bitacora/middleware.py:33-44 | a path is logged iff it contains one of the four API prefixes, tested in the order propiedades, reservas, backup, reportes; the action text follows the HTTP verb exactly as the chain does |
| BitacoraMiddleware.GetClientIp | PG-Habita-Backend/apps/bitacora/middleware.py:46-52 | a non-empty `X-Forwarded-For` gives its text up to the first comma, otherwise `REMOTE_ADDR` |
| BitacoraMiddleware.FirstHopRecorded | PG-Habita-Backend/apps/bitacora/middleware.py:47-49 | with several hops, the first hop is the recorded address |
| BitacoraMiddleware.EntryFor | PG-Habita-Backend/apps/bitacora/middleware.py:17-29 | the entry records user, action, module, verb, status code and path, the query parameters only for GET, the client address, and the agent sent (empty when none is) |
| BitacoraMiddleware.AuditLog.constructor | PG-Habita-Backend/apps/bitacora/middleware.py:4-5 | an empty audit log |
| BitacoraMiddleware.AuditLog.RegistrarAccion | PG-Habita-Backend/apps/bitacora/middleware.py:13-31 | one entry is appended for a classified path; an unclassified path or a failing insert (swallowed) leaves the log unchanged |
| BitacoraMiddleware.AuditLog.Call | PG-Habita-Backend/apps/bitacora/middleware.py:7-11 | the response status passes through untouched, and only authenticated requests on classified paths are logged |
| BitacoraViews.OwnEntries | PG-Habita-Backend/apps/bitacora/views.py:17 | exactly the caller's own entries |
| BitacoraViews.Visible | PG-Habita-Backend/apps/bitacora/views.py:17 | a superuser sees every entry, anyone else exactly their own, newest first |
| BitacoraViews.Search | PG-Habita-Backend/apps/bitacora/views.py:18-19 | an empty search keeps everything; otherwise exactly the entries whose username, action or module contains the text, ignoring case |
| BitacoraViews.TotalPaginas | PG-Habita-Backend/apps/bitacora/views.py:43 | the page count is the least number of 20-entry pages that hold every entry, 0 for no entries |
| BitacoraViews.PageOf | PG-Habita-Backend/apps/bitacora/views.py:21 | page `n` holds at most 20 entries, the ones at positions `(n-1)*20` up to `n*20` that exist, in order |
| BitacoraViews.EntryOnItsPage | PG-Habita-Backend/apps/bitacora/views.py:21-43 | every entry appears on page `i/20 + 1`, within the page count, at position `i mod 20` |
| BitacoraViews.PastLastPageEmpty | PG-Habita-Backend/apps/bitacora/views.py:21-43 | a page past the page count is empty |
| BitacoraViews.NombreCompletoBlank | PG-Habita-Backend/apps/bitacora/views.py:29 | the full name falls back to the username when both name parts are blank, and is otherwise non-empty with no surrounding spaces |
| BitacoraViews.FullNameJoined | PG-Habita-Backend/apps/bitacora/views.py:29 | with names that start and end without spaces the full name is first name, one space, last name |
| BitacoraViews.Render | PG-Habita-Backend/apps/bitacora/views.py:24-36 | the rendered record carries the entry's id, author id, username, full name, action, module, `detalles`, address, agent and creation instant |
| BitacoraViews.RenderAll | PG-Habita-Backend/apps/bitacora/views.py:22-37 | one rendered record per entry of the page |
| BitacoraViews.RenderAllAt | PG-Habita-Backend/apps/bitacora/views.py:22-37 | element k of the list is entry k of the page rendered, with its `detalles` as stored |
| BitacoraViews.PageParam | PG-Habita-Backend/apps/bitacora/views.py:15 | the page is 1 when absent, otherwise the integer the text spells |
| BitacoraViews.ListarBitacora | PG-Habita-Backend/apps/bitacora/views.py:11-46 | 500 for a page that is not an integer or is below 1 (a negative slice), otherwise the total, the page number, the page count and the rendered page of the visible, searched entries |
| BitacoraViews.RenderPage | PG-Habita-Backend/apps/bitacora/views.py:22-37 | the loop renders the page in order |
| PropiedadesModel.ParseTipo | PG-Habita-Backend/apps/propiedades/models.py:9-13 | a type text is accepted iff it is `Departamento`, `Casa` or `Cabaña`, and parsing gives back that text |
| PropiedadesModel.TipoRoundTrip | PG-Habita-Backend/apps/propiedades/models.py:9-13 | every property type reads back from its stored text |
| PropiedadesModel.ParseEstado | PG-Habita-Backend/apps/propiedades/models.py:42-46 | a deactivation state is accepted iff it is `activa`, `baja_temporal` or `baja_indefinida` |
| PropiedadesModel.EstadoRoundTrip | PG-Habita-Backend/apps/propiedades/models.py:42-46 | every deactivation state reads back from its stored text |
| PropiedadesModel.Propiedad.constructor | PG-Habita-Backend/apps/propiedades/models.py:48-101 | a new property takes the column defaults (type `Casa`, no features, published, price 0, one guest, country `Bolivia`, state `activa`, no deactivation dates) and is therefore available |
| PropiedadesModel.Propiedad.Registrada | PG-Habita-Backend/apps/propiedades/models.py:48-101 | a row built from given columns and deactivation state holds exactly them, and is available iff published and `activa` |
| PropiedadesSerializers.FirstInvalid | PG-Habita-Backend/apps/propiedades/serializers.py:52-58 | the first element that is not a feature code, or none iff every element is one |
| PropiedadesSerializers.ValidateCaracteristicas | PG-Habita-Backend/apps/propiedades/serializers.py:6-11 | absent features mean the empty list; a list is accepted iff every element is a feature code, and is kept as sent |
| PropiedadesSerializers.TieneUbicacion | PG-Habita-Backend/apps/propiedades/serializers.py:43-44 | `tiene_ubicacion` holds iff both coordinates are present |
| PropiedadesSerializers.Coordinate | PG-Habita-Backend/apps/propiedades/serializers.py:61-71 | an absent or null coordinate is accepted as none; a number is accepted iff it lies within the bound and is kept as sent; lists and objects are refused; every accepted coordinate lies within the bound |
| PropiedadesSerializers.OptionalText | PG-Habita-Backend/apps/propiedades/serializers.py:36-39 | an absent text takes the column default, a blank one is stored empty, any other text is stored stripped iff it fits the column length; null, booleans, lists and objects are refused |
| PropiedadesSerializers.OptionalBool | PG-Habita-Backend/apps/propiedades/models.py:53-59 | an absent flag takes the column default, a sent one is read as a DRF boolean |
| PropiedadesSerializers.OptionalFloat | PG-Habita-Backend/apps/propiedades/models.py:54-57 | an absent price or discount is 0, a sent one is read as a DRF float |
| PropiedadesSerializers.OptionalInteger | PG-Habita-Backend/apps/propiedades/models.py:55-58 | an absent count takes the column default; a sent one is accepted iff it reads as an integer within the column range, and is kept as read |
| PropiedadesSerializers.OptionalEstado | PG-Habita-Backend/apps/propiedades/models.py:85-89 | an absent deactivation state is `activa`; a sent one is accepted iff it is one of the three choices, and is kept as sent |
| PropiedadesSerializers.OptionalDate | PG-Habita-Backend/apps/propiedades/models.py:90-91 | an absent or null date is none; a text is accepted iff it parses as an ISO date, giving that date; any other value is refused |
| PropiedadesSerializers.ValidateExtras | PG-Habita-Backend/apps/propiedades/serializers.py:18-25 | the optional writable columns (status, price, discount, bathrooms, rooms, guests, pets, place names, destination flag, deactivation state, dates and reason) are accepted iff each one is, and carry exactly the values read; guests are never negative and the texts fit their columns |
| PropiedadesSerializers.AbsentExtrasAreDefaults | PG-Habita-Backend/apps/propiedades/models.py:53-92 | a payload that sends none of the optional columns gets exactly the column defaults |
| PropiedadesSerializers.RequiredText | PG-Habita-Backend/apps/propiedades/serializers.py:28-32 | a required text is refused when absent, null or not a string; a string is accepted iff it is not blank and fits the maximum length once stripped, and is stored stripped |
| PropiedadesSerializers.Validate | PG-Habita-Backend/apps/propiedades/serializers.py:5-71 | a property payload is valid iff name (20), description (200) and address (200) are proper required texts, the type is one of the three, every feature is a code, the coordinates are in range and every optional column is acceptable; the validated values are exactly those read, and the client's `user` is never read |
| PropiedadesSerializers.Create | PG-Habita-Backend/apps/propiedades/serializers.py:73-83 | the new row belongs to the requesting user and holds every validated column, including the status and deactivation state sent; it is available iff the payload left it published and `activa` |
| PropiedadesSerializers.OptionalMotivo | PG-Habita-Backend/apps/propiedades/serializers.py:91 | an absent reason is fine; a sent one must be non-blank, hold no NUL character and be at most 200 characters once stripped |
| PropiedadesSerializers.ValidateBaja | PG-Habita-Backend/apps/propiedades/serializers.py:86-91 | a deactivation request is accepted iff `tipo_baja` is `temporal` or `indefinida`, the end date is absent or an ISO date and the reason is acceptable; the result carries that type, date and reason |
| PropiedadesViews.PublicList | PG-Habita-Backend/apps/propiedades/views.py:23-25 | the public list holds exactly the published, active properties, all of them available, in table order (a subsequence) |
| PropiedadesViews.OwnProps | PG-Habita-Backend/apps/propiedades/views.py:96-99 | exactly the caller's own properties, in table order (a subsequence) |
| PropiedadesViews.ListFor | PG-Habita-Backend/apps/propiedades/views.py:34-37 | staff and superusers get every property, anyone else exactly their own |
| PropiedadesViews.Lookup | PG-Habita-Backend/apps/propiedades/views.py:217-227 | finds the property with that key when the caller is its owner or staff/superuser, and nothing otherwise |
| PropiedadesViews.EstadoFor | PG-Habita-Backend/apps/propiedades/views.py:236 | `temporal` gives `baja_temporal`, the other choice `baja_indefinida`; never `activa` |
| PropiedadesViews.WriteBaja | PG-Habita-Backend/apps/propiedades/views.py:236-240 | sets the four deactivation columns to the values given and leaves every other column as it was |
| PropiedadesViews.ApplyBaja | PG-Habita-Backend/apps/propiedades/views.py:236-240 | sets the deactivation state, today's start date, the end date and the reason, leaving the property unavailable and every other column as it was |
| PropiedadesViews.ApplyReactivar | PG-Habita-Backend/apps/propiedades/views.py:269-273 | clears state, dates and reason and leaves every other column as it was; the property is available again iff it is published |
| PropiedadesViews.DarBajaPropiedad | PG-Habita-Backend/apps/propiedades/views.py:213-247 | 404 when the lookup fails, 400 when the payload is invalid (nothing changes), otherwise 200 with only that property deactivated: new state, dates and reason, every other column as it was |
| PropiedadesViews.ReactivarPropiedad | PG-Habita-Backend/apps/propiedades/views.py:252-278 | 404 when the lookup fails (nothing changes), otherwise 200 with only that property reactivated and every other column as it was |
| GeoService.Key | PG-Habita-Backend/apps/propiedades/services/geo_service.py:182-183 | the lookup key is lower-cased and stripped; a missing or blank name gives the empty key |
| GeoService.EsDestinoTuristico | PG-Habita-Backend/apps/propiedades/services/geo_service.py:144-186 | a tourist destination iff the normalised city or department is a key of the destination table; two empty names never are |
| GeoService.KeyInsensitive | PG-Habita-Backend/apps/propiedades/services/geo_service.py:182-183 | case and surrounding blanks do not change the key |
| GeoService.DestinoInsensitive | PG-Habita-Backend/apps/propiedades/services/geo_service.py:182-186 | the destination decision ignores case and surrounding blanks in the city name |
| GeoService.ValidarCoordenadasBolivia | PG-Habita-Backend/apps/propiedades/services/geo_service.py:54-63 | inside Bolivia iff latitude in -22.9..-9.7 and longitude in -69.6..-57.5, bounds included; such coordinates are valid latitude/longitude values |
| GeoService.WriteUbicacion | PG-Habita-Backend/apps/propiedades/services/geo_service.py:29-31 | sets the coordinates and the address and leaves every other column as it was |
| GeoService.WriteRegion | PG-Habita-Backend/apps/propiedades/services/geo_service.py:32-41 | sets city, province, department, country and the destination flag and leaves every other column as it was |
| GeoService.WriteGeo | PG-Habita-Backend/apps/propiedades/services/geo_service.py:27-41 | a successful answer sets coordinates, address, city, province, department, country (missing names blank, a missing country `Bolivia`) and the destination flag to the decision passed in, and leaves every other column as it was |
| GeoService.ActualizarGeodatos | PG-Habita-Backend/apps/propiedades/services/geo_service.py:13-51 | succeeds iff the address (the given one, else the stored one) is not blank and the geocoder succeeds; on success the answer is written, the destination flag is the table decision for its city and department and every other column is as it was; on failure the property is unchanged |
| Notificaciones.Own | PG-Habita-Backend/apps/notificaciones/views.py:18 | exactly the notifications addressed to the caller |
| Notificaciones.Unread | PG-Habita-Backend/apps/notificaciones/views.py:59-62 | exactly the caller's unread notifications |
| Notificaciones.MarkedAll | PG-Habita-Backend/apps/notificaciones/views.py:89-90 | the bulk update maps every row through the per-row mark, keeping the table's length and order |
| Notificaciones.MarkedAllClears | PG-Habita-Backend/apps/notificaciones/views.py:89-90 | after the bulk update the caller has no unread notification, other users' rows are unchanged, and the caller's rows differ only in `leida` |
| Notificaciones.LeidaPayload | PG-Habita-Backend/apps/notificaciones/serializers.py:20-21 | the payload must be an object; a missing `leida` means true, a sent one must be a boolean DRF accepts |
| Notificaciones.FindReachable | PG-Habita-Backend/apps/notificaciones/views.py:111-114 | the first notification with that id whose addressee is the caller or a staff/superuser, or none |
| Notificaciones.NotificationTable.constructor | PG-Habita-Backend/apps/notificaciones/models.py:4-37 | an empty notification table, whose ids are trivially unique |
| Notificaciones.NotificationTable.Listar | PG-Habita-Backend/apps/notificaciones/views.py:14-21 | staff and superusers see every notification, others exactly their own, newest first |
| Notificaciones.NotificationTable.NoLeidas | PG-Habita-Backend/apps/notificaciones/views.py:57-65 | exactly the caller's unread notifications, newest first |
| Notificaciones.NotificationTable.MarcarTodasLeidas | PG-Habita-Backend/apps/notificaciones/views.py:87-96 | every unread notification of the caller becomes read, nothing else changes, ids stay unique, and the count is how many there were |
| Notificaciones.NotificationTable.MarcarLeida | PG-Habita-Backend/apps/notificaciones/views.py:108-135 | 404 when no reachable notification has the id, 400 for an invalid payload, otherwise 200 and the one row with that id takes the payload's `leida`; every other row and every id is unchanged |
| Ads.Activas | PG-Habita-Backend/apps/ads/views.py:15 | exactly the active ads |
| Ads.EnCursoRows | PG-Habita-Backend/apps/ads/views.py:38-40 | exactly the active ads whose window contains the current instant, in stored order |
| Ads.ActivasAhora | PG-Habita-Backend/apps/ads/views.py:38-40 | exactly the active ads whose window contains the current instant, bounds included, each as often as stored, newest first (the model ordering of ads/models.py line 24) |
| Ads.Flipped | PG-Habita-Backend/apps/ads/views.py:50 | only the chosen ad's `activa` flag is switched |
| Ads.FlipTwice | PG-Habita-Backend/apps/ads/views.py:50 | switching the same ad twice restores the table |
| Ads.IndexOfId | PG-Habita-Backend/apps/ads/views.py:49 | the first ad with that id, or none |
| Ads.AdTable.constructor | PG-Habita-Backend/apps/ads/models.py:4-24 | an empty ad table, whose ids are trivially unique |
| Ads.AdTable.Listar | PG-Habita-Backend/apps/ads/views.py:12-15 | staff and superusers see every ad, others exactly the active ones, each as often as stored, newest first |
| Ads.AdTable.ToggleActiva | PG-Habita-Backend/apps/ads/views.py:45-54 | 403 for anyone but staff and superusers, 404 for an unknown id (nothing changes), otherwise the one ad with that id has its flag switched and its new value returned, every other ad unchanged and ids kept unique |
| AuthContext.PermissionRuleFor | PG-Habita-Frontend/src/contexts/AuthContext.tsx:32-40 | the `hasPermission` rule grants a permission iff the user is an administrator (superuser, staff or an admin role) or holds it |
| AuthContext.CalculateUserCapabilities | PG-Habita-Frontend/src/contexts/AuthContext.tsx:26-120 | administrators get every capability with no property limit; anyone else gets exactly their permissions, and a CLIENT's subscription (`premium` 5 properties, `esmeralda`, `básica` and unknown names) sets the limit and tier |
| AuthContext.UnknownSubscriptionIsBasica | PG-Habita-Frontend/src/contexts/AuthContext.tsx:80-118 | an unknown subscription name gives the same capabilities as `básica` |
| AuthContext.AuthReducer | PG-Habita-Frontend/src/contexts/AuthContext.tsx:139-182 | each action's new state: start sets loading and clears the error, success signs in with the given user, token and capabilities, not loading and without error; failure signs out with the message and initial capabilities; logout restores the initial state; user update replaces user and capabilities; restore signs in with the given user, token and capabilities, keeping loading and error |
| AuthContext.ReducerKeepsConsistent | PG-Habita-Frontend/src/contexts/AuthContext.tsx:139-182 | any sequence of actions keeps a consistent session consistent (signed in iff a user and a token are present) |
| AuthContext.RestoreKeepsError | PG-Habita-Frontend/src/contexts/AuthContext.tsx:153-180 | from any state, a session restored after a failed sign-in is signed in as the restored user with its token, not loading, yet still shows the failure message |
| PropertyValidation.CurrentPropertyCount | PG-Habita-Frontend/src/hooks/usePropertyValidation.ts:63 | the number of listed properties owned by the user: the length of the selection of those whose owner is the user; 0 without a user |
| PropertyValidation.CanCreateProperty | PG-Habita-Frontend/src/hooks/usePropertyValidation.ts:9-44 | creation is allowed iff there is a user holding `cud_propiedad` and, for a CLIENT, the capabilities allow creation and a premium client has not reached the limit; every refusal carries its message |
| PropertyValidation.ValidateBeforeCreate | PG-Habita-Frontend/src/hooks/usePropertyValidation.ts:46-57 | true exactly when the creation check allows it |
| PropertyValidation.PremiumClientLimit | PG-Habita-Frontend/src/hooks/usePropertyValidation.ts:30-41 | a premium CLIENT with `cud_propiedad` may create a property exactly while owning fewer than 5 |
| PropertyValidation.AdminMayCreate | PG-Habita-Frontend/src/hooks/usePropertyValidation.ts:9-44 | an administrator may always create a property |
| PropiedadesFilters.ResetFilters | PG-Habita-Frontend/src/hooks/usePropiedadesFilters.ts:27-35 | every filter returns to its default: empty search, all types, at most 5000 a night, any number of rooms, all categories |
| PropiedadesFilters.MatchesSearchAsWritten | PG-Habita-Frontend/src/hooks/usePropiedadesFilters.ts:15-17 | the search test throws exactly when the search is non-empty, the name does not match and the property has no `direccion` |
| PropiedadesFilters.FilterAsWritten | PG-Habita-Frontend/src/hooks/usePropiedadesFilters.ts:13-25 | the filter as written throws iff the search test throws for some property |
| PropiedadesFilters.FilterThrowsOnApiRows | PG-Habita-Frontend/src/hooks/usePropiedadesFilters.ts:15-17 | a property without `direccion` (as the API sends them) whose name misses a non-empty search makes the filter throw |
| PropiedadesFilters.FilterPropiedades | PG-Habita-Frontend/src/hooks/usePropiedadesFilters.ts:13-25 | corrected to search the full address `direccion_completa` that the API sends: exactly the properties every test accepts, in list order, each within the price bound and the room minimum |
| PropiedadesFilters.DefaultFiltersKeepAffordable | PG-Habita-Frontend/src/hooks/usePropiedadesFilters.ts:5-11 | with the default filters exactly the properties at most 5000 a night remain |
| PropiedadesFilters.EmptySearchMatchesAll | PG-Habita-Frontend/src/hooks/usePropiedadesFilters.ts:15 | an empty search matches every property, both as written and corrected |
| ReportesCatalog.ParseTipo | PG-Habita-Backend/apps/reportes/views.py:219-228 | a wire name denotes a report type iff it is one of the six catalog names, and parsing gives back that name |
| ReportesCatalog.TipoRoundTrip | PG-Habita-Backend/apps/reportes/views.py:219-228 | every report type's name is a catalog key that parses back to the type |
| ReportesCatalog.MetaFor | PG-Habita-Backend/apps/reportes/views.py:219-228 | the catalog entry exists exactly for the six names and is that type's fields, filters and groupings |
| ReportesCatalog.CatalogShape | PG-Habita-Backend/apps/reportes/views.py:123-228 | the catalog has 12 booking, 10 property, 8 invoice, 8 user, 3 revenue and 4 occupancy fields; the derived types reuse the booking filters and group only by month |
| ReportesSerializers.TipoOf | PG-Habita-Backend/apps/reportes/serializers.py:36-43 | `tipo_reporte` is required and must be one of the six names |
| ReportesSerializers.CamposOf | PG-Habita-Backend/apps/reportes/serializers.py:44-48 | `campos_seleccionados` is optional (the empty list when absent) and, when sent, a list of non-blank texts |
| ReportesSerializers.FiltrosOf | PG-Habita-Backend/apps/reportes/serializers.py:49-52 | `filtros` is optional (empty when absent) and, when sent, must be an object |
| ReportesSerializers.OptionalTextOf | PG-Habita-Backend/apps/reportes/serializers.py:53-64 | `agrupacion`/`ordenamiento` are optional and accept null and the empty text |
| ReportesSerializers.LimiteOf | PG-Habita-Backend/apps/reportes/serializers.py:65-69 | `limite` is 100 when absent, otherwise any integer DRF accepts |
| ReportesSerializers.FlagOf | PG-Habita-Backend/apps/reportes/serializers.py:70-79 | the two flags are true when absent, otherwise a boolean DRF accepts |
| ReportesSerializers.ValidatePayload | PG-Habita-Backend/apps/reportes/serializers.py:34-79 | a payload is valid iff it is an object and every field validates; the validated data carries each field's value or default: type, fields, filters, grouping, ordering, limit and both flags |
| ReportesSerializers.MinimalPayload | PG-Habita-Backend/apps/reportes/serializers.py:34-79 | a request naming only the type gets every default: no fields, no filters, no grouping or ordering, limit 100, both flags on |
| ReportesSerializers.PersonalizadoRejected | PG-Habita-Backend/apps/reportes/serializers.py:36-43 | `personalizado` is refused |
| ReportesSerializers.TipoRequired | PG-Habita-Backend/apps/reportes/serializers.py:36-43 | a request without a type is refused whatever else it carries |
| ReportesSerializers.NegativeLimiteAccepted | PG-Habita-Backend/apps/reportes/serializers.py:65-69 | a negative `limite` passes validation unchanged |
| ReportesSerializers.NullOrBlankOrdering | PG-Habita-Backend/apps/reportes/serializers.py:53-64 | null and the empty text are both accepted for grouping and ordering |
| ReportesSerializers.ValidateIa | PG-Habita-Backend/apps/reportes/serializers.py:82-90 | an AI request needs a non-blank `prompt`; `contexto_adicional` is optional but non-blank when sent |
| ReportesData.Lookup | PG-Habita-Backend/apps/reportes/views.py:300 | `item.get(campo)`: the value bound to the key, or null when the key is absent |
| ReportesData.Items | PG-Habita-Backend/apps/reportes/views.py:372-373 | one `values()` dictionary per record, in collection order |
| ReportesData.ItemKeysAreCatalogFields | PG-Habita-Backend/apps/reportes/views.py:123-216 | every dictionary a table yields has exactly its type's catalog fields |
| ReportesData.ReservaKeys | PG-Habita-Backend/apps/reportes/views.py:126-139 | a booking's dictionary has exactly the 12 booking fields of the catalog |
| ReportesData.PropiedadKeys | PG-Habita-Backend/apps/reportes/views.py:154-165 | a property's dictionary has exactly the 10 property fields of the catalog |
| ReportesData.FacturaKeys | PG-Habita-Backend/apps/reportes/views.py:178-187 | an invoice's dictionary has exactly the 8 invoice fields of the catalog |
| ReportesData.UsuarioKeys | PG-Habita-Backend/apps/reportes/views.py:200-209 | a user's dictionary has exactly the 8 user fields of the catalog |
| ReportesData.OwnProperties | PG-Habita-Backend/apps/reportes/views.py:110 | exactly the caller's own properties, in table order |
| ReportesData.UserScope | PG-Habita-Backend/apps/reportes/views.py:98-120 | a superuser gets the whole table of the type; a host gets the bookings and invoices of their own properties, their own properties, and no user accounts; the booking-based types also return the host's property list |
| ReportesData.ScopeFor | PG-Habita-Backend/apps/reportes/views.py:346-352 | a collection exists exactly for the six catalog names, so the "not authorised" branch is never taken for a listed type and an unknown type fails before scoping |
| ReportesData.HostSeesOnlyOwnData | PG-Habita-Backend/apps/reportes/views.py:109-118 | a host never sees another owner's bookings, properties or invoices, and sees no user accounts |
| ReportesFilters.Active | PG-Habita-Backend/apps/reportes/views.py:247-260 | a filter takes effect only when its key is present with a truthy value |
| ReportesFilters.DateBound | PG-Habita-Backend/apps/reportes/views.py:247-254 | an absent or falsy date bound is ignored; a date text must parse as an ISO date, and any other value is an error |
| ReportesFilters.TextValue | PG-Habita-Backend/apps/reportes/views.py:255-266 | a text filter applies iff the value is present and truthy, and compares with its text form |
| ReportesFilters.Truncate | PG-Habita-Backend/apps/reportes/views.py:259-260 | Python's `int()` of a float truncates toward zero |
| ReportesFilters.IdValue | PG-Habita-Backend/apps/reportes/views.py:259-260 | the property-id lookup accepts an integer or integer text and raises for null, lists and objects |
| ReportesFilters.BoolValue | PG-Habita-Backend/apps/reportes/views.py:267-270 | a boolean filter applies iff its key is present with a real boolean |
| ReportesFilters.BookingFilterOf | PG-Habita-Backend/apps/reportes/views.py:250-260 | the booking conditions: none for an empty dictionary, status and payment as text filters, the property id when truthy; an error exactly when a date or the id cannot be converted |
| ReportesFilters.FilterBookings | PG-Habita-Backend/apps/reportes/views.py:250-260 | the booking branch fails iff a value cannot be converted; otherwise it keeps, in order, exactly the bookings every condition accepts (check-in on or after the start, checkout on or before the end, exact status, payment and property), and returns the input for no filters |
| ReportesFilters.NarrowBookings | PG-Habita-Backend/apps/reportes/views.py:251-260 | the loop keeps, in order, exactly the bookings the converted conditions accept |
| ReportesFilters.PropertyFilterOf | PG-Habita-Backend/apps/reportes/views.py:262-270 | property conditions never fail; the destination flag applies iff sent as a real boolean |
| ReportesFilters.FilterProperties | PG-Habita-Backend/apps/reportes/views.py:262-270 | keeps, in order, exactly the properties of the given type, whose city contains the text ignoring case, and with the destination flag; no filters return the input |
| ReportesFilters.NarrowProperties | PG-Habita-Backend/apps/reportes/views.py:263-270 | the loop keeps, in order, exactly the properties the conditions accept |
| ReportesFilters.StampFilterOf | PG-Habita-Backend/apps/reportes/views.py:272-290 | invoice and user conditions: the flag (`enviada` or `is_active`) only as a real boolean, dates bounding the creation day; an error iff a date cannot be converted |
| ReportesFilters.FilterInvoices | PG-Habita-Backend/apps/reportes/views.py:272-280 | fails iff a date cannot be converted; otherwise keeps, in order, exactly the invoices with the flag and a creation day within the bounds |
| ReportesFilters.NarrowInvoices | PG-Habita-Backend/apps/reportes/views.py:273-280 | the loop keeps, in order, exactly the invoices the conditions accept |
| ReportesFilters.FilterUsers | PG-Habita-Backend/apps/reportes/views.py:282-290 | fails iff a date cannot be converted; otherwise keeps, in order, exactly the users with the flag and a join day within the bounds |
| ReportesFilters.NarrowUsers | PG-Habita-Backend/apps/reportes/views.py:283-290 | the loop keeps, in order, exactly the users the conditions accept |
| ReportesFilters.ApplyFilters | PG-Habita-Backend/apps/reportes/views.py:243-292 | filtering only narrows: the result is an order-preserving subsequence of the input holding exactly the records the conditions accept, the input itself for an empty dictionary, and an error exactly when a lookup cannot convert its value |
| ReportesFilters.FalsyBookingFiltersIgnored | PG-Habita-Backend/apps/reportes/views.py:251-260 | booking keys holding only falsy values filter nothing |
| ReportesFilters.NonBooleanFlagIgnored | PG-Habita-Backend/apps/reportes/views.py:267-270 | a destination flag sent as anything but a boolean is ignored |
| ReportesFilters.NarrowedSize | PG-Habita-Backend/apps/reportes/views.py:243-292 | a narrowed collection is never larger than the input |
| ReportesRows.SelectCampos | PG-Habita-Backend/apps/reportes/views.py:357-360 | the shown fields are always catalog fields of the type: the requested ones the catalog knows, in the order asked, unknown names dropped; with none requested, at most ten taken from the field set's iteration order |
| ReportesRows.DefaultCampos | PG-Habita-Backend/apps/reportes/views.py:357-359 | with no fields requested the first ten names of the set's iteration order are shown |
| ReportesRows.SetKey | PG-Habita-Backend/apps/reportes/views.py:302-311 | `row[k] = v` keeps the key order and appends a new key at the end |
| ReportesRows.SetKeyLookup | PG-Habita-Backend/apps/reportes/views.py:302-311 | after `row[k] = v` the key reads `v` and every other key reads what it did |
| ReportesRows.Project | PG-Habita-Backend/apps/reportes/views.py:298-311 | a row has exactly the selected fields (each once, in first-appearance order), each holding the record's value or null |
| ReportesRows.ProjectRow | PG-Habita-Backend/apps/reportes/views.py:298-312 | the inner loop builds exactly the projected row |
| ReportesRows.RowsFromValues | PG-Habita-Backend/apps/reportes/views.py:295-313 | one projected row per record, in order |
| ReportesRows.EffectiveLimite | PG-Habita-Backend/apps/reportes/views.py:342 | a missing or zero `limite` means 100; any other value is used as given |
| ReportesRows.OrderItems | PG-Habita-Backend/apps/reportes/views.py:374-375 | ordering applies only when `ordenamiento` is one of the shown fields, and then the result is a permutation ascending in that column; otherwise the order is untouched |
| ReportesRows.Listed | PG-Habita-Backend/apps/reportes/views.py:373-376 | the listed records are the first `limite` of the (possibly ordered) collection, no more than it holds |
| ReportesRows.ListedRanksFirst | PG-Habita-Backend/apps/reportes/views.py:373-376 | with an ordering, the listed records and the records left out make up the collection, and no record left out ranks before a listed one: the listing is the first `limite` records |
| ReportesRows.SplitRanks | PG-Habita-Backend/apps/reportes/views.py:376 | cutting an ordered collection leaves no record of the tail ranked before one of the head |
| ReportesRows.ListRows | PG-Habita-Backend/apps/reportes/views.py:372-376 | a negative limit is an error (queryset slicing raises); otherwise at most `limite` rows (100 for 0), each with exactly the shown fields |
| ReportesRows.ListRowsOrdered | PG-Habita-Backend/apps/reportes/views.py:374-376 | with a usable ordering the rows ascend in the ordering column |
| ReportesRows.ListRowsUnordered | PG-Habita-Backend/apps/reportes/views.py:372-376 | without a usable ordering the first `limite` records are listed in collection order |
| ReportesEngine.PropiedadesCount | PG-Habita-Backend/apps/reportes/views.py:393-397 | every property for a superuser, the host's own otherwise |
| ReportesEngine.Filas | PG-Habita-Backend/apps/reportes/views.py:403-419 | the occupancy rows exist only for the `ocupacion` type and their ratios are never negative |
| ReportesEngine.Report | PG-Habita-Backend/apps/reportes/views.py:364-478 | fails (500) exactly for a listing type with a negative limit; otherwise echoes type, fields, filters, grouping and ordering, and carries the type's rows, the summary when statistics are on, the booking charts exactly for `reservas` with charts on, and the insights of that summary |
| ReportesEngine.ListingRowsShape | PG-Habita-Backend/apps/reportes/views.py:372-376 | every listing row has exactly the shown fields, and there are at most `limite` rows and no more than the collection holds |
| ReportesEngine.MonthlyRowsShape | PG-Habita-Backend/apps/reportes/views.py:378-419 | a revenue or occupancy report never fails and has one row per month with bookings, each with the catalog's fields |
| ReportesEngine.OcupacionResumen | PG-Habita-Backend/apps/reportes/views.py:424-439 | the occupancy summary's average is the mean of the row ratios and is present exactly when a booking is in scope |
| ReportesEngine.NoStatisticsNoInsights | PG-Habita-Backend/apps/reportes/views.py:316-330 | without statistics the summary is empty and there are no insights |
| ReportesEngine.ReportAsWritten | PG-Habita-Backend/apps/reportes/views.py:378-472 | as written the report fails whenever a booking is in scope for `ingresos`, `ocupacion`, or `reservas` with charts, because `.date()` is called on a date; otherwise it equals the corrected report |
| ReportesEngine.DefaultReservasReportFails | PG-Habita-Backend/apps/reportes/views.py:455-472 | a request naming only `reservas` fails as written as soon as one booking is in scope, while the corrected report succeeds |
| ReportesEngine.MonthlyReportsFail | PG-Habita-Backend/apps/reportes/views.py:378-419 | every `ingresos` and `ocupacion` report with a booking in scope fails as written and succeeds corrected |
| ReportesEngine.ListingRows | PG-Habita-Backend/apps/reportes/views.py:372-376 | the listing loop's rows are exactly the report's rows |
| ReportesEngine.ComputeRows | PG-Habita-Backend/apps/reportes/views.py:372-419 | the rows step computes exactly the report's rows and the occupancy rows the summary averages |
| ReportesEngine.ListingRowsOf | PG-Habita-Backend/apps/reportes/views.py:372-376 | for a listing type, a negative limit fails with 500 and otherwise the ordered, cut and projected rows are exactly the report's rows |
| ReportesEngine.TrendRowsOf | PG-Habita-Backend/apps/reportes/views.py:378-419 | for `ingresos` and `ocupacion` the monthly rows are exactly the report's rows, and the occupancy rows are exactly the ones the summary averages (none for `ingresos`) |
| ReportesEngine.GenerarReporte | PG-Habita-Backend/apps/reportes/views.py:333-481 | a filter that cannot be converted fails with 500; otherwise the report is built over the returned sub-collection of the caller's scope, which holds exactly the records the filters keep, with the selected fields; without filters over the whole scope |
| ReportesTrends.MonthOf | PG-Habita-Backend/apps/reportes/views.py:379 | `TruncMonth` gives the first day of the date's month |
| ReportesTrends.SameMonth | PG-Habita-Backend/apps/reportes/views.py:379-382 | two month starts with the same month index are the same group |
| ReportesTrends.Months | PG-Habita-Backend/apps/reportes/views.py:379-382 | the month groups are the months of the bookings' check-ins, each once, ascending |
| ReportesTrends.MonthsEmpty | PG-Habita-Backend/apps/reportes/views.py:379-382 | there is a month group exactly when there is a booking |
| ReportesTrends.AscendingDistinct | PG-Habita-Backend/apps/reportes/views.py:382 | ascending month groups are pairwise distinct |
| ReportesTrends.Group | PG-Habita-Backend/apps/reportes/views.py:457-459 | a group holds exactly the bookings whose key has that value, in order |
| ReportesTrends.SumOfOne | PG-Habita-Backend/apps/reportes/views.py:381 | `Count('id')` is the number of records |
| ReportesTrends.SumOfNoches | PG-Habita-Backend/apps/reportes/views.py:400 | summed night counts are never negative |
| ReportesTrends.GroupedSumStep | PG-Habita-Backend/apps/reportes/views.py:379-382 | one more booking adds its weight to exactly the one group it belongs to |
| ReportesTrends.GroupedSumWhole | PG-Habita-Backend/apps/reportes/views.py:379-382 | grouping loses and duplicates nothing: over distinct keys covering every booking, the group sums add up to the overall sum |
| ReportesTrends.InMonth | PG-Habita-Backend/apps/reportes/views.py:379 | exactly the bookings checked in during the month |
| ReportesTrends.Trend | PG-Habita-Backend/apps/reportes/views.py:379-382 | one entry per month with bookings, ascending, with that month's booking count and revenue |
| ReportesTrends.TrendCountsPositive | PG-Habita-Backend/apps/reportes/views.py:379-382 | every trend entry counts at least one booking |
| ReportesTrends.TrendCovers | PG-Habita-Backend/apps/reportes/views.py:379-382 | every booking's month has its trend entry |
| ReportesTrends.TrendTotals | PG-Habita-Backend/apps/reportes/views.py:379-382 | the trend's counts add up to the number of bookings and its revenues to the total revenue |
| ReportesTrends.IngresoRowKeys | PG-Habita-Backend/apps/reportes/views.py:384-388 | a revenue row has exactly the catalog's `mes`, `total`, `count` fields |
| ReportesTrends.IngresosRows | PG-Habita-Backend/apps/reportes/views.py:383-390 | one row per month with bookings, in month order, with the catalog's fields, each the trend entry of its month |
| ReportesTrends.MesAsWritten | PG-Habita-Backend/apps/reportes/views.py:385 | `.date()` on the truncated month of a date field raises (answered as 500) |
| ReportesTrends.IngresosAsWritten | PG-Habita-Backend/apps/reportes/views.py:383-390 | the revenue rows as written succeed only for no bookings, and are then empty |
| ReportesTrends.PropertyCount | PG-Habita-Backend/apps/reportes/views.py:397 | the property count used is at least 1, and the real count when there is one |
| ReportesTrends.PosiblesBounds | PG-Habita-Backend/apps/reportes/views.py:408-410 | a month's nights on offer lie between 28 and 31 times the property count |
| ReportesTrends.OcupacionEntry | PG-Habita-Backend/apps/reportes/views.py:404-418 | a month's row: the nights booked that month, the nights on offer (days of the month times properties, between 28 and 31 times, never zero) and their ratio, never negative |
| ReportesTrends.Occupancy | PG-Habita-Backend/apps/reportes/views.py:392-419 | one row per month with bookings, ascending, each the month's entry with the property count replaced by 1 when 0 |
| ReportesTrends.OccupancyRows | PG-Habita-Backend/apps/reportes/views.py:403-419 | the loop, computing each month's length as the next month's first day minus this one's, yields exactly the occupancy rows |
| ReportesTrends.OcupacionNightsTotal | PG-Habita-Backend/apps/reportes/views.py:399-419 | every booked night lands in exactly one month's row |
| ReportesTrends.OcupacionNotCapped | PG-Habita-Backend/apps/reportes/views.py:412 | the ratio is not capped at 1: 40 nights in February 2023 on one property give 40/28 |
| ReportesTrends.OcupacionRowKeys | PG-Habita-Backend/apps/reportes/views.py:413-418 | an occupancy row has exactly the catalog's four fields |
| ReportesTrends.OcupacionRowsValues | PG-Habita-Backend/apps/reportes/views.py:413-419 | one row value per occupancy row, with the catalog's fields |
| ReportesTrends.OcupacionAsWritten | PG-Habita-Backend/apps/reportes/views.py:404-407 | the occupancy loop as written succeeds only for no bookings |
| ReportesTrends.Groups | PG-Habita-Backend/apps/reportes/views.py:457-458 | one group per distinct key value among the bookings, with its count and revenue |
| ReportesTrends.GroupsCover | PG-Habita-Backend/apps/reportes/views.py:457-458 | a key value has a group exactly when some booking carries it |
| ReportesTrends.GroupsNonEmpty | PG-Habita-Backend/apps/reportes/views.py:457-458 | no group is empty |
| ReportesTrends.PorEstado | PG-Habita-Backend/apps/reportes/views.py:457 | the status groups, all of them, most bookings first |
| ReportesTrends.PropertyRanking | PG-Habita-Backend/apps/reportes/views.py:458 | all property groups, highest revenue first |
| ReportesTrends.PorPropiedad | PG-Habita-Backend/apps/reportes/views.py:458 | the ten property groups with the highest revenue (fewer when there are fewer), highest first; no group left out earns more than one shown |
| ReportesTrends.ReservasGraficos | PG-Habita-Backend/apps/reportes/views.py:455-473 | the corrected charts: every status group most bookings first, at most ten property groups highest revenue first, and a monthly trend whose counts and revenues add up to the totals |
| ReportesTrends.ReservasGraficosAsWritten | PG-Habita-Backend/apps/reportes/views.py:459-472 | the charts as written succeed only for no bookings |
| ReportesStats.RoundHalfEven | PG-Habita-Backend/apps/reportes/views.py:325 | the nearest integer to the value, ties to the even one, as Python's fixed-point formatting rounds |
| ReportesStats.RoundWhole | PG-Habita-Backend/apps/reportes/views.py:325 | rounding a whole number gives it back |
| ReportesStats.Scaled | PG-Habita-Backend/apps/reportes/views.py:325 | the digits shown for a value at d decimals are within half a unit of its magnitude times 10^d |
| ReportesStats.ParseParts | PG-Habita-Backend/apps/reportes/views.py:325 | digits, a point and digits, optionally signed, read back as that sign, digit value and scale |
| ReportesStats.PointTextDigits | PG-Habita-Backend/apps/reportes/views.py:325 | a digit count written with its decimal point reads back as the same count and scale |
| ReportesStats.FixedTextRoundTrip | PG-Habita-Backend/apps/reportes/views.py:325-329 | the `:.2f` / `:.1f` text of a value reads back as its sign, its rounded scaled magnitude and the number of decimals |
| ReportesStats.ScaledCents | PG-Habita-Backend/apps/reportes/views.py:325 | an amount in whole cents shown at two decimals is its exact cent count |
| ReportesStats.FixedTextCents | PG-Habita-Backend/apps/reportes/views.py:325 | the average text of an amount in whole cents reads back as exactly that amount |
| ReportesStats.Mean | PG-Habita-Backend/apps/reportes/views.py:428-436 | `Avg(...) or 0`: 0 for no records, otherwise the value that times the count is the sum |
| ReportesStats.OcupacionPromedio | PG-Habita-Backend/apps/reportes/views.py:437-438 | present exactly when there are occupancy rows, and then the non-negative mean of their ratios |
| ReportesStats.SumRatiosNonNegative | PG-Habita-Backend/apps/reportes/views.py:438 | ratios that are never negative sum to a non-negative total |
| ReportesStats.BookingResumen | PG-Habita-Backend/apps/reportes/views.py:424-436 | the booking summary: count, total and mean revenue (0 for none) and total discount, and no other figure |
| ReportesStats.ResumenOf | PG-Habita-Backend/apps/reportes/views.py:421-453 | the summary per report type: empty unless statistics are asked for or for users; booking figures for bookings, revenue and occupancy (plus the mean occupancy); count and mean price for properties; count and total billed for invoices |
| ReportesStats.InsightsNoData | PG-Habita-Backend/apps/reportes/views.py:316-322 | a revenue report over no bookings says exactly that there is no data |
| ReportesStats.RevenueResumen | PG-Habita-Backend/apps/reportes/views.py:425-436 | a booking or revenue report's summary is the booking summary |
| ReportesStats.AverageLine | PG-Habita-Backend/apps/reportes/views.py:318-325 | with records and a positive total the one insight is the average per booking |
| ReportesStats.PositiveRevenue | PG-Habita-Backend/apps/reportes/views.py:424-436 | bookings with positive total revenue give a non-zero count and a positive total |
| ReportesStats.InsightsAverage | PG-Habita-Backend/apps/reportes/views.py:316-325 | bookings with positive revenue get exactly the average-per-booking line |
| ReportesStats.InsightsNoRevenue | PG-Habita-Backend/apps/reportes/views.py:316-325 | bookings whose revenue is not positive get no insight |
| ReportesStats.InsightsOcupacion | PG-Habita-Backend/apps/reportes/views.py:326-330 | an occupancy report with rows gets exactly the mean-occupancy line (as a percentage), and none without rows |
| ReportesStats.InsightsNone | PG-Habita-Backend/apps/reportes/views.py:316-330 | property, invoice and user reports, and an empty summary, get no insights |
| ReportesExport.Cells | PG-Habita-Backend/apps/reportes/views.py:527 | one cell per column: the row's value under that key, and `None` where the row lacks it |
| ReportesExport.GridOf | PG-Habita-Backend/apps/reportes/views.py:521-527 | the header is `campos`, or the first row's keys when there are rows but no `campos`; one body line per row, holding its cells under that header |
| ReportesExport.Doubled | PG-Habita-Backend/apps/reportes/views.py:525-527 | doubling quote characters never shortens a field |
| ReportesExport.CsvRecord | PG-Habita-Backend/apps/reportes/views.py:525-527 | every written record ends in the two-character `\r\n` terminator, so is at least two characters long |
| ReportesExport.CsvDocumentSnoc | PG-Habita-Backend/apps/reportes/views.py:525-527 | writing one more record appends exactly that record's text |
| ReportesExport.CsvTexts | PG-Habita-Backend/apps/reportes/views.py:527 | one text per cell, each the writer's text for that value |
| ReportesExport.CsvRecords | PG-Habita-Backend/apps/reportes/views.py:525-527 | the header record first, then one record per row holding the texts of its cells |
| ReportesExport.CsvPrefixStep | PG-Habita-Backend/apps/reportes/views.py:526-527 | the document of the first i+2 records is that of the first i+1 plus record i+1 |
| ReportesExport.ExportRecord | PG-Habita-Backend/apps/reportes/views.py:527 | record i+1 of the export is the texts of row i's cells under the header |
| ReportesExport.ExportCsv | PG-Habita-Backend/apps/reportes/views.py:517-528 | the writer loop produces exactly the CSV document of the header record followed by one record per row |
| ReportesExport.ParseQuoted | PG-Habita-Backend/apps/reportes/views.py:525-527 | reading a quoted field consumes input |
| ReportesExport.ParseBare | PG-Habita-Backend/apps/reportes/views.py:525-527 | reading a bare field never grows the input |
| ReportesExport.ParseField | PG-Habita-Backend/apps/reportes/views.py:525-527 | reading a field never grows the input |
| ReportesExport.ParseFields | PG-Habita-Backend/apps/reportes/views.py:525-527 | reading a record's fields consumes input |
| ReportesExport.ParseRecord | PG-Habita-Backend/apps/reportes/views.py:525-527 | reading a record consumes input |
| ReportesExport.ParseQuotedDoubled | PG-Habita-Backend/apps/reportes/views.py:525-527 | a field written with doubled quotes and a closing quote reads back as that field |
| ReportesExport.ParseBarePlain | PG-Habita-Backend/apps/reportes/views.py:525-527 | a field without delimiter, quote or line break, written bare, reads back as itself |
| ReportesExport.ParseFieldOf | PG-Habita-Backend/apps/reportes/views.py:525-527 | every field, quoted as the minimal-quoting rule decides, reads back as itself |
| ReportesExport.ParseJoined | PG-Habita-Backend/apps/reportes/views.py:525-527 | comma-joined fields ended by `\r\n` read back as those fields |
| ReportesExport.ParseRecordOf | PG-Habita-Backend/apps/reportes/views.py:525-527 | a written record reads back as its fields, leaving what follows |
| ReportesExport.CsvRoundTrip | PG-Habita-Backend/apps/reportes/views.py:525-527 | any list of records, written out, reads back as the same records |
| ReportesExport.CsvInjective | PG-Habita-Backend/apps/reportes/views.py:525-527 | two lists of records that give the same CSV text are equal |
| ReportesExport.CsvExportReadsBack | PG-Habita-Backend/apps/reportes/views.py:517-550 | the CSV export reads back as the spreadsheet's header and, row by row and column by column, the text of the sheet's cell, empty where the row lacks the column |
| ReportesExport.ControlCharRefused | PG-Habita-Backend/apps/reportes/views.py:546-547 | a text cell holding the control character `\x01` makes `ws.append` refuse the sheet |
| ReportesExport.LayoutCharsAccepted | PG-Habita-Backend/apps/reportes/views.py:546-547 | header names free of control characters other than tab, newline and carriage return, over a body without text cells, are accepted |
| ReportesExport.Take | PG-Habita-Backend/apps/reportes/views.py:584-590 | slicing `[:n]` keeps a prefix of at most n items, everything when there are no more |
| ReportesExport.JoinBar | PG-Habita-Backend/apps/reportes/views.py:584 | joining with a space-bar-space separator adds three characters between parts and starts with the first part |
| ReportesExport.PdfCell | PG-Habita-Backend/apps/reportes/views.py:589 | `str(r.get(col, ''))`: empty for a missing key, otherwise the value's `str` |
| ReportesExport.RowLine | PG-Habita-Backend/apps/reportes/views.py:589-590 | a drawn row is its cells joined by bars, cut to 140 characters when longer and whole otherwise |
| ReportesExport.RowLinesAt | PG-Habita-Backend/apps/reportes/views.py:588-590 | the k-th printed line is the line of the k-th row, rows kept in order |
| ReportesExport.PositionClosedForm | PG-Habita-Backend/apps/reportes/views.py:585-595 | row k lands on the first page 12 points apart below the header for the first 53 rows, then 57 rows per further page from the top |
| ReportesExport.RowsInsideMargins | PG-Habita-Backend/apps/reportes/views.py:588-595 | every drawn row lies between the bottom margin and the top of the page, and below the header on the first page |
| ReportesExport.PdfRows | PG-Habita-Backend/apps/reportes/views.py:588-595 | one drawn line per printed line, each at its row's page position in 9-point Helvetica |
| ReportesExport.PdfColumns | PG-Habita-Backend/apps/reportes/views.py:578-584 | at most eight columns, the first ones of the header |
| ReportesExport.ExportPdf | PG-Habita-Backend/apps/reportes/views.py:554-599 | the drawing loop produces exactly the PDF layout of the report |
| ReportesExport.DrawRows | PG-Habita-Backend/apps/reportes/views.py:588-595 | the row loop draws exactly one line per row at that row's page position and ends at the position after the last row |
| ReportesExport.PdfLimits | PG-Habita-Backend/apps/reportes/views.py:564-599 | a title, the filters, the bar-joined header of at most eight columns, then at most 200 rows, each its row line of at most 140 characters inside the margins, over one to four pages |
| ReportesExport.FullLayoutPages | PG-Habita-Backend/apps/reportes/views.py:588-597 | 200 rows need exactly four pages |
| ReportesExport.FormatoIgnoresCase | PG-Habita-Backend/apps/reportes/views.py:607 | the format parameter ignores letter case |
| ReportesExport.FormatoAccepted | PG-Habita-Backend/apps/reportes/views.py:607-632 | a missing format means CSV; exactly `csv`, `xlsx`, `excel`, `pdf` (any case) and the empty text are accepted, anything else is answered 400 |
| ReportesExport.ExtensionRoundTrip | PG-Habita-Backend/apps/reportes/views.py:619-630 | each format's file extension names that same format |
| ReportesExport.FilenameNamesType | PG-Habita-Backend/apps/reportes/views.py:617 | the report type can be read back from the download's file name |
| ReportesService.LimiteUsado | PG-Habita-Backend/apps/reportes/views.py:500 | the recorded limit is never 0: the payload's limit, or 100 when it is 0 |
| ReportesService.ExportFile | PG-Habita-Backend/apps/reportes/views.py:617-630 | the download carries `reporte_<tipo>_<stamp>.<ext>` as attachment name, the format's media type, and the CSV text, the sheet or the PDF layout of the report |
| ReportesService.ReplyContent | PG-Habita-Backend/apps/reportes/views.py:715-716 | content is found only in an object answer with a `choices` member |
| ReportesService.EnvOr | PG-Habita-Backend/apps/reportes/views.py:675 | a non-empty key is found exactly when one of the two variables holds one |
| ReportesService.AiConfig | PG-Habita-Backend/apps/reportes/views.py:695-720 | no answer or no `choices[0].message.content` is a 500, an error status a 502, content that is not valid JSON text a 400 (and only then); otherwise the content text and the configuration it parses to |
| ReportesService.Sanitize | PG-Habita-Backend/apps/reportes/views.py:723-730 | cleaning keeps an object an object and leaves anything else alone |
| ReportesService.GetDropIf | PG-Habita-Backend/apps/reportes/views.py:724-730 | popping a key changes no other key, and removes that key exactly when it held null (or empty text where that counts) |
| ReportesService.SanitizeKeys | PG-Habita-Backend/apps/reportes/views.py:723-730 | every key but the four cleaned ones keeps its value; a cleaned key is gone when it held null (or, for `agrupacion`/`ordenamiento`, empty text) and kept otherwise |
| ReportesService.DropIfUnchanged | PG-Habita-Backend/apps/reportes/views.py:724-730 | a key that does not qualify leaves the object untouched |
| ReportesService.SanitizeIdempotent | PG-Habita-Backend/apps/reportes/views.py:723-730 | cleaning twice is cleaning once |
| ReportesService.SanitizeAcceptsNullLists | PG-Habita-Backend/apps/reportes/views.py:727-735 | a null field list or filter list, which validation refuses, is read as empty once cleaned, and the type and limit read as before |
| ReportesService.SanitizeBlankGrouping | PG-Habita-Backend/apps/reportes/views.py:724-726 | an empty `agrupacion` would be kept as empty text; cleaned, it is read as no grouping |
| ReportesService.ReportHistory.constructor | PG-Habita-Backend/apps/reportes/views.py:493-506 | the history starts empty and valid |
| ReportesService.ReportHistory.GenerateAndRecord | PG-Habita-Backend/apps/reportes/views.py:488-511 | the report `Generates` describes for a valid payload; a failed generation or insert is a 500 recording nothing, otherwise the report with one JSON-format history row appended |
| ReportesService.ReportHistory.Record | PG-Habita-Backend/apps/reportes/views.py:493-511 | a failed generation or insert is a 500 recording nothing; otherwise the report is answered and exactly one JSON-format history row is appended |
| ReportesService.ReportHistory.GenerarDinamico | PG-Habita-Backend/apps/reportes/views.py:486-511 | an invalid request, a failed generation or a failed insert is a 500 recording nothing; otherwise the report is returned and exactly one JSON-format history row is appended, with the limit 0 recorded as 100 |
| ReportesService.ReportHistory.Exportar | PG-Habita-Backend/apps/reportes/views.py:604-657 | an invalid request is a 500 recording nothing; otherwise as `ExportPayload`, including the 500 when writing the file raises |
| ReportesService.ReportHistory.DeliverAndRecord | PG-Habita-Backend/apps/reportes/views.py:614-654 | a failed generation is a 500 and an unsupported format a 400, both recording nothing; a spreadsheet without openpyxl or with a cell text holding a control character openpyxl refuses, or a PDF without reportlab, is a 500 recording nothing; otherwise the download of the report in the chosen format, and one history row in its extension unless the insert fails |
| ReportesService.ReportHistory.ExportPayload | PG-Habita-Backend/apps/reportes/views.py:607-654 | a failed generation is a 500 and an unsupported format a 400 (decided after generating), recording nothing; a file that cannot be written (missing library, refused cell text) is a 500 recording nothing; otherwise the download, and one history row in the format's extension unless the insert fails, which does not change the answer |
| ReportesService.ReportHistory.GenerarDesdeConfig | PG-Habita-Backend/apps/reportes/views.py:724-774 | a cleaned configuration that fails validation is a 400; otherwise the report `Generates` describes, a 500 when generation or the insert fails, else the report with the configuration and one history row holding the prompt and the model's text |
| ReportesService.ReportHistory.GenerateAndRecordPrompt | PG-Habita-Backend/apps/reportes/views.py:757-771 | the report `Generates` describes for the validated configuration; a failed generation or insert is a 500 recording nothing, otherwise the report with the configuration and one history row with the prompt and the model's text |
| ReportesService.ReportHistory.RecordPrompt | PG-Habita-Backend/apps/reportes/views.py:759-774 | a failed generation or insert is a 500 recording nothing; otherwise the report is answered with the configuration and exactly one history row with the prompt and the model's text is appended |
| ReportesService.ReportHistory.GenerarPorIa | PG-Habita-Backend/apps/reportes/views.py:665-774 | an invalid request or no API key is a 500; the model's answer decides as `AiConfig` says; a cleaned configuration that fails validation is a 400; a failed generation or insert a 500; only a success returns the report with the cleaned configuration and records one row with the prompt and the model's text |

## Left out

- HTTP routing, DRF authentication classes, JWT decoding and the ORM itself: a view is modelled from the decoded user, payload and tables it reads.
- Spreadsheet and PDF bytes (openpyxl, reportlab): the model stops at the sheet's grid and at the list of drawn strings with their font, page and position; fonts, page size and canvas calls beyond those are not modelled.
- UTF-8 encoding of the CSV text: the document is modelled as characters.
- Python's `repr` of a float (`floatText`) and the `json.dumps` text of the filters (`filtrosText`) are parameters, not computed.
- The clock (`generado_en`, the file-name stamp, "today" in the booking checks, the ad time window) and the elapsed generation time are inputs; `tiempo_generacion` is not recorded in the history rows.
- The language-model request is a parameter (`AiReply`): its URL, model name, prompt text and timeout are not modelled, and `json.loads` of its content is the parameter `parseJson`.
- Geocoding through Nominatim/OpenStreetMap: the lookup result is an input of `GeoService`; only how it is written onto the property is modelled.
- The iteration order of Python sets (the default report fields) is the input `order`, and the database collation used by `order_by` is the input `collation`.
- `reportes_reservas`, `reportes_meta` as an HTTP view, and the views of other apps that hold no rule logic are not part of this model.
- The notifier functions called by the booking model: the model records which notification kind is sent, not the notification rows or e-mails they create.
- The audit-log middleware's database write and the response it passes through are modelled only as "recorded or not"; the request body is not.
- `Text.Lower` lower-cases ASCII and Latin-1 letters only, not the whole of Unicode as `str.lower` and `toLowerCase` do.
- `Calendar.ValidDate` does not model Python's upper year bound 9999, except where ISO text is parsed.
- Concurrency: two requests racing on the same booking, reward stock or favourite are not modelled; each operation is atomic.
- Text.ParseInt: reads ASCII digits with an optional sign only. Python's `int()` also accepts underscores between digits (`"1_0"`) and non-ASCII decimal digits (`"١٢"`); the model refuses both.
- DrfFields.IntegerField: inherits that gap from `Text.ParseInt`, so `"1_0"` and non-ASCII digits are refused here though DRF accepts them.
- BitacoraViews.PageParam: inherits that gap; a page text such as `"1_0"` is refused here though the source reads it as page 10.
- BitacoraViews.ListarBitacora: inherits that gap; for a page text such as `"1_0"` the model answers 500 where the source shows page 10.
- ReportesFilters.IdValue: inherits that gap; an id text such as `"1_0"` raises here but not in the source.
- Calendar.ParseIsoDate: accepts only `\d{4}-\d{1,2}-\d{1,2}` in ASCII digits. Django's `parse_date` also accepts a trailing newline (its `$`) and non-ASCII digits, and first tries Python 3.11's `date.fromisoformat`, which accepts further forms such as `20240105`; the model refuses these.
- ReportesFilters.DateBound: inherits that gap from `Calendar.ParseIsoDate`.
- PropiedadesSerializers.OptionalDate: inherits that gap from `Calendar.ParseIsoDate`.
- PropiedadesSerializers.ValidateBaja: inherits that gap from `Calendar.ParseIsoDate`.
- DrfFields.FloatField: Python's `float()` on text is the parameter `floatOf`, not computed. Infinity and NaN, which `float()` can produce, are not values of `real`.
- PropiedadesSerializers.Coordinate: inherits that gap from `DrfFields.FloatField`.
- ReportesStats.RoundHalfEven: rounds the exact value. Python formats the binary double nearest the value, so a value such as 1.015 (stored as 1.01499…) gives `1.02` here but `1.01` in Python. For amounts in whole cents the two agree (`FixedTextCents`).
- ReportesStats.FixedText: inherits that gap from `RoundHalfEven`; the text shown for a value that is not a whole number of units at that precision can differ from Python's in the last digit.
- ReportesStats.FixedTextRoundTrip: states the round trip for the exact value, with the same caveat.
- ReportesEngine.GenerarReporte: builds the corrected report (the first Findings row). As written, the source raises for an `ingresos` or `ocupacion` report, or a `reservas` report with charts, over a scope holding a booking (`ReportAsWritten`).
- ReportesEngine.Generates: describes the corrected report; as written those reports fail, see `ReportAsWritten`.
- ReportesService.ReportHistory.GenerateAndRecord: uses the corrected report. As written, the source answers 500 and records no history row for the reports `ReportAsWritten` names.
- ReportesService.ReportHistory.GenerarDinamico: uses the corrected report; as written it answers 500 and records nothing for those reports.
- ReportesService.ReportHistory.Exportar: uses the corrected report; as written it answers 500 and records nothing for those reports.
- ReportesService.ReportHistory.ExportPayload: uses the corrected report; as written it answers 500 and records nothing for those reports.
- ReportesService.ReportHistory.GenerarDesdeConfig: uses the corrected report; as written it answers 500 and records nothing for those reports.
- ReportesService.ReportHistory.GenerateAndRecordPrompt: uses the corrected report; as written it answers 500 and records nothing for those reports.
- ReportesService.ReportHistory.GenerarPorIa: uses the corrected report; as written it answers 500 and records nothing for those reports.
- Permisos.HasPermission: reads the `permisos` claim as a list of codenames. A null claim (the membership test then raises) and a text claim (the test becomes a substring check) are read as an empty list; the backend issues only list claims.
- ReportesFilters.TextValue: a list or dictionary filter value has no text here (`DrfFields.PyStr` gives `None`), so the lookup matches no record; Django compares the column against its Python repr, such as `['a']`.
- PropiedadesSerializers.ValidateBaja: each payload field is absent or a text. A JSON null, which DRF refuses with 400, and a number or boolean, which the three fields read or refuse each in their own way, are not expressible in `BajaInput`.
- Files.ValidateUpload: whether a file is an image `ImageField` accepts (non-empty, readable by the image library, name within 100000 characters) is the input flag `esImagen`.

## Findings

| source | as written | input that shows it | evidently intended | confidence | as-written member | corrected member |
|---|---|---|---|---|---|---|
| PG-Habita-Backend/apps/reportes/views.py:379-470 | `TruncMonth('fecha_checkin')` on a date field yields a `date`, and the code calls `.date()` on it (lines 385, 405, 470), which raises; the view answers 500 | any `ingresos` or `ocupacion` report, or a `reservas` report with charts (the default), over a scope holding one booking | use the truncated month date as it is | not executed | ReportesEngine.ReportAsWritten | ReportesEngine.Report |
| PG-Habita-Frontend/src/hooks/usePropiedadesFilters.ts:15-17 | the search calls `prop.direccion.toLowerCase()`, but the listed properties carry `direccion_completa` and no `direccion`, so a search text that does not match the name throws a TypeError | a non-empty search that does not occur in the name of a property whose `direccion` is absent | search the name or the full address, case-insensitively | not executed | PropiedadesFilters.FilterThrowsOnApiRows | PropiedadesFilters.FilterPropiedades |
