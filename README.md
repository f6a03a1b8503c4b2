# Viña Urbana shop API — a verified model of its list logic

The shop backend keeps everything in process-local lists. It has two
drafts: `main_final.py` and the earlier `main_vinaurbana.py`. This project
models the sequential logic under the web framework in both drafts:

- the credential store (`db_users`, registration, password check by digest);
- the bearer token `"token-" + email` and its resolution;
- the catalog filter, the product lookup and the store list;
- the stock reservation that decrements a record in place;
- order tracking;
- the pairing chatbot and the ticket SLA tables;
- the label and pairing registries.

Modules:

- `Text`: `str.lower()`, `in` on strings, and `f"{n}"`.
- `Api`: `Option`, `Result`, and the HTTP errors with their status codes and details.
- `Scan`: `next(...)` as first-match search, and filtering by comprehension or append loop.
- `Accounts`: users, tokens and login for both drafts. `Draft` selects the email comparison: case-insensitive in `main_final.py`, exact in `main_vinaurbana.py`.
- `Catalog`: `main_final.py`'s `CATALOGO`, `TIENDAS`, the filter loop, `obtener_producto` and `listar_tiendas`.
- `EarlyCatalog`: `main_vinaurbana.py`'s two-wine comprehension filter. It has no type criterion and tests its price bounds by truthiness.
- `Stock`: `db_stock` and `reservar_stock`, which are identical in both drafts.
- `Orders`: `db_pedidos`, `crear_pedido` and `seguimiento_pedido`, which are identical in both drafts.
- `Support`: a generic append-only `Registry` and a case-insensitive keyed `Lookup`, plus the chatbot, SLA, ticket, label and pairing endpoints.

Things the model takes as parameters:

- The SHA-256 digest of `hashear_contraseña` is a function parameter `hash`. Nothing is assumed of it, not even injectivity.
- `uuid4()` identifiers and `datetime.now()` timestamps are natural numbers that the caller supplies.
- The tracking number drawn by `random.randint(1000, 9999)` is a parameter `n` with that range.
- The `random.choice` of `seguimiento_pedido` is a nondeterministic choice (`:|`) among the four states.

`str.lower()` is modelled for ASCII and Latin-1 upper-case letters, which
covers every seeded string ("Ñuñoa" included).

Facts about the code that the seeded lemmas pin down:

- `{tipo: "tinto", precio_max: 12000}` yields exactly p01 and p03. p05 is a red too, but it costs 12490 (`Catalog.SeededTintoUpTo12000`).
- `listar_tiendas` lower-cases both the stored `comuna` and the query before comparing them (`Catalog.ListarTiendas`).
- Only `main_final.py` keeps emails unique up to case. `main_vinaurbana.py` compares emails exactly, so "A@x.cl" and "a@x.cl" can both register (`Accounts.CaseVariantRegistration`).

## Model

| member | source | states |
|---|---|---|
| Scan.FindFirst | main_final.py:533 | `next(...)`: the position of the first element that passes, or None exactly when none passes |
| Scan.FilterIsSubsequence | main_final.py:577 | a comprehension keeps its input's order: the result is a subsequence of the input |
| Scan.FilterCounts | main_final.py:577 | a comprehension keeps every copy of a passing value and no copy of a failing one: each value occurs in the result as often as in the input if it passes, and never otherwise |
| Text.ContainsIff | main_final.py:547-549 | `needle in haystack` holds iff some suffix of the haystack starts with the needle |
| Accounts.UserByEmail | main_final.py:423-424 | the first stored user whose email matches (up to case in the final draft, exactly in the early one); None iff no stored email matches |
| Accounts.FirstMatchIsOnlyMatch | main_vinaurbana.py:113-114 | when stored emails are distinct, looking up a stored user's email returns that user |
| Accounts.Authenticate | main_final.py:427-431 | returns a user iff the first email match exists and `hash(password)` equals its stored digest, and then returns that user |
| Accounts.RegisterThenLogin | main_final.py:469-509 | registering a user with a free email and then logging in with the same password authenticates exactly that user |
| Accounts.SameDigestSameLogin | main_final.py:117-118 | only the digest is compared: two passwords with the same digest get the same authentication outcome for every user list, email and draft |
| Accounts.AuthenticateStored | main_final.py:117-118 | for a stored user with distinct emails, login succeeds exactly when the password's digest is that user's digest |
| Accounts.CreateToken | main_final.py:121-129 | succeeds iff `sub` is present and non-empty, with "token-" followed by `sub`; otherwise raises the ValueError |
| Accounts.CurrentUser | main_final.py:434-450 | accepts a token iff it starts with "token-" and the rest matches a stored email up to case, and then returns the first such user; otherwise 401 |
| Accounts.IssuedTokenResolves | main_final.py:441-445 | a token minted for a stored user resolves back to exactly that user |
| Accounts.Login | main_final.py:491-509 | both login endpoints: 400 when authentication fails; a token iff authentication succeeds for a user with a non-empty email, and then the token for that user's email; the ValueError when the authenticated user's email is empty |
| Accounts.LoginTokenResolves | main_final.py:502-509 | the token a successful login returns resolves to the user who logged in |
| Accounts.ScanExact | main_vinaurbana.py:138-143 | the fallback loop finds the same user as the exact-match `get_user_by_email` |
| Accounts.EarlyCurrentUser | main_vinaurbana.py:122-148 | early-draft token resolution: succeeds iff the prefix is right and some stored email equals the rest exactly, and then returns the primary lookup's user |
| Accounts.AppendKeepsDistinct | main_final.py:470-481 | appending a user whose email is not taken keeps stored emails pairwise distinct |
| Accounts.UserStore.Register | main_final.py:469-484 | a taken email raises 400 and leaves `db_users` unchanged; otherwise exactly one user with the password's digest is appended; emails stay distinct |
| Accounts.CaseVariantRegistration | main_vinaurbana.py:160-172 | "a@x.cl" then "A@x.cl": the final draft refuses the second with 400, the early draft accepts it |
| Catalog.FiltrarCatalogo | main_final.py:539-557 | the loop with `continue`/`append` returns exactly the order-preserving filter of the catalog by the criteria |
| Catalog.FilterMeaning | main_final.py:544-555 | a product is in the result iff it is in the catalog and meets every supplied criterion, as many times as the catalog holds it if it passes and never otherwise; the result is a subsequence of the catalog |
| Catalog.NoCriteriaKeepsAll | main_final.py:542-555 | with no criteria the result is the catalog unchanged |
| Catalog.EmptyTextIgnored | main_final.py:545-550 | an empty-string `tipo`, `cepa` or `origen` filters exactly like an absent one, each on its own and whatever the other criteria are |
| Catalog.ZeroMaxPriceApplied | main_final.py:551-554 | `precio_max = 0` is applied (`is not None`) and keeps no seeded product |
| Catalog.SeededTintoUpTo12000 | main_final.py:150-316 | on the seeded catalog, `{tipo: "tinto", precio_max: 12000}` gives exactly [p01, p03] |
| Catalog.ObtenerProducto | main_final.py:531-536 | the first product with exactly this id, or 404 iff no product has it |
| Catalog.LookupById | main_final.py:533 | with distinct ids, looking up a product's id returns that product |
| Catalog.SeededIdsDistinct | main_final.py:150-316 | the seeded catalog's ids are pairwise distinct |
| Catalog.ListarTiendas | main_final.py:573-579 | with a truthy `comuna`, exactly the stores whose municipality matches up to case, each as often as in the list, in order; otherwise all stores |
| Catalog.NunoaFound | main_final.py:367-413 | the query "ñuñoa" returns exactly the Ñuñoa store |
| EarlyCatalog.Filtrar | main_vinaurbana.py:208-222 | a wine is in the result iff it is in the list and meets every truthy criterion, as many times as the list holds it if it passes and never otherwise; order is preserved |
| EarlyCatalog.NoCriteriaKeepsAll | main_vinaurbana.py:215-221 | with no criteria every wine is returned, in order |
| EarlyCatalog.ZeroBoundIgnored | main_vinaurbana.py:219-220 | a price bound of 0 filters exactly like an absent bound |
| EarlyCatalog.ZeroMaxKeepsBoth | main_vinaurbana.py:211-220 | `precio_max = 0` keeps both wines here, while the final draft keeps no product for it |
| EarlyCatalog.SeededUpTo10000 | main_vinaurbana.py:211-214 | `precio_max = 10000` keeps only the Pinot Noir |
| EarlyCatalog.AgreesWithFinalDraft | main_vinaurbana.py:215-221 | with no zero bound, a wine passes here iff it passes the final draft's filter without a type criterion |
| Stock.Reservation | main_final.py:640-649 | the reservation keeps the list's length and leaves the list unchanged whenever it fails |
| Stock.ReservationErrors | main_final.py:643-649 | 404 iff no record's name matches up to case; 400 iff the first match holds fewer units than asked; no other error |
| Stock.ReservationSuccess | main_final.py:644-648 | on success the first matching record loses `cantidad` units, and the message names the quantity and the name |
| Stock.ReservationFrame | main_final.py:642-648 | only the first matching record can change; non-negative balances stay non-negative |
| Stock.ReservationConservesStock | main_final.py:646 | the total balance falls by `cantidad` on success and is unchanged on failure |
| Stock.NegativeQuantityRaisesStock | main_final.py:644-646 | a negative `cantidad` on a matching record succeeds and raises the total |
| Stock.StockLedger.constructor | main_final.py:416 | the seed is one record, "Cabernet Sauvignon Reserva", with 3 units |
| Stock.StockLedger.Reserve | main_vinaurbana.py:264-273 | the in-place loop answers and updates `db_stock` exactly as `Reservation` says; balances stay non-negative |
| Stock.SeededReservations | main_vinaurbana.py:262-273 | on the seed: 10 gives 400 and leaves 3; 3 succeeds and leaves 0; then 1 gives 400 |
| Orders.TrackingCodeInjective | main_final.py:668 | different tracking numbers give different "TRK-" codes |
| Orders.Seguimiento | main_final.py:675-685 | a tracking query keeps the number of orders |
| Orders.SeguimientoMeaning | main_final.py:677-681 | 404 iff no order has the id, and then nothing changes; otherwise the first such order answers in the picked state, with the same id, owner and tracking code |
| Orders.SeguimientoFrame | main_vinaurbana.py:294-300 | only the answered order changes; no order's id, owner or tracking code changes |
| Orders.SeguimientoKeepsKnownStates | main_final.py:680-681 | a pick from the four states keeps every order in one of them |
| Orders.DeliveredCanGoBack | main_final.py:680-681 | the state does not progress: a delivered order can be moved back to "Preparando" |
| Orders.OrderBook.Crear | main_final.py:663-672 | appends exactly one order in "Preparando" with tracking "TRK-n", owned by the caller's email |
| Orders.OrderBook.Seguir | main_vinaurbana.py:293-300 | the state is some one of the four states, and the answer and new list are what `Seguimiento` gives for that pick |
| Support.Registry.Add | main_final.py:837-841 | registration appends exactly one record at the end |
| Support.Lookup | main_final.py:925-927 | the first record whose key matches up to case, or the given 404 iff none does |
| Support.LookupAfterAdd | main_final.py:916-928 | after an append, an existing answer is kept; otherwise the new record is found iff its key matches |
| Support.SugerirVino | main_vinaurbana.py:310-317 | carne → Cabernet Sauvignon, pescado → Sauvignon Blanc, pasta → Merlot, queso → Carmenere, compared after lower-casing; Pinot Noir iff the dish is none of them |
| Support.ChatbotMaridaje | main_final.py:698-707 | carne, pescado, pasta and queso (compared after lower-casing) get "Recomendado para carne: Cabernet Sauvignon", "… pescado: Sauvignon Blanc", "… pasta: Merlot" and "… queso: Carmenere"; any other dish gets "Recomendado para {dish lower-cased}: Pinot Noir" |
| Support.ChatbotIgnoresCase | main_final.py:704-707 | two spellings of a dish that lower-case alike get the same message |
| Support.ChatbotExamples | main_final.py:698-705 | "CARNE" gets Cabernet Sauvignon; "sushi" gets Pinot Noir |
| Support.Sla | main_vinaurbana.py:333-339 | 5min iff channel is "whatsapp", 10min iff "telefono", 24h otherwise |
| Support.SlaIsCaseSensitive | main_final.py:722-728 | "whatsapp" gets 5min but "WhatsApp" gets 24h |
| Support.CrearTicket | main_vinaurbana.py:331-344 | appends exactly one ticket, owned by the caller's email, with the channel's SLA |
| Support.VerEtiqueta | main_final.py:844-851 | 404 iff no label's wine matches up to case; otherwise the first such label, with "Etiqueta expirada" iff it is not valid and "Etiqueta encontrada" otherwise |
| Support.RegisteredLabelFound | main_vinaurbana.py:438-451 | a label registered for a wine with no label is what the view then finds, under any case |
| Support.FirstLabelShadows | main_final.py:837-851 | registering a later label for a wine that has one, even an expired one, does not change the view |
| Support.VerMaridaje | main_final.py:923-928 | 404 iff no pairing's wine matches up to case; otherwise the first such pairing |
| Support.RegisteredPairingFound | main_vinaurbana.py:509-520 | a new pairing is found when its wine had none; otherwise the view is unchanged |

## Left out

- Routing, dependency injection, form parsing, CORS, the response envelope (`statusCode`, `.dict()`) and the `print` logging: these are framework plumbing. Each endpoint returns its data or its error as a `Result`.
- SHA-256 itself. `hash` is an uninterpreted parameter.
- The Unicode semantics of `str.lower()` beyond ASCII and Latin-1 upper-case letters.
- Float price bounds are integers, since every seeded price is an `int`. A fractional bound such as 0.5 (truthy in the early draft) is not modelled.
- `dashboard_metricas`, `predecir_demanda` and the donation amount: these are random numbers and float rounding.
- Membership, notification, marketplace, alliance, donation and virtual-visit endpoints: each is a plain append to a list with no decision logic. `Support.Registry.Add` is their common shape.
- `listar_catalogo` and `listar_ofertas`: they return a seeded list unchanged. `OFERTAS` is not modelled.
- The race between the balance check and the decrement in `reservar_stock` under concurrent requests. Every operation is modelled as sequential.
- Users are modelled as immutable values, since no endpoint updates them.
- `db_etiquetas` and `db_maridajes` are appended to through a generic `Registry`. Pydantic validation of the registered payload is not modelled.
- Orders.Seguimiento: its own contract says only that the list keeps its length. What it answers and changes is stated by `Orders.SeguimientoMeaning` and `Orders.SeguimientoFrame`.
- Stock.Reservation: its own contract says only that the length is kept and that failures change nothing. The rest is stated by the `Reservation*` lemmas.
