# webComida in Dafny

This project models the core of webComida, a small food-ordering web application. The server is an Express application over Sequelize tables; the client is a React application.

On the server side it models:

- the request guards of `server/Middleware/auth.js`: customer token, administrator token, optional token, role check and the activity-log condition;
- the authentication handlers of `server/controllers/auth.controller.js`, over the `Usuario` and `Admin` credential records;
- the product catalogue handlers, with the `Producto` schema as a table invariant;
- the append-only order store.

On the client side it models:

- the two session providers (`UsuarioContext`, `AdminContext`) over a `localStorage` map;
- the request and response interceptors, the list fallbacks and the product-form checks of `client/src/services/api.js`;
- the catalogue page's filter and category list.

How the source's state appears in the model:

- State that the source changes in place is a Dafny `class`: the product, order and credential tables, an Express request, the browser window and the two providers. Each method states the whole new state.
- Decisions the source computes are functions. Lemmas relate those functions to one another, and to the methods that use them.
- Prices are exact integer cents.
- `jwt.sign` is a datatype recording what was signed, with which key, when and for how long. `jwt.verify` is the outcome it reports.
- `bcrypt.hash` is a constructor of the `Secret` datatype, so a digest records what it hashed.
- The clock, `req.ip`, the database's availability, `JSON.parse` and `JSON.stringify` are parameters.

| file | module |
|---|---|
| common.dfy | `Common`: Option/Result, JavaScript truthiness, `trim`, `toLowerCase`, `includes`, `replace` |
| http.dfy | `Http`: error replies `{ error, code }` with their status |
| tokens.dfy | `Tokens`: `generarToken` and token verification |
| principals.dfy | `Principals`: `Usuario` and `Admin` records, hooks, `toSafeJSON`, `verificarPassword` |
| guards.dfy | `Guards`: the middleware of `auth.js` |
| auth_controller.dfy | `AuthController`: login, registration, administrator creation, session check |
| catalog.dfy | `Catalog`: `Producto` schema and the product handlers |
| orders.dfy | `Orders`: the order handlers |
| json.dfy | `Json`: client-side JSON values with `undefined` |
| browser.dfy | `Browser`: `localStorage` and `window.location` |
| usuario_context.dfy | `UsuarioSession`: the customer session provider |
| admin_context.dfy | `AdminSession`: the administrator session provider |
| api_client.dfy | `ApiClient`: interceptors, fallbacks, product-form cleaning |
| home.dfy | `Home`: `productosFiltrados` and `categorias` |

## Model

| member | source | states |
|---|---|---|
| Tokens.SigningSecret | server/controllers/auth.controller.js:6-8 | customer tokens use `JWT_SECRET`; administrator tokens use `JWT_SECRET_ADMIN` when truthy, else `JWT_SECRET` |
| Tokens.GenerarToken | server/controllers/auth.controller.js:5-13 | a token exists exactly when the chosen secret is non-empty; it carries the payload, that secret, the issue time and 24 h (admin) or 7 d (customer) |
| Tokens.Verify | server/Middleware/auth.js:16 | verification succeeds exactly under the signing key before the lifetime ends, yielding the signed id; a wrong key is malformed, a lapsed token expired |
| Tokens.IssueThenVerify | server/controllers/auth.controller.js:5-13 | a token just issued verifies under the same environment until `now + ttl`, and is expired from then on |
| Tokens.OneSecondTokenExpires | server/Middleware/auth.js:38-43 | a one-second token checked two seconds later is reported expired |
| Tokens.AdminTokenUnderCustomerKey | server/controllers/auth.controller.js:6-8 | an administrator token passes the customer guard's verification exactly when the admin secret is missing or equals the shared one |
| Principals.Hash | server/models/Usuario.js:81-82 | the digest records the value hashed |
| Principals.VerificarPassword | server/models/Usuario.js:51-58 | true exactly when a password is given and the stored value is the digest of that text (digests taken as injective); a missing argument answers false instead of throwing |
| Principals.PlainPasswordNeverMatches | server/models/Usuario.js:51-58 | a password stored unhashed matches no attempt |
| Principals.HashedPasswordVerifies | server/models/Usuario.js:51-58 | the digest made at creation verifies exactly the original text (digests taken as injective) |
| Principals.UsuarioSafeJsonDropsOnlyPassword | server/models/Usuario.js:71-75 | two customers serialise alike exactly when they differ at most in `password` |
| Principals.NewUsuario | server/models/Usuario.js:5-43 | a new customer gets `rol = cliente`, `activo = true`, no last access, and the given fields unchanged |
| Principals.UsuarioBeforeCreate | server/models/Usuario.js:78-87 | a truthy password is replaced by its digest; nothing else changes |
| Principals.UsuarioBeforeUpdate | server/models/Usuario.js:90-99 | the password is re-hashed only when it differs from the stored one; otherwise the record is untouched |
| Principals.UsuarioActualizarAcceso | server/models/Usuario.js:61-68 | the last access becomes `now`; no other field changes |
| Principals.ParseAdminRol | server/models/Admin.js:24-27 | the enum accepts exactly the names of the three roles |
| Principals.AdminSafeJsonDropsOnlyPassword | server/models/Admin.js:63-67 | two administrators serialise alike exactly when they differ at most in `password` |
| Principals.NewAdmin | server/models/Admin.js:5-35 | a new administrator is active, has no last access, and has the given role and fields |
| Principals.AdminBeforeCreate | server/models/Admin.js:70-79 | a truthy password is replaced by its digest; nothing else changes |
| Principals.AdminBeforeUpdate | server/models/Admin.js:82-91 | the password is re-hashed only when it changed |
| Principals.AdminActualizarAcceso | server/models/Admin.js:53-60 | the last access becomes `now`; no other field changes |
| Principals.PreHashedAdminPasswordIsHashedTwice | server/models/Admin.js:70-79 | a password hashed before `create` is hashed again by the hook, and the original text then no longer verifies |
| Principals.FindUsuarioByEmail | server/controllers/auth.controller.js:93 | the key of the customer with that e-mail, or none when no row has it |
| Principals.FindAdminByEmail | server/controllers/auth.controller.js:28 | the key of the administrator with that e-mail, or none when no row has it |
| Guards.Request.constructor | server/Middleware/auth.js:7 | a request starts with its header and with no principal attached |
| Guards.BearerPrefixRemoved | server/Middleware/auth.js:7-9 | `Bearer t` yields exactly `t`, which counts as a token exactly when non-empty |
| Guards.RawHeaderIsToken | server/Middleware/auth.js:7 | a header without `Bearer ` is used unchanged as the token |
| Guards.CustomerDecision | server/Middleware/auth.js:5-50 | no token gives 401 `NO_TOKEN`; `next` runs exactly for a verified id found in the table, which is then attached; every other outcome halts |
| Guards.CustomerVerifyFailures | server/Middleware/auth.js:19-48 | malformed gives 401 `INVALID_TOKEN`, expired 401 `EXPIRED_TOKEN`, any other failure 500, an unknown id 401 `USER_NOT_FOUND` |
| Guards.CustomerNoTokenFirst | server/Middleware/auth.js:9-14 | without a token the answer does not depend on verification or on the table |
| Guards.VerificarToken | server/Middleware/auth.js:5-50 | the guard answers as the decision says and sets `req.usuario` only when `next` runs |
| Guards.AdminDecision | server/Middleware/auth.js:53-105 | no token gives 401 `NO_ADMIN_TOKEN`; `next` runs exactly for a verified id of an active administrator, which is then attached |
| Guards.AdminVerifyFailures | server/Middleware/auth.js:67-103 | malformed gives 401 `INVALID_ADMIN_TOKEN`, expired 401 `EXPIRED_ADMIN_TOKEN`, any other failure 500, an unknown id 401 `ADMIN_NOT_FOUND` with its message |
| Guards.InactiveAdminRejected | server/Middleware/auth.js:74-82 | a valid token of an inactive administrator gives 403 `ADMIN_INACTIVE`, a code no token failure produces |
| Guards.AdminNoTokenFirst | server/Middleware/auth.js:55-62 | without a token the answer does not depend on verification or on the table |
| Guards.VerificarTokenAdmin | server/Middleware/auth.js:53-105 | the guard answers as the decision says and sets `req.admin` only when `next` runs |
| Guards.OptionalAttach | server/Middleware/auth.js:108-127 | the customer is attached exactly when a token verifies to an id in the table; otherwise `null` |
| Guards.OptionalMatchesMandatory | server/Middleware/auth.js:108-127 | the optional guard attaches exactly what the mandatory customer guard attaches |
| Guards.VerificarTokenOpcional | server/Middleware/auth.js:108-127 | the optional guard never answers, always calls `next`, and always assigns `req.usuario` |
| Guards.PrincipalRol | server/Middleware/auth.js:139 | the role checked is the customer's when one is attached; with only an administrator attached, that administrator's role; none without a principal |
| Guards.VerificarRol | server/Middleware/auth.js:130-150 | `next` exactly when the role is allowed; 401 `AUTH_REQUIRED` without a principal; 403 `INSUFFICIENT_PERMISSIONS` otherwise |
| Guards.RolePrefersCustomer | server/Middleware/auth.js:139 | with a customer attached the administrator is never consulted |
| Guards.SendWithActivityLog | server/Middleware/auth.js:153-176 | a log line exactly for a 2xx status with an administrator attached; the data is always forwarded unchanged |
| AuthController.CheckCredentials | server/controllers/auth.controller.js:21-53 | missing fields give 400, unknown e-mail 401, inactive 403 `ACCOUNT_DISABLED`, wrong password 401; it passes exactly for an active account with the right password |
| AuthController.UnknownEmailLikeWrongPassword | server/controllers/auth.controller.js:30-53 | an unknown e-mail and a wrong password get the same status, message and code |
| AuthController.InactiveBeforePassword | server/controllers/auth.controller.js:38-45 | an inactive account is refused whatever its password |
| AuthController.UsuarioAccount | server/controllers/auth.controller.js:93 | an account is found exactly when some customer row has the e-mail |
| AuthController.AdminAccount | server/controllers/auth.controller.js:28 | an account is found exactly when some administrator row has the e-mail |
| AuthController.TrimOpt | server/controllers/auth.controller.js:180-181 | an absent field stays absent; a present one is trimmed |
| AuthController.RegistroCheck | server/controllers/auth.controller.js:151-173 | registration passes exactly with all fields, a password of 6 or more characters and no row holding the lower-cased or the stored e-mail; a missing field gives the 400 missing-fields reply, a short password 400, a row holding the lower-cased e-mail 409 `EMAIL_EXISTS` with its message; every 409 is `EMAIL_EXISTS` |
| AuthController.RegisteredUsuario | server/controllers/auth.controller.js:176-182 | the inserted customer has the trimmed name, the lower-cased trimmed e-mail, the digest of the password, the trimmed optional fields, role `cliente`, active and no last access |
| AuthController.PaddedDuplicateRefused | server/controllers/auth.controller.js:165-213 | a padded e-mail whose trimmed form is taken passes `findOne` but is still refused with 409 |
| AuthController.CrearAdminCheck | server/controllers/auth.controller.js:228-286 | a requester who is not a super administrator gets 403; for a super administrator, success holds exactly with all fields, a password of 8 or more, a free e-mail and a known role (default `admin`); a missing field or a short password gives 400, a row holding the lower-cased e-mail 409 `EMAIL_EXISTS` with its message, an unknown role on a free e-mail 500, a free lower-cased e-mail whose trimmed form is taken 500; no attached requester 500 |
| AuthController.CreatedAdmin | server/controllers/auth.controller.js:261-266 | the inserted administrator has the trimmed name, the lower-cased trimmed e-mail, the digest of the password, the chosen role, active and no last access |
| AuthController.NonSuperAdminRefusedFirst | server/controllers/auth.controller.js:228-233 | a requester who is not a super administrator gets the same answer whatever the body |
| AuthController.CrearAdminDefaultRole | server/controllers/auth.controller.js:261-266 | without `rol` the new administrator's role is `admin` |
| AuthController.VerificarSesion | server/controllers/auth.controller.js:291-315 | 401 `INVALID_TOKEN` exactly when no principal is attached; the payload is the customer's if attached, else the administrator's; `tipo` is `admin` exactly when an administrator is attached |
| AuthController.BothAttachedReportsAdmin | server/controllers/auth.controller.js:294-306 | with both attached the payload is the customer's while `tipo` says `admin` |
| AuthController.AuthStore.constructor | server/models/Usuario.js:5-43 | both credential tables start empty and valid |
| AuthController.AuthStore.LoginAdmin | server/controllers/auth.controller.js:16-78 | a refused login changes nothing; on success the last access is updated, kept only if the save succeeds, and a 24 h token with `{id, email, rol}` and the password-free record is returned |
| AuthController.AuthStore.Login | server/controllers/auth.controller.js:81-143 | the same over the customer table, with a 7 d token |
| AuthController.AuthStore.Registro | server/controllers/auth.controller.js:146-220 | a refused body changes nothing; otherwise exactly one customer is added under a fresh id, with the hashed password and the lower-cased trimmed e-mail, and 201 with a token; a signing failure answers 500 but keeps the row |
| AuthController.AuthStore.CrearAdmin | server/controllers/auth.controller.js:223-288 | a refused request changes nothing; otherwise exactly one administrator is added with the hashed password, and 201 with the password-free record and no token |
| Catalog.TrimOrNull | server/controllers/productos.controller.js:59-61 | an absent or empty text is stored as null; any other is trimmed |
| Catalog.ValidarProducto | server/controllers/productos.controller.js:45-55 | the body passes exactly with a name not all spaces and a price in (0, 10^10) cents; a falsy name or price, including 0, gives the missing-fields 400; a negative price gives its own 400 |
| Catalog.FromBody | server/controllers/productos.controller.js:57-69 | the stored row has the trimmed name, the price, the optional texts trimmed or null, and `disponible` from the body or kept |
| Catalog.AcceptedBodyIsValidRow | server/models/Producto.js:10-27 | every body that passes validation yields a row the schema accepts |
| Catalog.ZeroPriceIsMissing | server/controllers/productos.controller.js:45-49 | a price of 0 is refused as missing |
| Catalog.BlankNameFailsValidation | server/models/Producto.js:10-16 | a name of spaces only passes the falsy check but fails `notEmpty` with 400 |
| Catalog.AvailabilityMessage | server/controllers/productos.controller.js:184 | the text says "habilitado" exactly when the value sent is `true` |
| Catalog.ProductTable.constructor | server/models/Producto.js:5-9 | the table starts empty with the autoincrement at 1 |
| Catalog.ProductTable.ObtenerProductos | server/controllers/productos.controller.js:4-17 | every row is listed exactly once, newest (highest id) first |
| Catalog.ProductTable.ObtenerProductoPorId | server/controllers/productos.controller.js:20-37 | the row under the id with 200, or 404 "Producto no encontrado" |
| Catalog.ProductTable.CrearProducto | server/controllers/productos.controller.js:40-86 | a refused body changes nothing; otherwise exactly one valid row is added under the next id, with `disponible` defaulting to true, and 201 |
| Catalog.ProductTable.ActualizarProducto | server/controllers/productos.controller.js:89-141 | 404 before validation; on success only that row changes, every field comes from the body, and an absent `disponible` is kept |
| Catalog.ProductTable.EliminarProducto | server/controllers/productos.controller.js:144-169 | 404 and no change, or exactly that row removed and its former name and id reported |
| Catalog.ProductTable.CambiarDisponibilidad | server/controllers/productos.controller.js:172-194 | 404 and no change, or only that row's `disponible` changes; an absent value changes nothing and is reported as "deshabilitado" |
| Orders.OrderStore.constructor | server/models/Pedido.js:4-11 | the store starts empty |
| Orders.OrderStore.CrearPedido | server/controllers/pedidos.controller.js:12-19 | on success exactly one order built from the body is appended under the next id and returned with 201; a failure answers 500 "Error al crear pedido" and changes nothing |
| Orders.OrderStore.ObtenerPedidos | server/controllers/pedidos.controller.js:3-10 | every stored order, unfiltered and in insertion order (assumed; the query requests none), or 500 "Error al obtener pedidos" |
| Orders.CreateTwiceThenList | server/controllers/pedidos.controller.js:3-19 | two orders created in a row are both listed afterwards with their bodies and increasing ids, after all earlier orders, older first (under the insertion-order assumption) |
| Json.Field | client/src/context/AdminContext.js:37-38 | a missing field or a non-object reads as `undefined` |
| Json.SpreadWith | client/src/context/AdminContext.js:25 | `{ ...v, key: x }` has `x` under `key`, keeps every other field of an object, and adds nothing else |
| Browser.GetItem | client/src/context/UsuarioContext.js:12-13 | `getItem` answers the stored text, or null when the key is missing |
| Browser.SessionsDisjoint | client/src/context/AdminContext.js:19-20 | a change confined to the customer keys leaves both administrator keys as they were |
| Browser.Window.StoredJson | client/src/context/UsuarioContext.js:49 | `setItem(k, JSON.stringify(v))` stores the text "undefined" for `undefined` and the serialisation otherwise |
| Browser.Window.StoredText | client/src/context/AdminContext.js:38 | `setItem(k, v)` stores a string as is, and `undefined` or `null` as their names |
| UsuarioSession.UsuarioHydration | client/src/context/UsuarioContext.js:9-27 | with `token` and `usuario` both present the parsed profile is restored, or a parse failure detected; otherwise there is no session |
| UsuarioSession.LoginShape | client/src/context/UsuarioContext.js:33-45 | login accepts exactly a truthy `token` with a truthy `user` (preferred) or `usuario` |
| UsuarioSession.UsuarioProvider.constructor | client/src/context/UsuarioContext.js:6-7 | the state starts `null` and loading |
| UsuarioSession.UsuarioProvider.Hydrate | client/src/context/UsuarioContext.js:9-27 | a parsed profile becomes the state; a parse failure removes both keys; `loading` ends false; no other key changes |
| UsuarioSession.UsuarioProvider.Login | client/src/context/UsuarioContext.js:29-59 | an unknown shape throws and changes nothing; otherwise `token` and the serialised profile are stored and the profile becomes the state; no other key changes |
| UsuarioSession.UsuarioProvider.Logout | client/src/context/UsuarioContext.js:61-74 | both keys removed, the state null, no other key touched |
| UsuarioSession.UsuarioProvider.IsAuthenticated | client/src/context/UsuarioContext.js:81 | false exactly for the falsy states `null`, `undefined`, `false`, `0` and `''` |
| UsuarioSession.LoginThenReload | client/src/context/UsuarioContext.js:9-59 | after a login whose profile reads back, the next page load is authenticated as that profile; a refused login leaves no session where there was none |
| UsuarioSession.LogoutThenReload | client/src/context/UsuarioContext.js:9-74 | after a logout the next page load is not authenticated, and no other key changed |
| AdminSession.UseAdmin | client/src/context/AdminContext.js:5-11 | the provider's value inside a provider, otherwise the error "useAdmin debe ser usado dentro de AdminProvider" |
| AdminSession.AdminHydration | client/src/context/AdminContext.js:17-33 | with both keys present, the parsed profile plus the stored `token`, or a parse failure; otherwise no session |
| AdminSession.AdminProvider.constructor | client/src/context/AdminContext.js:14-15 | the state starts `null` and loading |
| AdminSession.AdminProvider.Hydrate | client/src/context/AdminContext.js:17-33 | restore, or remove both keys on a parse failure; `loading` ends false; no other key changes |
| AdminSession.AdminProvider.LoginAdmin | client/src/context/AdminContext.js:35-39 | the state becomes the whole response; a null or undefined response then throws before storage is written; otherwise `adminData` and `adminToken` are stored |
| AdminSession.AdminProvider.LogoutAdmin | client/src/context/AdminContext.js:41-45 | the state null and both keys removed, nothing else touched |
| AdminSession.AdminProvider.IsAdmin | client/src/context/AdminContext.js:47-49 | holds exactly when the state is not `null`, so also for `undefined` |
| AdminSession.LoginAdminThenReload | client/src/context/AdminContext.js:17-39 | after a login the next page load restores the stored profile with the token; a response without `admin` makes that load wipe both keys |
| ApiClient.AuthorizationHeader | client/src/services/api.js:15-37 | `Bearer adminToken` if that key is truthy, else `Bearer token`, else no header |
| ApiClient.HeaderCarriesChosenToken | client/src/services/api.js:18-26 | the server's guards read back exactly the token the client chose, and see none when the client has none |
| ApiClient.CustomerSessionKeepsAdminHeader | client/src/services/api.js:18-26 | customer login or logout does not change the token administrator requests carry |
| ApiClient.FromReply | client/src/services/api.js:56-57 | the error the interceptor sees carries the reply's status and wire code |
| ApiClient.ClearedKeysAsWritten | client/src/services/api.js:56-88 | a non-401 clears nothing; an administrator 401 clears both administrator keys; any other 401 clears `token` and `userData` |
| ApiClient.AsWrittenLeavesProfile | client/src/services/api.js:80-81 | that removal leaves the stored customer profile behind |
| ApiClient.ClearedKeys | client/src/services/api.js:56-88 | as written, with the customer profile key corrected to `usuario` |
| ApiClient.CustomerUnauthorizedEndsSession | client/src/services/api.js:77-81 | with the correction a customer 401 removes every customer key, touches nothing else, and the next load finds no session |
| ApiClient.RedirectTarget | client/src/services/api.js:73-86 | `/admin/login` exactly for an administrator 401 on an admin path other than the login page; `/login` exactly for another 401 off the admin paths |
| ApiClient.ResponseErrorInterceptor | client/src/services/api.js:40-92 | as written: the keys ClearedKeysAsWritten names are removed, the redirect followed, the same error rejected; an administrator 401 touches only administrator keys, any other only `token` and `userData`, and the stored `usuario` profile is never removed |
| ApiClient.ResponseErrorInterceptorCorrected | client/src/services/api.js:40-92 | with the corrected key set: any other 401 touches only customer keys, the redirect and rejection are unchanged, and after a customer 401 the next load finds no customer session |
| ApiClient.GuardRefusalsClearTheirSession | client/src/services/api.js:56-88 | as written, every 401 of the customer guard clears `token` and `userData` but not `usuario` (corrected: the whole customer session); every 401 of the administrator guard clears both administrator keys; the 403 inactive refusal clears nothing |
| ApiClient.AdminBadPasswordClearsCustomerSession | client/src/services/api.js:77-86 | a wrong administrator password, on an admin page, clears `token` and `userData` as written (the whole customer session when corrected) and does not navigate |
| ApiClient.ObtenerProductos | client/src/services/api.js:95-138 | the data on success; samples exactly on `ERR_NETWORK` or a status of 500 or more; otherwise the same error rethrown |
| ApiClient.ObtenerPedidos | client/src/services/api.js:269-302 | the data on success and samples on every error, never rethrowing |
| ApiClient.ProductListFallbackOnServerReplies | client/src/services/api.js:103 | a server error reply is replaced by samples exactly when its status is 500 or more |
| ApiClient.TrimOrEmpty | client/src/services/api.js:168-171 | a falsy text is sent as '' and any other trimmed |
| ApiClient.LimpiarProducto | client/src/services/api.js:157-173 | throws exactly for a falsy name or price text or a negative parsed price; otherwise the strings are trimmed, absent ones '', and `disponible` defaults to true |
| ApiClient.ServerBody | client/src/services/api.js:166-176 | every payload field arrives at the server present |
| ApiClient.FormAcceptedByServer | client/src/services/api.js:157-176 | a form reaches the catalogue exactly with a name not all spaces, a price text and a parsed price in (0, 10^10) cents |
| ApiClient.ZeroPriceTextRefusedOnlyByServer | client/src/services/api.js:157-163 | the price text "0" passes the client and is refused by the server as missing |
| ApiClient.EmptyTextStoredAsNull | client/src/services/api.js:168 | an empty optional text is sent as '' and stored as null |
| Home.MatchesSearchAsWritten | client/src/pages/Home.js:35-36 | the name is tested first; a null description throws exactly when the name does not match; otherwise true exactly when the name or description contains the term, case-insensitively |
| Home.FilterAsWrittenBehaviour | client/src/pages/Home.js:34-39 | the filter as written throws exactly when some product's search test throws, and otherwise equals the intended filter |
| Home.NullDescriptionCrashesSearch | client/src/pages/Home.js:35-36 | a product "Pizza" stored without description, searched for "sushi", makes the filter throw |
| Home.FilterIsSubsequence | client/src/pages/Home.js:34-39 | the filtered list keeps the catalogue's order |
| Home.FilterMembership | client/src/pages/Home.js:34-39 | a product is listed exactly when it is in the catalogue and passes both the search and the category test |
| Home.EmptySearchListsAll | client/src/pages/Home.js:35-37 | an empty search with category `all` lists the whole catalogue |
| Home.CategoriaList | client/src/pages/Home.js:42 | one category per product, in order |
| Home.DistinctProperties | client/src/pages/Home.js:42 | the category list holds exactly the catalogue's categories, each once, in first-appearance order |
| Home.FilteredCategoriesOffered | client/src/pages/Home.js:37-42 | every product shown has its category among those offered |

## Left out

- `jwt.sign`, `jwt.verify` and bcrypt are foreign code. Their results are datatypes or inputs; signatures, the digest algorithm and the salt are not modelled.
- The database engine and Sequelize's query machinery: `findOne`, `findByPk`, `create`, `update` and `destroy` are map and sequence operations.
- Database failures are modelled in these places only:
  - for orders, as an input of each handler (500);
  - for a price too large for `DECIMAL(10, 2)`, as the product handler's 500;
  - for the last-access save of both logins, as the input `saveOk`: a failed save is swallowed and the login still succeeds;
  - for a new administrator, the unique-constraint refusal of an e-mail whose trimmed form is taken, and the enumerated-type refusal of an unknown role, both as 500;
  - for a new customer, the unique-constraint refusal of an e-mail whose trimmed form is taken, as the handler's 409 `EMAIL_EXISTS` (AuthController.PaddedDuplicateRefused).
- The 500 answers of the product list, lookup, delete and availability handlers, and a failed `Producto.update`, are not modelled.
- Column widths are not modelled. `DataTypes.STRING` columns are `VARCHAR(255)`: the product `nombre`, `categoria` and `imagen`, and the customer and administrator `nombre`, `email`, `telefono` and `direccion`. The database refuses a longer value and the handler answers 500, but Catalog.ValidarProducto, Catalog.ProductoValid, AuthController.RegistroCheck and AuthController.CrearAdminCheck accept any length.
- Catalog.ProductTable.ObtenerProductos: "newest first" is stated on autoincrement ids, which assumes creation timestamps grow with ids; rows created in the same clock tick are not distinguished.
- Request bodies are typed. A field is absent or a string, a price is absent or an integer number of cents, and `disponible` is absent or a boolean. JavaScript coercions of other JSON values (a string "false", a number as `nombre`, a JSON `null` for `disponible`) are not modelled. Neither is rounding of prices with more than two decimals.
- `parseFloat` is an input of ApiClient.LimpiarProducto (the parsed price in cents, or none for NaN); parsing itself and floating-point money are not modelled.
- `toLowerCase` is modelled on ASCII letters only. String lengths count code points, not UTF-16 units.
- `JSON.parse` and `JSON.stringify` are parameters of the window. Only where a property needs it is the stored text assumed to parse back to the value. `String(v)` of an object or array is taken to be its serialisation.
- Json.SpreadWith: spreading a string or an array, which copies their indexes, is not modelled; a primitive spreads no fields.
- Orders.OrderStore.ObtenerPedidos: the listing is taken in insertion (primary-key) order, which `Pedido.findAll()` without an `order` option does not request; the database may return the rows in any order. Orders.CreateTwiceThenList's "older first" rests on the same assumption.
- Sequelize would take an `id` from an order body; Orders.OrderStore.CrearPedido always assigns the next id.
- React state batching, re-rendering, and the page reload after a redirect: each provider call updates its state at once, and navigation only sets the path.
- Principals.HashedPasswordVerifies: digests are treated as injective; bcrypt reads only the first 72 bytes of a password, so two passwords sharing those bytes verify alike in the source but not in the model.
- Principals.VerificarPassword: the same injectivity assumption; a longer password with the stored one's first 72 bytes would be accepted by the source and is refused by the model.
- AuthController.CrearAdminCheck: an unknown `rol` is modelled as the database refusing the insert of a value outside its enumerated type (500); an engine without native enumerations could store it instead.
- Guards.PrincipalRol: a principal record always has a role, so the source's read of a missing `rol` is not modelled.
- Console and audit-log output, the activity log's storage, the contents of the sample data, and `window.debugAPI` are left out. The log is returned as a value.
- `server/controllers/admin.controller.js` is not part of this model: no route mounts it. The route files, `createAdmin.js`, the migration and start-up scripts, and all React rendering are not part of this model either.
- Promise scheduling and concurrent requests: each call is one sequential step.

## Findings

| source | as written | input that shows it | evidently intended | confidence | as-written member | corrected member |
|---|---|---|---|---|---|---|
| client/src/services/api.js:80-81 | a customer 401 removes `token` and `userData`, but the customer session stores its profile under `usuario` (client/src/context/UsuarioContext.js:49) and nothing writes `userData` | storage holding `token` and `usuario`, error with status 401 and code `INVALID_TOKEN` | remove `token` and `usuario`, ending the customer session | high, not executed | ApiClient.AsWrittenLeavesProfile | ApiClient.CustomerUnauthorizedEndsSession |
| client/src/pages/Home.js:35-36 | `producto.descripcion.toLowerCase()` is called on a description the server stores as null when absent or empty (server/controllers/productos.controller.js:59), so the page throws | one product "Pizza" with no description, search term "sushi" | a product without description matches on its name only | high, not executed | Home.NullDescriptionCrashesSearch | Home.FilterMembership |

Both findings follow the same pattern. The as-written definitions are ApiClient.ClearedKeysAsWritten and Home.FilterAsWritten. ApiClient.ResponseErrorInterceptor uses ApiClient.ClearedKeysAsWritten. The corrected definitions are ApiClient.ClearedKeys, which ApiClient.ResponseErrorInterceptorCorrected uses, and Home.Filter, which the catalogue lemmas are about.

Other observations about the code:

- `ADMIN_INACTIVE` is sent with status 403 (server/Middleware/auth.js:74-82), so the interceptor's 401 branch that lists it never runs for it (ApiClient.GuardRefusalsClearTheirSession).
- A wrong password on the administrator login page logs out a customer in the same browser (ApiClient.AdminBadPasswordClearsCustomerSession).
- `Pedido` has only the columns of server/models/Pedido.js:4-11 and no status or owner; the model follows the code.
