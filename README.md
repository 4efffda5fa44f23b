# Admin console core, modelled in Dafny

This project models the logic of a small React administration console for companies
(`empresas`), their products (`productos`) and a per-company inventory (`inventario`).
The console has two roles, ADMIN and EXTERNO. What is modelled:

- **Product form validator** (`ProductValidation`). The validator is an ordered chain of checks:
  - four required fields;
  - length ceilings of 20, 50 and 200, counted as JavaScript counts `.length` (UTF-16 code units);
  - an all-digits NIT of at most 15 digits;
  - three prices of the form `digits[.digits]`.

  It returns the first failing check's message, or nothing. The two regular expressions are
  written as character-class predicates. A second, table-driven description of the checks is
  proved to give the same answer.
- **Access policy** (`AccessPolicy`). This is the route guard:
  - no session redirects to `/`;
  - a role missing from a given role list redirects to `/forbidden`;
  - anything else is allowed.

  The pages' `isAdmin` flag is shown to be the same rule with the list `[ADMIN]`.
- **Route table** (`Routes`). The four declared routes, with a resolver from a session and a
  path to the rendered page, a redirect, or no match.
- **Session provider** (`Auth`). A class holding three things: the in-memory session, the
  browser store (a `map<string, string>` with the entries `"user"` and `"token"`), and the
  router location. It has login, logout, the layout's logout, and restore at mount time.
  - The stored session text is a concrete JSON writer and reader (`SessionCodec`), and reading
    back what was written gives the same session (proved).
  - Decoding the token's `sub` claim is a function the provider is given.
- **Login submit handler** (`LoginPage`). A blank e-mail is refused first, then a blank password.
  Blank means empty or only whitespace, using the whitespace set that `String.prototype.trim`
  removes. Only after both checks does the handler request a login. The outcome becomes exactly
  one fixed alert.
- **Listing pages** (`Empresas`, `Productos`, `Inventario`). One class per page, holding the
  page's React state:
  - `Empresas` and `Productos`: listing, create/edit dialog, confirmed delete, snackbar;
  - `Inventario`: company selection, document download, e-mail dispatch, alerts.

  API outcomes, the confirmation answer and the browser-generated ids are method parameters.
  A ghost log records every request a page issues. That log is how properties like "declining
  the confirmation issues no delete" are stated.

Every handler runs to completion in sequence. A reload that the source starts without awaiting
runs inside the handler that starts it, with its own outcome as a parameter.

## Model

| member | source | states |
|---|---|---|
| `ProductValidation.Utf16Length` | src/js/utils/commons.js:12-18 | a string's `.length` counts UTF-16 code units: at least one and at most two per character |
| `ProductValidation.Utf16LengthIsCountIffBmp` | src/js/utils/commons.js:12-18 | `.length` equals the number of characters exactly when no character lies above the Basic Multilingual Plane |
| `ProductValidation.Utf16LengthAllAstral` | src/js/utils/commons.js:12-14 | characters above the Basic Multilingual Plane count two code units each |
| `ProductValidation.IsDigits` | src/js/utils/commons.js:17 | `^\d+$` accepts a non-empty text, whose `.length` is then its number of characters |
| `ProductValidation.IsDecimal` | src/js/utils/commons.js:23-25 | a text `^\d+(\.\d+)?$` accepts is non-empty and starts and ends with a digit |
| `ProductValidation.Validate` | src/js/utils/commons.js:6-28 | no message exactly when every check passes: four fields filled; the three length ceilings, counted in UTF-16 code units; an all-digit NIT of at most 15; three decimal prices |
| `ProductValidation.FirstFailureIsFirst` | src/js/utils/commons.js:6-27 | a table of checks reports nothing iff no check fails, else the message of a failing check that every earlier check passes |
| `ProductValidation.ValidateIsFirstFailure` | src/js/utils/commons.js:6-27 | the validator returns the message of the first failing check, in the source's order |
| `ProductValidation.MissingFieldReportedFirst` | src/js/utils/commons.js:7-9 | any empty text field gives "Todos los campos son obligatorios", whatever the prices hold |
| `ProductValidation.LengthCeilingsInclusive` | src/js/utils/commons.js:12-14 | the code, name and characteristics messages appear exactly when the UTF-16 length exceeds 20, 50, 200 (inclusive ceilings), in that order |
| `ProductValidation.AstralCodigoTooLong` | src/js/utils/commons.js:12 | eleven copies of U+1D7D8 are eleven characters but twenty-two code units, so the code is refused as too long |
| `ProductValidation.NitDigitsBeforeLength` | src/js/utils/commons.js:17-18 | a non-digit NIT gets the numeric message before any length check; an all-digit NIT over 15 gets the length message |
| `ProductValidation.NitExamples` | src/js/utils/commons.js:17-18 | "12A" gives the numeric message; a 16-digit NIT gives "El NIT no puede superar 15 dígitos" |
| `ProductValidation.PricesCheckedInOrder` | src/js/utils/commons.js:23-25 | the first price that is not a decimal, in the order COP, USD, EUR, decides the message |
| `ProductValidation.PriceTextExamples` | src/js/utils/commons.js:23-25 | "-1", "1.", ".5" and "" are refused; "0" and "12.50" are accepted |
| `ProductValidation.DecimalIffShape` | src/js/utils/commons.js:23-25 | the price pattern matches exactly the texts that are non-empty, start and end with a digit, and hold only digits and at most one point |
| `ProductValidation.AcceptedFormShape` | src/js/utils/commons.js:17-27 | an accepted form has a NIT of 1 to 15 digits and three unsigned decimal prices |
| `AccessPolicy.Authorize` | src/components/ProtectedRoute.jsx:8-17 | allow iff a session exists and the role list is absent or holds its role; otherwise no session redirects to `/`, a session to `/forbidden` |
| `AccessPolicy.AnonymousNeverForbidden` | src/components/ProtectedRoute.jsx:8-15 | the login check comes first: an anonymous caller always goes to `/`, never to `/forbidden` |
| `AccessPolicy.NoRolesAllowsExactlySessions` | src/components/ProtectedRoute.jsx:8-17 | with no role list, the guard allows exactly when a session exists |
| `AccessPolicy.EmptyRolesForbidEveryone` | src/components/ProtectedRoute.jsx:13-15 | a given but empty role list still applies and forbids every session |
| `AccessPolicy.WiderRolesAllowMore` | src/components/ProtectedRoute.jsx:13-15 | adding roles to the list never takes access away |
| `AccessPolicy.IsAdmin` | src/pages/Empresas.jsx:34 | the pages' `isAdmin`, which gates their create, edit, delete and export controls (also src/pages/Productos.jsx:48 and src/pages/Inventario.jsx:33), holds iff the guard with `[ADMIN]` allows |
| `Routes.Lookup` | src/App.jsx:10-27 | the route found for a path is a declared route with that path; no route means no declared route has it |
| `Routes.Resolve` | src/App.jsx:10-27 | nothing matches exactly the undeclared paths; a redirect goes to `/` or `/forbidden`; without a session only `/` renders, and it renders the login page |
| `Routes.DeclaredLookups` | src/App.jsx:11-26 | each of the four declared paths finds its own route |
| `Routes.PathsAreDistinct` | src/App.jsx:11-26 | no two routes declare the same path |
| `Routes.LoginIsUnguarded` | src/App.jsx:11 | `/` renders the login page for every caller |
| `Routes.EmpresasForBothRoles` | src/App.jsx:12-16 | ADMIN and EXTERNO sessions both see the companies page |
| `Routes.AdminOnlyPages` | src/App.jsx:17-26 | `/productos` and `/inventario` render for ADMIN; every other role is redirected to `/forbidden` |
| `Routes.ExternoNeverOnAdminPages` | src/App.jsx:17-26 | an EXTERNO session is redirected to `/forbidden` on `/productos` and `/inventario` |
| `Routes.GuardedRoutesSendAnonymousToLogin` | src/App.jsx:12-26 | every guarded route redirects an anonymous caller to `/` |
| `Routes.ForbiddenHasNoRoute` | src/App.jsx:10-27 | no route is declared for `/forbidden`, so the guard's target matches nothing |
| `Routes.RedirectsEndInOneHop` | src/App.jsx:10-27 | a redirect's target shows the login page or matches nothing; it never redirects again |
| `Routes.LoginLanding` | src/App.jsx:12-16 | the companies page, where login lands, renders for ADMIN and EXTERNO; any other server role ends on the empty forbidden view |
| `SessionCodec.Stringify` | src/context/AuthContext.jsx:28 | the stored session text is non-empty, so mounting reads it back, and begins with `{` |
| `SessionCodec.ReadStringLeavesSuffix` | src/context/AuthContext.jsx:13 | reading a string literal consumes at least its closing quote and leaves a suffix of the text |
| `SessionCodec.Parse` | src/context/AuthContext.jsx:13 | only a text that opens with `{"token":"` and ends with `}` reads as a session |
| `SessionCodec.ReadEscaped` | src/context/AuthContext.jsx:13 | a JSON-escaped string followed by its closing quote reads back as the original string and the rest of the text |
| `SessionCodec.ParseStringify` | src/context/AuthContext.jsx:11-28 | reading the stored text of a session gives back that session |
| `SessionCodec.StringifyInjective` | src/context/AuthContext.jsx:28 | distinct sessions are stored as distinct texts |
| `Auth.Restore` | src/context/AuthContext.jsx:11-14 | a missing or empty `"user"` entry restores no session; the error path is exactly a non-empty entry that does not read as a session |
| `Auth.SessionOf` | src/context/AuthContext.jsx:21-25 | the session holds the reply's token, the reply's role (not a claim of the token) and the token's subject |
| `Auth.StoreAfterLogin` | src/context/AuthContext.jsx:27-29 | after login, `"user"` holds the stored session text, `"token"` holds the token, and every other entry is unchanged |
| `Auth.RestoreAfterLogin` | src/context/AuthContext.jsx:11-29 | mounting from the store a login left restores the very session the login built |
| `Auth.RestoreAfterLogout` | src/context/AuthContext.jsx:11-37 | mounting after `"user"` was removed restores no session |
| `Auth.AuthProvider.constructor` | src/context/AuthContext.jsx:11-14 | the initial session is the one restored from the store; nothing else is read or changed |
| `Auth.AuthProvider.Login` | src/context/AuthContext.jsx:17-31 | one request with the given credentials. A failed request propagates its message; a token the decoder refuses propagates the decoder's own message; either way nothing else changes. Otherwise session, both entries and location `/empresas` are set |
| `Auth.AuthProvider.Logout` | src/context/AuthContext.jsx:33-37 | no session, `"user"` removed, `"token"` kept, location `/` |
| `Auth.AuthProvider.LayoutLogout` | src/layout/AppLayout.jsx:7-10 | `"user"` removed and location `/`, but the in-memory session is kept |
| `Auth.ReloadAfterLogin` | src/context/AuthContext.jsx:11-30 | after a successful login, a provider mounted again from the store holds the same session |
| `LoginPage.TrimStart` | src/pages/Login.jsx:14 | the result is a suffix of the text; everything cut is whitespace; the result does not start with whitespace |
| `LoginPage.TrimEnd` | src/pages/Login.jsx:14 | the result is a prefix of the text; everything cut is whitespace; the result does not end with whitespace |
| `LoginPage.Trim` | src/pages/Login.jsx:14 | trimming leaves nothing exactly when every character is whitespace; otherwise the result starts and ends with a non-whitespace character |
| `LoginPage.IsBlank` | src/pages/Login.jsx:14-19 | a field is refused as blank exactly when it holds only whitespace, or nothing |
| `LoginPage.SubmitGuard` | src/pages/Login.jsx:14-22 | the e-mail refusal iff the e-mail is blank; the password refusal iff only the password is blank; no refusal iff both carry text |
| `LoginPage.EmailCheckedFirst` | src/pages/Login.jsx:14-22 | with both fields blank, only the e-mail refusal appears |
| `LoginPage.EmptyPasswordRefused` | src/pages/Login.jsx:19-22 | `a@a.com` with an empty password is refused for the password |
| `LoginPage.LoginForm.constructor` | src/pages/Login.jsx:7-8 | both fields start empty |
| `LoginPage.LoginForm.SetEmail` | src/pages/Login.jsx:54 | typing replaces the e-mail only |
| `LoginPage.LoginForm.SetPassword` | src/pages/Login.jsx:63 | typing replaces the password only |
| `LoginPage.LoginForm.HandleSubmit` | src/pages/Login.jsx:11-30 | one alert per submit. A refused field shows its message with no login request and no change to the provider. Otherwise one request with the untrimmed fields. Success shows "Inicio de sesión exitoso" and leaves the provider's session, both entries and location `/empresas` set. Any failure shows "Credenciales incorrectas" and changes neither session, store nor location |
| `Empresas.ToRow` | src/pages/Empresas.jsx:43-46 | a row's id is the record's own id if it has one, else its NIT; every other field is the record's |
| `Empresas.Rows` | src/pages/Empresas.jsx:41-48 | one row per record, in the server's order |
| `Empresas.RowsIdempotent` | src/pages/Empresas.jsx:43-46 | mapping listing rows again changes nothing |
| `Empresas.Page.constructor` | src/pages/Empresas.jsx:27-31 | empty list, empty draft, dialog closed, not editing, hidden snackbar, no requests |
| `Empresas.Page.Load` | src/pages/Empresas.jsx:40-52 | one list request; success replaces the list by the mapped rows; failure keeps the list and shows "Error cargando empresas" |
| `Empresas.Page.OpenCreate` | src/pages/Empresas.jsx:54-58 | the draft is four empty strings, not editing, dialog open |
| `Empresas.Page.OpenEdit` | src/pages/Empresas.jsx:60-64 | the draft is the row, editing, dialog open |
| `Empresas.Page.Close` | src/pages/Empresas.jsx:66-68 | the dialog closes and nothing else changes |
| `Empresas.Page.SetNit` | src/pages/Empresas.jsx:163-168 | typing sets the NIT, except while editing, when the disabled field keeps it |
| `Empresas.Page.SetNombre` | src/pages/Empresas.jsx:170-174 | typing replaces the name only |
| `Empresas.Page.SetDireccion` | src/pages/Empresas.jsx:176-180 | typing replaces the address only |
| `Empresas.Page.SetTelefono` | src/pages/Empresas.jsx:182-186 | typing replaces the phone only |
| `Empresas.Page.Submit` | src/pages/Empresas.jsx:70-84 | update by the draft's NIT when editing, else create. Success closes the dialog, shows the success message and reloads. Failure shows the error's message, leaves the dialog and list, and does not reload |
| `Empresas.Page.Remove` | src/pages/Empresas.jsx:86-98 | declined: nothing changes and nothing is issued. Confirmed: one delete by NIT; success shows "Empresa eliminada" and reloads; failure shows "Error eliminando empresa" |
| `Empresas.Page.CloseSnack` | src/pages/Empresas.jsx:203 | the snackbar hides and keeps its text |
| `Empresas.EditAndSaveUnchanged` | src/pages/Empresas.jsx:60-84 | editing a row and saving sends an update of that very row by its NIT, even if the disabled NIT field is typed into |
| `Productos.ToRow` | src/pages/Productos.jsx:57-60 | a generated id is used only when the record has no id; every other field is the record's |
| `Productos.Rows` | src/pages/Productos.jsx:54-61 | one row per record, in the server's order |
| `Productos.ServerIdsKept` | src/pages/Productos.jsx:57-60 | a record with its own id becomes its row unchanged, whatever ids are generated |
| `Productos.PayloadDropsOnlyId` | src/pages/Productos.jsx:99-109 | the request body is every draft field but the id; putting the id back gives the draft |
| `Productos.PayloadDeterminesAllButId` | src/pages/Productos.jsx:99-109 | two drafts with the same body differ at most in their id |
| `Productos.Page.constructor` | src/pages/Productos.jsx:33-45 | empty list, zero draft, dialog closed, not editing, hidden snackbar, no requests |
| `Productos.Page.Load` | src/pages/Productos.jsx:54-65 | one list request; success replaces the list by the mapped rows; failure keeps the list and shows "Error cargando productos" |
| `Productos.Page.OpenCreate` | src/pages/Productos.jsx:67-78 | the draft has no id, empty texts and every price 0; not editing; dialog open |
| `Productos.Page.OpenEdit` | src/pages/Productos.jsx:80-95 | the draft is a field-by-field copy of the row, prices included; editing; dialog open |
| `Productos.Page.Close` | src/pages/Productos.jsx:126-128 | the dialog closes and nothing else changes |
| `Productos.Page.SetCodigo` | src/pages/Productos.jsx:212-216 | typing replaces the code only |
| `Productos.Page.SetNombre` | src/pages/Productos.jsx:218-222 | typing replaces the name only |
| `Productos.Page.SetCaracteristicas` | src/pages/Productos.jsx:224-228 | typing replaces the characteristics only |
| `Productos.Page.SetPrecioCop` | src/pages/Productos.jsx:232-239 | typing replaces the COP price only |
| `Productos.Page.SetPrecioUsd` | src/pages/Productos.jsx:241-248 | typing replaces the USD price only |
| `Productos.Page.SetPrecioEur` | src/pages/Productos.jsx:250-257 | typing replaces the EUR price only |
| `Productos.Page.SetEmpresaNit` | src/pages/Productos.jsx:259-263 | typing replaces the company NIT only |
| `Productos.Page.Submit` | src/pages/Productos.jsx:97-124 | with no validation: update by the draft's id when editing, else create, with the id-free body. Success closes the dialog and reloads; failure shows the error's message |
| `Productos.Page.SubmitChecked` | src/pages/Productos.jsx:97-124 | corrected submit: a draft the validator refuses shows its message, keeps the dialog and issues nothing. An accepted draft gets Submit's whole outcome: the same request, then the reload on success, the same snackbar, dialog and list |
| `Productos.Page.Remove` | src/pages/Productos.jsx:130-141 | declined: nothing changes. Confirmed: one delete by row id; success shows "Producto eliminado" and reloads; failure shows "Error eliminando producto" |
| `Productos.Page.CloseSnack` | src/pages/Productos.jsx:277 | the snackbar hides and keeps its text |
| `Productos.ZeroDraftIsRefused` | src/pages/Productos.jsx:67-75 | the untouched create draft is refused by the validator for its missing fields |
| `Productos.ZeroDraftIsSent` | src/pages/Productos.jsx:97-124 | as written, saving the untouched create draft sends a create request, then a reload |
| `Productos.ZeroDraftIsHeld` | src/pages/Productos.jsx:97-124 | with the check, the same draft issues nothing, keeps the dialog open and shows the required-fields message |
| `Productos.EditAndSaveUnchanged` | src/pages/Productos.jsx:80-117 | editing a row and saving sends an update by the row's id whose body, with the id put back, is the row |
| `Inventario.PdfFileName` | src/pages/Inventario.jsx:72 | the file name is `inventario_`, then the selected NIT, then `.pdf` |
| `Inventario.PdfFileNameInjective` | src/pages/Inventario.jsx:72 | distinct companies download under distinct file names |
| `Inventario.Page.constructor` | src/pages/Inventario.jsx:26-30 | no companies, no selection, no rows, e-mail dialog closed with an empty address, nothing shown or issued |
| `Inventario.Page.ExportShown` | src/pages/Inventario.jsx:136 | the export buttons show iff the guard with `[ADMIN]` allows and a company is selected |
| `Inventario.Page.LoadEmpresas` | src/pages/Inventario.jsx:39-46 | one list request; success stores the companies as sent; failure keeps them and alerts "Error cargando empresas" |
| `Inventario.Page.SelectEmpresa` | src/pages/Inventario.jsx:48-63 | the selection is recorded even when empty. Empty: rows cleared, no request. Otherwise one fetch; success shows its rows unchanged; failure keeps the rows and alerts "Error cargando inventario" |
| `Inventario.Page.DownloadPdf` | src/pages/Inventario.jsx:65-79 | one document request for the selection; success downloads under the file name and alerts "PDF descargado"; failure alerts "No se pudo descargar el PDF" |
| `Inventario.Page.OpenEmailModal` | src/pages/Inventario.jsx:142 | the e-mail dialog opens and nothing else changes |
| `Inventario.Page.CloseEmailModal` | src/pages/Inventario.jsx:162 | the e-mail dialog closes and nothing else changes |
| `Inventario.Page.SetEmailDestino` | src/pages/Inventario.jsx:157 | typing replaces the address only |
| `Inventario.Page.SendByEmail` | src/pages/Inventario.jsx:81-89 | one send request with the address and NIT as they are. Success closes the dialog and alerts "Correo enviado"; failure alerts the error's text and leaves the dialog. The address is kept either way |
| `Inventario.EmptyAddressIsSent` | src/pages/Inventario.jsx:81-83 | an empty address is sent, not refused locally |

## Left out

- HTTP clients (`src/services/api.js`, `inventarioApi.js`, `productosApi.js`): each call is an `Ok(value)` or `Err(message)` parameter. The message already holds the client's `error.message || fallback` choice. Headers, URLs and the `"token"` read are I/O.
- `getProductos` and `editarProducto` are imported by the products page, but `src/services/productosApi.js` does not export them. Both are treated as available operations.
- The role constants module `src/js/const` is not part of this model. `ROLES.ADMIN` is taken to be `"ADMIN"` and the EXTERNO role `"EXTERNO"`, as in the route table.
- Token decoding: `jwtDecode` is a function the provider is given. It yields the `sub` claim, or the message of the error decoding throws. A token without a `sub` claim, which would store an object with no `email`, is not modelled.
- JSON: the stored text is written as `JSON.stringify` writes this object. Reading accepts only that layout: no whitespace, these three keys in this order, no other keys. A `"user"` entry that `JSON.parse` would read as some other value (`"null"`, a number, another object) takes the error path here. A `\u` escape encoding half of a surrogate pair is refused.
- `Auth.AuthProvider.constructor`: mounting with a malformed `"user"` entry throws in the source. That is a precondition here, not a modelled failure state.
- Prices stay as text. In the zero draft, the number 0 is the text `"0"`. The float `Number(...)` conversion of the request body is left out (floating point), so the body carries the price texts.
- `crypto.randomUUID`: the generated ids are a parameter, one per listed record.
- The browser download steps (Blob, object URL, anchor click) are left out. Only the file name of each download is recorded.
- Async interleavings are concurrency and are left out: un-awaited reloads, responses arriving out of order, results arriving after a page is left.
- Rendering is left out: JSX, DataGrid columns, the inventory grid's row-id fallback, Snackbar auto-hide timing, SweetAlert2 styling, `Navbar.jsx`, `Forbbiden.jsx` and the layout markup. The confirmation dialog's answer is a boolean parameter, and alerts are a recorded sequence.
- React Router matching is left out: case-insensitive paths, trailing slashes, `replace` history entries. Paths are compared exactly.
- Records carry only the fields listed in `Catalog`. Other fields the server sends are left out, as is an explicit `id: null`. Because the spread comes after them, such a null would replace the NIT or the generated id.
- Four behaviours one might expect of this console are absent from the code, and the model follows the code:
  - a company or product save does not validate the form first; none of the pages calls a validator (see Findings for products);
  - e-mail dispatch neither refuses an empty address nor clears the address after sending;
  - logout removes only the `"user"` entry, and the `"token"` entry stays;
  - the NIT and phone inputs of the company form accept any text, not only digits.

## Findings

| source | as written | input that shows it | evidently intended | confidence | as-written member | corrected member |
|---|---|---|---|---|---|---|
| src/pages/Productos.jsx:97-124 | `crearEditarProducto` sends the draft without calling `validarProducto` (src/js/utils/commons.js:6-28), which nothing in the pages calls | the untouched create draft: all texts empty, prices 0 | run the validator first; a refused draft shows its message, keeps the dialog open and issues no request | medium — not executed | `Productos.ZeroDraftIsSent` (over `Productos.Page.Submit`) | `Productos.Page.SubmitChecked` |
