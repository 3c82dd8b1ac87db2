# Lujav dashboard: the client-side rules, in Dafny

This project models the small amount of logic in the Lujav freight dashboard
that sits between the hosted backend (auth, storage, the `tarifas` table) and
the markup:

- **Tarifario** (`tarifario.dfy`): the store rows are renamed into `TarifaRow`s;
  the origin filter offers `"Todas"` followed by each origin once, in the order
  it first appears; the table shows every row under `"Todas"` and otherwise the
  order-preserving subsequence of rows of the selected origin. A failed fetch
  leaves the rows as they were, and `loading` ends false on every path.
- **Navbar** (`navbar.dfy`): breadcrumbs from the path (split on `/`, empty
  pieces dropped, cumulative prefix links, the last crumb marked, labels by
  table or by capitalising the first character), and the user name and job
  title fallbacks.
- **Configuracion** (`configuracion.dfy`): profile fields defaulted from
  metadata, the profile save, password-change validation (mismatch first, then
  the 6-character minimum), avatar acceptance (an `image/` type, at most
  2 MiB), the upload file name, the avatar error message, and the notification
  switches.
- **Login** (`login.dfy`): the exact-match error translation table, the
  submission's state changes, the sign-in/sign-up switch and the button caption.
- **Sidebar** (`sidebar.dfy`): the fixed menu, the submenu open-map toggle,
  exact-match active links, and header highlighting.
- **Layout** (`layout.dfy`): the prefix test that hides the menu on
  configuration pages, and the width class that goes with it.
- Helpers: `Wrappers` (`Option`), `Strings` (JavaScript's `split`, `join`,
  `startsWith`, `includes`, `lastIndexOf`, decimal rendering and first-character
  upper-casing, with split/join round trips), `Accounts` (the user record and
  JavaScript's `||` defaulting on metadata strings).

Every remote call is replaced by its outcome, passed in as a parameter: the
`{ data, error }` of the tariff query (or a thrown exception), the user record
`getUser` returns (or none), and the error `updateUser`, `upload`,
`signInWithPassword`, `signUp` or `signInWithOAuth` would report. `Date.now()`
is a natural-number parameter.

The tariff page is read-only: it lists rows and filters them, and has no
form for adding or editing a tariff. Its rows have an optional numeric `id`,
and the store columns are `origen`, `carga_descarga`, `rabon`, `sencillo`,
`sencillo_sobrepeso`, `precio_full` and `full_sobrepeso`. `ToStoreRow` is the
inverse renaming, from the page's field names back to these columns.

One behaviour of the code worth knowing: a row whose origin is literally
`"Todas"` appears in the filter options a second time after the sentinel, and
selecting it shows every row (`Bases` and `FilteredTarifas` state exactly this).

## Model

| member | source | states |
|---|---|---|
| Tarifario.FromStoreRow | src/app/dashboard/tarifario/page.tsx:41-50 | one row is renamed field by field: `id`, `origen`, `rabon`, `sencillo` copied; `carga_descarga`, `sencillo_sobrepeso`, `precio_full`, `full_sobrepeso` become `cargaDescarga`, `sencilloSobrepeso`, `full`, `fullSobrepeso` |
| Tarifario.FormatRows | src/app/dashboard/tarifario/page.tsx:41-50 | one view row per store row, same order and length; `id`, `origen`, `rabon`, `sencillo` copied, `carga_descarga`, `sencillo_sobrepeso`, `precio_full`, `full_sobrepeso` renamed |
| Tarifario.RowMappingRoundTrip | src/app/dashboard/tarifario/page.tsx:41-50 | the row renaming is lossless: mapping to the view shape and back to the store shape is the identity, in both directions |
| Tarifario.BeginFetch | src/app/dashboard/tarifario/page.tsx:28-29 | starting a fetch sets `loading` and touches nothing else |
| Tarifario.ApplyFetch | src/app/dashboard/tarifario/page.tsx:35-57 | a store error, a null `data` or an exception leave the rows unchanged; otherwise the rows become the mapped data; `loading` is false after every outcome; the selection is kept |
| Tarifario.SelectBase | src/app/dashboard/tarifario/page.tsx:87 | choosing a filter value changes only the selection |
| Tarifario.Origins | src/app/dashboard/tarifario/page.tsx:62 | `tarifas.map((t) => t.origen)`: one origin per row, the i-th being the i-th row's origin |
| Tarifario.Distinct | src/app/dashboard/tarifario/page.tsx:62 | the de-duplicated origins contain no repeats and exactly the values of the input |
| Tarifario.DistinctFirstSeenOrder | src/app/dashboard/tarifario/page.tsx:62 | the de-duplicated origins are listed in order of their first occurrence |
| Tarifario.Bases | src/app/dashboard/tarifario/page.tsx:61-64 | the options start with `"Todas"`; after it each origin present in the rows appears exactly once and nothing else; no rows gives exactly `["Todas"]` |
| Tarifario.BasesFirstSeenOrder | src/app/dashboard/tarifario/page.tsx:61-64 | after the sentinel the options follow the first appearance of each origin in the rows |
| Tarifario.ComputeBases | src/app/dashboard/tarifario/page.tsx:61-64 | the insertion-ordered Set computation, row by row, yields exactly those options |
| Tarifario.FilterByOrigin | src/app/dashboard/tarifario/page.tsx:69 | the kept rows are exactly the rows whose origin equals the selection, never more than the input |
| Tarifario.FilterFollowsPositions | src/app/dashboard/tarifario/page.tsx:69 | the k-th kept row is the row at the k-th matching position, so the result is an order-preserving subsequence |
| Tarifario.MatchingPositionsExact | src/app/dashboard/tarifario/page.tsx:69 | the matching positions increase strictly and are exactly the positions whose origin equals the selection |
| Tarifario.FilteredTarifas | src/app/dashboard/tarifario/page.tsx:67-70 | `"Todas"` shows the rows unchanged; any other selection shows only rows of that origin, all of them, and nothing when no row matches |
| Tarifario.FilterIdempotent | src/app/dashboard/tarifario/page.tsx:69 | filtering the filtered rows again by the same origin changes nothing |
| Tarifario.FilteredTarifasIdempotent | src/app/dashboard/tarifario/page.tsx:67-70 | re-applying the page's filter with the same selection changes nothing |
| Tarifario.EveryOfferedBaseSelectsRows | src/app/dashboard/tarifario/page.tsx:61-70 | every origin offered in the filter after the sentinel selects at least one row, including an origin literally named `"Todas"`, which selects them all |
| Tarifario.VisibleRows | src/app/dashboard/tarifario/page.tsx:67-138 | while loading the table lists no rows (the spinner shows); once loading has ended it lists all rows under `"Todas"`, and otherwise exactly the rows of the selected origin |
| Tarifario.InitialShowsSpinnerOnly | src/app/dashboard/tarifario/page.tsx:19-21 | the page mounts loading, with `"Todas"` selected, no rows listed and `"Todas"` the only filter option |
| Tarifario.FailedFirstLoadShowsNothing | src/app/dashboard/tarifario/page.tsx:35-40 | a first load that fails leaves the page not loading, with no rows and only the `"Todas"` option |
| Accounts.MetaOr | src/app/dashboard/configuracion/page.tsx:64-76 | `meta[key] \|\| default` yields the stored text when it is non-empty and the default otherwise |
| Navbar.NonEmpty | src/components/Navbar.tsx:61 | dropping empty pieces keeps exactly the non-empty ones |
| Navbar.Segments | src/components/Navbar.tsx:61 | every segment is non-empty and contains no `/` |
| Navbar.SegmentsConcat | src/components/Navbar.tsx:61 | the segments of `a/b` are those of `a` followed by those of `b` |
| Navbar.SlashesAddNoSegments | src/components/Navbar.tsx:61 | `""` and `"/"` have no segments; leading, trailing and doubled slashes add none |
| Navbar.SegmentsOfSpelledPath | src/components/Navbar.tsx:80-81 | a path spelled as `/` plus clean segments joined by `/` yields those segments back, and `/` alone yields none |
| Navbar.Label | src/components/Navbar.tsx:64-83 | a segment in the label table gets its fixed label; any other gets its first character upper-cased and the rest unchanged |
| Navbar.CrumbPath | src/components/Navbar.tsx:81 | a crumb path starts with `/` and ends with the crumb's own segment |
| Navbar.Breadcrumbs | src/components/Navbar.tsx:80-98 | one crumb per segment; exactly the final crumb is last; a separator precedes every crumb but the first; each crumb's label and path come from its segment |
| Navbar.CrumbPathStep | src/components/Navbar.tsx:81 | each crumb path extends the previous by `/` and its segment, so it is a prefix of the next |
| Navbar.CrumbPathSegments | src/components/Navbar.tsx:81 | the segments of crumb i's path are the first i + 1 segments |
| Navbar.CrumbPathsArePrefixes | src/components/Navbar.tsx:80-82 | for a whole path: the first crumb is `/` plus the first segment, each path is a prefix of the next, each re-reads as the leading segments |
| Accounts.TextOr | src/components/Navbar.tsx:30 | `text \|\| default` for a possibly undefined string: the text when non-empty, the default otherwise |
| Navbar.EmailLocalPart | src/components/Navbar.tsx:29 | the text before the first `@` (all of it when there is none): a prefix of the email without `@` |
| Navbar.DisplayName | src/components/Navbar.tsx:29 | the name is `full_name` when non-empty, else the non-empty email local part, else `"Usuario"` |
| Navbar.LoadBadge | src/components/Navbar.tsx:24-32 | without a user nothing is set; with one, the avatar is the stored `avatar_url` when present, name and job title are never empty (job title defaults to `"Usuario"`), the email defaults to `""` |
| Configuracion.LoadProfile | src/app/dashboard/configuracion/page.tsx:63-77 | each form field is its metadata value when non-empty, else `""`; the email defaults to `""` |
| Configuracion.ProfileMetadata | src/app/dashboard/configuracion/page.tsx:164-177 | the `data` object sent to `updateUser`: exactly the twelve profile keys and never `email`, each holding its form field, so that loading it back (with the email) gives the form again |
| Configuracion.SaveProfile | src/app/dashboard/configuracion/page.tsx:158-189 | saving sends each of the twelve form fields under its metadata key (never the email), so loading what was sent gives the form back; `saving` ends false and the form is unchanged; a failed update shows `Error al guardar los cambios`, a successful one no error |
| Configuracion.ProfileSaveLoadRoundTrip | src/app/dashboard/configuracion/page.tsx:163-178 | loading the metadata that saving sends gives back the same form |
| Configuracion.LoadSettings | src/app/dashboard/configuracion/page.tsx:53-92 | with a user the form and stored preferences are loaded; without one nothing changes; `loading` ends false either way |
| Configuracion.FreshUserLoadsDefaults | src/app/dashboard/configuracion/page.tsx:18-81 | mounting for a user with no metadata leaves every profile field empty except the email, keeps the default preferences (email alerts on, push and marketing off), and ends with nothing loading, saving or uploading |
| Configuracion.CheckPassword | src/app/dashboard/configuracion/page.tsx:193-201 | mismatch exactly when the entries differ; too short exactly when equal and under 6; proceed exactly when equal and at least 6 |
| Configuracion.MismatchReportedFirst | src/app/dashboard/configuracion/page.tsx:193-201 | differing entries are reported as a mismatch even when both are too short |
| Configuracion.SubmitPassword | src/app/dashboard/configuracion/page.tsx:191-219 | a request is sent iff the check passes; a rejection changes no state (in particular not `saving`) and shows the mismatch or too-short text; success clears both fields and shows no error; a failed update keeps them and shows `Error al actualizar la contraseña`; `saving` ends false; the form, preferences, `loading` and `uploadingAvatar` never change |
| Configuracion.SaveNotifications | src/app/dashboard/configuracion/page.tsx:221-238 | saving sends the current preferences and ends with `saving` false; a failed update shows `Error al guardar preferencias`, a successful one no error |
| Configuracion.CheckAvatarFile | src/app/dashboard/configuracion/page.tsx:99-110 | no file does nothing; a type not starting with `image/` is rejected; then a size over 2097152 bytes; exactly 2 MiB is accepted |
| Configuracion.FileExtension | src/app/dashboard/configuracion/page.tsx:118 | the extension is the text after the last `.`, or the whole name without one; it contains no `.` and ends the name |
| Configuracion.AvatarFileName | src/app/dashboard/configuracion/page.tsx:119 | the upload name is the user id, `-`, the timestamp in decimal, `.` and the extension, in that order |
| Configuracion.AvatarFileNameInjective | src/app/dashboard/configuracion/page.tsx:119 | two uploads of the same file by the same user at different timestamps get different names |
| Configuracion.AvatarFileNameKeepsExtension | src/app/dashboard/configuracion/page.tsx:118-120 | the upload name has the same extension as the chosen file |
| Configuracion.AvatarErrorMessage | src/app/dashboard/configuracion/page.tsx:145-152 | the bucket-missing message exactly when the error text contains `Bucket not found`; the generic message otherwise |
| Configuracion.ChangeAvatar | src/app/dashboard/configuracion/page.tsx:98-156 | a rejected file changes nothing and uploads nothing, showing nothing when no file was chosen, the invalid-image text for a non-image and the 2MB text for a file over the limit; an accepted one uploads under the built name when a user exists, sets the avatar URL only when upload and update both succeed, shows the mapped message of whichever step failed (the generic one without a user), and ends not uploading; `loading`, `saving`, the password fields and preferences never change |
| Configuracion.ToggleEmailAlerts | src/app/dashboard/configuracion/page.tsx:507 | negates the e-mail flag and leaves the other two |
| Configuracion.TogglePushNotifications | src/app/dashboard/configuracion/page.tsx:514 | negates the push flag and leaves the other two |
| Configuracion.TogglesInvolutiveAndCommute | src/app/dashboard/configuracion/page.tsx:507-514 | each switch undoes itself and the two commute |
| Login.ErrorMessage | src/app/login.tsx:22-35 | the four known service messages get their fixed Spanish text; any other text is returned unchanged |
| Login.ErrorMessageExactAndStable | src/app/login.tsx:22-35 | a message changes iff it is one of the four; translating a shown message again changes nothing |
| Login.VariantsNotTranslated | src/app/login.tsx:32-33 | any text of the same length as a known message but different from it (a case variant, say) passes through unchanged, since the four known messages have different lengths |
| Login.PaddedNotTranslated | src/app/login.tsx:32-33 | a known message with any leading or trailing text added (whitespace, say) passes through unchanged |
| Login.BeginAuth | src/app/login.tsx:38-40 | submission starts loading and clears the error |
| Login.RequestFor | src/app/login.tsx:43-61 | login mode signs in; sign-up mode signs up and only it sends the full name |
| Login.EndAuth | src/app/login.tsx:67-75 | loading ends false; a failure shows the translated message |
| Login.HandleAuth | src/app/login.tsx:37-76 | the whole submission: the mode picks the call, which carries the form's email and password (and the name only on sign-up); loading ends false; the error is cleared on success and translated on failure; the form fields are kept |
| Login.HandleSocialLogin | src/app/login.tsx:78-91 | only a failure changes state, by showing its translated message |
| Login.ToggleMode | src/app/login.tsx:238 | negates the mode and changes nothing else |
| Login.ToggleModeTwice | src/app/login.tsx:238 | switching twice restores the state |
| Login.SubmitCaption | src/app/login.tsx:230 | `Procesando...` exactly while loading; otherwise `Entrar` in login mode and `Registrarse` in sign-up mode |
| Login.InitialOpensInLoginMode | src/app/login.tsx:14-20 | the form opens in login mode with every field empty, no error and not loading, so the button reads `Entrar` |
| Sidebar.MenuItemsWellFormed | src/components/Sidebar.tsx:38-90 | ten entries, each a plain link without submenu, with distinct titles (the render keys) and distinct links |
| Sidebar.ToggleSubmenu | src/components/Sidebar.tsx:97-102 | the toggled entry becomes the negation of its old value (missing reads as closed); every other key is unchanged |
| Sidebar.ToggleSubmenuTwice | src/components/Sidebar.tsx:97-102 | toggling a title twice restores whether it and every other title are open |
| Sidebar.IsActive | src/components/Sidebar.tsx:109 | a link is active exactly when its href equals the current path |
| Sidebar.IsSubmenuActive | src/components/Sidebar.tsx:110-111 | true iff some submenu item links to the current path, so false for an empty submenu |
| Sidebar.HeaderHighlighted | src/components/Sidebar.tsx:131 | a submenu header is highlighted iff one of its pages is current or it is open |
| Sidebar.ActiveIsNotPrefixMatch | src/components/Sidebar.tsx:109 | a link is not active on a path it is a proper prefix of, nor the reverse: no prefix matching |
| Sidebar.AtMostOneActiveLink | src/components/Sidebar.tsx:109 | no two menu links are active on the same page |
| Layout.IsConfigPage | src/app/dashboard/layout.tsx:13 | a configuration page is a present path starting with `/dashboard/configuracion`; an absent path is not one |
| Layout.Render | src/app/dashboard/layout.tsx:13-23 | the menu is shown iff the page is not a configuration page; `w-full` exactly when hidden, `ml-64` otherwise; top bar and content always |
| Layout.DeeperConfigPathsHideSidebar | src/app/dashboard/layout.tsx:13-17 | any path that starts with the configuration path hides the menu |
| Layout.AbsentPathShowsSidebar | src/app/dashboard/layout.tsx:13-18 | an absent path shows the menu at `ml-64` |
| Layout.ConfigLinkNeverActiveWhenShown | src/app/dashboard/layout.tsx:17 | whenever the menu is shown, its `Configuración` link is not the active one |

## Left out

- Every call to the backend (the `tarifas` query and its ordering by `origen`, `getUser`, `updateUser`, `signInWithPassword`, `signUp`, `signInWithOAuth`, `signOut`, storage `upload`, `getPublicUrl`, `listBuckets`): their outcomes are parameters. The ordering of rows is the store's promise, not this code's.
- React hooks, memoisation and effects, JSX markup, CSS classes other than the layout's width choice, success toasts, `console` logging, router navigation, the avatar file-picker click, the profile tabs, the navbar dropdown and its click-outside handling, and the password visibility switch: user-interface plumbing.
- `Date.now()`: the timestamp is a parameter.
- The error toast of the settings page's initial load (`Error al cargar la información del usuario`): a throwing `getUser` is not distinguished from an absent user, so only the absent-user outcome is modelled. Every other error toast of the settings page is modelled as text: the avatar validation and failure messages, the profile, password and preferences failure messages, and the password rejections.
- The login page's toast titles (`Error de autenticación` and `Error de autenticación social`, as well as the success titles): only the `error` text shown on the page, which is also the toast's description, is modelled.
- The navbar's sign-out toasts (`Sesión cerrada exitosamente`, `Error al cerrar sesión`): signing out is a backend call with no logic of its own here.
- Login.HandleAuth: the browser's form checks are not modelled (the `required` email and password inputs and the `type="email"` format check), so the model accepts field values, an empty email say, that the page would refuse to submit.
- Navbar.Label: upper-cases ASCII letters only, where `toUpperCase` maps every Unicode letter; and the label table is a plain map, so names the JavaScript object inherits (such as `constructor`) are not treated as table entries.
- Configuracion.CheckPassword: counts characters, where JavaScript's `length` counts UTF-16 code units; the two differ for characters outside the Basic Multilingual Plane.
- Accounts.MetaOr: metadata values are modelled as text; a non-string value (a number, say) is not modelled.
- Tarifario.ApplyFetch: rows are typed, so a malformed row that makes the mapping throw is covered only as the generic thrown case.
- A view torn down while a request is outstanding, and two overlapping submissions: the model applies each outcome to the state it is given.
- `src/app/dashboard/page.tsx`, `src/app/dashboard/perfil/page.tsx` and the placeholder pages (`cotizaciones`, `correos`, `flota`, `reportes`, `rutas`): a user fetch, a redirect and static markup with no logic of their own.
