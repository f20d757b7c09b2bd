# MAGERIT risk ledger: a Dafny model

This project models the logic of a MAGERIT risk-assessment web application.
A single signed-in user catalogues **assets** (valued resources scored on five
security dimensions) and **threats** (with a frequency class and the dimensions
and asset types they affect). The user then pairs them into **assessments**.
Each assessment has an impact level and a control-effectiveness percentage,
from which the page derives an *intrinsic* and a *residual* risk.

The model covers three pieces:

- **Risk ledger** (`risk.dfy`, `ledger.dfy`, `charts.dfy`, `report.dfy`):
  - the frequency and impact tables;
  - the risk formula `value × frequency × impact/100` and `intrinsic × (1 − control/100)`;
  - the four severity bands behind the colour, the icon and the pie chart;
  - the checks guarding the asset, threat and assessment forms, with the store treated as an oracle;
  - the checkbox toggles;
  - the vertical layout of the exported PDF report.
- **Request guard** (`guard.dfy`): the middleware's decision for a request
  (pass, redirect to `/login`, or redirect and delete `auth_token`), and the
  route matcher that decides which paths the middleware runs on. JWT
  verification is an oracle `verifies`.
- **Account actions** (`accounts.dfy`): `registerUser`, `loginUser` and
  `logoutUser` as transitions over a user registry (email ↦ id and password
  hash) and the one cookie slot. The database, bcrypt and JWT signing are
  oracles (`Oracles`).

`seqs.dfy` holds the shared helpers: `Option`, the `find` index search, and
removal of every occurrence of a key.

Amounts are `real`. The application computes in IEEE doubles, so the model
states order and bound properties of the formula, not bit-exact results.

Notes on the code's behaviour:

- A failed assessment lookup, blank required fields and store errors all end
  in a transient notice. The code has no distinct validation or reference
  error kinds.
- Logging out only deletes the cookie. No token is invalidated on the server.
- Registration answers "User already exists" for a taken email, so
  registration does reveal whether an email is registered. Only login hides
  it, behind "Invalid credentials".
- The session cookie lives 3600 seconds while the token in it is signed to
  expire after "1d". Both values are recorded as written (`CookieMaxAge`,
  `TokenExpiry`).
- The matcher pattern's `favicon.ico` has an unescaped dot, which matches
  any character. So `/faviconXico` bypasses the middleware (see
  `FaviconWildcardPassesUnchecked`).
- A second login page (`src/app/login/page.tsx`) carries its own, diverging
  copies of the login and registration actions. It writes a `password`
  column instead of `password_hash` and signs one-hour tokens. That drift is
  flagged here and not modelled.
- The asset form's value input accepts any number, and `addAsset` checks
  only code, name and type. A negative value is stored, and an assessment of
  that asset has a residual risk above its intrinsic one (see
  `NegativeValueAccepted`). The page invariant therefore keeps non-negative
  values only as long as no negative value is submitted.

## Model

| member | source | states |
|---|---|---|
| Risk.TablesAreFractions | src/app/page.tsx:124-138 | every frequency multiplier lies in (0, 1], every impact percentage in (0, 100], and no code repeats in either table |
| Risk.FrequencyValue | src/app/page.tsx:124-130 | a tabled frequency code yields that row's multiplier, an unknown code yields 0, and the result always lies in [0, 1] |
| Risk.ImpactPercentage | src/app/page.tsx:253 | a tabled impact code yields that row's percentage, an unknown code yields 0, and the result always lies in [0, 100] |
| Risk.IntrinsicRisk | src/app/page.tsx:285 | for a non-negative value, a multiplier in [0, 1] and an impact in [0, 100], intrinsic risk lies between 0 and the asset value; it is 0 when any factor is 0 |
| Risk.ResidualRisk | src/app/page.tsx:286 | control 0 leaves the risk unchanged, control 100 removes it, and any control in [0, 100] leaves a non-negative risk no larger than the intrinsic one |
| Risk.CalculateRisks | src/app/page.tsx:284-288 | for valid inputs 0 ≤ residual ≤ intrinsic ≤ asset value; residual equals intrinsic at 0% control and is 0 at 100% |
| Risk.TabledRiskBounded | src/app/page.tsx:284-288 | whatever frequency and impact codes are picked (tabled or unknown), a non-negative value and a control in [0, 100] give 0 ≤ residual ≤ intrinsic ≤ value |
| Risk.IntrinsicMonotoneInValue | src/app/page.tsx:285 | intrinsic risk never decreases as the asset value grows |
| Risk.IntrinsicMonotoneInImpact | src/app/page.tsx:285 | intrinsic risk never decreases as the impact percentage grows |
| Risk.ResidualAntitoneInControl | src/app/page.tsx:286 | more effective controls never leave more residual risk |
| Risk.WorkedExample | src/app/page.tsx:284-288 | value 10,000,000 with frequency FA, impact A and control 50% gives intrinsic 532,500 and residual 266,250 |
| Risk.Severity | src/app/page.tsx:290-295 | the band chosen by the threshold chain is the band whose half-open interval contains the risk |
| Risk.BandsDisjoint | src/app/page.tsx:290-295 | no risk figure lies in two bands, so the four intervals partition the reals |
| Risk.SeverityMonotone | src/app/page.tsx:290-295 | a larger risk never falls in a lower band |
| Risk.RiskColor | src/app/page.tsx:290-295 | the colour is that of a band exactly when the risk lies in that band's interval (below 1,000,000 / below 5,000,000 / below 10,000,000 / above) |
| Risk.RiskIcon | src/app/page.tsx:297-302 | the check icon marks exactly the low band, the alert icon exactly the medium and high bands, the cross exactly the critical band |
| Risk.IconFollowsColor | src/app/page.tsx:290-302 | two risks with the same colour always get the same icon: both use the same thresholds |
| Ledger.StoredRecordRoundTrip | src/app/page.tsx:190 | a stored asset or threat is the submitted form plus the assigned id: reading the form back gives the input unchanged |
| Ledger.AddAsset | src/app/page.tsx:186-209 | the store is called exactly when code, name and type are non-empty, with the form as entered; on a stored reply the list grows by exactly that record with the returned id and the form resets; otherwise the page is unchanged and an error notice is shown: the store's message, or "Error al añadir activo" when it is empty |
| Ledger.AddThreat | src/app/page.tsx:216-237 | as for assets, with group and frequency also required and "Error al añadir amenaza" as the fallback message |
| Ledger.AssetIndex | src/app/page.tsx:250 | the asset lookup finds the first asset whose code is the selected one, and fails exactly when none carries it |
| Ledger.ThreatIndex | src/app/page.tsx:251 | the threat lookup finds the first threat whose code is the selected one, and fails exactly when none carries it |
| Ledger.AddAssessment | src/app/page.tsx:249-282 | the store is called exactly when both codes resolve and an impact is chosen; the record sent carries the resolved asset and threat ids, the impact's percentage, the slider value and the computed risks; success appends it with the store's id and resets the picker, anything else leaves the page unchanged; a store failure shows its message, or "Error al añadir evaluación" when it is empty |
| Ledger.SelectFrequency | src/app/page.tsx:647-653 | choosing a frequency code stores the code and the table's multiplier for it (0 for an unknown code), touching no other field |
| Ledger.ToggleKey | src/app/page.tsx:692-696 | checking appends the key after the unchanged list; unchecking leaves no occurrence of the key, keeps every other key with its count and in its original order (a subsequence of the old list), and leaves a list without the key alone |
| Ledger.ToggleRoundTrip | src/app/page.tsx:692-696 | checking a key that was absent and then unchecking it restores the list exactly, order included |
| Ledger.ToggleDimension | src/app/page.tsx:692-696 | after the change the dimension is present iff it was checked; no other field of the form changes |
| Ledger.ToggleAssetType | src/app/page.tsx:735-739 | after the change the asset type is present iff it was checked; no other field of the form changes |
| Ledger.AddAssetPreservesWellFormed | src/app/page.tsx:186-209 | adding an asset keeps the page well formed exactly when it does not store a negative value: references stay resolvable and the other bounds stay intact |
| Ledger.NegativeValueAccepted | src/app/page.tsx:186-209 | a complete form with value −1000 is stored and leaves the page not well formed; such a value gives residual −500 above intrinsic −1000 |
| Ledger.AddThreatPreservesWellFormed | src/app/page.tsx:216-237 | adding a threat keeps every assessment's references resolvable and all page bounds intact |
| Ledger.SentAssessmentSound | src/app/page.tsx:249-268 | on a well-formed page the assessment sent to the store refers to an asset and a threat on the page and has 0 ≤ residual ≤ intrinsic |
| Ledger.AddAssessmentPreservesWellFormed | src/app/page.tsx:249-282 | adding an assessment keeps every assessment resolvable with ordered risks |
| Ledger.SelectFrequencyPreservesWellFormed | src/app/page.tsx:647-653 | choosing a frequency keeps the form's multiplier a fraction, so the page stays well formed |
| Charts.SliceMatchesBand | src/app/page.tsx:973-984 | each pie slice's filter holds exactly when the residual risk lies in the matching colour band |
| Charts.SliceCount | src/app/page.tsx:973-984 | each slice counts exactly the assessments whose residual risk has that slice's severity |
| Charts.SlicesCoverAll | src/app/page.tsx:973-984 | the four slice counts add up to the number of assessments |
| Charts.PieData | src/app/page.tsx:973-984 | four slices named Bajo, Medio, Alto, Crítico, each counting its severity band, summing to the number of assessments |
| Report.Advance | src/app/page.tsx:326-331 | after an entry the offset is at most 250; a page is added exactly when offset + 80 exceeds 250, and the offset then restarts at 20; otherwise it moves down by 80 |
| Report.AdvanceFromStart | src/app/page.tsx:313-331 | from the k-th entry's offset the step reaches the (k+1)-th entry's offset and adds a page exactly after every third entry |
| Report.Layout | src/app/page.tsx:313-332 | the entries start at 40, 120, 200, then 20, 100, 180 on every later page; every offset lies in [20, 250]; each entry's last line stays on an A4 page; pages added = entries / 3 |
| Guard.EmptyCookieIsNoCookie | src/middleware.ts:9-26 | an empty `auth_token` cookie gets the same decision as no cookie at all: on a guarded path, a redirect to `/login` that deletes nothing |
| Guard.Middleware | src/middleware.ts:8-43 | excluded paths pass; otherwise no token redirects to `/login`, a verifying token passes, and a failing token redirects and deletes the cookie |
| Guard.MiddlewareOutcomes | src/middleware.ts:8-43 | each of the three outcomes is characterised by an iff: pass ⇔ excluded or verified; redirect+delete ⇔ not excluded with a failing token; plain redirect ⇔ not excluded with no token; redirects always go to `/login` |
| Guard.ExcludedIgnoresToken | src/middleware.ts:15-22 | on an excluded path the outcome is pass for any cookies and any verifier |
| Guard.RawPrefixExamples | src/middleware.ts:15-22 | the exclusions are raw prefix tests: `/login-x`, `/apiary`, `/_nextfoo` and the dotted `/report.pdf` pass, while `/` and `/dashboard` are guarded |
| Guard.Handle | src/middleware.ts:46-49 | a path the matcher selects gets the middleware's decision and one it leaves out passes; any redirect goes to `/login` and is for a non-excluded path; the cookie is deleted only for a present token that fails to verify |
| Guard.MatcherSkipsOnlyExcludedPaths | src/middleware.ts:46-49 | every path the matcher leaves out is one the middleware excludes anyway, except `/favicon?ico` look-alikes whose wildcard character is not a dot |
| Guard.FaviconWildcardPassesUnchecked | src/middleware.ts:46-49 | an unauthenticated request for `/faviconXico` is served although the middleware alone would redirect it |
| Accounts.Login | src/app/actions/userActions.ts:8-56 | login succeeds iff the lookup works, the email is registered, the password matches its hash and signing works; it never changes the registry; failures leave the state untouched; an unknown email or a wrong password gives "Invalid credentials", while a failed lookup or a failed signing gives the generic error; success sets the `auth_token` cookie (maxAge 3600) holding the token signed for that user with expiry "1d" and the current issue time |
| Accounts.Register | src/app/actions/userActions.ts:58-122 | without accepted terms it fails first and changes nothing; a registered email fails with "User already exists" and changes nothing; a failed lookup, or a failed insert of a new email, gives the generic error and changes nothing; once the insert succeeds the new email is registered with the next id and its hash, whatever happens next, so a missing secret or a signing failure leaves the user registered without a session and answers with the generic error; the cookie changes only on success |
| Accounts.Logout | src/app/actions/userActions.ts:125-135 | logout always reports success, leaves no cookie and does not touch the registry |
| Accounts.ActionsPreserveWellFormed | src/app/actions/userActions.ts:8-135 | register, login and logout keep ids below the next id and distinct per email; registration never alters an existing user |
| Accounts.SecondRegistrationRejected | src/app/actions/userActions.ts:73-77 | once an email is registered, registering it again fails with "User already exists" and changes nothing |
| Accounts.RegisteredUserCanLogIn | src/app/actions/userActions.ts:79-84 | a user inserted by registration can log in with the same password exactly when signing works, given the hash accepts its own password |
| Accounts.LoginHidesUnknownEmails | src/app/actions/userActions.ts:15-51 | an unknown email and a wrong password produce the same result and the same state |
| Accounts.LoggedOutIsRedirected | src/app/actions/userActions.ts:125-135 | after logout every guarded path is redirected to `/login` with nothing to delete |
| Accounts.LoggedInIsAdmitted | src/app/actions/userActions.ts:27-39 | after a successful login a guarded request carrying the new cookie passes exactly when the token is non-empty and verifies, and is otherwise redirected |
| Accounts.LogoutIdempotent | src/app/actions/userActions.ts:125-135 | logging out twice gives the same state and reply as logging out once |

## Left out

- Risk.IntrinsicRisk: computed over exact reals. The page uses IEEE doubles, so the rounding of each product is not modelled. The same holds for ResidualRisk and CalculateRisks.
- React state handling, JSX rendering, tabs and tooltips are not modelled. Editing a form field is a plain record update and has no member.
- Notifications are not modelled: their list, their `Date.now()` ids and the 5-second `setTimeout` removal. Each submission returns the notice it would show.
- The `Date.now()` provisional id and the `date-fns` date of a new assessment are not computed. They are the parameters `provisional` and `today`.
- `Intl.NumberFormat` currency formatting, the recharts bar chart, and every jsPDF drawing call are left out. Only the report's y-offsets are kept.
- The persistence calls of `src/app/actions/fetch.ts` are not part of this model. Each insert is an oracle that answers with an id or an error. Turning the numbers into strings for the database is not modelled.
- Loading the three lists on page load is not modelled. The code casts the database rows to the page's types unchanged. Only the two `affected_*` threat columns are renamed, so loaded assessments carry `asset_id`, `residual_risk` and so on, and loaded threats carry `frequency_value`. On such records `residualRisk`, `assetId` and `frequencyValue` are undefined, and risks computed from them are NaN.
- Charts.SlicesCoverAll: holds for real-valued residual risks only. An undefined or NaN risk, as on a reloaded assessment, fails all four slice filters and is counted in none (and `getRiskColor` paints it red).
- Ledger.WellFormed: describes records built on the page. Reloaded assessments have an undefined `assetId` and do not resolve, and undefined or NaN amounts lie outside the model's real numbers.
- `src/app/login/page.tsx` is not part of this model. Its diverging copies of the actions are described above.
- `src/app/actions/auth.ts` is not part of this model. It only clears the cookie, which `Accounts.Logout` already covers.
- Accounts.Login: any database failure is collapsed into one `lookupFails` flag. A bcrypt `compare` that throws is folded into `passwordMatches`.
- Accounts.Register: the id that the database's `INSERT … RETURNING id` assigns is modelled as the counter `nextId` in the state, whereas the ledger takes ids from the store's reply. The model thus assumes the database hands out fresh, increasing ids.
- Accounts.Register: database failures are collapsed into `lookupFails` and `insertFails`. A missing `DATABASE_URL` throws before the `try` and is left out.
- bcrypt hashing and comparison, HS256 signing and verification, the clock read behind the token's `iat` claim, and the `JWT_SECRET`/`NODE_ENV` reads are all oracles. The clock is one reading `now` per action, so two actions given the same oracles sign the same claims. The one exception is the explicit missing-secret check in registration, which is modelled.
- Guard.Handle: the matcher is read as the anchored JavaScript pattern `^/((?!…).*)$`. The model assumes pathnames contain no line terminators. Next.js's own rewriting of matcher strings (locales, data routes, trailing slashes) is not modelled.
- The checkbox's `"indeterminate"` state is not modelled. It is truthy in JavaScript, and `ToggleKey` takes a plain boolean.
