# WhatsBulk dashboard: a Dafny model of its session, routing and form logic

This project models the client-side logic of the WhatsBulk admin dashboard,
a React single-page application. It does not model the rendering. The
parts modelled are:

- **Route gate.** `ProtectedRoute` decides, from the session's `loading`
  flag, the signed-in `user` and the requested pathname, whether to wait,
  redirect (to `/login`, `/onboarding` or `/dashboard`) or admit.
- **Route table.** `App` decides which paths are public, which are gated,
  and where `/` and unmatched paths go.
- **Session store.** `AuthContext` holds the user, the loading flag, the
  persisted `token` slot and the API client's default `Authorization`
  header.
- **Onboarding wizard.** Four steps, with a connection sub-machine that
  guards step 3 → 4.
- **List editors.** Campaigns, contacts (including comma-separated tag
  parsing) and templates.
- **Forms and response handlers.** Register, login, settings and the
  dashboard's mock-metrics fallback.
- **Section names.** The sidebar and the page title both take them from
  the pathname.

Pure parts are functions with lemmas. The components that keep React
state are classes, and each handler is a method whose `modifies`/`ensures`
give the whole new state.

An asynchronous handler of a page is split in two methods:

- **The click method** starts the request. It changes nothing when the
  control is disabled or not rendered, and it returns the request it sent.
- **The response method** resumes the handler with a success or failure
  outcome. Its `requires` clause says the request is outstanding.

The session store's `checkAuth` and `logout` are not split: each is one
method that takes the request's outcome as a parameter, so the states
while their requests are pending are not modelled (see "Left out").

Timers are explicit tick methods. `window.confirm` is a boolean parameter
and `Date.now()` ids are a parameter.

`Scenarios` drives several components together through whole user
journeys and states what the router shows at the end.

JavaScript semantics are written out where they matter:

- `split` on a one-character separator always yields at least one piece.
- `trim` removes the ECMAScript whitespace and line-terminator code points.
- `a || b` on a string falls back when `a` is missing or empty
  (`Text.OrDefault`).
- A stored token `""` is falsy, so it counts as no token.
- `data.chartData` counts as present even when it is an empty array.

Three behaviours of the code are easy to misread:

- **Failed token check.** When the check of a stored token fails, the
  token is removed but the `Authorization` header is **not** cleared
  (src/context/AuthContext.tsx:40-43). `AuthContext.AuthProvider.CheckAuth`
  keeps the header.
- **Remembered pathname.** The gate's redirect to `/login` remembers the
  requested pathname (`RouteGate.Decision.ToLogin.from`). The login page
  never reads it: after signing in, it navigates only by
  `onboarding_completed` (src/pages/Login.tsx:29-33).
- **Required fields.** The category on step 2 of the wizard is required
  only through the HTML `required` attribute, which is not modelled, so
  `SubmitBusiness` accepts an empty category.

## Model

| member | source | states |
|---|---|---|
| RouteGate.Decide | src/components/ProtectedRoute.tsx:10-32 | the early-return chain: wait while loading, then login, onboarding and dashboard redirects, else admit; its meaning is stated by `DecisionCases` |
| RouteGate.Target | src/components/ProtectedRoute.tsx:19-29 | the `to` of each redirect: `/login`, `/onboarding`, `/dashboard`; none for waiting or admitting |
| RouteGate.WaitsWhileLoading | src/components/ProtectedRoute.tsx:10-16 | while loading the gate waits, whatever the user or path, and has no redirect target |
| RouteGate.SignedOutGoesToLogin | src/components/ProtectedRoute.tsx:18-20 | loaded and signed out: redirect to the login screen carrying the requested pathname |
| RouteGate.UnfinishedGoesToOnboarding | src/components/ProtectedRoute.tsx:22-25 | a user who has not completed onboarding is sent to onboarding from every other path |
| RouteGate.FinishedLeavesOnboarding | src/components/ProtectedRoute.tsx:27-30 | a user who has completed onboarding is sent from `/onboarding` to `/dashboard` |
| RouteGate.DecisionCases | src/components/ProtectedRoute.tsx:10-32 | each of the five outcomes holds iff its own condition holds; the conditions partition all inputs, and admission means exactly "completed iff not on `/onboarding`" |
| RouteGate.RedirectTargetAdmitted | src/components/ProtectedRoute.tsx:23-30 | the target of an onboarding or dashboard redirect is admitted for the same user, so the gate does not loop |
| App.Match | src/App.tsx:20-55 | exact pathname matching of the route table; `/forgot-password` and every other unnamed path fall to `*` |
| App.IsGated | src/App.tsx:22-44 | a path is gated unless it matches the public `AuthLayout` routes |
| App.Gate | src/components/ProtectedRoute.tsx:10-32 | the screen for one gate decision around the route's content |
| App.Resolve | src/App.tsx:19-56 | one render of the route tree for the shared session; its meaning is stated by the `App` lemmas below |
| App.Settle | src/App.tsx:52-53 | following up to a given number of redirects, as `Navigate ... replace` does |
| App.AuthPagesArePublic | src/App.tsx:22-26 | `/login` and `/register` are not gated and render for every session, even a loading one |
| App.OnboardingIsStandalone | src/App.tsx:29-36 | `/onboarding` has its own gate, outside the main layout |
| App.DashboardPathsAreGated | src/App.tsx:39-50 | the five dashboard paths are gated children of the main layout; `/dashboard`, `/campaigns`, `/contacts`, `/templates` and `/settings` show the dashboard, campaigns, contacts, templates and settings views |
| App.UnknownPathsRedirectBehindGate | src/App.tsx:39-54 | every other path (the route at line 25 is commented out), `/` and `/forgot-password` included, reaches the dashboard redirect only through the gate; signed out, it goes to `/login` with the path remembered |
| App.ForgotPasswordNeedsLogin | src/App.tsx:25-53 | a signed-out visitor on `/forgot-password` ends on the login page |
| App.SettlesAfterOneRedirect | src/App.tsx:19-56 | once the session has loaded, every path renders a page after at most one redirect |
| App.GatedPathsWaitWhileLoading | src/App.tsx:29-44 | every gated path shows the spinner while the shared session is loading |
| AuthContext.BearerHeader | src/context/AuthContext.tsx:36 | the header value `Bearer <token>` |
| AuthContext.HasToken | src/context/AuthContext.tsx:30-31 | a stored token is truthy: present and not `''` |
| AuthContext.AuthProvider.State | src/context/AuthContext.tsx:25-26 | the store's user, loading flag, token slot and header as one value |
| AuthContext.AuthProvider.constructor | src/context/AuthContext.tsx:25-26 | the store starts with no user and `loading` true |
| AuthContext.AuthProvider.CheckAuth | src/context/AuthContext.tsx:29-47 | no token: only `loading` ends false. With a token: the header becomes `Bearer <token>`; a profile becomes the user; a failure removes the token and the user but keeps the header; `loading` ends false |
| AuthContext.AuthProvider.Login | src/context/AuthContext.tsx:52-56 | stores the token, installs `Bearer <token>`, sets the user, leaves `loading` alone |
| AuthContext.AuthProvider.Logout | src/context/AuthContext.tsx:58-67 | whether or not the backend was reached: no token, no header, no user |
| AuthContext.AuthProvider.UpdateUser | src/context/AuthContext.tsx:69-71 | replaces only the user; token, header and `loading` are unchanged |
| AuthContext.LoginTwice | src/context/AuthContext.tsx:52-56 | two identical `login` calls leave the same state as one |
| Onboarding.OnboardingWizard.Valid | src/pages/Onboarding.tsx:18-29 | the step is 1 to 4; `isLoading` is set exactly while a request is awaited, on the step that owns its button; the connection starts on step 3 and is connected on step 4 |
| Onboarding.OnboardingWizard.constructor | src/pages/Onboarding.tsx:18-29 | step 1, not loading, `idle`, business data `{'', 'US', 'UTC'}`; the wizard invariant holds |
| Onboarding.OnboardingWizard.StepOneTimerFires | src/pages/Onboarding.tsx:31-37 | moves 1 → 2, and only from step 1; the step never decreases |
| Onboarding.OnboardingWizard.SelectCategory | src/pages/Onboarding.tsx:136-140 | the step-2 category select updates only the category |
| Onboarding.OnboardingWizard.SelectCountry | src/pages/Onboarding.tsx:151-155 | the step-2 country select updates only the country |
| Onboarding.OnboardingWizard.SubmitBusiness | src/pages/Onboarding.tsx:39-43 | on step 2 and not loading: posts the business data and sets `isLoading`; while loading (button disabled) nothing changes |
| Onboarding.OnboardingWizard.BusinessResponse | src/pages/Onboarding.tsx:43-49 | success moves 2 → 3, failure stays on 2; `isLoading` ends false |
| Onboarding.OnboardingWizard.ConnectWhatsApp | src/pages/Onboarding.tsx:52-55 | on step 3 while idle (the only state with the button): status `connecting` and the 2-second timer armed |
| Onboarding.OnboardingWizard.ConnectTimerFires | src/pages/Onboarding.tsx:55-57 | the armed timer turns `connecting` into `connected` |
| Onboarding.OnboardingWizard.ContinueToFinish | src/pages/Onboarding.tsx:215-217 | 3 → 4 exactly when connected; otherwise the step stays; never decreases |
| Onboarding.OnboardingWizard.FinishOnboarding | src/pages/Onboarding.tsx:60-64 | on step 4 and not loading: posts the finish, sets `isLoading` and captures the current user; disabled while loading |
| Onboarding.OnboardingWizard.FinishResponse | src/pages/Onboarding.tsx:64-73 | success with a captured user stores it with only `onboarding_completed` set to true, then navigates to `/dashboard`; failure changes neither the step nor the session; `isLoading` ends false |
| CampaignsView.BadgeStyle | src/pages/CampaignsView.tsx:9-25 | the badge classes of each campaign status |
| CampaignsView.BadgeStylesDistinct | src/pages/CampaignsView.tsx:9-25 | every status has a non-empty badge style, distinct per status |
| CampaignsView.FormFor | src/pages/CampaignsView.tsx:74-79 | name and status copied; a missing message reads `''`; a missing or empty image reads `null`; a present image is never empty |
| CampaignsView.Patched | src/pages/CampaignsView.tsx:95-101 | `{...c, name, message, image, status}` from the edit form |
| CampaignsView.PatchKeepsIdentity | src/pages/CampaignsView.tsx:95-101 | a patch replaces exactly name, message, image and status; id, sent, total and date are kept |
| CampaignsView.WithoutId | src/pages/CampaignsView.tsx:85 | the result holds exactly the campaigns of the list whose id differs, and is no longer |
| CampaignsView.WithoutIdAppend | src/pages/CampaignsView.tsx:85 | filtering distributes over concatenation, so the kept campaigns keep their order |
| CampaignsView.WithoutAbsentId | src/pages/CampaignsView.tsx:85 | deleting an id that is absent leaves the list as it was |
| CampaignsView.WithoutIdIdempotent | src/pages/CampaignsView.tsx:85 | deleting twice is deleting once |
| CampaignsView.UpdateById | src/pages/CampaignsView.tsx:93-103 | same length; each entry with the id is patched, every other entry is untouched |
| CampaignsView.UpdateKeepsIdsAndIsIdempotent | src/pages/CampaignsView.tsx:93-103 | an update keeps every id at its position and applying it twice equals applying it once |
| CampaignsView.CampaignsPage.constructor | src/pages/CampaignsView.tsx:41-55 | the three mock campaigns, the edit modal closed, no campaign being edited, the form `{'', '', null, 'Draft'}` |
| CampaignsView.CampaignsPage.EditClick | src/pages/CampaignsView.tsx:72-81 | remembers the campaign, fills the form from it, opens the modal |
| CampaignsView.CampaignsPage.Delete | src/pages/CampaignsView.tsx:83-87 | confirmed: the list without that id; not confirmed: unchanged |
| CampaignsView.CampaignsPage.CloseEditModal | src/pages/CampaignsView.tsx:254-256 | 'Cancel' (line 331), the close button and the backdrop close the edit modal; the campaign being edited, the form and the list are kept |
| CampaignsView.CampaignsPage.Update | src/pages/CampaignsView.tsx:89-106 | with the modal closed (the form is not rendered) or no campaign being edited nothing changes; otherwise update by id, close the modal, clear the campaign being edited |
| ContactsView.CleanTags | src/pages/ContactsView.tsx:27 | `.map(t => t.trim()).filter(Boolean)`; its meaning is stated by the lemmas below |
| ContactsView.CleanTagsSound | src/pages/ContactsView.tsx:27 | every cleaned tag is the non-empty trim of some piece |
| ContactsView.CleanTagsComplete | src/pages/ContactsView.tsx:27 | every piece with a non-empty trim is kept, trimmed |
| ContactsView.CleanTagsAppend | src/pages/ContactsView.tsx:27 | cleaning distributes over concatenation of the pieces, so the tags keep the pieces' order and repetitions |
| ContactsView.CleanTagsOfPiece | src/pages/ContactsView.tsx:27 | one piece gives its trim, or nothing when that is empty |
| ContactsView.ParseTags | src/pages/ContactsView.tsx:27 | `formData.tags.split(',').map(t => t.trim()).filter(Boolean)` |
| ContactsView.ParsedTagsAreClean | src/pages/ContactsView.tsx:27 | no parsed tag is empty, has whitespace at an end or holds a comma; every non-blank comma-separated piece is kept |
| ContactsView.CleanTagsOfCleanTags | src/pages/ContactsView.tsx:27 | cleaning tags that are already non-empty and trimmed changes nothing |
| ContactsView.ParseJoinedTags | src/pages/ContactsView.tsx:27 | round trip: clean comma-free tags joined with `,` parse back to the same list |
| ContactsView.SplitOfExample | src/pages/ContactsView.tsx:27 | `"b, a, b"` splits into `"b"`, `" a"`, `" b"` |
| ContactsView.TrimOfExamplePieces | src/pages/ContactsView.tsx:27 | those pieces trim to `"b"`, `"a"`, `"b"` |
| ContactsView.CleanTagsOfExample | src/pages/ContactsView.tsx:27 | cleaning those pieces keeps all three, in order |
| ContactsView.TagsKeepOrderAndRepeats | src/pages/ContactsView.tsx:27 | `"b, a, b"` gives `["b", "a", "b"]`: neither sorted nor de-duplicated |
| ContactsView.ContactsPage.constructor | src/pages/ContactsView.tsx:15-17 | the four mock contacts, the modal closed, the empty form |
| ContactsView.ContactsPage.OpenModal | src/pages/ContactsView.tsx:47-48 | 'Add Contact' opens the modal; the list and the form are kept |
| ContactsView.ContactsPage.CloseModal | src/pages/ContactsView.tsx:98-100 | 'Cancel' (line 153), the close button and the backdrop close the modal; the list and the form are kept |
| ContactsView.ContactsPage.Save | src/pages/ContactsView.tsx:19-34 | modal closed (the form is not rendered), empty name or empty phone: nothing changes; otherwise exactly one valid contact with the entered name, phone and parsed tags is prepended to the unchanged list, the form is reset and the modal closed |
| TemplatesView.FormOf | src/pages/TemplatesView.tsx:56-61 | the form filled from a template's name, category, language and body |
| TemplatesView.ModalTitle | src/pages/TemplatesView.tsx:154 | `editingId ? "View ..." : "Create ..."` |
| TemplatesView.ModalTitleFollowsEditingId | src/pages/TemplatesView.tsx:154 | the modal reads "View" for a template with a non-empty id and "Create" otherwise; the edit form keeps the template's four fields |
| TemplatesView.TemplatesPage.constructor | src/pages/TemplatesView.tsx:9-19 | no templates, loading, not syncing, modal closed, blank form |
| TemplatesView.TemplatesPage.FetchResponse | src/pages/TemplatesView.tsx:25-34 | success replaces the list, failure keeps it; `loading` ends false |
| TemplatesView.TemplatesPage.SyncClick | src/pages/TemplatesView.tsx:36-37 | starts a sync only when not loading and not already syncing (the buttons are disabled while syncing) |
| TemplatesView.TemplatesPage.SyncResponse | src/pages/TemplatesView.tsx:38-45 | success sets the list to `data.data`, failure keeps it; `syncing` ends false |
| TemplatesView.TemplatesPage.OpenCreate | src/pages/TemplatesView.tsx:48-52 | no id being edited, the form `{'', 'Marketing', 'en_US', ''}`, the modal open |
| TemplatesView.TemplatesPage.OpenEdit | src/pages/TemplatesView.tsx:54-63 | the template's id is being edited, its four fields fill the form, the modal opens |
| TemplatesView.TemplatesPage.Save | src/pages/TemplatesView.tsx:65-71 | only the modal closes; the list is unchanged |
| Register.IsCheckbox | src/pages/Register.tsx:25 | only `accept_terms` is a checkbox |
| Register.Get | src/pages/Register.tsx:8-15 | the value each named field holds |
| Register.Changed | src/pages/Register.tsx:21-27 | `{...prev, [name]: type === 'checkbox' ? checked : value}` |
| Register.ChangeTouchesOnlyNamedField | src/pages/Register.tsx:21-27 | the named field takes `checked` for the checkbox and `value` otherwise; every other field is unchanged |
| Register.Validate | src/pages/Register.tsx:33-41 | the password check, then the terms check, each with its message |
| Register.ValidationOrder | src/pages/Register.tsx:33-41 | the form passes iff the passwords agree and the terms are accepted; a mismatch is reported whatever the terms say |
| Register.Payload | src/pages/Register.tsx:48-54 | the request body built from the form |
| Register.PayloadMapsFields | src/pages/Register.tsx:48-54 | `name` is `full_name` and `password_confirmation` is `confirm_password`; a validated request carries matching passwords |
| Register.RegisterPage.constructor | src/pages/Register.tsx:8-18 | the empty form with the terms unchecked, no error, not loading, the shared session store |
| Register.RegisterPage.HandleChange | src/pages/Register.tsx:21-27 | the form becomes the changed form; error and loading untouched |
| Register.RegisterPage.Submit | src/pages/Register.tsx:29-43 | clears the error, stops with the first failed check's message and no request, else sets `isLoading` and sends the mapped request; blocked while loading |
| Register.RegisterPage.Respond | src/pages/Register.tsx:56-64 | success logs in with the token and user and navigates to `/onboarding`; failure shows the backend message or the fallback; `isLoading` ends false |
| Login.PostLoginTarget | src/pages/Login.tsx:29-33 | `/onboarding` or `/dashboard` by `onboarding_completed` |
| Login.PostLoginTargetIsAdmitted | src/pages/Login.tsx:29-33 | the target is `/onboarding` iff onboarding is not completed, `/dashboard` otherwise, and the gate admits the user there |
| Login.LoginPage.constructor | src/pages/Login.tsx:8-12 | empty email and password, no error, not loading, the shared session store |
| Login.LoginPage.SetEmail | src/pages/Login.tsx:64 | the email input sets only the email |
| Login.LoginPage.SetPassword | src/pages/Login.tsx:82 | the password input sets only the password |
| Login.LoginPage.Submit | src/pages/Login.tsx:15-18 | clears the error and sets `isLoading` before sending the entered credentials; blocked while loading |
| Login.LoginPage.Respond | src/pages/Login.tsx:24-38 | success calls `login` with the response token and user, then navigates by `onboarding_completed`; failure shows the backend message or 'Invalid credentials. Please try again.'; `isLoading` ends false |
| SettingsView.FetchedStatus | src/pages/SettingsView.tsx:20-36 | the status label after the mount check |
| SettingsView.FetchedStatusCases | src/pages/SettingsView.tsx:20-36 | 'Configured' iff the backend says so, 'Error checking status' iff the request failed, 'Not Configured' otherwise; never 'Checking...' |
| SettingsView.TestNotice | src/pages/SettingsView.tsx:56-59 | the banner after a test |
| SettingsView.TestNoticeCases | src/pages/SettingsView.tsx:56-59 | success banner iff the test passed, with the text 'Connection successful!'; a failure shows the backend message when it is present and non-empty, and 'Connection failed' when it is missing or empty; never blank |
| SettingsView.SettingsPage.Valid | src/pages/SettingsView.tsx:38-62 | `loading` is set exactly while a save or a test is awaited |
| SettingsView.SettingsPage.constructor | src/pages/SettingsView.tsx:7-14 | status 'Checking...', not loading, no message, empty configuration |
| SettingsView.SettingsPage.EditConfig | src/pages/SettingsView.tsx:98-122 | the three inputs replace the configuration; status, loading, message and the pending request are kept |
| SettingsView.SettingsPage.FetchStatusResponse | src/pages/SettingsView.tsx:20-36 | the status label is set; 'Configured' copies `phone_id` and `waba_id` and keeps `access_token` |
| SettingsView.SettingsPage.SaveClick | src/pages/SettingsView.tsx:38-42 | when not loading: sets loading, clears the message, posts the configuration |
| SettingsView.SettingsPage.SaveResponse | src/pages/SettingsView.tsx:42-49 | success: 'Settings saved successfully' and status 'Configured'; failure: 'Failed to save settings' with the status unchanged; loading ends false |
| SettingsView.SettingsPage.TestClick | src/pages/SettingsView.tsx:52-56 | when not loading: sets loading, clears the message, posts the test |
| SettingsView.SettingsPage.TestResponse | src/pages/SettingsView.tsx:56-62 | the banner is set from the outcome; the status never changes; loading ends false |
| DashboardView.Metric | src/pages/DashboardView.tsx:77-80 | the metric each stat card reads |
| DashboardView.Fallback | src/pages/DashboardView.tsx:77-80 | "0" for Total Sent, "0%" for the rates |
| DashboardView.StatValue | src/pages/DashboardView.tsx:77-80 | `metrics?.<field>`, with the JavaScript `or` fallback to the card's default |
| DashboardView.StatValueFallsBack | src/pages/DashboardView.tsx:77-80 | a card shows its metric when present and non-empty, else "0" (total) or "0%" (rates); never blank |
| DashboardView.MockStatValues | src/pages/DashboardView.tsx:52-57 | after a failure the cards show the mock figures |
| DashboardView.DashboardPage.constructor | src/pages/DashboardView.tsx:38-40 | no metrics, the seven-day initial chart, loading |
| DashboardView.DashboardPage.FetchResponse | src/pages/DashboardView.tsx:43-61 | success takes the response's metrics and its chart whenever present; failure takes the mock metrics and keeps the chart; loading ends false |
| Paths.SecondPiece | src/components/Sidebar.tsx:9 | `pathname.split('/')[1]`, undefined when there is no `/` |
| Paths.SegmentOr | src/components/Sidebar.tsx:9 | `pathname.split('/')[1]`, with the JavaScript `or` fallback |
| Paths.SecondPieceIsSegment | src/components/Sidebar.tsx:9 | `split('/')[1]` is the text after the first `/` up to the next `/` or the end |
| Paths.NoSlashNoSegment | src/components/Sidebar.tsx:9 | a pathname without `/` has no second piece |
| Paths.SegmentOfAbsolutePath | src/components/Sidebar.tsx:9 | for an absolute path, the first segment, or the fallback when it is empty; nested paths use only the first segment |
| Paths.RootGivesFallback | src/components/Sidebar.tsx:9 | `/` and the empty pathname give the fallback |
| Sidebar.CurrentPath | src/components/Sidebar.tsx:9 | the current section, `'dashboard'` when the first segment is empty |
| Sidebar.IsActive | src/components/Sidebar.tsx:30 | an item is active when its id is the current section |
| Sidebar.LinkTarget | src/components/Sidebar.tsx:34 | an item links to `/<id>` |
| Sidebar.AtMostOneActive | src/components/Sidebar.tsx:11-30 | the menu ids are distinct, so at most one item is active |
| Sidebar.ActiveOnOwnSection | src/components/Sidebar.tsx:9-34 | on the item's own link target, or below it, that item and no other is active |
| Sidebar.DashboardActiveAtRoot | src/components/Sidebar.tsx:9-12 | on `/` the Dashboard item is active |
| Sidebar.NestedPathUsesFirstSegment | src/components/Sidebar.tsx:9 | `/campaigns/x` gives `campaigns` |
| MainLayout.Title | src/layouts/MainLayout.tsx:9 | the first segment of the pathname, or 'Dashboard' |
| MainLayout.TitleIsFirstSegment | src/layouts/MainLayout.tsx:9 | the title is the first segment of the pathname, nested paths included, or 'Dashboard' when empty |
| MainLayout.TitleFallback | src/layouts/MainLayout.tsx:9 | `/` and a pathname without `/` give 'Dashboard' |
| MainLayout.TitleNonEmpty | src/layouts/MainLayout.tsx:9-16 | the title handed to the top bar is never empty |
| Text.Join | src/pages/ContactsView.tsx:27 | `pieces.join(sep)`, the inverse of `split` |
| Text.Split | src/pages/ContactsView.tsx:27 | `split` yields at least one piece, and no piece holds the separator |
| Text.JoinConsFirst | src/pages/ContactsView.tsx:27 | a character put before the first piece comes first in the join |
| Text.SplitWithoutSeparator | src/pages/ContactsView.tsx:27 | a string without the separator splits into itself alone |
| Text.SplitAfterPrefix | src/pages/ContactsView.tsx:27 | a separator-free prefix and a separator become the first piece before the split of the rest |
| Text.JoinSplit | src/pages/ContactsView.tsx:27 | joining the pieces of a split with the separator gives the string back |
| Text.SplitJoin | src/pages/ContactsView.tsx:27 | splitting a join of separator-free pieces gives the pieces back |
| Text.IsWhitespace | src/pages/ContactsView.tsx:27 | the ECMAScript whitespace and line-terminator code points `trim` removes |
| Text.IsTrimmed | src/pages/ContactsView.tsx:27 | neither end of the string is whitespace |
| Text.LeadingSpace | src/pages/ContactsView.tsx:27 | the length of the whitespace prefix, at most the length of the string |
| Text.TrailingSpace | src/pages/ContactsView.tsx:27 | the length of the whitespace suffix, at most the length of the string |
| Text.LeadingSpaceIsMaximal | src/pages/ContactsView.tsx:27 | the counted prefix is all whitespace and the next character is not |
| Text.TrailingSpaceIsMaximal | src/pages/ContactsView.tsx:27 | the counted suffix is all whitespace and the character before it is not |
| Text.TrimStart | src/pages/ContactsView.tsx:27 | `trimStart`: the string after its whitespace prefix |
| Text.TrimEnd | src/pages/ContactsView.tsx:27 | `trimEnd`: the string before its whitespace suffix |
| Text.Trim | src/pages/ContactsView.tsx:27 | `s.trim()`: `trimStart` then `trimEnd` |
| Text.TrimStartRemovesLeadingSpace | src/pages/ContactsView.tsx:27 | a suffix of the input that does not start with whitespace; everything removed is whitespace |
| Text.TrimEndRemovesTrailingSpace | src/pages/ContactsView.tsx:27 | a prefix of the input that does not end with whitespace; everything removed is whitespace |
| Text.TrimIsTrimmedSlice | src/pages/ContactsView.tsx:27 | `trim` yields a trimmed contiguous slice of the input |
| Text.TrimKeepsCharacters | src/pages/ContactsView.tsx:27 | every character of the trim occurs in the input |
| Text.TrimOfTrimmed | src/pages/ContactsView.tsx:27 | a string with no whitespace at either end is its own trim |
| Text.TrimIdempotent | src/pages/ContactsView.tsx:27 | trimming twice is trimming once |
| Text.OrDefault | src/pages/Register.tsx:61 | JavaScript `or` on a possibly missing string: the value unless it is missing or empty, else the fallback |
| Text.OrDefaultCases | src/pages/Register.tsx:61 | the string fallback keeps a non-empty value, falls back on a missing or empty one, and is non-empty when the fallback is |
| Scenarios.SignInLandsOnAdmittedPage | src/pages/Login.tsx:24-33 | after signing in, the page navigated to renders at once: the dashboard in the layout, or the wizard |
| Scenarios.RegisterLandsOnOnboarding | src/pages/Register.tsx:56-58 | a valid registration of a new account ends on the onboarding wizard |
| Scenarios.OnboardingUnlocksDashboard | src/pages/Onboarding.tsx:60-74 | walking the wizard to the end marks the session's user completed and changes nothing else about it; the dashboard renders and `/onboarding` redirects to it |
| Scenarios.LogoutLocksGatedPaths | src/context/AuthContext.tsx:58-67 | after logout every gated path redirects to login, remembering the path |
| Scenarios.NoTokenLocksDashboard | src/context/AuthContext.tsx:30-34 | with no stored token, `/dashboard` redirects to login after the mount check |
| Scenarios.LoginBeforeOnboarding | src/context/AuthContext.tsx:52-56 | right after `login` with a user who is not onboarded, `/dashboard` redirects to onboarding and onboarding renders |
| Scenarios.ConnectBeforeContinue | src/pages/Onboarding.tsx:52-58 | connecting shows `connecting` at once; 'Continue' before the timer stays on step 3 and after it reaches step 4 |

## Left out

- Rendering is not modelled: JSX, Tailwind classes, framer-motion animations, icons, the `Modal`, `TopBar`, `AuthLayout` and `PhonePreview` components, and the `capitalize` styling the top bar applies to the title.
- The HTTP client is not modelled: requests are success or failure outcome parameters. This covers the `services/api` module (not part of this model), the CSRF cookie prefetch of login and register, and the content of a failed response beyond its optional message.
- The client's default `Authorization` header at start-up comes from the `services/api` module, which is not part of this model, so it is a constructor parameter.
- HTML constraint validation (`required`, `type="email"`) is not modelled: handlers receive whatever the form holds.
- Router matching is exact string equality on the pathname. Case-insensitive matching and trailing-slash normalisation are not modelled.
- Time is not modelled. The `setTimeout` callbacks are explicit tick methods, and timer cancellation on unmount is out of scope. The step-1 timer's cleanup is modelled only as the timer firing solely on step 1.
- Concurrency is not modelled: asynchronous handlers interleave only as the click/response method pairs allow.
- Floating-point layout maths is not modelled: the campaign progress width, the stepper width and the dashboard trend percentages.
- `FileReader` image upload and the campaign-creation view are not modelled.
- AuthContext.AuthProvider.CheckAuth: the check is one atomic step. The state while `/user` is pending (the `Bearer` header already installed, `loading` still true) is not modelled. Neither is a `login` made on the public login page during that wait, which the check's failure then undoes by removing the token and the user (src/context/AuthContext.tsx:40-43).
- AuthContext.AuthProvider.Logout: the logout is one atomic step. The state while `/logout` is pending, with the session still intact, is not modelled.
- RouteGate.Decide: the login redirect's `state.from` is the whole router `Location`; the model keeps only its `pathname` and drops `search`, `hash` and `key`.
- `AuthContext.AuthProvider.CheckAuth`: `setUser(data)` accepts whatever `/user` returns; the model accepts only a well-formed `User`.
- `SettingsView.SettingsPage.FetchStatusResponse`: `phone_id` and `waba_id` are modelled as strings, although the backend may omit them.
- `Onboarding.OnboardingWizard.SubmitBusiness`: the timezone has no input, so it stays 'UTC'.
- The single `AuthProvider` around every route is modelled by passing one session to every gate (`App.Resolve`) and by giving the forms and the wizard one shared store object, rather than by React context.
