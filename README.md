# Portfolio site: contact relay, hero typewriter and theme toggle

A Dafny model of the three pieces of behaviour in a personal portfolio site
built with Next.js and React:

- **The contact-mail relay** (`app/api/SendEmail.ts`, module `ContactRelay`
  in `relay.dfy`). This is a stateless HTTP handler. It answers a CORS
  preflight with 200 and refuses every method but POST with 405. It then
  checks that name, email and message are present (400 with a per-field
  `details` record), checks the email against
  `^[^\s@]+@[^\s@]+\.[^\s@]+$` (400 "Invalid email format"), composes the
  notification mail, and hands it to the mail provider. The provider's
  verdict maps to 200 `{success: true}` or to 500 "Error sending email" with
  the provider's error text. The handler is the pure function `Handle`. It
  takes the provider's verdict as an input and returns the response
  together with the mail it hands over, if any. The regular expression is
  given two definitions: a literal reading (`MatchesEmailPattern`) and the
  check the model runs (`IsEmailAddress`). A lemma proves that the two
  accept the same strings.
- **The hero section's typing effect and reveal panel**
  (`components/sections/Hero.tsx` and its older variant
  `components/sections/Hero.jsx`). The typing machine is shared by both
  variants (module `Typewriter`, `typewriter.dfy`). The component state and
  the steps both variants take alike are in module `HeroMachine`
  (`hero_machine.dfy`). Each variant is a class with one method per timer
  firing or handler: `HeroTsx.Hero` in `hero_tsx.dfy` and `HeroJsx.Hero` in
  `hero_jsx.dfy`. Each method is specified by a function on the component
  state, and lemmas prove the invariant those functions keep.
- **The theme toggle** (`components/layout/Header.tsx`, module
  `SiteHeader` in `header.dfy`). A "light" theme becomes "dark", and any
  other theme, whether unset, "system" or "dark", becomes "light". Nothing
  is rendered until the component has mounted.

Timers, audio elements and pointer events become explicit steps and
outcome parameters:

- an interval tick or a timeout firing is one method call;
- whether an `Audio` element could be created, or whether `play()` or
  `pause()` threw, is a boolean argument;
- whether a mouseleave target lies inside the content is a boolean argument.

Facts about the code that the model keeps:

- On a provider failure the relay answers "Error sending email".
- A field counts as present when it is truthy, so a name made only of
  spaces is accepted. The fields are not trimmed.
- The typed text is a prefix of the current role only after that role's
  first tick. The interval's counter starts at 0, and each tick shows the
  first `charIndex` characters *before* incrementing the counter. After a
  role change, the previous role's full text stays on screen until the
  first tick blanks it. `Typewriter.Inv` states exactly this, and
  `PreviousRoleShownUntilFirstTick` and `TwoRoleRun` show it.

## Model

| member | source | states |
|---|---|---|
| `ContactRelay.Handle` | app/api/SendEmail.ts:24-102 | A mail is handed to the provider exactly when the method is POST, all three fields are present and the email passes the check. The status is always one of 200, 400, 405 and 500. A 500 happens only after the mail was handed over and the provider rejected it. |
| `ContactRelay.Truthy` | app/api/SendEmail.ts:47 | A string field is falsy exactly when it is absent or the empty string. |
| `ContactRelay.AllPresent` | app/api/SendEmail.ts:47 | The fields count as present exactly when none of `!name`, `!email`, `!message` holds; then all three are set. |
| `ContactRelay.IsEmailAddress` | app/api/SendEmail.ts:59 | An accepted address has at least five characters and neither starts nor ends with '@'. That it accepts exactly what the regular expression matches is `EmailCheckMatchesPattern`. |
| `ContactRelay.MatchesEmailPattern` | app/api/SendEmail.ts:59 | The literal reading of `^[^\s@]+@[^\s@]+\.[^\s@]+$`: a string it matches has at least five characters and neither starts nor ends with '@'. |
| `ContactRelay.Interpolated` | app/api/SendEmail.ts:73 | A set configuration value renders as itself; an unset one renders as "undefined". |
| `ContactRelay.PreflightAnsweredFirst` | app/api/SendEmail.ts:34-36 | OPTIONS gets 200 with no body and no mail, whatever the fields and the provider. |
| `ContactRelay.OtherMethodsRefused` | app/api/SendEmail.ts:38-40 | Any method other than OPTIONS and POST gets 405 "Method not allowed", with no mail attempted. |
| `ContactRelay.MissingFieldsReported` | app/api/SendEmail.ts:47-56 | A POST with a missing or empty field gets 400 "Missing required fields" and no mail. Each `details` flag is true exactly when that field is missing. The format error is never reported in that case. |
| `ContactRelay.MalformedEmailRejected` | app/api/SendEmail.ts:59-61 | A POST with all fields present and an email the regular expression does not match gets 400 "Invalid email format" with no details and no mail. |
| `ContactRelay.WellFormedPostDelivers` | app/api/SendEmail.ts:72-100 | A POST with all fields present and an email the regular expression matches hands over the composed mail. Delivery gives 200 `success: true`; a rejection gives 500 "Error sending email" with the provider's error text. |
| `ContactRelay.EmailCheckMatchesPattern` | app/api/SendEmail.ts:59 | The check accepts exactly the strings matched by `^[^\s@]+@[^\s@]+\.[^\s@]+$`. Equivalently: no whitespace, exactly one '@' with something before it, and a '.' after it that is neither first nor last in the domain. |
| `ContactRelay.FirstAt` | app/api/SendEmail.ts:59 | Gives the index of the first '@', or the length when there is none. No '@' comes before it. |
| `ContactRelay.EmailAccepted` | app/api/SendEmail.ts:59 | "a@b.c" and "ann@example.com" pass the check. |
| `ContactRelay.EmailRefused` | app/api/SendEmail.ts:59 | The check refuses "a@b", "@b.com", "no-at-sign", "a b@c.d", "a@b@c.d" and "a@.b". |
| `ContactRelay.ComposeMail` | app/api/SendEmail.ts:72-76 | The mail goes from and to the configured account; an unset account renders as "undefined" in the sender. The subject is "New message from " followed by the name. The text body is exactly three segments, "Name: " + name, "\nEmail: " + email and "\nMessage: " + message, with nothing else. |
| `ContactRelay.ErrorText` | app/api/SendEmail.ts:94-95 | For a thrown `Error` the text is its message; for any other thrown value it is "Unknown error". |
| `ContactRelay.DeliveryResponse` | app/api/SendEmail.ts:88-100 | The status is 200 exactly when the provider delivered, with body `success: true`. Otherwise the status is 500, with "Error sending email" and the error text. |
| `ContactRelay.SubmissionExamples` | app/api/SendEmail.ts:38-100 | A POST with name "Ann", email "ann@example.com" and message "Hi" that the provider delivers gets 200 `success: true`. The same POST with an empty name gets 400 "Missing required fields" with details (true, false, false). The same good POST rejected by the provider with an `Error` "SMTP timeout" gets 500 "Error sending email" with that text. A GET gets 405 "Method not allowed". |
| `Typewriter.NextRole` | components/sections/Hero.tsx:129 | The next role index `(prev + 1) % n` is below n. |
| `Typewriter.PrevRole` | components/sections/Hero.tsx:129 | The index before i in the cycle is below n. |
| `Typewriter.Start` | components/sections/Hero.tsx:113-120 | One run of the typing effect: the counter restarts at 0, the interval is live and no timeout is armed; the role index and the displayed text are kept. |
| `Typewriter.RoleTimeout` | components/sections/Hero.tsx:128-130 | With no timeout armed nothing changes. When it fires, the role index advances to `NextRole` and stays in range, and the effect runs again: counter 0, interval live, timeout cleared, the displayed text left as it was. |
| `Typewriter.Tick` | components/sections/Hero.tsx:120-132 | An interval tick never changes the role index. What a tick shows is stated by `TickShowsNextCharacter`. |
| `Typewriter.Ticks` | components/sections/Hero.tsx:120-132 | Successive interval ticks keep the role index. |
| `Typewriter.Advances` | components/sections/Hero.tsx:128-130 | Successive role changes keep the index below the number of roles. |
| `Typewriter.StartFromIdle` | components/sections/Hero.tsx:110-135 | Before the effect runs and right after it first runs, the typing invariant holds, with empty text on role 0. |
| `Typewriter.TickKeepsInv` | components/sections/Hero.tsx:120-132 | An interval tick keeps the typing invariant. The counter stays at most the role length + 1. Once the role has had a tick, the text is its first `charIndex - 1` characters. The interval and the timeout are never both live. |
| `Typewriter.RoleTimeoutKeepsInv` | components/sections/Hero.tsx:128-141 | The role timeout keeps the typing invariant: the new index is in range and the text on screen is empty or the previous role. That it is exactly the previous role is `PreviousRoleShownUntilFirstTick`. |
| `Typewriter.NextThenPrev` | components/sections/Hero.tsx:129 | Going back one role from the next role gives the role itself. |
| `Typewriter.ShownTextIsPrefix` | components/sections/Hero.tsx:118-123 | Once the current role has had a tick, the shown text is a prefix of that role, `charIndex - 1` characters long, and `charIndex - 1` is at most the role length. |
| `Typewriter.PreviousRoleShownUntilFirstTick` | components/sections/Hero.tsx:128-135 | When the role changes, the index advances, the counter restarts at 0 and the interval restarts. The finished role's text is still shown until the next tick shows the empty string. |
| `Typewriter.TickShowsNextCharacter` | components/sections/Hero.tsx:121-123 | While the counter is at most the role length, a tick adds exactly one character, the next one of the role. The first tick of a role shows the empty string. |
| `Typewriter.TicksType` | components/sections/Hero.tsx:120-123 | k ticks that do not pass the end of the role raise the counter by k and show the role's first `charIndex + k - 1` characters. |
| `Typewriter.StoppedTypingIsFrozen` | components/sections/Hero.tsx:124-125 | Once the interval is cleared, any number of further ticks changes nothing. |
| `Typewriter.RoleTypedInFull` | components/sections/Hero.tsx:113-131 | From a fresh start, role length + 1 ticks show the whole role. The next tick clears the interval, arms the timeout and keeps the whole role shown. The text changes no further after that. |
| `Typewriter.NextRoleWraps` | components/sections/Hero.tsx:129 | The modulo only wraps the last index to 0. |
| `Typewriter.AdvancesCountForward` | components/sections/Hero.tsx:129 | Within one round, k role changes from i land on i + k, or on i + k - n once it passes the last role. |
| `Typewriter.AdvancesCompose` | components/sections/Hero.tsx:129 | a role changes followed by b role changes are a + b role changes. |
| `Typewriter.RolesCycle` | components/sections/Hero.tsx:56-62 | After n role changes the index is back where it started, and never after fewer. After that the sequence repeats. |
| `Typewriter.TwoRoleRun` | components/sections/Hero.tsx:113-135 | Over the roles "ab" and "cd" the text runs "", "a", "ab". The role then changes to "cd" while "ab" is still shown, which is not a prefix of "cd". The next tick blanks it. |
| `HeroMachine.Mount` | components/sections/Hero.tsx:95-97 | Mounting sets `mounted`. The first time, the typing state becomes `Typewriter.Start` of the old one (counter 0, interval live); afterwards it changes nothing. Nothing but `mounted` and the typing changes. |
| `HeroMachine.Tick` | components/sections/Hero.tsx:120-132 | A typing tick changes only the typing state. |
| `HeroMachine.RoleTimeout` | components/sections/Hero.tsx:128-130 | The role timeout changes only the typing state. |
| `HeroMachine.Close` | components/sections/Hero.tsx:239-241 | `handleClose` leaves the panel closed and changes nothing else. |
| `HeroMachine.MouseLeave` | components/sections/Hero.tsx:193-204 | After a mouseleave the panel is open exactly when it was open and either the target lies inside the content or the component is not mounted. Nothing else changes. |
| `HeroMachine.InitialValid` | components/sections/Hero.tsx:33-39 | The first-render state satisfies the invariant. |
| `HeroMachine.MountKeepsValid` | components/sections/Hero.tsx:95-97 | Mounting keeps the invariant. |
| `HeroMachine.TickKeepsValid` | components/sections/Hero.tsx:120-132 | A typing tick keeps the invariant. |
| `HeroMachine.RoleTimeoutKeepsValid` | components/sections/Hero.tsx:128-130 | The role timeout keeps the invariant. |
| `HeroMachine.NoTypingBeforeMount` | components/sections/Hero.tsx:111 | Before mount, ticks and timeouts change nothing, so no typing happens. |
| `HeroTsx.ClickSoundInit` | components/sections/Hero.tsx:145-165 | Once mounted, the sound is ready exactly when the audio element could be created, and the element is then kept. Before mount nothing changes. |
| `HeroTsx.MusicInit` | components/sections/Hero.tsx:168-190 | Once mounted, the music element is kept when it could be created. Nothing else changes. |
| `HeroTsx.RevealClick` | components/sections/Hero.tsx:221-237 | The panel ends open exactly when it was open, or when the sound is ready, the component is mounted and a click-sound element exists. Whether play succeeded does not matter. Nothing else changes. |
| `HeroTsx.MusicToggle` | components/sections/Hero.tsx:206-219 | `musicPlaying` flips exactly when there is a music element, the component is mounted and play/pause did not throw. Otherwise, and for every other field, nothing changes. |
| `HeroTsx.NothingBeforeMount` | components/sections/Hero.tsx:111 | From the first-render state, every step but mounting leaves the state unchanged: typing, audio, music, panel and mouseleave. |
| `HeroTsx.HandlersKeepValid` | components/sections/Hero.tsx:145-241 | Every handler keeps the invariant (typing, ready implies a click-sound element, playing implies a music element) and keeps the state initial until mount. |
| `HeroTsx.FiveRoleCycle` | components/sections/Hero.tsx:56-62 | With the five roles, the index comes back after exactly five role changes. |
| `HeroTsx.Hero.constructor` | components/sections/Hero.tsx:33-39 | The component starts in the first-render state, which satisfies the invariant. |
| `HeroTsx.Hero.Mount` | components/sections/Hero.tsx:95-97 | Moves the fields as `HeroMachine.Mount` says and keeps the invariant. |
| `HeroTsx.Hero.Tick` | components/sections/Hero.tsx:120-132 | Moves the fields as `HeroMachine.Tick` says and keeps the invariant. |
| `HeroTsx.Hero.RoleTimeout` | components/sections/Hero.tsx:128-130 | Moves the fields as `HeroMachine.RoleTimeout` says and keeps the invariant. |
| `HeroTsx.Hero.InitClickSound` | components/sections/Hero.tsx:145-165 | Moves the fields as `HeroTsx.ClickSoundInit` says and keeps the invariant. |
| `HeroTsx.Hero.InitMusic` | components/sections/Hero.tsx:168-190 | Moves the fields as `HeroTsx.MusicInit` says and keeps the invariant. |
| `HeroTsx.Hero.ButtonClick` | components/sections/Hero.tsx:221-237 | Moves the fields as `HeroTsx.RevealClick` says and keeps the invariant. |
| `HeroTsx.Hero.Close` | components/sections/Hero.tsx:239-241 | Moves the fields as `HeroMachine.Close` says and keeps the invariant. |
| `HeroTsx.Hero.MouseLeave` | components/sections/Hero.tsx:196-200 | Moves the fields as `HeroMachine.MouseLeave` says and keeps the invariant. |
| `HeroTsx.Hero.ToggleMusic` | components/sections/Hero.tsx:206-219 | Moves the fields as `HeroTsx.MusicToggle` says and keeps the invariant. |
| `HeroJsx.ClickSoundInit` | components/sections/Hero.jsx:116-138 | The sound is ready exactly when the audio element could be created, and the element is then kept. There is no mount gate. |
| `HeroJsx.MusicInit` | components/sections/Hero.jsx:141-161 | The music element is kept when it could be created. Nothing else changes. |
| `HeroJsx.RevealClick` | components/sections/Hero.jsx:197-215 | The panel ends open exactly when it was open, or when the sound is ready and a click-sound element exists, whether play succeeded or threw. Nothing else changes. |
| `HeroJsx.MusicToggle` | components/sections/Hero.jsx:182-195 | `musicPlaying` flips exactly when there is a music element and play/pause did not throw. Nothing else changes. |
| `HeroJsx.NoTypingBeforeMount` | components/sections/Hero.jsx:96-100 | Before the typing effect has run, ticks and timeouts change nothing. |
| `HeroJsx.HandlersKeepValid` | components/sections/Hero.jsx:116-219 | Every handler keeps the invariant. |
| `HeroJsx.FourRoleCycle` | components/sections/Hero.jsx:61-66 | With the four roles, the index comes back after exactly four role changes. |
| `HeroJsx.Hero.constructor` | components/sections/Hero.jsx:23-30 | The component starts in the first-render state, which satisfies the invariant. |
| `HeroJsx.Hero.Mount` | components/sections/Hero.jsx:96-100 | The first run of the typing effect sets `mounted` and starts typing, as `HeroMachine.Mount` says. It keeps the invariant. |
| `HeroJsx.Hero.Tick` | components/sections/Hero.jsx:100-110 | Moves the fields as `HeroMachine.Tick` says and keeps the invariant. |
| `HeroJsx.Hero.RoleTimeout` | components/sections/Hero.jsx:106-108 | Moves the fields as `HeroMachine.RoleTimeout` says and keeps the invariant. |
| `HeroJsx.Hero.InitClickSound` | components/sections/Hero.jsx:116-138 | Moves the fields as `HeroJsx.ClickSoundInit` says and keeps the invariant. |
| `HeroJsx.Hero.InitMusic` | components/sections/Hero.jsx:141-161 | Moves the fields as `HeroJsx.MusicInit` says and keeps the invariant. |
| `HeroJsx.Hero.ButtonClick` | components/sections/Hero.jsx:197-215 | Moves the fields as `HeroJsx.RevealClick` says and keeps the invariant. |
| `HeroJsx.Hero.Close` | components/sections/Hero.jsx:217-219 | Moves the fields as `HeroMachine.Close` says and keeps the invariant. |
| `HeroJsx.Hero.MouseLeave` | components/sections/Hero.jsx:164-177 | Moves the fields as `HeroMachine.MouseLeave` says; the content element exists once mounted. It keeps the invariant. |
| `HeroJsx.Hero.ToggleMusic` | components/sections/Hero.jsx:182-195 | Moves the fields as `HeroJsx.MusicToggle` says and keeps the invariant. |
| `SiteHeader.ToggledTheme` | components/layout/Header.tsx:32 | The new theme is always "light" or "dark". It is "dark" exactly when the current theme is "light". |
| `SiteHeader.Render` | components/layout/Header.tsx:35-37 | Nothing is rendered until mounted. Once mounted, the bulb is lit exactly when the theme is "light". |
| `SiteHeader.ToggleTwiceRestores` | components/layout/Header.tsx:32 | Toggling twice from "light" or from "dark" gives the original theme back. |
| `SiteHeader.ToggleAlternates` | components/layout/Header.tsx:32 | From any theme, including unset or "system", the toggled themes alternate between two different values from the first click on. |
| `SiteHeader.ToggleFlipsBulb` | components/layout/Header.tsx:90-94 | Once mounted, every toggle flips whether the bulb is lit. |
| `SiteHeader.Header.constructor` | components/layout/Header.tsx:8-10 | On first render the header is not mounted, has no click sound and has played nothing. The theme is the one the store reports. |
| `SiteHeader.Header.Mount` | components/layout/Header.tsx:12-25 | The mount effect sets `mounted` and, in a browser, creates the click sound. The theme is unchanged. |
| `SiteHeader.Header.ThemeToggle` | components/layout/Header.tsx:27-33 | The theme becomes `ToggledTheme` of the old theme on every click. The click sound restarts only when there is one. `mounted` is unchanged. |

## Left out

- The mail provider, the transport it is reached through, and the account
  credentials read from the process environment. The provider's verdict is
  an input, and the configured account is a parameter that may be unset.
- The HTML body of the mail and the CORS response headers. The HTML body is
  a presentational template; the headers are response output.
- A request body that is `null` or absent. Destructuring it throws inside
  the `try`, and the handler answers 500 with the runtime's message. The
  model's request always has a body whose fields may be absent.
- Non-string JSON field values, such as numbers or booleans. The fields are
  strings or absent.
- Console logging in every file.
- MusicToggle: `toggleMusic` is async and awaits `play()` before it sets
  `musicPlaying`, so two runs can overlap: a second click during the wait
  reads the old `musicPlaying`, and two quick clicks both start the music.
  The model runs each toggle to completion before the next one starts, so
  it does not capture such interleavings (in both hero variants).
- RevealClick: `handleButtonClick` is async and awaits the click sound's
  `play()` before it opens the panel. Overlapping runs are not modelled;
  each click completes before the next one starts (in both hero variants).
- Timer durations (100 ms per character, 2 s between roles) and real time.
  Each firing is one step.
- Audio volume, looping and loading, and what the sounds actually play. In
  the header, a rejected `play()` is caught and only logged.
- Unmounting: the effect cleanups that clear the timers, pause the music
  and drop the audio references. In `components/sections/Hero.jsx` the
  role timeout is not cleared by the cleanup. That only matters for a
  re-run or unmount racing the 2 s timeout, which the step model does not
  represent.
- The scroll listener (`scrolled`), the social links, the tech-stack
  marquee and the rest of the markup in both hero variants, and the
  header's links and menu button.
- How the theme store persists and resolves themes. The header's theme is
  the value the store reports, and a toggle takes effect immediately.
- `components/sections/Projects.tsx`, `components/sections/Projects.jsx`,
  `components/layout/Footer.tsx` and `app/layout.tsx`. They are static
  markup, animation and metadata.
