# TripRadar core in Dafny

TripRadar is a Next.js app for a guided trip around Bořeň. The visitor configures a trip in a
three-step wizard (interests, e-mail, summary) and is redirected by a demo checkout route. They
receive an HTML itinerary filtered by their interests. In the field, a radar points them to
nearby points of interest, vibrating by proximity and celebrating each point reached. A scratch
card reveals the destination.

This project models that logic and proves its properties:

- **Vibration** — the `useVibration` hook as a class over a `Haptics` record: the proximity tier,
  the one repeating interval, and every actuator call. Each method is tied to a pure step function.
  The actuator is a shared `Motor` object: on the radar the vibration hook and the celebration
  hook both drive it, so one log shows how their calls interleave.
- **Geolocation** — the `useGeolocation` reducers, runs of position/error/refresh events, the
  option merge, the hook lifecycle as a class, and `formatDistance`.
- **Radar** — the category filter, the distance decoration and its stable sort, the nearest
  point, the radar projection, the legend, and the arrival effect that records reached points.
- **RadarClient** — the radar page: mock points, preference switches and the reached counter.
- **Celebration** — the `useCelebration` hook, whose pulse goes to the same motor, and the
  `<Celebration>` overlay.
- **ConfigureForm** — the wizard's step machine, the trip fallback and the progress bar.
- **CheckoutRoute** — the `POST /api/checkout` validation cascade over JSON request bodies, and
  how the wizard reads the answer.
- **Pdf** — `generateHtmlTemplate`: trip lookup, section filter, section blocks and badges.
- **ScratchCard** — the transparent-pixel counting loop over the canvas buffer, and the one-way
  reveal with its pointer handlers.
- **Slug, Toggle, Input** — the `id || label.toLowerCase().replace(/\s+/g, '-')` rule, the toggle's
  change handler, and what the input shows.
- Helper modules: **Wrappers** (Option/Result), **Seqs** (order-preserving filter and
  subsequence), **Strings** (decimal rendering and its inverse), **Types** (categories,
  preferences, coordinates, points).

Clocks, the haversine distance and the bearing are parameters. The distance is a function
`(Coordinates, Coordinates) -> real`, the current time is a `nat` of milliseconds, and the sine
and cosine of the bearing are reals. Browser capabilities (`'vibrate' in navigator`,
`'geolocation' in navigator`, a canvas with a 2D context) are boolean inputs. Each React handler
is one atomic step on the component's state.

Where the documentation and the code disagree, the model follows the code:

- `useVibration`'s header comment promises one pulse every 2 s between 50 and 100 m. The if-chain
  at src/hooks/useVibration.ts:79-87 never selects `far`: 50–100 m is `close`, beyond 100 m is
  `none`.
- `UserPreferences` in src/types/index.ts:89 spells the last flag `include_weekend_events`. Every
  component reads `includeWeekendEvents`, which is what the model uses.

## Model

| member | source | states |
|---|---|---|
| Types.WithFlag | src/app/configure/ConfigureForm.tsx:56-59 | setting key k to v changes exactly flag k; the other three flags keep their values |
| Types.FlagsDetermine | src/types/index.ts:85-90 | two preference records that agree on all four keys are equal |
| Types.CategoryOf | src/types/index.ts:60 | the five names of the category union map to their own categories; every other string, and only those, is uncategorized and keeps its name |
| Strings.NatToString | src/app/api/checkout/route.ts:56 | a number renders as at least one decimal digit, only digits, with no leading zero |
| Strings.DigitsOfNat | src/app/api/checkout/route.ts:56 | the digits a number renders to have that number as their value |
| Strings.ParseNatToString | src/app/api/checkout/route.ts:56 | parsing a rendered number gives the number back |
| Seqs.Filter | src/components/radar/Radar.tsx:50-65 | the filter result keeps exactly the elements that pass, in order (a subsequence), never more often than in the input |
| Seqs.FilterCons | src/services/pdf/index.ts:129-132 | filtering `[x] + s` keeps x in front iff x passes |
| Seqs.FilterAppend | src/services/pdf/index.ts:129-132 | filtering distributes over concatenation |
| Seqs.FilterKeepsAll | src/services/pdf/index.ts:129-132 | when every element passes, the filter returns its input |
| Seqs.FilterKeepsNone | src/services/pdf/index.ts:129-132 | when no element passes, the filter is empty |
| Vibration.PatternOf | src/hooks/useVibration.ts:23-29 | only `none` has an empty pattern; every other tier alternates vibrate and pause durations, starting and ending on a vibration, all positive |
| Vibration.RepeatInterval | src/hooks/useVibration.ts:32-38 | a tier repeats iff it is `far`, `close` or `veryClose` |
| Vibration.NearerRepeatsFaster | src/hooks/useVibration.ts:32-38 | of two repeating tiers, the more insistent one has the shorter period |
| Vibration.Classify | src/hooks/useVibration.ts:79-87 | `arrived` iff d ≤ 10, `veryClose` iff 10 < d ≤ 50, `close` iff 50 < d ≤ 100, `none` iff d > 100; `far` is never chosen |
| Vibration.ClassifyMonotone | src/hooks/useVibration.ts:79-87 | a nearer target never gets a less insistent tier |
| Vibration.RepeatingTiers | src/hooks/useVibration.ts:32-38 | among reachable tiers only `close` (1000 ms) and `veryClose` (500 ms) repeat |
| Vibration.Initial | src/hooks/useVibration.ts:40-44 | the first render holds tier `none`, no interval and no actuator call, and keeps the invariant |
| Vibration.Stopped | src/hooks/useVibration.ts:61-70 | `stop` clears the held interval and returns to tier `none`; it silences only when supported; the invariant is kept and no interval stays live |
| Vibration.Vibrated | src/hooks/useVibration.ts:52-58 | `vibrate` reaches the actuator exactly when supported and enabled; tier and interval are untouched |
| Vibration.ByDistance | src/hooks/useVibration.ts:73-113 | disabled or unsupported: nothing changes; otherwise the tier becomes the distance's tier; the invariant holds and at most one interval is live |
| Vibration.IntervalElapsed | src/hooks/useVibration.ts:107-109 | a handle that is no longer live never fires; the held live interval replays its pattern through `vibrate`; tier and interval are kept, and so is the invariant |
| Vibration.RepeatReplays | src/hooks/useVibration.ts:98-110 | after the `close` or `veryClose` tier is set, a live interval with that tier's period is held, and each firing plays the tier's pattern again |
| Vibration.SameTierIsNoOp | src/hooks/useVibration.ts:90-92 | an unchanged tier other than `arrived` leaves the whole state unchanged |
| Vibration.TransitionRestarts | src/hooks/useVibration.ts:94-110 | on a transition the old interval is no longer live; `none` only silences, every other tier silences and then fires its pattern once; an interval exists iff the tier is `close` or `veryClose` |
| Vibration.ArrivedRefires | src/hooks/useVibration.ts:89-106 | at the target every call silences and replays the `arrived` pattern and schedules no interval |
| Vibration.StopIdempotent | src/hooks/useVibration.ts:61-70 | stopping twice equals stopping once, apart from one more `vibrate(0)` when supported |
| Vibration.NothingFiresAfterStop | src/hooks/useVibration.ts:61-65 | after `stop`, no interval callback changes anything |
| Vibration.Vibrator.constructor | src/hooks/useVibration.ts:40-44 | the hook starts in the initial haptic state on the given motor, whose earlier calls stay in its log |
| Vibration.Vibrator.DetectSupport | src/hooks/useVibration.ts:47-49 | the mount effect records the capability and nothing else |
| Vibration.Vibrator.Vibrate | src/hooks/useVibration.ts:52-58 | the instance changes as `Vibrated` says and reports whether the actuator was reached |
| Vibration.Vibrator.Stop | src/hooks/useVibration.ts:61-70 | the instance changes as `Stopped` says |
| Vibration.Vibrator.VibrateByDistance | src/hooks/useVibration.ts:73-113 | the instance changes as `ByDistance` says and keeps the invariant |
| Vibration.Vibrator.OnIntervalElapsed | src/hooks/useVibration.ts:107-109 | an interval firing changes the instance as `IntervalElapsed` says |
| Vibration.Vibrator.VibrateOnce | src/hooks/useVibration.ts:116-122 | one pulse of the named pattern when enabled and supported; tier and interval stay |
| Vibration.Vibrator.Unmount | src/hooks/useVibration.ts:125-134 | the unmount cleanup leaves no interval live and silences the motor iff the platform can vibrate; support, tier, held interval and handle counter stay |
| Celebration.AnimationFor | src/components/ui/Celebration.tsx:155-156 | confetti plays the confetti animation; success and checkpoint play the success animation |
| Celebration.CelebrationVibration | src/components/ui/Celebration.tsx:185-191 | confetti vibrates [100,50,100,50,200], every other type a single 100 ms pulse |
| Celebration.CelebrationHook.constructor | src/components/ui/Celebration.tsx:176-179 | the hook starts as {confetti, hidden}, driving the given motor |
| Celebration.CelebrationHook.Celebrate | src/components/ui/Celebration.tsx:181-192 | shows the given type, and the motor gets the type's pattern exactly when `navigator.vibrate` exists |
| Celebration.CelebrationHook.Hide | src/components/ui/Celebration.tsx:194-196 | hides and keeps the type |
| Celebration.CelebrationView.constructor | src/components/ui/Celebration.tsx:133-140 | the overlay starts with `isVisible` equal to `show` |
| Celebration.CelebrationView.SyncShow | src/components/ui/Celebration.tsx:142-144 | the effect copies `show` into `isVisible` |
| Celebration.CelebrationView.HandleComplete | src/components/ui/Celebration.tsx:146-151 | completion hides iff `autoHide`, and reports once iff a callback exists |
| Celebration.CelebrationView.Rendered | src/components/ui/Celebration.tsx:153-156 | nothing renders iff hidden; otherwise the animation for the type |
| Radar.Shown | src/components/radar/Radar.tsx:51-64 | nature and unknown categories always show; all flags on shows every category; all flags off shows only nature and unknown ones |
| Radar.FilteredPoints | src/components/radar/Radar.tsx:49-66 | a point is kept iff its category's switch is on (nature and unknown categories always), in input order |
| Radar.WithDistance | src/components/radar/Radar.tsx:72-76 | every point is paired, position by position, with its distance from the user |
| Radar.Insert | src/components/radar/Radar.tsx:77 | insertion adds exactly one element and nothing else |
| Radar.InsertSorted | src/components/radar/Radar.tsx:77 | inserting into a distance-sorted list keeps it sorted |
| Radar.SortByDistance | src/components/radar/Radar.tsx:77 | the sort is a permutation of its input, sorted ascending by distance |
| Radar.InsertKeepsTies | src/components/radar/Radar.tsx:77 | insertion keeps the relative order of the entries at any one distance |
| Radar.SortIsStable | src/components/radar/Radar.tsx:77 | the sort is stable: entries at equal distance keep their input order |
| Radar.Ranked | src/components/radar/Radar.tsx:69-78 | empty without a position; sorted by distance; a permutation of the decorated filtered points |
| Radar.RankedMembers | src/components/radar/Radar.tsx:69-78 | (p, d) is ranked iff p is a shown input point and d is its distance from the user |
| Radar.Nearest | src/components/radar/Radar.tsx:81 | none iff the ranked list is empty, else its head |
| Radar.NearestIsClosest | src/components/radar/Radar.tsx:69-81 | without a position there is no nearest point; the nearest is a shown input point no farther than any ranked point |
| Radar.NormalizedDistance | src/components/radar/Radar.tsx:116-118 | the scaled distance lies in [0, 1], is 1 from 500 m on, and is d/500 below that |
| Radar.RadarPosition | src/components/radar/Radar.tsx:116-124 | for any bearing, the point lands within 5–95 % on both axes; the user sits at the centre |
| Radar.ScaledWithin | src/components/radar/Radar.tsx:121-122 | a scaled distance times a sine or cosine times 45 stays within ±45 |
| Radar.LegendShows | src/components/radar/Radar.tsx:283-289 | a key other than food, history, kids and event always shows; all flags on shows every key |
| Radar.CategoryNames | src/components/radar/Radar.tsx:49-66 | category names and categories correspond one to one, and the point filter's switch on a category string agrees with the legend's if-chain on it |
| Radar.Legend | src/components/radar/Radar.tsx:282-289 | the legend lists the label entries whose key passes its if-chain, in table order |
| Radar.LegendEntryOf | src/components/radar/Radar.tsx:32-38 | each of the five categories has exactly one entry under its own key; unknown categories have none |
| Radar.LegendListsShown | src/components/radar/Radar.tsx:282-289 | the legend lists a category iff the point filter's switch shows that category |
| Radar.LegendAgreesWithFilter | src/components/radar/Radar.tsx:282-289 | a point's category is in the legend iff the point passes the filter |
| Radar.RadarView.constructor | src/components/radar/Radar.tsx:40-46 | the view starts with nothing reached and fresh vibration and celebration hooks that drive the same motor |
| Radar.RadarView.ArrivalEffect | src/components/radar/Radar.tsx:84-95 | only an unreached nearest point acts. It vibrates by distance. Below 10 m it also adds its id, celebrates with confetti, reports the point once and stops, and the motor goes through `Arrival`. The point set only grows |
| Radar.Arrival | src/components/radar/Radar.tsx:86-93 | an arrival leaves tier `none`, no interval and no live interval, and keeps the hook's invariant |
| Radar.ConfettiCutShort | src/components/radar/Radar.tsx:86-93 | on arrival the motor gets the tier's calls, then the confetti pattern when the device vibrates, then `vibrate(0)` from `stopVibration` whenever the hook detected a motor, which cuts the confetti short |
| Radar.RadarView.EffectCleanup | src/components/radar/Radar.tsx:97 | the cleanup stops the vibration |
| Radar.TenMetresBoundary | src/components/radar/Radar.tsx:89 | the tier is `arrived` while the point is unreached exactly at 10 m; below 10 m both hold |
| RadarClient.Toggled | src/app/radar/RadarClient.tsx:117-119 | the toggled key flips, the other three keys stay |
| RadarClient.ToggleTwice | src/app/radar/RadarClient.tsx:117-119 | toggling a key twice restores the preferences |
| RadarClient.Ids | src/app/radar/RadarClient.tsx:16-97 | the id set holds every point's id and no other, and has no more elements than there are points |
| RadarClient.NearestIsKnown | src/components/radar/Radar.tsx:69-81 | the nearest point's id is one of the input points' ids |
| RadarClient.RadarClientPage.constructor | src/app/radar/RadarClient.tsx:99-110 | preferences start as gastro, history and weekend events on, kids off; settings closed; counter 0; the eight mock points |
| RadarClient.RadarClientPage.HandlePointReached | src/app/radar/RadarClient.tsx:112-115 | the counter rises by exactly one; nothing else changes |
| RadarClient.RadarClientPage.TogglePreference | src/app/radar/RadarClient.tsx:117-119 | the preferences become the toggled preferences; the counter and panel stay, and the page's invariant is kept |
| RadarClient.RadarClientPage.ToggleSettings | src/app/radar/RadarClient.tsx:134 | the settings panel flips; the counter and preferences stay, and the page's invariant is kept |
| RadarClient.RadarClientPage.OnPositionTick | src/app/radar/RadarClient.tsx:107-128 | after a radar update the counter equals the size of Radar's reached set, rises by at most one, and never exceeds the number of points shown in the header |
| Geolocation.InitialState | src/hooks/useGeolocation.ts:32-37 | no position, no error, loading, support from the capability check |
| Geolocation.UpdatePosition | src/hooks/useGeolocation.ts:41-51 | the fix's latitude and longitude become the position; the error clears; loading ends; support is kept |
| Geolocation.HandleError | src/hooks/useGeolocation.ts:53-59 | the error is set and loading ends; the last position stays |
| Geolocation.Refreshed | src/hooks/useGeolocation.ts:87-96 | without geolocation nothing changes; otherwise loading restarts, position and error stay |
| Geolocation.Step | src/hooks/useGeolocation.ts:41-96 | a fix sets the position, clears the error and ends loading; an error is recorded and ends loading; only a fix moves the position; no event changes support |
| Geolocation.Run | src/hooks/useGeolocation.ts:41-96 | after a run ending in a fix the position is that fix, with no error and loading ended; after one ending in an error that error shows and loading has ended |
| Geolocation.RunSnoc | src/hooks/useGeolocation.ts:41-59 | a run of events followed by one more equals one more step after the run |
| Geolocation.RunKeepsSupport | src/hooks/useGeolocation.ts:41-59 | no sequence of events changes `isSupported` |
| Geolocation.PositionIsLastFix | src/hooks/useGeolocation.ts:41-59 | after any run of events the position is the latest fix's, or the earlier one when the run has no fix |
| Geolocation.FixRecovers | src/hooks/useGeolocation.ts:41-59 | a fix after an error clears the error, ends loading and sets the position |
| Geolocation.Spread | src/hooks/useGeolocation.ts:39 | a key the caller leaves out keeps the default; a key the caller writes, even as undefined, replaces it |
| Geolocation.MergeOptions | src/hooks/useGeolocation.ts:39 | each option is spread on its own |
| Geolocation.MergeFacts | src/hooks/useGeolocation.ts:25-39 | without caller options the defaults (high accuracy, 10000 ms, 0) apply; for each of the three keys a caller's value, even `undefined`, wins and a left-out key keeps its default; merging again changes nothing |
| Geolocation.GeolocationHook.constructor | src/hooks/useGeolocation.ts:31-39 | the hook starts in the initial state with the merged options and no watch |
| Geolocation.GeolocationHook.MountEffect | src/hooks/useGeolocation.ts:61-79 | without geolocation loading ends and nothing is registered; otherwise one position request and one fresh watch, both with the merged options |
| Geolocation.GeolocationHook.Teardown | src/hooks/useGeolocation.ts:81-83 | the cleanup clears exactly the registered watch id |
| Geolocation.GeolocationHook.Refresh | src/hooks/useGeolocation.ts:87-96 | a no-op without geolocation; otherwise loading and one more position request with the merged options |
| Geolocation.GeolocationHook.OnFix | src/hooks/useGeolocation.ts:41-51 | the state changes as `UpdatePosition` says; watch and requests stay |
| Geolocation.GeolocationHook.OnError | src/hooks/useGeolocation.ts:53-59 | the state changes as `HandleError` says; watch and requests stay |
| Geolocation.MathRound | src/hooks/useGeolocation.ts:137 | the result is within half a unit of its argument, halves rounding up |
| Geolocation.FormatDistance | src/hooks/useGeolocation.ts:135-140 | the unit is " m" iff the unrounded distance is below 1000, else " km". In metres the digits read back as the rounded distance, which may reach 1000. In kilometres the text is `Kilometres` of the distance rounded to tenths |
| Geolocation.Kilometres | src/hooks/useGeolocation.ts:139 | a count of tenths renders as whole kilometres, a point, one tenth digit and " km" |
| Geolocation.KilometresNearDistance | src/hooks/useGeolocation.ts:139 | from 1000 m on, the tenths shown are within 50 m of the distance |
| Geolocation.FormatDistanceMetres | src/hooks/useGeolocation.ts:136-137 | 999 m renders "999 m" and 999.6 m renders "1000 m" |
| Geolocation.FormatDistanceKilometres | src/hooks/useGeolocation.ts:138-139 | 1000 m renders "1.0 km" and 1500 m renders "1.5 km" |
| ConfigureForm.FindTrip | src/app/configure/ConfigureForm.tsx:52 | none iff no trip has the id; else the first trip with that id |
| ConfigureForm.SelectedTrip | src/app/configure/ConfigureForm.tsx:52 | the trip with the form's id, or the first trip when no trip has it |
| ConfigureForm.EmailAccepted | src/app/configure/ConfigureForm.tsx:68 | an e-mail is accepted iff some character is '@', so the emptiness test adds nothing |
| ConfigureForm.AfterNext | src/app/configure/ConfigureForm.tsx:64-75 | preferences→contact always. Contact→summary iff the e-mail is non-empty and has '@', clearing the error; otherwise the error is set and the step stays. Summary stays |
| ConfigureForm.AfterBack | src/app/configure/ConfigureForm.tsx:77-83 | one step back, none at the first step; form and error unchanged |
| ConfigureForm.WithPreference | src/app/configure/ConfigureForm.tsx:54-62 | only flag k becomes v; step, error, e-mail, trip and the other flags stay |
| ConfigureForm.WithEmail | src/app/configure/ConfigureForm.tsx:193-195 | only the e-mail changes |
| ConfigureForm.HandlersKeepInv | src/app/configure/ConfigureForm.tsx:64-83 | every handler keeps "the summary step has an accepted e-mail" |
| ConfigureForm.BackAndNext | src/app/configure/ConfigureForm.tsx:64-83 | back undoes a successful next and next undoes back, up to the cleared error |
| ConfigureForm.StepIndex | src/app/configure/ConfigureForm.tsx:115 | the index is below 3, 0 only for preferences, 2 only for summary |
| ConfigureForm.Progress | src/app/configure/ConfigureForm.tsx:116 | progress lies in (0, 100] and is full exactly at the summary |
| ConfigureForm.ProgressRises | src/app/configure/ConfigureForm.tsx:115-116 | progress rises strictly from step to step, lies in (0, 100], and is 100 at the summary |
| ConfigureForm.ConfigureFormPage.constructor | src/app/configure/ConfigureForm.tsx:41-52 | the wizard starts at preferences, no error, empty e-mail, the initial preferences and the first trip |
| ConfigureForm.ConfigureFormPage.HandleNext | src/app/configure/ConfigureForm.tsx:64-75 | the page changes as `AfterNext` says and keeps the invariant |
| ConfigureForm.ConfigureFormPage.HandleBack | src/app/configure/ConfigureForm.tsx:77-83 | the page changes as `AfterBack` says |
| ConfigureForm.ConfigureFormPage.UpdatePreference | src/app/configure/ConfigureForm.tsx:54-62 | the page changes as `WithPreference` says |
| ConfigureForm.ConfigureFormPage.SetEmail | src/app/configure/ConfigureForm.tsx:188-195 | typing at the contact step changes only the e-mail |
| CheckoutRoute.Truthy | src/app/api/checkout/route.ts:30 | a truthy value is not null or undefined; a string is truthy iff non-empty; every object is truthy |
| CheckoutRoute.Get | src/app/api/checkout/route.ts:30 | a property read gives undefined except for an own key of an object, which gives its value |
| CheckoutRoute.PropertyKey | src/app/api/checkout/route.ts:46 | converting to a key throws iff the value is an object with its own `toString`; a number gives a numeral; a string is its own key; the trip's key comes only from the string "borena-tajemstvi" |
| CheckoutRoute.AppUrl | src/app/api/checkout/route.ts:55 | a non-empty configured URL wins, otherwise the localhost default |
| CheckoutRoute.SessionIdRoundTrip | src/app/api/checkout/route.ts:56-60 | the redirect URL starts with the app URL and the success path, and its rest reads back as the timestamp |
| CheckoutRoute.Respond | src/app/api/checkout/route.ts:25-69 | for any lookup the status is 200, 400, 404 or 500; 200 iff the body is the redirect to the success URL |
| CheckoutRoute.PostAsWritten | src/app/api/checkout/route.ts:25-69 | the route as written answers as `Post` except when `Post` answers 404 for a key naming an inherited member, which as written gets 200 and the redirect |
| CheckoutRoute.Post | src/app/api/checkout/route.ts:25-69 | each status iff its own condition holds, checked in order. 500: bad JSON, a null body, a non-string e-mail past the presence check, or a trip id that cannot become a key. 400 "Chybí povinné údaje": a field missing or falsy. 400 "Neplatný email": no '@'. 404: unknown trip. 200: the redirect to the success URL |
| CheckoutRoute.WizardEmailPassesRoute | src/app/api/checkout/route.ts:38-43 | an e-mail the wizard accepts passes the route's presence and '@' checks |
| CheckoutRoute.WizardSubmissionSucceeds | src/app/api/checkout/route.ts:25-60 | the wizard's submission from its summary step gets 200 and the success redirect |
| CheckoutRoute.PrototypeTripIdAccepted | src/app/api/checkout/route.ts:46-52 | as written, trip id "toString" is accepted with 200; the own-key lookup answers 404 |
| CheckoutRoute.FoundDiffersOnlyOnPrototype | src/app/api/checkout/route.ts:46-47 | the two lookups disagree exactly on inherited member names |
| CheckoutRoute.ObjectTripIdThrows | src/app/api/checkout/route.ts:46-68 | an object trip id with its own `toString` makes both versions of the route answer 500 |
| CheckoutRoute.HandleCheckout | src/app/configure/ConfigureForm.tsx:100-111 | navigation iff the response is ok; any other response shows a non-empty message: the route's error, or the generic one |
| CheckoutRoute.WizardCheckoutNavigates | src/app/configure/ConfigureForm.tsx:85-112 | paying from the summary step navigates to the success URL of this checkout |
| CheckoutRoute.RejectionsReachUser | src/app/configure/ConfigureForm.tsx:100-111 | every response the route rejects shows the route's own message |
| Pdf.Kept | src/services/pdf/index.ts:129-132 | the introduction is always kept; all flags on keeps every section; all flags off keeps only the introduction |
| Pdf.FilteredSections | src/services/pdf/index.ts:129-132 | the introduction always and any other section iff its flag is on, in trip order |
| Pdf.SectionHtml | src/services/pdf/index.ts:136-141 | a section's block holds its title and then its content at fixed offsets |
| Pdf.SectionsHtml | src/services/pdf/index.ts:134-143 | the joined blocks are empty iff there are no sections; one section gives exactly its block |
| Pdf.SectionsHtmlAppend | src/services/pdf/index.ts:134-143 | the joined blocks of two lists are the concatenation of their joined blocks |
| Pdf.SectionBlockAt | src/services/pdf/index.ts:134-143 | the i-th section's block sits right after the blocks of the sections before it |
| Pdf.KeptSectionsRendered | src/services/pdf/index.ts:129-143 | every section the preferences keep has its block in the page |
| Pdf.Badges | src/services/pdf/index.ts:269-272 | each interest badge appears iff its flag is on |
| Pdf.GenerateHtmlTemplate | src/services/pdf/index.ts:117-284 | throws "Trip <id> not found" iff the id is not a trip. Otherwise the page carries the trip's name, the recipient, the date, the badges and the kept sections' blocks |
| Pdf.GenerateHtmlTemplateAsWritten | src/services/pdf/index.ts:117-143 | as written the template agrees with the own-key version on every id except inherited member names, for which it throws the TypeError from `.sections.filter` |
| Pdf.PrototypeTripIdMisreported | src/services/pdf/index.ts:122-129 | as written, trip id "toString" throws a TypeError rather than "Trip toString not found"; the own-key lookup reports the missing trip |
| Pdf.OnlyIntroWhenAllOff | src/services/pdf/index.ts:129-132 | with every flag off only a leading introduction remains |
| Pdf.BorenaAllOff | src/services/pdf/index.ts:26-104 | for the Bořeň trip, every flag off leaves only the introduction |
| Pdf.BorenaAllOn | src/services/pdf/index.ts:26-104 | for the Bořeň trip, every flag on keeps all five sections in order |
| ScratchCard.Transparent | src/components/scratch-card/ScratchCard.tsx:100-104 | the count of zero alpha bytes is at most a quarter of the buffer length |
| ScratchCard.TransparentAppend | src/components/scratch-card/ScratchCard.tsx:100-104 | counting over whole pixels is additive over concatenation |
| ScratchCard.Percentage | src/components/scratch-card/ScratchCard.tsx:106 | the share is never negative and is 0 iff no pixel is transparent |
| ScratchCard.PercentageBounds | src/components/scratch-card/ScratchCard.tsx:106 | for a buffer of 4·w·h bytes the share lies in [0, 100] |
| ScratchCard.CalculateScratchPercentage | src/components/scratch-card/ScratchCard.tsx:89-107 | without a canvas or context 0; otherwise the share of zero alpha bytes among the w·h pixels |
| ScratchCard.DefaultConfig | src/components/scratch-card/ScratchCard.tsx:44-52 | width 300, height 200, brush 40, threshold 50, enabled |
| ScratchCard.Scratched | src/components/scratch-card/ScratchCard.tsx:110-152 | a no-op when disabled, revealed or undrawable. Otherwise it remembers the point and reports progress iff a callback exists, and reveals iff the share reaches the threshold. The reveal invariant is kept |
| ScratchCard.RevealFiresAtMostOnce | src/components/scratch-card/ScratchCard.tsx:144-147 | over any run of scratches `onReveal` fires at most once, and a revealed card never changes |
| ScratchCard.Card.constructor | src/components/scratch-card/ScratchCard.tsx:42-58 | a new card is unrevealed, idle, without a last point or reports |
| ScratchCard.Card.Scratch | src/components/scratch-card/ScratchCard.tsx:110-152 | the card changes as `Scratched` says, with the share the counting loop computes |
| ScratchCard.Card.HandleStart | src/components/scratch-card/ScratchCard.tsx:195-206 | scratching starts; a point is remembered and scratched |
| ScratchCard.Card.HandleMove | src/components/scratch-card/ScratchCard.tsx:208-218 | nothing unless scratching; otherwise one scratch |
| ScratchCard.Card.HandleEnd | src/components/scratch-card/ScratchCard.tsx:220-223 | scratching stops and the last point is forgotten |
| Slug.LowerChar | src/components/ui/Toggle.tsx:32 | each ASCII capital becomes the lower-case letter at the same alphabet position, every other character stays, and whitespace stays whitespace |
| Slug.Lower | src/components/ui/Toggle.tsx:32 | lower-casing keeps the length and maps each character |
| Slug.DropSpaces | src/components/ui/Toggle.tsx:32 | the rest after a whitespace run is a suffix that starts with a non-space |
| Slug.Hyphenate | src/components/ui/Toggle.tsx:32 | the result has no whitespace, is no longer than the input, and equals an input without whitespace |
| Slug.Slug | src/components/ui/Toggle.tsx:32 | a slug has no whitespace and is no longer than the label |
| Slug.HyphenateKeepsOrder | src/components/ui/Toggle.tsx:32 | the input's non-whitespace characters appear in the result in order |
| Slug.HyphenateSplit | src/components/ui/Toggle.tsx:32 | a maximal whitespace run between a word and the rest becomes exactly one '-' |
| Slug.SlugOfWord | src/components/ui/Toggle.tsx:32 | the slug of a label without whitespace is the label lower-cased |
| Toggle.Checked | src/components/ui/Toggle.tsx:23 | unchecked unless `checked` is given as true |
| Toggle.ToggleId | src/components/ui/Toggle.tsx:32 | a non-empty id wins, else the slug of the label |
| Toggle.DerivedIdIsSlug | src/components/ui/Toggle.tsx:32 | a derived id has no whitespace, keeps the label's other characters in order, and is the lower-cased label when that has no whitespace |
| Toggle.HandleChange | src/components/ui/Toggle.tsx:34-38 | the callback is called iff not disabled and present, and always with the negated value |
| Toggle.ChangeTwiceRestores | src/components/ui/Toggle.tsx:34-38 | feeding the reported value back, a second change restores the original value |
| Input.InputId | src/components/ui/Input.tsx:17 | a non-empty id wins; else no label gives no id; else the slug of the label |
| Input.SameIdAsToggle | src/components/ui/Input.tsx:17 | with a label, the input derives its id exactly as the toggle does |
| Input.Render | src/components/ui/Input.tsx:17-51 | the label shows iff non-empty and points at the input's id. The error border and paragraph show iff the error is non-empty. The helper text shows iff it is non-empty and there is no error |
| Input.OneMessageAtMost | src/components/ui/Input.tsx:46-51 | at most one paragraph shows under the input, and an error always does |

## Left out

- The haversine distance (src/hooks/useGeolocation.ts:108-130) and the bearing computation (src/components/radar/Radar.tsx:105-114) are floating-point trigonometry; the distance is a function parameter and the bearing's sine and cosine are inputs. Note that `dLng` is passed to `Math.sin`/`Math.cos` in degrees, not radians (src/components/radar/Radar.tsx:106-113); the model does not depend on it.
- JavaScript numbers are modelled as exact reals (`real`) or unbounded integers, not as IEEE 754 doubles. Quotients such as `((i + 1) / 3) * 100` in src/app/configure/ConfigureForm.tsx:116 and `Math.min(d / 500, 1)` in src/components/radar/Radar.tsx:118 are exact in the model and can differ from the double in the last place. The contracts of ConfigureForm.Progress, ConfigureForm.ProgressRises, Radar.NormalizedDistance and Radar.RadarPosition are bounds and orderings that hold for the rounded values as well.
- ScratchCard.CalculateScratchPercentage: the share is the exact quotient `transparent / (width * height) * 100`. The double at src/components/scratch-card/ScratchCard.tsx:106 can fall one unit in the last place below it. For a 10×10 card with 29 transparent pixels the double is 28.999999999999996, while the model gives 29.
- ScratchCard.Card.Scratch: the reveal test `percentage >= revealThreshold` (src/components/scratch-card/ScratchCard.tsx:144) compares the exact share. Where the double falls just short of a threshold the exact share meets, the source does not reveal, fire `onReveal` or vibrate, but the model does. With the default threshold of 50 and the default 300×200 card, 50 % is 30000/60000·100, which the double gives exactly.
- Geolocation.FormatDistance: `toFixed(1)` is modelled as rounding to whole tenths with halves up, on exact reals; binary floating-point rendering can round some halves differently.
- Slug.LowerChar: `toLowerCase` is modelled on ASCII letters only; Unicode case mapping (such as 'Č' to 'č') is not modelled, so non-ASCII characters pass through unchanged.
- React scheduling is not modelled: effect re-runs, batching of `setState`, stale closures, and the order in which cleanups run against new effects. Each handler is one atomic step.
- `navigator.vibrate`'s return value, `setInterval` timing and clearing, and `navigator.geolocation`'s callbacks are modelled only as recorded calls and explicit events.
- Canvas drawing in the scratch card (`arc`, `stroke`, `destination-out`) and the coordinate scaling in `getCoordinates` are not modelled; the pixel buffer after a stroke is an input.
- ScratchCard.CalculateScratchPercentage: requires a positive width and height when a canvas exists, because `getImageData` throws on an empty rectangle; that exception is not modelled.
- CheckoutRoute.Post: JSON arrays are not among the modelled values, and a numeric `tripId` is abstracted to a key that names no trip. An object `tripId` is converted to a key as `JSON.parse` builds it: with its own `toString` field it throws, otherwise it is "[object Object]".
- The fixed HTML markup and CSS of the itinerary, and the `toLocaleDateString` date (passed in as a string), are not modelled; the page is kept as its variable parts.
- I/O is not part of this model: Puppeteer, Stripe, Resend, the webhook stub, `fetch` rejecting, and `window.location` assignment. The wizard's reading of a response is modelled; a network failure is not.
- Clocks are parameters: `Date.now()` in the checkout route and `new Date()` in the itinerary.
- Presentation is not modelled: Card, Button, layout and pages, colour tables, Lottie animation data, and the CSS classes of Toggle. Of Input's classes, only the error border is modelled.
- The mock points' `content` and `createdAt` fields are dropped from `RadarPoint`; nothing reads them.

## Findings

| source | as written | input that shows it | evidently intended | confidence | as-written member | corrected member |
|---|---|---|---|---|---|---|
| src/app/api/checkout/route.ts:46-47 | `TRIPS[body.tripId]` on a plain object also finds inherited `Object.prototype` members, which are truthy | body `{"tripId":"toString","email":"a@b","preferences":{}}` gets 200 and a redirect | only trips the table defines are found, so the answer is 404 "Výlet nenalezen" | not executed | CheckoutRoute.PrototypeTripIdAccepted | CheckoutRoute.Post |
| src/services/pdf/index.ts:122-129 | `TRIP_DATA[tripId]` finds an inherited function, so `trip.sections.filter` throws a TypeError | tripId "toString" | throw "Trip toString not found" | not executed | Pdf.PrototypeTripIdMisreported | Pdf.GenerateHtmlTemplate |
