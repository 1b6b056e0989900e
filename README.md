# Portfolio visit tracker, analytics facade and SEO metadata — a Dafny model

This project models the non-visual logic of a personal portfolio website:

- the **visit tracker** hook (`useVisitTracker`), which on every page load reads
  counters from browser-local storage, mints a visitor id the first time a
  browser is seen, counts the visit, keeps a per-day history of at most 30
  entries and stores everything back; it also offers `getVisitHistory`,
  `resetStats` and the page-id generator;
- the **analytics facade** (`lib/analytics.ts`), whose `track*` helpers each
  send one `'event'` call to the Google Analytics global `gtag`, or nothing
  when `gtag` is unavailable, plus the fire-once visibility observer;
- the **analytics hooks** (`hooks/useAnalytics.ts`), whose callbacks reshape
  their arguments (adding the component name and section) before calling the
  facade;
- the **SEO helpers** (`lib/seo.ts`): page metadata generation and the
  configuration check.

Modules:

| file | module | what it holds |
|---|---|---|
| `js_values.dfy` | `JsValues` | optional values, thrown errors, the dynamically typed values of an event's property bag, truthiness, the `or` operator, object spread |
| `strings.dfy` | `Strings` | decimal rendering of numbers (with its round trip) and list joining |
| `visit_tracker.dfy` | `VisitTracker` | the storage (`Storage`), the hook instance (`Tracker`) and `AfterVisit`, the store after one page load, with its properties |
| `analytics.dfy` | `Analytics` | the `track*` helpers as functions from the browser and their arguments to the sink call they make; the `VisibilityObserver` class |
| `analytics_hooks.dfy` | `AnalyticsHooks` | the hook callbacks as functions to the sink calls they cause |
| `seo.dfy` | `Seo` | `GenerateMetadata`, `ValidateSeoConfig` |

Modelling choices:

- Local storage is a `Storage` object with one typed field per key
  (`visitStats`, `visitorId`, `visitHistory`, `pageId`); `None` is a key that
  is not stored. Serialisation is not modelled. The tracker's methods update
  these fields in place, and `Tracker.RecordVisit` is proved to leave exactly
  the store `AfterVisit` computes from the old one. All properties of a visit
  are proved about `AfterVisit`.
- Clock readings, random suffixes and the page location are the fields of an
  `Environment` passed to each page load: two ISO timestamps (`visitIso` for
  `lastVisit`, `todayIso` for today's date), plus the millisecond readings
  behind the two ids (`idMillis` for the visitor id, `pageMillis` for the
  page id).
- A stored visitor id or page id that is the empty string counts as absent,
  because the source tests it for truthiness.
- The analytics sink is the `Browser` value: whether `window` exists, whether
  `gtag` is a function, and the location fields the helpers read. A helper's
  result is `None` (no call) or `Some` of the one call it makes; `Calls` turns
  that into the log of calls the sink receives.
- Property bags are maps from names to JavaScript values. An omitted optional
  argument is `Undefined`, and a property set to `undefined` is kept as a key
  with that value, as object literals do.
- `encodeURIComponent` is the parameter `encode` of `GenerateMetadata`, and
  whether the `URL` constructor accepts the site url is its parameter
  `parsesAsUrl`. When the constructor rejects the url, the call throws.
- The site configuration is a record parameter, so the configuration check is
  stated for every configuration and not only the shipped one (`SiteConfig`).

Behaviour of the code that the model keeps as it is:

- The code has no error handling around reading the store, so a corrupted
  stored value throws. The model stores typed values and does not add a
  fallback.
- The code keeps the dates of the history distinct only when they already
  are. `AfterVisitDistinctDates` states it in that form.

## Model

| member | source | states |
|---|---|---|
| `VisitTracker.Tracker.constructor` | hooks/useVisitTracker.ts:15-19 | the hook's state starts as zero stats with an empty `lastVisit` |
| `VisitTracker.Tracker.RecordVisit` | hooks/useVisitTracker.ts:21-83 | the mount effect leaves exactly the store `AfterVisit` gives for the old store, and publishes the stored stats as the hook's state |
| `VisitTracker.LoadStats` | hooks/useVisitTracker.ts:23-30 | the stored stats, or zero stats with an empty `lastVisit` when the key is not stored |
| `VisitTracker.LoadHistory` | hooks/useVisitTracker.ts:46 | the stored history, or the empty history when the key is not stored |
| `VisitTracker.AfterVisit` | hooks/useVisitTracker.ts:21-66 | after a visit the stats and history are stored and the history holds at most 30 entries; a missing visitor id is replaced by a fresh non-empty one and a present one is kept; the page id behaves the same way |
| `VisitTracker.NextHistory` | hooks/useVisitTracker.ts:44-58 | the history a visit stores: find-or-append today's entry on the stored history, then keep the last 30 entries; stated by `AfterVisitDistinctDates`, `NewDayEvictsOldest` and `SameDayTwice` |
| `VisitTracker.NextStats` | hooks/useVisitTracker.ts:23-42 | starting from the stored stats, or zero stats when none are stored: total visits go up by exactly 1, unique visitors go up by 1 exactly when no visitor id was stored, and `lastVisit` is the visit's timestamp |
| `VisitTracker.NewVisitorId` | hooks/useVisitTracker.ts:35 | a minted visitor id is never empty, so it marks the browser as seen |
| `VisitTracker.DatePart` | hooks/useVisitTracker.ts:45 | the day key is the prefix of the timestamp before its first `T` and contains no `T` |
| `VisitTracker.DatePartOfTimestamp` | hooks/useVisitTracker.ts:45 | for a timestamp `<date>T<time>` the day key is exactly `<date>` |
| `VisitTracker.FindIndex` | hooks/useVisitTracker.ts:47 | the result is -1 exactly when no entry has today's date; otherwise it is the first index whose entry has that date |
| `VisitTracker.AddVisit` | hooks/useVisitTracker.ts:47-53 | increments the first entry for today, else appends `{today, 1}`; stated by `AddVisitExisting`, `AddVisitNew`, `AddVisitDistinct` and `AddVisitSum` |
| `VisitTracker.AddVisitExisting` | hooks/useVisitTracker.ts:47-50 | when today has an entry, the length is unchanged and only the first entry for today changes, with its visits up by one |
| `VisitTracker.AddVisitExistingDistinct` | hooks/useVisitTracker.ts:47-50 | with distinct dates, the entry that changes is the one for today and only its visit count goes up by one |
| `VisitTracker.AddVisitNew` | hooks/useVisitTracker.ts:51-53 | when no entry has today's date, `{today, 1}` is appended at the end and nothing else changes |
| `VisitTracker.AddVisitDistinct` | hooks/useVisitTracker.ts:47-53 | find-or-append keeps dates pairwise distinct, and the set of dates becomes the old set plus today |
| `VisitTracker.AddVisitSum` | hooks/useVisitTracker.ts:47-53 | find-or-append adds exactly one visit to the history's total visit count |
| `VisitTracker.KeepRecent` | hooks/useVisitTracker.ts:56-58 | the trimmed history has length `min(30, n)` and equals the last entries of the input, so the oldest are evicted first |
| `VisitTracker.KeepRecentDistinct` | hooks/useVisitTracker.ts:56-58 | trimming keeps dates pairwise distinct |
| `VisitTracker.NewDayEvictsOldest` | hooks/useVisitTracker.ts:47-58 | a new day on a full 30-entry history drops the first entry and appends `{today, 1}` |
| `VisitTracker.AfterVisitDistinctDates` | hooks/useVisitTracker.ts:44-62 | if the stored history has distinct dates, the history a visit stores has distinct dates too |
| `VisitTracker.ReturningVisits` | hooks/useVisitTracker.ts:33-41 | any number of visits by a known visitor add one total visit each, no unique visitor, and keep the visitor id |
| `VisitTracker.FreshVisits` | hooks/useVisitTracker.ts:23-41 | N ≥ 1 visits from a fresh browser profile give `totalVisits == N` and `uniqueVisitors == 1` |
| `VisitTracker.FirstVisit` | hooks/useVisitTracker.ts:23-62 | the first visit on an empty store counts stats `{1, 1, <timestamp>}` and starts the history `[{today, 1}]` |
| `VisitTracker.SameDayTwice` | hooks/useVisitTracker.ts:44-53 | two visits on one day from a fresh profile store exactly `[{today, 2}]` and stats `{2, 1, <second timestamp>}` |
| `VisitTracker.ResetThenVisit` | hooks/useVisitTracker.ts:109-119 | after a reset, one visit stores stats `{1, 1, <timestamp>}` and the history `[{today, 1}]` |
| `VisitTracker.PageIdStable` | hooks/useVisitTracker.ts:65-66 | a stored non-empty page id is unchanged by any number of later visits |
| `VisitTracker.SanitizeId` | hooks/useVisitTracker.ts:94 | the sanitised location has the input's length; each character is kept when alphanumeric and is `_` otherwise |
| `VisitTracker.NewPageId` | hooks/useVisitTracker.ts:91-98 | a generated page id is never empty |
| `VisitTracker.Tracker.GeneratePageId` | hooks/useVisitTracker.ts:86-103 | a stored non-empty page id is returned; otherwise the generated id is returned and stored; no other key changes |
| `VisitTracker.Tracker.GetVisitHistory` | hooks/useVisitTracker.ts:105-107 | returns the stored history, or `[]` when none is stored, and changes nothing |
| `VisitTracker.Tracker.ResetStats` | hooks/useVisitTracker.ts:109-119 | stores zero stats and an empty history, removes the visitor id, leaves the page id alone and resets the hook's state |
| `VisitTracker.AfterReset` | hooks/useVisitTracker.ts:110-117 | after a reset the store reads as zero stats and an empty history, the visitor id is absent, and the page id is unchanged |
| `VisitTracker.SameDayScenario` | hooks/useVisitTracker.ts:44-107 | on a fresh profile, the history read after one page load is `[{today, 1}]`, and after a second load on the same day it is `[{today, 2}]` |
| `VisitTracker.ResetScenario` | hooks/useVisitTracker.ts:21-119 | a reset followed by one page load, on any store, gives stats `{1, 1, <timestamp>}` and the history `[{today, 1}]` |
| `Analytics.IsGtagAvailable` | lib/analytics.ts:64-66 | the sink is available exactly when a window exists and `gtag` is a function; every helper's call is conditioned on it (`Emit`) |
| `Analytics.Emit` | lib/analytics.ts:64-66 | a call is made exactly when a window exists and `gtag` is a function, and then it is one `'event'` call with the given name and properties |
| `Analytics.TrackPageView` | lib/analytics.ts:68-77 | no call without the sink; otherwise a `page_view` event whose location and path are `pagePath` when it is truthy, else the window's href and pathname |
| `Analytics.TrackComponentView` | lib/analytics.ts:79-94 | no call without the sink; otherwise a `view` event with the fixed category, label, component and section, and every caller-supplied key overriding a fixed one |
| `Analytics.TrackUserInteraction` | lib/analytics.ts:96-114 | no call without the sink; otherwise one event named `action`, labelled `label` when truthy else `component`, with `action_type == action`; caller keys win over fixed fields |
| `Analytics.TrackConversion` | lib/analytics.ts:116-134 | no call without the sink; otherwise one `conversion` event labelled `label` when truthy else `conversionType`; caller keys win over fixed fields |
| `Analytics.TrackExternalLink` | lib/analytics.ts:136-151 | no call without the sink; otherwise a `click` event of category `external_link` labelled `linkText` when truthy else `url` |
| `Analytics.TrackDownload` | lib/analytics.ts:153-168 | no call without the sink; otherwise a `download` event labelled with the file name, carrying file name, component and file type |
| `Analytics.TrackThemeChange` | lib/analytics.ts:170-180 | no call without the sink; otherwise a `toggle` event of category `theme` labelled with the theme |
| `Analytics.PercentLabel` | lib/analytics.ts:188 | the scroll label is the decimal depth followed by `%`, and the depth can be read back from it |
| `Analytics.TrackScrollDepth` | lib/analytics.ts:182-192 | no call without the sink; otherwise a `scroll` event labelled `"<depth>%"` carrying the depth |
| `Analytics.TrackHover` | lib/analytics.ts:194-204 | no call without the sink; otherwise a `hover` event with exactly four fixed properties, labelled with the element |
| `Analytics.TrackFormSubmission` | lib/analytics.ts:206-221 | no call without the sink; otherwise a `submit` event whose success flag defaults to `true` only when omitted |
| `Analytics.TrackCustomEvent` | lib/analytics.ts:223-235 | no call without the sink; otherwise one event named by the event's action, carrying its fields, with its custom parameters overriding them |
| `Analytics.Intersecting` | lib/analytics.ts:259-260 | the entries of a batch the callback reports, in batch order; stated by `IntersectingSound`, `IntersectingComplete`, `IntersectingTargets` and `IntersectingDistinct` |
| `Analytics.IntersectingSound` | lib/analytics.ts:259-260 | the callback reports only intersecting entries of its batch |
| `Analytics.IntersectingComplete` | lib/analytics.ts:259-261 | the callback reports every intersecting entry of its batch |
| `Analytics.IntersectingTargets` | lib/analytics.ts:259-270 | every reported target is a target of the batch |
| `Analytics.IntersectingDistinct` | lib/analytics.ts:259-271 | a batch naming each target once reports each target at most once |
| `Analytics.ViewCalls` | lib/analytics.ts:261-269 | the component-view calls the sink receives for a sequence of reports, in order; stated by `ViewCallsCount` and `VisibilityObserver.Callback` |
| `Analytics.ViewCallsCount` | lib/analytics.ts:259-269 | the callback makes one `view` call per report when the sink is available, and none otherwise |
| `Analytics.ScrollIntoView` | lib/analytics.ts:257-271 | a fresh observer that watches one target and receives a batch reporting it sends exactly one `view` event for the component, carrying the entry's visibility ratio, and no longer watches the target |
| `Analytics.FireOnceAcrossBatches` | lib/analytics.ts:259-271 | a target reported in one batch is unobserved, so a later batch of observed targets cannot report it again |
| `Analytics.TwoBatches` | lib/analytics.ts:257-275 | on one observer, two batches in a row, the second drawn from the targets still watched, report disjoint targets; the observer loses both reported sets and the sink receives both batches' view calls in order |
| `Analytics.VisibilityObserver.constructor` | lib/analytics.ts:250-277 | a new observer watches nothing and has sent nothing |
| `Analytics.VisibilityObserver.Report` | lib/analytics.ts:260-271 | reporting one entry appends its component-view call to the sink and stops observing its target |
| `Analytics.VisibilityObserver.Callback` | lib/analytics.ts:257-275 | the observed set loses exactly the reported targets, and the sink receives one component-view call per intersecting entry, in order |
| `Analytics.VisibilityObserver.Observe` | hooks/useAnalytics.ts:31 | observing adds the target to the watched set and sends nothing |
| `Analytics.VisibilityObserver.Disconnect` | hooks/useAnalytics.ts:33-37 | the cleanup stops watching every target and sends nothing |
| `AnalyticsHooks.WithSection` | hooks/useAnalytics.ts:44-47 | the merged parameters hold `section_name` and the caller's keys, and caller keys win |
| `AnalyticsHooks.TrackClick` | hooks/useAnalytics.ts:42-50 | an interaction event for the hook's component, with `section_name` added and caller keys winning over every fixed field |
| `AnalyticsHooks.HeroContactClick` | components/Hero.tsx:15-19 | Hero's click keeps its own `action_type: 'scroll_to_contact'` over the helper's, plus the hook's section and component |
| `AnalyticsHooks.TrackHoverEvent` | hooks/useAnalytics.ts:52-58 | a hover event for the hook's component |
| `AnalyticsHooks.TrackLinkClick` | hooks/useAnalytics.ts:60-66 | an external-link click for the hook's component, labelled with the link text or the url |
| `AnalyticsHooks.TrackDownloadEvent` | hooks/useAnalytics.ts:68-74 | a download event for the hook's component with the given file type |
| `AnalyticsHooks.TrackConversionEvent` | hooks/useAnalytics.ts:76-85 | a conversion event for the hook's component, with `section_name` added and caller keys winning |
| `AnalyticsHooks.TrackFormSubmit` | hooks/useAnalytics.ts:87-93 | a submit event for the hook's component whose success defaults to `true` |
| `AnalyticsHooks.TrackCustom` | hooks/useAnalytics.ts:95-105 | the custom event always carries the hook's component and section, whatever the event held |
| `AnalyticsHooks.TrackCustomIgnoresEventOrigin` | hooks/useAnalytics.ts:98-102 | the component and section the caller's event carries make no difference to the call |
| `AnalyticsHooks.TrackThemeToggle` | hooks/useAnalytics.ts:157-163 | a theme event attributed to the theme toggle |
| `AnalyticsHooks.TrackEmailClick` | hooks/useAnalytics.ts:172-183 | a `click` event labelled `email_click` for the contact component with the address and no value |
| `AnalyticsHooks.TrackSocialClick` | hooks/useAnalytics.ts:185-190 | an external-link click labelled `"<platform>_profile"` for the contact component |
| `AnalyticsHooks.TrackResumeDownloadAsWritten` | hooks/useAnalytics.ts:192-201 | as written, the resume download makes two calls when the sink is available and none otherwise: first a `download` event for the contact component with `file_type "pdf"` and the file name, then a `conversion` event |
| `AnalyticsHooks.ResumeConversionAsWritten` | hooks/useAnalytics.ts:195-198 | as written, the conversion is attributed to the file name, labelled `1`, and carries the details object as its value |
| `AnalyticsHooks.TrackResumeDownload` | hooks/useAnalytics.ts:192-201 | corrected: a pdf download event, then a conversion for the contact component labelled with the file name, value 1, and the details as properties |
| `AnalyticsHooks.TrackProjectView` | hooks/useAnalytics.ts:212-220 | a `view` event for the projects component, section `project_card`, with project name and status |
| `AnalyticsHooks.TrackProjectClick` | hooks/useAnalytics.ts:222-230 | an interaction event named by the action, labelled with the project name, with name and url |
| `AnalyticsHooks.TrackTechBadgeHover` | hooks/useAnalytics.ts:232-240 | a hover on `tech_badge_<tech>` for the projects component; the extra object is dropped |
| `AnalyticsHooks.TrackSkillHover` | hooks/useAnalytics.ts:251-259 | a hover on `skill_<name>` for the skills component; the extra object is dropped |
| `AnalyticsHooks.TrackCategoryView` | hooks/useAnalytics.ts:261-268 | a `view` event for the skills component, section `skill_category`, with the category name |
| `AnalyticsHooks.TrackAchievementView` | hooks/useAnalytics.ts:278-286 | a `view` event for the experience component, section `achievement`, with achievement and company |
| `AnalyticsHooks.TrackWorkProjectView` | hooks/useAnalytics.ts:288-296 | a `view` event for the experience component, section `work_project`, with project and company |
| `Seo.GenerateMetadata` | lib/seo.ts:64-109 | the call throws `Invalid URL` exactly when the `URL` constructor rejects the site url; otherwise the metadata base is the site url, the title is the page title, a spaced vertical bar and the site name for a non-empty page title, else the default; the description falls back the same way; the canonical and Open Graph urls are the site url plus the path; Open Graph and Twitter share title, description and image; keywords are joined with `", "` |
| `Seo.PageTitleShape` | lib/seo.ts:65 | when the call succeeds, a page title begins with the page title and ends with a spaced vertical bar and the site name |
| `Seo.KeywordsJoin` | lib/seo.ts:73 | adding a keyword does not change whether the call throws, and one more configured keyword appends `", "` and that keyword to the keywords string |
| `Seo.MissingKeys` | lib/seo.ts:283 | the missing keys are exactly the required keys whose value is empty, in the required order |
| `Seo.ValidateSeoConfig` | lib/seo.ts:281-290 | the check throws exactly when some required key is empty, with a message naming the missing keys in order; otherwise it returns `true` |
| `Seo.SiteConfigValid` | lib/seo.ts:7-61 | the shipped configuration passes the check |
| `Seo.MissingUrlAndAuthor` | lib/seo.ts:282-286 | with only the url and author empty, the message is `"Missing required SEO configuration: siteUrl, author"` |

## Left out

- The visitor-badge beacon and the removal of its image after a delay (hooks/useVisitTracker.ts:69-79): network and DOM work.
- Serialising the stored values: the store holds typed values. A corrupted stored value would make the source throw; that path is not modelled.
- Clock readings, random suffixes and the page location are inputs (`Environment`); how the random suffix is drawn is not modelled.
- Several browser tabs loading at once can count a visit twice; concurrency is not modelled.
- `debounceAnalytics` and the debounced scroll callbacks of `useAnalytics` and `usePageAnalytics`: they depend on timer scheduling, and the scroll percentage is floating-point.
- `usePageAnalytics` sends `trackPageView` on mount; the call itself is `Analytics.TrackPageView`, and React's effect scheduling is not modelled.
- The React machinery (state, refs, effects, memoised callbacks): a hook instance is a `Tracker` object or a `Hook` record.
- `trackComponentVisibility` without a window returns no observer; only the case with a window is modelled. The visibility threshold and the geometry are the browser's business: an entry arrives already marked intersecting or not, and its ratio and bounding box are opaque values.
- JavaScript numbers are integers here; fractions and NaN are not modelled.
- `Analytics.VisibilityObserver.Callback`: the entries of a batch are taken as given; that the browser fills a batch only with observed targets appears as the precondition of `FireOnceAcrossBatches`.
- `generateMetadata`'s constant fields (format detection, robots, verification, category, classification, other) are not modelled.
- `Seo.GenerateMetadata`: the metadata base is kept as the url string, not as a parsed `URL` object. Which strings the `URL` constructor accepts is the parameter `parsesAsUrl`, so the WHATWG URL parser is not part of this model.
- `generateStructuredData`, `generateSitemapData` (reads the clock), `generateRobotsTxt`, `SEO_CONTENT` and `getPageSEOContent`: constant records and a clock read.
- `encodeURIComponent` is an uninterpreted parameter.
- The presentational components and pages, the Open Graph image route, the robots route and the visit dashboard's averages are not part of this model.

## Findings

| source | as written | input that shows it | evidently intended | confidence | as-written member | corrected member |
|---|---|---|---|---|---|---|
| hooks/useAnalytics.ts:195 | the resume download calls the library's `trackConversion` with the hook's argument order `(type, label, value, params)`, so the file name becomes the component, `1` becomes the label, and the details object becomes the value and never reaches the event's properties | sink available, `trackResumeDownload("resume.pdf")`: the conversion has `component_name "resume.pdf"`, `event_label 1`, `value {file_type, download_source}` and no `file_type` property | the contact component, the file name as label, value 1, and the details as properties, as Hero's call through the hook (components/Hero.tsx:32) shows | medium, not executed | `AnalyticsHooks.ResumeConversionAsWritten` | `AnalyticsHooks.TrackResumeDownload` |
