/**
 * The Google Analytics facade of lib/analytics.ts.
 *
 * The global `window.gtag` is the sink. Each `track*` helper is a function from
 * what the browser offers and its arguments to the call it makes on the sink:
 * `None` when the sink is unavailable, else exactly one `'event'` call. The
 * visibility helper is an observer object that keeps the set of targets it
 * still watches and the calls it has sent.
 */
module Analytics {
  import opened JsValues
  import opened Strings

  // ANALYTICS_CATEGORIES
  const CategoryPageView := "page_view"
  const CategoryComponentView := "component_view"
  const CategoryUserInteraction := "user_interaction"
  const CategoryConversion := "conversion"
  const CategoryNavigation := "navigation"
  const CategoryTheme := "theme"
  const CategoryDownload := "download"
  const CategoryExternalLink := "external_link"

  // ANALYTICS_ACTIONS
  const ActionView := "view"
  const ActionClick := "click"
  const ActionHover := "hover"
  const ActionScroll := "scroll"
  const ActionDownload := "download"
  const ActionOpen := "open"
  const ActionClose := "close"
  const ActionToggle := "toggle"
  const ActionSubmit := "submit"
  const ActionCopy := "copy"

  // ANALYTICS_COMPONENTS
  const ComponentHero := "hero"
  const ComponentSkills := "skills"
  const ComponentExperience := "experience"
  const ComponentProjects := "personal_projects"
  const ComponentContact := "contact"
  const ComponentThemeToggle := "theme_toggle"
  const ComponentNavigation := "navigation"
  const ComponentFooter := "footer"

  /** What the tracking code can see of the page it runs in. */
  datatype Browser = Browser(
    hasWindow: bool,       // typeof window !== 'undefined'
    gtagIsFunction: bool,  // typeof window.gtag === 'function'
    href: string,          // window.location.href
    pathname: string)      // window.location.pathname

  /** One call `window.gtag(command, eventName, params)`. */
  datatype SinkCall = SinkCall(command: string, eventName: string, params: Props)

  /** `AnalyticsEvent`, the argument of `trackCustomEvent`. */
  datatype AnalyticsEvent = AnalyticsEvent(
    action: string,
    category: string,
    eventLabel: Value,
    value: Value,
    component: Value,
    section: Value,
    customParameters: Option<Props>)

  predicate IsGtagAvailable(b: Browser) {
    b.hasWindow && b.gtagIsFunction
  }

  /** The calls the sink receives from one helper invocation. */
  function Calls(o: Option<SinkCall>): (r: seq<SinkCall>)
    ensures |r| <= 1
    ensures o.None? ==> r == []
    ensures o.Some? ==> r == [o.value]
  {
    match o
    case None => []
    case Some(c) => [c]
  }

  /** The guard and the single sink call that every helper ends in. */
  function Emit(b: Browser, eventName: string, params: Props): (r: Option<SinkCall>)
    ensures r.Some? <==> IsGtagAvailable(b)
    ensures r.Some? ==> r.value.command == "event" && r.value.eventName == eventName && r.value.params == params
  {
    if IsGtagAvailable(b) then Some(SinkCall("event", eventName, params)) else None
  }

  /** Every key of `custom` is in `p` with the caller's value: spread last, it wins. */
  predicate Overrides(p: Props, custom: Props) {
    forall k :: k in custom ==> k in p && p[k] == custom[k]
  }

  /** The property bag holds `key` with value `v`. */
  predicate Has(p: Props, key: string, v: Value) {
    key in p && p[key] == v
  }

  /** A fixed field keeps its value unless the caller's parameters name the same key. */
  predicate Keeps(p: Props, custom: Props, key: string, v: Value) {
    key !in custom ==> key in p && p[key] == v
  }

  /** `trackPageView(pageName, pagePath?)` */
  function TrackPageView(b: Browser, pageName: string, pagePath: Value): (r: Option<SinkCall>)
    ensures r.Some? <==> IsGtagAvailable(b)
    ensures r.Some? ==> var p := r.value.params;
      && r.value.command == "event" && r.value.eventName == "page_view"
      && p.Keys == {"page_title", "page_location", "page_path"}
      && p["page_title"] == Str(pageName)
      && (Truthy(pagePath) ==> p["page_location"] == pagePath && p["page_path"] == pagePath)
      && (!Truthy(pagePath) ==> p["page_location"] == Str(b.href) && p["page_path"] == Str(b.pathname))
  {
    Emit(b, "page_view", map[
      "page_title" := Str(pageName),
      "page_location" := Or(pagePath, Str(b.href)),
      "page_path" := Or(pagePath, Str(b.pathname))])
  }

  /** `trackComponentView(component, section?, customParameters?)` */
  function TrackComponentView(b: Browser, component: string, section: Value, custom: Option<Props>): (r: Option<SinkCall>)
    ensures r.Some? <==> IsGtagAvailable(b)
    ensures r.Some? ==> var p, c := r.value.params, Spread(custom);
      && r.value.command == "event" && r.value.eventName == ActionView
      && p.Keys == {"event_category", "event_label", "component_name", "section_name"} + c.Keys
      && Overrides(p, c)
      && Keeps(p, c, "event_category", Str(CategoryComponentView))
      && Keeps(p, c, "event_label", Str(component))
      && Keeps(p, c, "component_name", Str(component))
      && Keeps(p, c, "section_name", section)
  {
    Emit(b, ActionView, map[
      "event_category" := Str(CategoryComponentView),
      "event_label" := Str(component),
      "component_name" := Str(component),
      "section_name" := section] + Spread(custom))
  }

  /** `trackUserInteraction(action, component, label?, value?, customParameters?)` */
  function TrackUserInteraction(b: Browser, action: string, component: string, eventLabel: Value, value: Value, custom: Option<Props>): (r: Option<SinkCall>)
    ensures r.Some? <==> IsGtagAvailable(b)
    ensures r.Some? ==> var p, c := r.value.params, Spread(custom);
      && r.value.command == "event" && r.value.eventName == action
      && p.Keys == {"event_category", "event_label", "component_name", "action_type", "value"} + c.Keys
      && Overrides(p, c)
      && Keeps(p, c, "event_category", Str(CategoryUserInteraction))
      && Keeps(p, c, "event_label", if Truthy(eventLabel) then eventLabel else Str(component))
      && Keeps(p, c, "component_name", Str(component))
      && Keeps(p, c, "action_type", Str(action))
      && Keeps(p, c, "value", value)
  {
    Emit(b, action, map[
      "event_category" := Str(CategoryUserInteraction),
      "event_label" := Or(eventLabel, Str(component)),
      "component_name" := Str(component),
      "action_type" := Str(action),
      "value" := value] + Spread(custom))
  }

  /** `trackConversion(conversionType, component, label?, value?, customParameters?)` */
  function TrackConversion(b: Browser, conversionType: string, component: string, eventLabel: Value, value: Value, custom: Option<Props>): (r: Option<SinkCall>)
    ensures r.Some? <==> IsGtagAvailable(b)
    ensures r.Some? ==> var p, c := r.value.params, Spread(custom);
      && r.value.command == "event" && r.value.eventName == "conversion"
      && p.Keys == {"event_category", "event_label", "conversion_type", "component_name", "value"} + c.Keys
      && Overrides(p, c)
      && Keeps(p, c, "event_category", Str(CategoryConversion))
      && Keeps(p, c, "event_label", if Truthy(eventLabel) then eventLabel else Str(conversionType))
      && Keeps(p, c, "conversion_type", Str(conversionType))
      && Keeps(p, c, "component_name", Str(component))
      && Keeps(p, c, "value", value)
  {
    Emit(b, "conversion", map[
      "event_category" := Str(CategoryConversion),
      "event_label" := Or(eventLabel, Str(conversionType)),
      "conversion_type" := Str(conversionType),
      "component_name" := Str(component),
      "value" := value] + Spread(custom))
  }

  /** `trackExternalLink(url, component, linkText?)` */
  function TrackExternalLink(b: Browser, url: string, component: string, linkText: Value): (r: Option<SinkCall>)
    ensures r.Some? <==> IsGtagAvailable(b)
    ensures r.Some? ==> var p := r.value.params;
      && r.value.command == "event" && r.value.eventName == ActionClick
      && p.Keys == {"event_category", "event_label", "component_name", "link_url", "link_text"}
      && p["event_category"] == Str(CategoryExternalLink)
      && p["event_label"] == (if Truthy(linkText) then linkText else Str(url))
      && p["component_name"] == Str(component)
      && p["link_url"] == Str(url)
      && p["link_text"] == linkText
  {
    Emit(b, ActionClick, map[
      "event_category" := Str(CategoryExternalLink),
      "event_label" := Or(linkText, Str(url)),
      "component_name" := Str(component),
      "link_url" := Str(url),
      "link_text" := linkText])
  }

  /** `trackDownload(fileName, component, fileType?)` */
  function TrackDownload(b: Browser, fileName: string, component: string, fileType: Value): (r: Option<SinkCall>)
    ensures r.Some? <==> IsGtagAvailable(b)
    ensures r.Some? ==> var p := r.value.params;
      && r.value.command == "event" && r.value.eventName == ActionDownload
      && p.Keys == {"event_category", "event_label", "component_name", "file_name", "file_type"}
      && p["event_category"] == Str(CategoryDownload)
      && p["event_label"] == Str(fileName) && p["file_name"] == Str(fileName)
      && p["component_name"] == Str(component)
      && p["file_type"] == fileType
  {
    Emit(b, ActionDownload, map[
      "event_category" := Str(CategoryDownload),
      "event_label" := Str(fileName),
      "component_name" := Str(component),
      "file_name" := Str(fileName),
      "file_type" := fileType])
  }

  /** `trackThemeChange(theme, component)` */
  function TrackThemeChange(b: Browser, theme: string, component: string): (r: Option<SinkCall>)
    ensures r.Some? <==> IsGtagAvailable(b)
    ensures r.Some? ==> var p := r.value.params;
      && r.value.command == "event" && r.value.eventName == ActionToggle
      && p.Keys == {"event_category", "event_label", "component_name", "theme_name"}
      && p["event_category"] == Str(CategoryTheme)
      && p["event_label"] == Str(theme) && p["theme_name"] == Str(theme)
      && p["component_name"] == Str(component)
  {
    Emit(b, ActionToggle, map[
      "event_category" := Str(CategoryTheme),
      "event_label" := Str(theme),
      "component_name" := Str(component),
      "theme_name" := Str(theme)])
  }

  /** `${depth}%`: the decimal depth followed by a percent sign, from which the depth can be read back. */
  function PercentLabel(depth: int): (s: string)
    ensures |s| >= 2 && s[|s| - 1] == '%'
    ensures var digits := s[..|s| - 1];
      (AllDigits(digits) || (digits[0] == '-' && AllDigits(digits[1..]))) && ParseInt(digits) == depth
  {
    var digits := IntToString(depth);
    ParseIntToString(depth);
    assert (digits + "%")[..|digits|] == digits;
    digits + "%"
  }

  /** `trackScrollDepth(depth, component)` */
  function TrackScrollDepth(b: Browser, depth: int, component: string): (r: Option<SinkCall>)
    ensures r.Some? <==> IsGtagAvailable(b)
    ensures r.Some? ==> var p := r.value.params;
      && r.value.command == "event" && r.value.eventName == ActionScroll
      && p.Keys == {"event_category", "event_label", "component_name", "scroll_depth"}
      && p["event_category"] == Str(CategoryUserInteraction)
      && p["event_label"] == Str(PercentLabel(depth))
      && p["component_name"] == Str(component)
      && p["scroll_depth"] == Num(depth)
  {
    Emit(b, ActionScroll, map[
      "event_category" := Str(CategoryUserInteraction),
      "event_label" := Str(PercentLabel(depth)),
      "component_name" := Str(component),
      "scroll_depth" := Num(depth)])
  }

  /** `trackHover(component, element)`: it has no parameter for extra properties. */
  function TrackHover(b: Browser, component: string, element: string): (r: Option<SinkCall>)
    ensures r.Some? <==> IsGtagAvailable(b)
    ensures r.Some? ==> var p := r.value.params;
      && r.value.command == "event" && r.value.eventName == ActionHover
      && p.Keys == {"event_category", "event_label", "component_name", "hover_element"}
      && p["event_category"] == Str(CategoryUserInteraction)
      && p["event_label"] == Str(element) && p["hover_element"] == Str(element)
      && p["component_name"] == Str(component)
  {
    Emit(b, ActionHover, map[
      "event_category" := Str(CategoryUserInteraction),
      "event_label" := Str(element),
      "component_name" := Str(component),
      "hover_element" := Str(element)])
  }

  /** A JavaScript default parameter: the default replaces `undefined` only. */
  function Default(v: Value, d: Value): Value {
    if v == Undefined then d else v
  }

  /** `trackFormSubmission(formName, component, success = true)` */
  function TrackFormSubmission(b: Browser, formName: string, component: string, success: Value): (r: Option<SinkCall>)
    ensures r.Some? <==> IsGtagAvailable(b)
    ensures r.Some? ==> var p := r.value.params;
      && r.value.command == "event" && r.value.eventName == ActionSubmit
      && p.Keys == {"event_category", "event_label", "component_name", "form_name", "submission_success"}
      && p["event_category"] == Str(CategoryConversion)
      && p["event_label"] == Str(formName) && p["form_name"] == Str(formName)
      && p["component_name"] == Str(component)
      && p["submission_success"] == (if success == Undefined then Bool(true) else success)
  {
    Emit(b, ActionSubmit, map[
      "event_category" := Str(CategoryConversion),
      "event_label" := Str(formName),
      "component_name" := Str(component),
      "form_name" := Str(formName),
      "submission_success" := Default(success, Bool(true))])
  }

  /** `trackCustomEvent(event)` */
  function TrackCustomEvent(b: Browser, e: AnalyticsEvent): (r: Option<SinkCall>)
    ensures r.Some? <==> IsGtagAvailable(b)
    ensures r.Some? ==> var p, c := r.value.params, Spread(e.customParameters);
      && r.value.command == "event" && r.value.eventName == e.action
      && p.Keys == {"event_category", "event_label", "component_name", "section_name", "value"} + c.Keys
      && Overrides(p, c)
      && Keeps(p, c, "event_category", Str(e.category))
      && Keeps(p, c, "event_label", e.eventLabel)
      && Keeps(p, c, "component_name", e.component)
      && Keeps(p, c, "section_name", e.section)
      && Keeps(p, c, "value", e.value)
  {
    Emit(b, e.action, map[
      "event_category" := Str(e.category),
      "event_label" := e.eventLabel,
      "component_name" := e.component,
      "section_name" := e.section,
      "value" := e.value] + Spread(e.customParameters))
  }

  // ---------------------------------------------------------------------------
  // Visibility tracking

  /** One IntersectionObserver entry; the geometry is kept opaque. */
  datatype Entry = Entry(target: nat, isIntersecting: bool, intersectionRatio: Value, boundingRect: Value)

  /** The extra properties a visibility report carries. */
  function ViewDetails(e: Entry): Props {
    map["visibility_ratio" := e.intersectionRatio, "bounding_rect" := e.boundingRect]
  }

  function Targets(es: seq<Entry>): set<nat> {
    set i | 0 <= i < |es| :: es[i].target
  }

  predicate DistinctTargets(es: seq<Entry>) {
    forall i, j :: 0 <= i < j < |es| ==> es[i].target != es[j].target
  }

  /** The entries of a callback batch that the callback reports: the intersecting ones, in order. */
  function Intersecting(entries: seq<Entry>): seq<Entry> {
    if |entries| == 0 then []
    else
      var last := entries[|entries| - 1];
      Intersecting(entries[..|entries| - 1]) + if last.isIntersecting then [last] else []
  }

  /** Only intersecting entries of the batch are reported. */
  lemma {:induction false} IntersectingSound(entries: seq<Entry>)
    ensures forall i :: 0 <= i < |Intersecting(entries)| ==>
      Intersecting(entries)[i].isIntersecting && Intersecting(entries)[i] in entries
  {
    if |entries| > 0 {
      var init, last := entries[..|entries| - 1], entries[|entries| - 1];
      assert entries == init + [last];
      IntersectingSound(init);
    }
  }

  /** Every intersecting entry of the batch is reported. */
  lemma {:induction false} IntersectingComplete(entries: seq<Entry>, e: Entry)
    requires e in entries && e.isIntersecting
    ensures e in Intersecting(entries)
  {
    var init, last := entries[..|entries| - 1], entries[|entries| - 1];
    assert entries == init + [last];
    if e != last {
      IntersectingComplete(init, e);
    }
  }

  lemma IntersectingSnoc(es: seq<Entry>, e: Entry)
    ensures Intersecting(es + [e]) == Intersecting(es) + if e.isIntersecting then [e] else []
  {
    assert (es + [e])[..|es|] == es;
  }

  lemma TargetsSnoc(es: seq<Entry>, e: Entry)
    ensures Targets(es + [e]) == Targets(es) + {e.target}
  {
    assert forall i :: 0 <= i < |es| ==> (es + [e])[i] == es[i];
    assert (es + [e])[|es|] == e;
  }

  /** A reported target is one of the batch's targets. */
  lemma IntersectingTargets(entries: seq<Entry>)
    ensures Targets(Intersecting(entries)) <= Targets(entries)
  {
    var r := Intersecting(entries);
    IntersectingSound(entries);
    forall t | t in Targets(r) ensures t in Targets(entries) {
      var i :| 0 <= i < |r| && r[i].target == t;
      var j :| 0 <= j < |entries| && entries[j] == r[i];
    }
  }

  /** A batch that names each target once reports each target at most once. */
  lemma {:induction false} IntersectingDistinct(entries: seq<Entry>)
    requires DistinctTargets(entries)
    ensures DistinctTargets(Intersecting(entries))
  {
    if |entries| > 0 {
      var init, last := entries[..|entries| - 1], entries[|entries| - 1];
      IntersectingDistinct(init);
      if last.isIntersecting {
        var r := Intersecting(init);
        IntersectingTargets(init);
        assert last.target !in Targets(init) by {
          forall j | 0 <= j < |init| ensures init[j].target != last.target {
            assert entries[j] == init[j];
          }
        }
        forall i | 0 <= i < |r| ensures r[i].target != last.target {
          assert r[i].target in Targets(r);
        }
        assert Intersecting(entries) == r + [last];
      }
    }
  }

  /** The sink calls made when the observer reports one entry. */
  function ViewCall(b: Browser, component: string, section: Value, e: Entry): seq<SinkCall> {
    Calls(TrackComponentView(b, component, section, Some(ViewDetails(e))))
  }

  /** The sink calls made for a sequence of visibility reports. */
  function ViewCalls(b: Browser, component: string, section: Value, reports: seq<Entry>): seq<SinkCall> {
    if |reports| == 0 then []
    else ViewCalls(b, component, section, reports[..|reports| - 1]) + ViewCall(b, component, section, reports[|reports| - 1])
  }

  lemma ViewCallsSnoc(b: Browser, component: string, section: Value, reports: seq<Entry>, e: Entry)
    ensures ViewCalls(b, component, section, reports + [e]) ==
      ViewCalls(b, component, section, reports) + ViewCall(b, component, section, e)
  {
    assert (reports + [e])[..|reports|] == reports;
  }

  /** What handling the entry at index `i` adds to the reports, their calls and their targets. */
  lemma CallbackStep(b: Browser, component: string, section: Value, entries: seq<Entry>, i: nat)
    requires i < |entries|
    ensures var done, e := Intersecting(entries[..i]), entries[i];
      && Intersecting(entries[..i + 1]) == done + (if e.isIntersecting then [e] else [])
      && ViewCalls(b, component, section, Intersecting(entries[..i + 1])) ==
           ViewCalls(b, component, section, done)
           + (if e.isIntersecting then ViewCall(b, component, section, e) else [])
      && Targets(Intersecting(entries[..i + 1])) == Targets(done) + (if e.isIntersecting then {e.target} else {})
  {
    var done, e := Intersecting(entries[..i]), entries[i];
    assert entries[..i + 1] == entries[..i] + [e];
    IntersectingSnoc(entries[..i], e);
    if e.isIntersecting {
      ViewCallsSnoc(b, component, section, done, e);
      TargetsSnoc(done, e);
    } else {
      assert done + [] == done;
    }
  }

  /** One component-view call per report when the sink is available, none otherwise. */
  lemma {:induction false} ViewCallsCount(b: Browser, component: string, section: Value, reports: seq<Entry>)
    ensures |ViewCalls(b, component, section, reports)| == if IsGtagAvailable(b) then |reports| else 0
    ensures forall i :: 0 <= i < |ViewCalls(b, component, section, reports)| ==>
      ViewCalls(b, component, section, reports)[i].eventName == ActionView
  {
    if |reports| > 0 {
      ViewCallsCount(b, component, section, reports[..|reports| - 1]);
    }
  }

  /**
   * A target reported by one batch is no longer observed, so a later batch,
   * which the browser fills only with observed targets, cannot report it again.
   */
  lemma FireOnceAcrossBatches(observed: set<nat>, first: seq<Entry>, later: seq<Entry>)
    requires Targets(later) <= observed - Targets(Intersecting(first))
    ensures Targets(Intersecting(first)) !! Targets(Intersecting(later))
  {
    IntersectingTargets(later);
  }

  /** The observer `trackComponentVisibility` creates, with the calls it has sent. */
  class VisibilityObserver {
    const component: string
    const section: Value
    var observed: set<nat>
    var sent: seq<SinkCall>

    /** `trackComponentVisibility(component, section)` in a page that has a window. */
    constructor (component: string, section: Value)
      ensures this.component == component && this.section == section
      ensures observed == {} && sent == []
    {
      this.component := component;
      this.section := section;
      observed := {};
      sent := [];
    }

    method Observe(target: nat)
      modifies this
      ensures observed == old(observed) + {target} && sent == old(sent)
    {
      observed := observed + {target};
    }

    /** What the hook's cleanup does on unmount. */
    method Disconnect()
      modifies this
      ensures observed == {} && sent == old(sent)
    {
      observed := {};
    }

    /** Report one visible entry to the sink, then stop observing its target. */
    method Report(b: Browser, entry: Entry)
      modifies this
      ensures observed == old(observed) - {entry.target}
      ensures sent == old(sent) + ViewCall(b, component, section, entry)
    {
      sent := sent + Calls(TrackComponentView(b, component, section, Some(ViewDetails(entry))));
      observed := observed - {entry.target};
    }

    /**
     * The observer callback on one batch of entries. Every intersecting entry
     * is reported to the sink and its target unobserved right away.
     */
    method Callback(b: Browser, entries: seq<Entry>)
      modifies this
      ensures observed == old(observed) - Targets(Intersecting(entries))
      ensures sent == old(sent) + ViewCalls(b, component, section, Intersecting(entries))
    {
      var i := 0;
      ghost var done: seq<Entry> := [];
      while i < |entries|
        invariant 0 <= i <= |entries|
        invariant done == Intersecting(entries[..i])
        invariant observed == old(observed) - Targets(done)
        invariant sent == old(sent) + ViewCalls(b, component, section, done)
      {
        var entry := entries[i];
        CallbackStep(b, component, section, entries, i);
        if entry.isIntersecting {
          Report(b, entry);
          assert sent == old(sent) + (ViewCalls(b, component, section, done) + ViewCall(b, component, section, entry));
          done := done + [entry];
        }
        i := i + 1;
      }
      assert entries[..|entries|] == entries;
    }
  }

  /**
   * One component watched by a fresh observer scrolls into view: the sink
   * receives one view event for the component, and the target is no longer
   * watched, so no later batch can report it again.
   */
  method ScrollIntoView(b: Browser, component: string, section: Value, entry: Entry)
    returns (o: VisibilityObserver)
    requires IsGtagAvailable(b)
    requires entry.isIntersecting
    ensures entry.target !in o.observed
    ensures |o.sent| == 1
    ensures o.sent[0].eventName == ActionView
    ensures Has(o.sent[0].params, "component_name", Str(component))
    ensures Has(o.sent[0].params, "visibility_ratio", entry.intersectionRatio)
  {
    o := new VisibilityObserver(component, section);
    o.Observe(entry.target);
    o.Callback(b, [entry]);
    assert Intersecting([entry]) == [entry] by {
      IntersectingSnoc([], entry);
      assert [] + [entry] == [entry];
    }
    assert ViewCalls(b, component, section, [entry]) == ViewCall(b, component, section, entry) by {
      ViewCallsSnoc(b, component, section, [], entry);
      assert [] + [entry] == [entry];
    }
    var details := ViewDetails(entry);
    var call := TrackComponentView(b, component, section, Some(details));
    assert Spread(Some(details)) == details;
    assert "component_name" !in details && "visibility_ratio" in details;
    assert o.sent == [call.value];
  }

  /**
   * Two batches delivered one after the other to the same observer, the second
   * drawn only from the targets still watched after the first: no target is
   * reported twice.
   */
  method TwoBatches(o: VisibilityObserver, b: Browser, first: seq<Entry>, later: seq<Entry>)
    modifies o
    requires Targets(later) <= o.observed - Targets(Intersecting(first))
    ensures Targets(Intersecting(first)) !! Targets(Intersecting(later))
    ensures o.observed == old(o.observed) - Targets(Intersecting(first)) - Targets(Intersecting(later))
    ensures o.sent == old(o.sent) + ViewCalls(b, o.component, o.section, Intersecting(first))
                                  + ViewCalls(b, o.component, o.section, Intersecting(later))
  {
    o.Callback(b, first);
    o.Callback(b, later);
    FireOnceAcrossBatches(old(o.observed), first, later);
  }
}
