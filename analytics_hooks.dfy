/**
 * The callbacks returned by the hooks of hooks/useAnalytics.ts. Each one only
 * reshapes its arguments and calls a helper of lib/analytics.ts; here each is a
 * function to the sink call(s) that result, and its contract says what the
 * emitted properties are.
 */
module AnalyticsHooks {
  import opened JsValues
  import opened Strings
  import opened Analytics

  /** The arguments a component passed to `useAnalytics(componentName, section?)`. */
  datatype Hook = Hook(componentName: string, section: Value)

  /** `{ section_name: section, ...customParameters }` */
  function WithSection(section: Value, custom: Option<Props>): (p: Props)
    ensures p.Keys == {"section_name"} + Spread(custom).Keys
    ensures Overrides(p, Spread(custom))
    ensures Keeps(p, Spread(custom), "section_name", section)
  {
    map["section_name" := section] + Spread(custom)
  }

  // ---------------------------------------------------------------------------
  // useAnalytics(componentName, section?)

  /** `trackClick(action, label?, value?, customParameters?)` */
  function TrackClick(b: Browser, h: Hook, action: string, eventLabel: Value, value: Value, custom: Option<Props>): (r: Option<SinkCall>)
    ensures r.Some? <==> IsGtagAvailable(b)
    ensures r.Some? ==> var p, c := r.value.params, Spread(custom);
      && r.value.command == "event" && r.value.eventName == action
      && p.Keys == {"event_category", "event_label", "component_name", "action_type", "value", "section_name"} + c.Keys
      && Overrides(p, c)
      && Keeps(p, c, "section_name", h.section)
      && Keeps(p, c, "component_name", Str(h.componentName))
      && Keeps(p, c, "action_type", Str(action))
      && Keeps(p, c, "event_label", if Truthy(eventLabel) then eventLabel else Str(h.componentName))
      && Keeps(p, c, "event_category", Str(CategoryUserInteraction))
      && Keeps(p, c, "value", value)
  {
    TrackUserInteraction(b, action, h.componentName, eventLabel, value, Some(WithSection(h.section, custom)))
  }

  /** Hero's contact button: its own `action_type` replaces the one the helper sets. */
  lemma HeroContactClick(b: Browser)
    requires IsGtagAvailable(b)
    ensures var r := TrackClick(b, Hook(ComponentHero, Str("hero_section")), ActionClick, Str("contact_button"), Undefined,
        Some(map["action_type" := Str("scroll_to_contact"), "button_text" := Str("Contact Me")]));
      && r.Some? && r.value.eventName == "click"
      && Has(r.value.params, "action_type", Str("scroll_to_contact"))
      && Has(r.value.params, "button_text", Str("Contact Me"))
      && Has(r.value.params, "section_name", Str("hero_section"))
      && Has(r.value.params, "component_name", Str("hero"))
      && Has(r.value.params, "event_label", Str("contact_button"))
  {
  }

  /** `trackHover(element)` of the hook */
  function TrackHoverEvent(b: Browser, h: Hook, element: string): (r: Option<SinkCall>)
    ensures r.Some? <==> IsGtagAvailable(b)
    ensures r.Some? ==> var p := r.value.params;
      && r.value.eventName == ActionHover
      && Has(p, "component_name", Str(h.componentName))
      && Has(p, "hover_element", Str(element))
  {
    TrackHover(b, h.componentName, element)
  }

  /** `trackLink(url, linkText?)` of the hook */
  function TrackLinkClick(b: Browser, h: Hook, url: string, linkText: Value): (r: Option<SinkCall>)
    ensures r.Some? <==> IsGtagAvailable(b)
    ensures r.Some? ==> var p := r.value.params;
      && r.value.eventName == ActionClick
      && Has(p, "component_name", Str(h.componentName))
      && Has(p, "link_url", Str(url))
      && Has(p, "event_label", if Truthy(linkText) then linkText else Str(url))
  {
    TrackExternalLink(b, url, h.componentName, linkText)
  }

  /** `trackDownload(fileName, fileType?)` of the hook */
  function TrackDownloadEvent(b: Browser, h: Hook, fileName: string, fileType: Value): (r: Option<SinkCall>)
    ensures r.Some? <==> IsGtagAvailable(b)
    ensures r.Some? ==> var p := r.value.params;
      && r.value.eventName == ActionDownload
      && Has(p, "component_name", Str(h.componentName))
      && Has(p, "file_name", Str(fileName))
      && Has(p, "file_type", fileType)
  {
    TrackDownload(b, fileName, h.componentName, fileType)
  }

  /** `trackConversion(conversionType, label?, value?, customParameters?)` of the hook */
  function TrackConversionEvent(b: Browser, h: Hook, conversionType: string, eventLabel: Value, value: Value, custom: Option<Props>): (r: Option<SinkCall>)
    ensures r.Some? <==> IsGtagAvailable(b)
    ensures r.Some? ==> var p, c := r.value.params, Spread(custom);
      && r.value.command == "event" && r.value.eventName == "conversion"
      && p.Keys == {"event_category", "event_label", "conversion_type", "component_name", "value", "section_name"} + c.Keys
      && Overrides(p, c)
      && Keeps(p, c, "section_name", h.section)
      && Keeps(p, c, "component_name", Str(h.componentName))
      && Keeps(p, c, "conversion_type", Str(conversionType))
      && Keeps(p, c, "event_label", if Truthy(eventLabel) then eventLabel else Str(conversionType))
      && Keeps(p, c, "value", value)
  {
    TrackConversion(b, conversionType, h.componentName, eventLabel, value, Some(WithSection(h.section, custom)))
  }

  /** `trackFormSubmit(formName, success = true)` of the hook */
  function TrackFormSubmit(b: Browser, h: Hook, formName: string, success: Value): (r: Option<SinkCall>)
    ensures r.Some? <==> IsGtagAvailable(b)
    ensures r.Some? ==> var p := r.value.params;
      && r.value.eventName == ActionSubmit
      && Has(p, "component_name", Str(h.componentName))
      && Has(p, "form_name", Str(formName))
      && Has(p, "submission_success", if success == Undefined then Bool(true) else success)
  {
    TrackFormSubmission(b, formName, h.componentName, Default(success, Bool(true)))
  }

  /** `trackCustom(event)`: the event with its component and section replaced by the hook's own. */
  function TrackCustom(b: Browser, h: Hook, e: AnalyticsEvent): (r: Option<SinkCall>)
    ensures r.Some? <==> IsGtagAvailable(b)
    ensures r.Some? ==> var p, c := r.value.params, Spread(e.customParameters);
      && r.value.eventName == e.action
      && Overrides(p, c)
      && Keeps(p, c, "component_name", Str(h.componentName))
      && Keeps(p, c, "section_name", h.section)
      && Keeps(p, c, "event_category", Str(e.category))
      && Keeps(p, c, "event_label", e.eventLabel)
      && Keeps(p, c, "value", e.value)
  {
    TrackCustomEvent(b, e.(component := Str(h.componentName), section := h.section))
  }

  /** The component and section an event carried make no difference to what `trackCustom` sends. */
  lemma TrackCustomIgnoresEventOrigin(b: Browser, h: Hook, e: AnalyticsEvent, component: Value, section: Value)
    ensures TrackCustom(b, h, e.(component := component, section := section)) == TrackCustom(b, h, e)
  {
  }

  // ---------------------------------------------------------------------------
  // useThemeAnalytics()

  /** `trackThemeToggle(theme)` */
  function TrackThemeToggle(b: Browser, theme: string): (r: Option<SinkCall>)
    ensures r.Some? <==> IsGtagAvailable(b)
    ensures r.Some? ==> var p := r.value.params;
      && r.value.eventName == ActionToggle
      && Has(p, "component_name", Str(ComponentThemeToggle))
      && Has(p, "theme_name", Str(theme))
  {
    TrackThemeChange(b, theme, ComponentThemeToggle)
  }

  // ---------------------------------------------------------------------------
  // useContactAnalytics()

  /** `trackEmailClick(email)` */
  function TrackEmailClick(b: Browser, email: string): (r: Option<SinkCall>)
    ensures r.Some? <==> IsGtagAvailable(b)
    ensures r.Some? ==> var p := r.value.params;
      && r.value.eventName == ActionClick
      && p.Keys == {"event_category", "event_label", "component_name", "action_type", "value", "email_address"}
      && Has(p, "event_label", Str("email_click"))
      && Has(p, "component_name", Str(ComponentContact))
      && Has(p, "email_address", Str(email))
      && Has(p, "value", Undefined)
  {
    TrackUserInteraction(b, ActionClick, ComponentContact, Str("email_click"), Undefined, Some(map["email_address" := Str(email)]))
  }

  /** `trackSocialClick(platform, url)`: the link text is `<platform>_profile`. */
  function TrackSocialClick(b: Browser, platform: string, url: string): (r: Option<SinkCall>)
    ensures r.Some? <==> IsGtagAvailable(b)
    ensures r.Some? ==> var p := r.value.params;
      && r.value.eventName == ActionClick
      && Has(p, "event_label", Str(platform + "_profile"))
      && Has(p, "link_text", Str(platform + "_profile"))
      && Has(p, "link_url", Str(url))
      && Has(p, "component_name", Str(ComponentContact))
  {
    TrackExternalLink(b, url, ComponentContact, Str(platform + "_profile"))
  }

  const ResumeDetails: Props := map["file_type" := Str("pdf"), "download_source" := Str("contact_section")]

  /**
   * `trackResumeDownload(fileName)` as written: the conversion call passes the
   * arguments of the hook-level `trackConversion(conversionType, label, value,
   * customParameters)` to the helper, which takes a component second.
   */
  function TrackResumeDownloadAsWritten(b: Browser, fileName: string): (r: seq<SinkCall>)
    ensures |r| == if IsGtagAvailable(b) then 2 else 0
    ensures |r| == 2 ==>
      && r[0].eventName == ActionDownload
      && Has(r[0].params, "file_type", Str("pdf"))
      && Has(r[0].params, "file_name", Str(fileName))
      && Has(r[0].params, "component_name", Str(ComponentContact))
      && r[1].eventName == "conversion"
  {
    Calls(TrackDownload(b, fileName, ComponentContact, Str("pdf")))
      + Calls(TrackConversion(b, "resume_download", fileName, Num(1), Obj(ResumeDetails), None))
  }

  /** As written, the conversion's label is the number 1, its value is the details object, and it has no `file_type`. */
  lemma ResumeConversionAsWritten(b: Browser, fileName: string)
    requires IsGtagAvailable(b)
    ensures var p := TrackResumeDownloadAsWritten(b, fileName)[1].params;
      && Has(p, "event_label", Num(1))
      && Has(p, "component_name", Str(fileName))
      && Has(p, "value", Obj(ResumeDetails))
      && "file_type" !in p && "download_source" !in p
  {
  }

  /** `trackResumeDownload(fileName)` with the conversion attributed to the contact section. */
  function TrackResumeDownload(b: Browser, fileName: string): (r: seq<SinkCall>)
    ensures |r| == if IsGtagAvailable(b) then 2 else 0
    ensures |r| == 2 ==>
      && r[0].eventName == ActionDownload
      && Has(r[0].params, "file_type", Str("pdf"))
      && Has(r[0].params, "file_name", Str(fileName))
      && Has(r[0].params, "component_name", Str(ComponentContact))
      && r[1].eventName == "conversion"
      && Has(r[1].params, "component_name", Str(ComponentContact))
      && Has(r[1].params, "event_label", Str(if fileName != "" then fileName else "resume_download"))
      && Has(r[1].params, "value", Num(1))
      && Has(r[1].params, "file_type", Str("pdf"))
      && Has(r[1].params, "download_source", Str("contact_section"))
  {
    Calls(TrackDownload(b, fileName, ComponentContact, Str("pdf")))
      + Calls(TrackConversion(b, "resume_download", ComponentContact, Str(fileName), Num(1), Some(ResumeDetails)))
  }

  // ---------------------------------------------------------------------------
  // useProjectAnalytics()

  /** `trackProjectView(projectName, projectStatus)` */
  function TrackProjectView(b: Browser, projectName: string, projectStatus: string): (r: Option<SinkCall>)
    ensures r.Some? <==> IsGtagAvailable(b)
    ensures r.Some? ==> var p := r.value.params;
      && r.value.eventName == ActionView
      && Has(p, "component_name", Str(ComponentProjects))
      && Has(p, "section_name", Str("project_card"))
      && Has(p, "project_name", Str(projectName))
      && Has(p, "project_status", Str(projectStatus))
  {
    TrackComponentView(b, ComponentProjects, Str("project_card"),
      Some(map["project_name" := Str(projectName), "project_status" := Str(projectStatus)]))
  }

  /** `trackProjectClick(projectName, action, url?)` */
  function TrackProjectClick(b: Browser, projectName: string, action: string, url: Value): (r: Option<SinkCall>)
    ensures r.Some? <==> IsGtagAvailable(b)
    ensures r.Some? ==> var p := r.value.params;
      && r.value.eventName == action
      && Has(p, "event_label", Str(if projectName != "" then projectName else ComponentProjects))
      && Has(p, "component_name", Str(ComponentProjects))
      && Has(p, "project_name", Str(projectName))
      && Has(p, "project_url", url)
  {
    TrackUserInteraction(b, action, ComponentProjects, Str(projectName), Undefined,
      Some(map["project_name" := Str(projectName), "project_url" := url]))
  }

  /** `trackTechBadgeHover(technology, projectName)`: the extra object is dropped by `trackHover`. */
  function TrackTechBadgeHover(b: Browser, technology: string, projectName: string): (r: Option<SinkCall>)
    ensures r.Some? <==> IsGtagAvailable(b)
    ensures r.Some? ==> var p := r.value.params;
      && r.value.eventName == ActionHover
      && Has(p, "hover_element", Str("tech_badge_" + technology))
      && Has(p, "component_name", Str(ComponentProjects))
      && "project_name" !in p && "technology" !in p
  {
    TrackHover(b, ComponentProjects, "tech_badge_" + technology)
  }

  // ---------------------------------------------------------------------------
  // useSkillsAnalytics()

  /** `trackSkillHover(skillName, category)`: the extra object is dropped by `trackHover`. */
  function TrackSkillHover(b: Browser, skillName: string, category: string): (r: Option<SinkCall>)
    ensures r.Some? <==> IsGtagAvailable(b)
    ensures r.Some? ==> var p := r.value.params;
      && r.value.eventName == ActionHover
      && Has(p, "hover_element", Str("skill_" + skillName))
      && Has(p, "component_name", Str(ComponentSkills))
      && "skill_name" !in p && "skill_category" !in p
  {
    TrackHover(b, ComponentSkills, "skill_" + skillName)
  }

  /** `trackCategoryView(categoryName)` */
  function TrackCategoryView(b: Browser, categoryName: string): (r: Option<SinkCall>)
    ensures r.Some? <==> IsGtagAvailable(b)
    ensures r.Some? ==> var p := r.value.params;
      && r.value.eventName == ActionView
      && Has(p, "component_name", Str(ComponentSkills))
      && Has(p, "section_name", Str("skill_category"))
      && Has(p, "category_name", Str(categoryName))
  {
    TrackComponentView(b, ComponentSkills, Str("skill_category"), Some(map["category_name" := Str(categoryName)]))
  }

  // ---------------------------------------------------------------------------
  // useExperienceAnalytics()

  /** `trackAchievementView(achievement, company)` */
  function TrackAchievementView(b: Browser, achievement: string, company: string): (r: Option<SinkCall>)
    ensures r.Some? <==> IsGtagAvailable(b)
    ensures r.Some? ==> var p := r.value.params;
      && r.value.eventName == ActionView
      && Has(p, "component_name", Str(ComponentExperience))
      && Has(p, "section_name", Str("achievement"))
      && Has(p, "achievement_name", Str(achievement))
      && Has(p, "company_name", Str(company))
  {
    TrackComponentView(b, ComponentExperience, Str("achievement"),
      Some(map["achievement_name" := Str(achievement), "company_name" := Str(company)]))
  }

  /** `trackProjectView(projectName, company)` of the experience hook */
  function TrackWorkProjectView(b: Browser, projectName: string, company: string): (r: Option<SinkCall>)
    ensures r.Some? <==> IsGtagAvailable(b)
    ensures r.Some? ==> var p := r.value.params;
      && r.value.eventName == ActionView
      && Has(p, "component_name", Str(ComponentExperience))
      && Has(p, "section_name", Str("work_project"))
      && Has(p, "project_name", Str(projectName))
      && Has(p, "company_name", Str(company))
  {
    TrackComponentView(b, ComponentExperience, Str("work_project"),
      Some(map["project_name" := Str(projectName), "company_name" := Str(company)]))
  }
}
