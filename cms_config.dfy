/**
 * The section-driven description of every editable page: which plain fields
 * and image slots each section has, and which sections hold a repeatable
 * list whose items are stored under keys `listKey_index_field`.
 */
module CmsConfig {
  import opened Js

  datatype FieldType = Text | Textarea | Html | Url | Number

  datatype Field = Field(key: string, caption: string, fieldType: FieldType, placeholder: Option<string>)

  datatype ImageField = ImageField(key: string, caption: string)

  /** The shape of one item of a repeatable list. */
  datatype ListItem = ListItem(fields: seq<Field>, images: Option<seq<ImageField>>)

  datatype Section = Section(
    id: string,
    caption: string,
    fields: seq<Field>,
    images: Option<seq<ImageField>>,
    listKey: Option<string>,
    listCaption: Option<string>,
    listItem: Option<ListItem>,
    maxItems: Option<nat>)

  datatype Page = Page(id: string, caption: string, icon: string, sections: seq<Section>)

  const GlobalPage := Page("global", "Global Settings", "Settings", [
    Section("header", "Header & Branding",
      [
        Field("site_name", "Site Name", Text, Some("Pal Classes")),
        Field("site_tagline", "Tagline", Text, Some("Where Excellence is a Tradition")),
        Field("topbar_phone", "Top Bar Phone", Text, Some("+91 80803 21805")),
        Field("topbar_email", "Top Bar Email", Text, Some("info@palclasses.com")),
        Field("topbar_location", "Top Bar Location", Text, Some("Wadala East, Mumbai"))],
      Some([
        ImageField("site_logo", "Site Logo")]),
      None, None, None, None),
    Section("footer", "Footer",
      [
        Field("footer_description", "Footer Description", Textarea, None),
        Field("footer_copyright", "Copyright Text", Text, None),
        Field("facebook_url", "Facebook URL", Url, None),
        Field("instagram_url", "Instagram URL", Url, None),
        Field("youtube_url", "YouTube URL", Url, None),
        Field("whatsapp_number", "WhatsApp Number", Text, Some("918080321805"))],
      None,
      None, None, None, None),
    Section("contact_info", "Contact Information",
      [
        Field("address", "Full Address", Textarea, None),
        Field("phone1", "Phone 1", Text, None),
        Field("phone2", "Phone 2", Text, None),
        Field("email1", "Email 1", Text, None),
        Field("email2", "Email 2", Text, None),
        Field("working_hours", "Working Hours", Textarea, None),
        Field("map_embed_url", "Google Map Embed URL", Url, None)],
      None,
      None, None, None, None)])

  const HomePage := Page("home", "Home", "Home", [
    Section("hero", "Hero Section",
      [
        Field("hero_badge", "Badge Text", Text, Some("\U{1F393} Admissions Open for 2025-26")),
        Field("hero_title", "Heading", Text, Some("Shaping Bright Futures with")),
        Field("hero_highlight", "Highlight Text", Text, Some("Quality Education")),
        Field("hero_subtitle", "Subtitle", Textarea, None),
        Field("hero_btn1_text", "Button 1 Text", Text, Some("Book Free Demo")),
        Field("hero_btn1_link", "Button 1 Link", Url, Some("/admission")),
        Field("hero_btn2_text", "Button 2 Text", Text, Some("Enroll Now")),
        Field("hero_btn2_link", "Button 2 Link", Url, Some("/admission"))],
      Some([
        ImageField("hero_image", "Hero Background Image")]),
      None, None, None, None),
    Section("highlights", "Why Choose Us (Highlights)",
      [
        Field("highlights_title", "Section Title", Text, None),
        Field("highlights_subtitle", "Section Subtitle", Textarea, None)],
      None,
      Some("highlight"), Some("Highlight Card"), Some(ListItem([
        Field("title", "Title", Text, None),
        Field("desc", "Description", Textarea, None),
        Field("icon", "Icon Name", Text, Some("UserCheck, Users, Target, BookOpen"))],
      None)), Some(6)),
    Section("stats", "Statistics",
      [],
      None,
      Some("stat"), Some("Stat Item"), Some(ListItem([
        Field("value", "Value", Text, Some("15")),
        Field("suffix", "Suffix", Text, Some("+")),
        Field("label", "Label", Text, Some("Years Experience"))],
      None)), Some(4)),
    Section("facilities_preview", "Facilities Preview",
      [
        Field("facilities_title", "Section Title", Text, None),
        Field("facilities_subtitle", "Section Subtitle", Textarea, None)],
      None,
      Some("facility"), Some("Facility Card"), Some(ListItem([
        Field("title", "Title", Text, None),
        Field("desc", "Description", Textarea, None)],
      None)), Some(8)),
    Section("programs", "Programs Preview",
      [
        Field("programs_title", "Section Title", Text, None),
        Field("programs_subtitle", "Section Subtitle", Textarea, None)],
      None,
      Some("program"), Some("Program Card"), Some(ListItem([
        Field("title", "Title", Text, None),
        Field("subjects", "Subjects", Text, None),
        Field("icon", "Icon/Emoji", Text, None)],
      None)), Some(4)),
    Section("testimonials", "Testimonials",
      [
        Field("testimonials_title", "Section Title", Text, None)],
      None,
      Some("testimonial"), Some("Testimonial"), Some(ListItem([
        Field("name", "Name", Text, None),
        Field("class", "Class / Role", Text, None),
        Field("text", "Testimonial Text", Textarea, None),
        Field("rating", "Rating (1-5)", Number, None)],
      None)), Some(10)),
    Section("cta", "Call to Action",
      [
        Field("cta_title", "Heading", Text, None),
        Field("cta_subtitle", "Subtitle", Textarea, None),
        Field("cta_btn1_text", "Button 1 Text", Text, None),
        Field("cta_btn1_link", "Button 1 Link", Url, None),
        Field("cta_btn2_text", "Button 2 Text", Text, None),
        Field("cta_btn2_link", "Button 2 Link", Url, None)],
      None,
      None, None, None, None)])

  const AboutPage := Page("about", "About Us", "Info", [
    Section("hero", "Hero Section",
      [
        Field("hero_title", "Heading", Text, None),
        Field("hero_subtitle", "Subtitle", Textarea, None)],
      None,
      None, None, None, None),
    Section("vision", "Vision & Mission",
      [
        Field("vision_title", "Vision Title", Text, None),
        Field("vision_text", "Vision Text", Textarea, None),
        Field("mission_title", "Mission Title", Text, None),
        Field("mission_text", "Mission Text", Textarea, None)],
      Some([
        ImageField("classroom_image", "Classroom Image")]),
      None, None, None, None),
    Section("founder", "Founder's Message",
      [
        Field("founder_name", "Founder Name", Text, None),
        Field("founder_title", "Founder Title", Text, None),
        Field("founder_message", "Message", Textarea, None)],
      Some([
        ImageField("founder_image", "Founder Photo")]),
      None, None, None, None),
    Section("methodology", "Teaching Methodology",
      [
        Field("methodology_title", "Section Title", Text, None)],
      Some([
        ImageField("students_image", "Students Image")]),
      Some("method"), Some("Method Item"), Some(ListItem([
        Field("text", "Item Text", Text, None)],
      None)), Some(10)),
    Section("why_choose", "Why Choose Pal Classes",
      [
        Field("why_title", "Section Title", Text, None)],
      None,
      Some("reason"), Some("Reason"), Some(ListItem([
        Field("title", "Title", Text, None),
        Field("desc", "Description", Textarea, None)],
      None)), Some(6))])

  const CoursesPage := Page("courses", "Courses", "BookOpen", [
    Section("hero", "Hero Section",
      [
        Field("hero_title", "Heading", Text, None),
        Field("hero_subtitle", "Subtitle", Textarea, None)],
      None,
      None, None, None, None),
    Section("course_list", "Courses",
      [],
      None,
      Some("course"), Some("Course"), Some(ListItem([
        Field("level", "Level Name", Text, None),
        Field("classes", "Classes", Text, None),
        Field("icon", "Icon/Emoji", Text, None),
        Field("subjects", "Subjects (comma separated)", Text, None),
        Field("features", "Features (comma separated)", Textarea, None),
        Field("duration", "Duration", Text, None),
        Field("method", "Teaching Method", Textarea, None),
        Field("batchSize", "Batch Size", Text, None)],
      None)), Some(6))])

  const FacilitiesPage := Page("facilities", "Facilities", "Settings", [
    Section("hero", "Hero Section",
      [
        Field("hero_badge", "Badge Text", Text, None),
        Field("hero_title", "Heading", Text, None),
        Field("hero_subtitle", "Subtitle", Textarea, None)],
      None,
      None, None, None, None),
    Section("stats", "Stats Bar",
      [],
      None,
      Some("stat"), Some("Stat"), Some(ListItem([
        Field("value", "Value", Text, None),
        Field("label", "Label", Text, None)],
      None)), Some(4)),
    Section("facility_list", "Facilities Detail",
      [],
      None,
      Some("facility"), Some("Facility"), Some(ListItem([
        Field("title", "Title", Text, None),
        Field("desc", "Description", Textarea, None),
        Field("highlights", "Highlights (comma separated)", Textarea, None)],
      Some([
        ImageField("image", "Facility Image")]))), Some(8)),
    Section("cta", "Call to Action",
      [
        Field("cta_title", "Heading", Text, None),
        Field("cta_subtitle", "Subtitle", Textarea, None),
        Field("cta_btn_text", "Button Text", Text, None),
        Field("cta_btn_link", "Button Link", Url, None)],
      None,
      None, None, None, None)])

  const ResultsPage := Page("results", "Results", "Award", [
    Section("hero", "Hero Section",
      [
        Field("hero_title", "Heading", Text, None),
        Field("hero_subtitle", "Subtitle", Textarea, None)],
      None,
      None, None, None, None),
    Section("toppers", "Toppers",
      [
        Field("toppers_title", "Section Title", Text, None)],
      Some([
        ImageField("celebrating_image", "Celebration Image")]),
      Some("topper"), Some("Topper"), Some(ListItem([
        Field("name", "Name", Text, None),
        Field("class", "Exam/Board", Text, None),
        Field("score", "Score", Text, None),
        Field("year", "Year", Text, None)],
      Some([
        ImageField("photo", "Topper Photo")]))), Some(20)),
    Section("achievements", "Awards & Recognition",
      [
        Field("achievements_title", "Section Title", Text, None)],
      None,
      Some("achievement"), Some("Achievement"), Some(ListItem([
        Field("title", "Title", Text, None),
        Field("desc", "Description", Textarea, None)],
      None)), Some(8))])

  const GalleryPage := Page("gallery", "Gallery", "GalleryHorizontal", [
    Section("hero", "Hero Section",
      [
        Field("hero_title", "Heading", Text, None),
        Field("hero_subtitle", "Subtitle", Textarea, None)],
      None,
      None, None, None, None),
    Section("images", "Gallery Images",
      [
        Field("categories", "Categories (comma separated)", Text, Some("All,Classrooms,Teaching,Activities,Events"))],
      None,
      Some("gallery_item"), Some("Gallery Image"), Some(ListItem([
        Field("alt", "Alt Text / Caption", Text, None),
        Field("category", "Category", Text, None)],
      Some([
        ImageField("image", "Image")]))), Some(30))])

  const AdmissionPage := Page("admission", "Admission", "GraduationCap", [
    Section("hero", "Hero Section",
      [
        Field("hero_title", "Heading", Text, None),
        Field("hero_subtitle", "Subtitle", Textarea, None)],
      None,
      None, None, None, None),
    Section("process", "Admission Process",
      [
        Field("process_title", "Section Title", Text, None)],
      None,
      Some("step"), Some("Step"), Some(ListItem([
        Field("title", "Step Title", Text, None),
        Field("desc", "Description", Textarea, None)],
      None)), Some(6)),
    Section("fees", "Fee Structure",
      [
        Field("fees_title", "Section Title", Text, None),
        Field("fees_note", "Note", Textarea, None)],
      None,
      Some("fee"), Some("Fee Level"), Some(ListItem([
        Field("level", "Level Name", Text, None),
        Field("monthly", "Monthly Fee", Text, None),
        Field("yearly", "Yearly Fee", Text, None)],
      None)), Some(6))])

  const ContactPage := Page("contact", "Contact", "Phone", [
    Section("hero", "Hero Section",
      [
        Field("hero_title", "Heading", Text, None),
        Field("hero_subtitle", "Subtitle", Textarea, None)],
      None,
      None, None, None, None),
    Section("info", "Contact Page Content",
      [
        Field("contact_heading", "Section Heading", Text, None),
        Field("contact_text", "Section Text", Textarea, None),
        Field("form_heading", "Form Heading", Text, None)],
      None,
      None, None, None, None)])

  /** `cmsPages`, in order. */
  const CmsPages: seq<Page> := [GlobalPage, HomePage, AboutPage, CoursesPage, FacilitiesPage, ResultsPage, GalleryPage, AdmissionPage, ContactPage]

  function FindPage(pages: seq<Page>, pageId: string): (r: Option<Page>)
    ensures r.Some? ==> r.value in pages && r.value.id == pageId
    ensures r.None? <==> forall k :: 0 <= k < |pages| ==> pages[k].id != pageId
  {
    if pages == [] then None
    else if pages[0].id == pageId then Some(pages[0])
    else FindPage(pages[1..], pageId)
  }

  /** `getPageConfig(pageId)`: the configured page with that id, if any. */
  function GetPageConfig(pageId: string): (r: Option<Page>)
    ensures r.Some? ==> r.value in CmsPages && r.value.id == pageId
    ensures r.None? <==> forall k :: 0 <= k < |CmsPages| ==> CmsPages[k].id != pageId
  {
    FindPage(CmsPages, pageId)
  }

  function PageIds(pages: seq<Page>): (ids: seq<string>)
    ensures |ids| == |pages| && forall k :: 0 <= k < |pages| ==> ids[k] == pages[k].id
  {
    if pages == [] then [] else [pages[0].id] + PageIds(pages[1..])
  }

  predicate Distinct(s: seq<string>) {
    forall i, j :: 0 <= i < j < |s| ==> s[i] != s[j]
  }

  /** Every page id resolves to its own page. */
  lemma GetPageConfigFindsEachPage(k: nat)
    requires k < |CmsPages|
    ensures GetPageConfig(CmsPages[k].id) == Some(CmsPages[k])
  {
    PageIdsDistinct();
    FindFirstPage(CmsPages, k);
  }

  lemma {:induction false} FindFirstPage(pages: seq<Page>, k: nat)
    requires k < |pages|
    requires forall j :: 0 <= j < k ==> pages[j].id != pages[k].id
    ensures FindPage(pages, pages[k].id) == Some(pages[k])
  {
    if k > 0 {
      FindFirstPage(pages[1..], k - 1);
    }
  }

  /** The nine pages, in order, each under its own id. */
  lemma PageIdsDistinct()
    ensures PageIds(CmsPages) == ["global", "home", "about", "courses", "facilities", "results", "gallery", "admission", "contact"]
    ensures Distinct(PageIds(CmsPages))
  {
    PageIdList();
    IdsDistinct();
  }

  lemma PageIdList()
    ensures PageIds(CmsPages) == ["global", "home", "about", "courses", "facilities", "results", "gallery", "admission", "contact"]
  {
  }

  lemma IdsDistinct()
    ensures Distinct(["global", "home", "about", "courses", "facilities", "results", "gallery", "admission", "contact"])
  {
  }

  /** The dashboard's data views are not configured pages. */
  lemma DataViewIsNotPage(view: string)
    requires view == "enquiries" || view == "contacts" || view == "profile"
    ensures GetPageConfig(view).None?
  {
    PageIdsDistinct();
    assert view !in PageIds(CmsPages);
    FindPageAbsent(CmsPages, view);
  }

  lemma {:induction false} FindPageAbsent(pages: seq<Page>, pageId: string)
    requires pageId !in PageIds(pages)
    ensures FindPage(pages, pageId).None?
  {
    if pages != [] {
      assert PageIds(pages)[0] == pages[0].id;
      assert PageIds(pages[1..]) == PageIds(pages)[1..];
      FindPageAbsent(pages[1..], pageId);
    }
  }

  /** A section offers a list exactly when it names both the key and the item
      shape; a list has a non-empty key, a label, a cap between 1 and 30 and at
      least one field per item. */
  predicate SectionWellFormed(s: Section) {
    && (s.listKey.Some? <==> s.listItem.Some?)
    && (s.listKey.Some? ==>
         && s.listKey.value != "" && s.listCaption.Some? && s.maxItems.Some?
         && 0 < s.maxItems.value <= 30
         && |s.listItem.value.fields| > 0
         && DistinctFrom(ItemKeys(s.listItem.value), 0))
  }

  /** `s` has no value twice among its present entries, checked index by index
      from `i` on. */
  predicate DistinctFrom(s: seq<Option<string>>, i: nat)
    decreases |s| - i
  {
    i >= |s| || ((s[i].None? || AbsentFrom(s, s[i].value, i + 1)) && DistinctFrom(s, i + 1))
  }

  predicate AbsentFrom(s: seq<Option<string>>, x: string, j: nat)
    decreases |s| - j
  {
    j >= |s| || (s[j] != Some(x) && AbsentFrom(s, x, j + 1))
  }

  lemma {:induction false} AbsentFromSpec(s: seq<Option<string>>, x: string, j: nat)
    requires AbsentFrom(s, x, j)
    ensures forall k :: j <= k < |s| ==> s[k] != Some(x)
    decreases |s| - j
  {
    if j < |s| {
      AbsentFromSpec(s, x, j + 1);
    }
  }

  /** The index-by-index check means what it says: no two present entries agree. */
  lemma {:induction false} DistinctFromSpec(s: seq<Option<string>>, i: nat)
    requires DistinctFrom(s, i)
    ensures forall k, l :: i <= k < l < |s| && s[k].Some? ==> s[k] != s[l]
    decreases |s| - i
  {
    if i < |s| {
      DistinctFromSpec(s, i + 1);
      if s[i].Some? {
        AbsentFromSpec(s, s[i].value, i + 1);
      }
    }
  }

  function SectionIds(ss: seq<Section>): seq<Option<string>> {
    seq(|ss|, k requires 0 <= k < |ss| => Some(ss[k].id))
  }

  function ListKeys(ss: seq<Section>): seq<Option<string>> {
    seq(|ss|, k requires 0 <= k < |ss| => ss[k].listKey)
  }

  /** The field keys and image keys of one list item. */
  function ItemKeys(li: ListItem): seq<Option<string>> {
    seq(|li.fields|, k requires 0 <= k < |li.fields| => Some(li.fields[k].key))
    + if li.images.Some? then seq(|li.images.value|, k requires 0 <= k < |li.images.value| => Some(li.images.value[k].key)) else []
  }

  /** Every section is well formed, and no two sections of the page share an
      id or a list key. */
  predicate PageWellFormed(p: Page) {
    && (forall k :: 0 <= k < |p.sections| ==> SectionWellFormed(p.sections[k]))
    && DistinctFrom(SectionIds(p.sections), 0)
    && DistinctFrom(ListKeys(p.sections), 0)
  }

  /** What a well-formed page guarantees, stated over its sections. */
  lemma PageWellFormedSpec(p: Page)
    requires PageWellFormed(p)
    ensures forall i, j :: 0 <= i < j < |p.sections| ==> p.sections[i].id != p.sections[j].id
    ensures forall i, j :: 0 <= i < j < |p.sections| && p.sections[i].listKey.Some? ==> p.sections[i].listKey != p.sections[j].listKey
  {
    DistinctFromSpec(SectionIds(p.sections), 0);
    DistinctFromSpec(ListKeys(p.sections), 0);
    assert forall k :: 0 <= k < |p.sections| ==> SectionIds(p.sections)[k] == Some(p.sections[k].id);
    assert forall k :: 0 <= k < |p.sections| ==> ListKeys(p.sections)[k] == p.sections[k].listKey;
  }

  /** Every configured page is well formed. */
  lemma ConfigWellFormed()
    ensures forall k :: 0 <= k < |CmsPages| ==> PageWellFormed(CmsPages[k])
  {
    forall k | 0 <= k < |CmsPages|
      ensures PageWellFormed(CmsPages[k])
    {
      if k == 0 { GlobalWellFormed(); }
      else if k == 1 { HomeWellFormed(); }
      else if k == 2 { AboutWellFormed(); }
      else if k == 3 { CoursesWellFormed(); }
      else if k == 4 { FacilitiesWellFormed(); }
      else if k == 5 { ResultsWellFormed(); }
      else if k == 6 { GalleryWellFormed(); }
      else if k == 7 { AdmissionWellFormed(); }
      else { ContactWellFormed(); }
    }
  }

  lemma GlobalWellFormed()
    ensures PageWellFormed(GlobalPage)
  {
  }

  lemma HomeWellFormed()
    ensures PageWellFormed(HomePage)
  {
    HomeSectionsWellFormed();
    HomeSectionIdsDistinct();
    HomeListKeysDistinct();
  }

  lemma HomeSectionIdsDistinct()
    ensures DistinctFrom(SectionIds(HomePage.sections), 0)
  {
    HomeSectionIdList();
    HomeIdsDistinctLiteral();
  }

  lemma HomeSectionIdList()
    ensures SectionIds(HomePage.sections) == [Some("hero"), Some("highlights"), Some("stats"), Some("facilities_preview"), Some("programs"), Some("testimonials"), Some("cta")]
  {
  }

  lemma HomeIdsDistinctLiteral()
    ensures DistinctFrom([Some("hero"), Some("highlights"), Some("stats"), Some("facilities_preview"), Some("programs"), Some("testimonials"), Some("cta")], 0)
  {
  }

  lemma HomeListKeysDistinct()
    ensures DistinctFrom(ListKeys(HomePage.sections), 0)
  {
    HomeListKeyList();
    HomeListKeysDistinctLiteral();
  }

  lemma HomeListKeyList()
    ensures ListKeys(HomePage.sections) == [None, Some("highlight"), Some("stat"), Some("facility"), Some("program"), Some("testimonial"), None]
  {
  }

  lemma HomeListKeysDistinctLiteral()
    ensures DistinctFrom([None, Some("highlight"), Some("stat"), Some("facility"), Some("program"), Some("testimonial"), None], 0)
  {
  }

  lemma HomeSectionsWellFormed()
    ensures forall k :: 0 <= k < |HomePage.sections| ==> SectionWellFormed(HomePage.sections[k])
  {
  }

  lemma AboutWellFormed()
    ensures PageWellFormed(AboutPage)
  {
    AboutSectionsWellFormed();
    AboutKeyLists();
    AboutKeysDistinctLiteral();
  }

  lemma AboutKeyLists()
    ensures SectionIds(AboutPage.sections) == [Some("hero"), Some("vision"), Some("founder"), Some("methodology"), Some("why_choose")]
    ensures ListKeys(AboutPage.sections) == [None, None, None, Some("method"), Some("reason")]
  {
  }

  lemma AboutKeysDistinctLiteral()
    ensures DistinctFrom([Some("hero"), Some("vision"), Some("founder"), Some("methodology"), Some("why_choose")], 0)
    ensures DistinctFrom([None, None, None, Some("method"), Some("reason")], 0)
  {
  }

  lemma AboutSectionsWellFormed()
    ensures forall k :: 0 <= k < |AboutPage.sections| ==> SectionWellFormed(AboutPage.sections[k])
  {
  }

  lemma CoursesWellFormed()
    ensures PageWellFormed(CoursesPage)
  {
    CoursesSectionsWellFormed();
    CoursesKeyLists();
    CoursesKeysDistinctLiteral();
  }

  lemma CoursesKeyLists()
    ensures SectionIds(CoursesPage.sections) == [Some("hero"), Some("course_list")]
    ensures ListKeys(CoursesPage.sections) == [None, Some("course")]
  {
  }

  lemma CoursesKeysDistinctLiteral()
    ensures DistinctFrom([Some("hero"), Some("course_list")], 0)
    ensures DistinctFrom([None, Some("course")], 0)
  {
  }

  lemma CoursesSectionsWellFormed()
    ensures forall k :: 0 <= k < |CoursesPage.sections| ==> SectionWellFormed(CoursesPage.sections[k])
  {
  }

  lemma FacilitiesWellFormed()
    ensures PageWellFormed(FacilitiesPage)
  {
    FacilitiesSectionsWellFormed();
    FacilitiesKeyLists();
    FacilitiesKeysDistinctLiteral();
  }

  lemma FacilitiesKeyLists()
    ensures SectionIds(FacilitiesPage.sections) == [Some("hero"), Some("stats"), Some("facility_list"), Some("cta")]
    ensures ListKeys(FacilitiesPage.sections) == [None, Some("stat"), Some("facility"), None]
  {
  }

  lemma FacilitiesKeysDistinctLiteral()
    ensures DistinctFrom([Some("hero"), Some("stats"), Some("facility_list"), Some("cta")], 0)
    ensures DistinctFrom([None, Some("stat"), Some("facility"), None], 0)
  {
  }

  lemma FacilitiesSectionsWellFormed()
    ensures forall k :: 0 <= k < |FacilitiesPage.sections| ==> SectionWellFormed(FacilitiesPage.sections[k])
  {
  }

  lemma ResultsWellFormed()
    ensures PageWellFormed(ResultsPage)
  {
    ResultsSectionsWellFormed();
    ResultsKeyLists();
    ResultsKeysDistinctLiteral();
  }

  lemma ResultsKeyLists()
    ensures SectionIds(ResultsPage.sections) == [Some("hero"), Some("toppers"), Some("achievements")]
    ensures ListKeys(ResultsPage.sections) == [None, Some("topper"), Some("achievement")]
  {
  }

  lemma ResultsKeysDistinctLiteral()
    ensures DistinctFrom([Some("hero"), Some("toppers"), Some("achievements")], 0)
    ensures DistinctFrom([None, Some("topper"), Some("achievement")], 0)
  {
  }

  lemma ResultsSectionsWellFormed()
    ensures forall k :: 0 <= k < |ResultsPage.sections| ==> SectionWellFormed(ResultsPage.sections[k])
  {
  }

  lemma GalleryWellFormed()
    ensures PageWellFormed(GalleryPage)
  {
  }

  lemma AdmissionWellFormed()
    ensures PageWellFormed(AdmissionPage)
  {
    AdmissionSectionsWellFormed();
    AdmissionKeyLists();
    AdmissionKeysDistinctLiteral();
  }

  lemma AdmissionKeyLists()
    ensures SectionIds(AdmissionPage.sections) == [Some("hero"), Some("process"), Some("fees")]
    ensures ListKeys(AdmissionPage.sections) == [None, Some("step"), Some("fee")]
  {
  }

  lemma AdmissionKeysDistinctLiteral()
    ensures DistinctFrom([Some("hero"), Some("process"), Some("fees")], 0)
    ensures DistinctFrom([None, Some("step"), Some("fee")], 0)
  {
  }

  lemma AdmissionSectionsWellFormed()
    ensures forall k :: 0 <= k < |AdmissionPage.sections| ==> SectionWellFormed(AdmissionPage.sections[k])
  {
  }

  lemma ContactWellFormed()
    ensures PageWellFormed(ContactPage)
  {
  }
}
