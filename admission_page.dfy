/**
 * The public admission page: which step and fee lists it shows, the icon of
 * each step, the three request bodies its forms post, and how each form's
 * flags and fields change with the server's answer.
 */
module AdmissionPage {
  import opened Js
  import opened LeadModels

  /** `cmsItems.length > 0 ? cmsItems : defaults`. */
  function ChooseList<T>(cmsItems: seq<T>, defaults: seq<T>): (r: seq<T>)
    ensures cmsItems != [] ==> r == cmsItems
    ensures cmsItems == [] ==> r == defaults
    ensures defaults != [] ==> r != []
  {
    if |cmsItems| > 0 then cmsItems else defaults
  }

  datatype StepIcon = FileText | ClipboardList | UserPlus | CreditCard

  const StepIcons: seq<StepIcon> := [FileText, ClipboardList, UserPlus, CreditCard]

  /** `stepIcons[i % stepIcons.length]`. */
  function IconOfStep(i: nat): StepIcon {
    StepIcons[i % |StepIcons|]
  }

  /** The icons repeat every four steps, and the first four are the list itself. */
  lemma IconsCycle(i: nat)
    ensures IconOfStep(i + 4) == IconOfStep(i)
    ensures i < 4 ==> IconOfStep(i) == StepIcons[i]
  {
    assert (i + 4) % 4 == i % 4;
  }

  datatype EnquiryForm = EnquiryForm(name: string, phone: string, className: string, message: string)
  datatype DemoForm = DemoForm(name: string, phone: string, className: string, preferredDate: string)
  datatype AdmissionForm = AdmissionForm(
    studentName: string, parentName: string, phone: string, email: string, className: string,
    address: string, dateOfBirth: string, gender: string, previousSchool: string)

  const EmptyEnquiry := EnquiryForm("", "", "", "")
  const EmptyDemo := DemoForm("", "", "", "")
  const EmptyAdmission := AdmissionForm("", "", "", "", "", "", "", "", "")

  /** `{ ...formData, type: 'general' }`: every key is one the enquiry
      schema keeps but the email and the preferred date, and each form field
      is sent under its form name. */
  function EnquiryBody(f: EnquiryForm): (r: Body)
    ensures r.Keys == EnquiryKeys - {"email", "preferredDate"}
    ensures r["type"] == "general"
    ensures r["name"] == f.name && r["phone"] == f.phone && r["class"] == f.className && r["message"] == f.message
  {
    map["name" := f.name, "phone" := f.phone, "class" := f.className, "message" := f.message, "type" := "general"]
  }

  /** The demo booking body: the four booked fields, `type: 'demo'` and a
      fixed message; every enquiry field but the email. */
  function DemoBody(f: DemoForm): (r: Body)
    ensures r.Keys == EnquiryKeys - {"email"}
    ensures r["type"] == "demo" && r["message"] == "Demo Class Request"
    ensures r["name"] == f.name && r["phone"] == f.phone && r["class"] == f.className
      && r["preferredDate"] == f.preferredDate
  {
    map["name" := f.name, "phone" := f.phone, "class" := f.className, "preferredDate" := f.preferredDate,
        "type" := "demo", "message" := "Demo Class Request"]
  }

  /** `JSON.stringify(admissionData)`: every field of the admission schema
      but the defaulted `status`, each under its form name. */
  function AdmissionBody(f: AdmissionForm): (r: Body)
    ensures r.Keys == AdmissionKeys - {"status"}
    ensures r["studentName"] == f.studentName && r["parentName"] == f.parentName && r["phone"] == f.phone
      && r["email"] == f.email && r["class"] == f.className && r["address"] == f.address
      && r["dateOfBirth"] == f.dateOfBirth && r["gender"] == f.gender && r["previousSchool"] == f.previousSchool
  {
    map["studentName" := f.studentName, "parentName" := f.parentName, "phone" := f.phone, "email" := f.email,
        "class" := f.className, "address" := f.address, "dateOfBirth" := f.dateOfBirth, "gender" := f.gender,
        "previousSchool" := f.previousSchool]
  }

  /** A demo booking goes to the enquiry endpoint and is stored as an enquiry
      of type `demo` carrying the four booked fields. */
  lemma DemoBookingIsDemoEnquiry(f: DemoForm, now: nat)
    ensures var e := EnquiryOf(DemoBody(f), now);
      && e.kind == "demo" && e.message == Some("Demo Class Request")
      && e.name == Some(f.name) && e.phone == Some(f.phone)
      && e.className == Some(f.className) && e.preferredDate == Some(f.preferredDate)
      && e.email.None?
    ensures EnquiryValid(EnquiryOf(DemoBody(f), now)) <==> f.name != "" && f.phone != ""
  {
  }

  /** The page's enquiry form is stored as a `general` enquiry. */
  lemma EnquiryFormIsGeneral(f: EnquiryForm, now: nat)
    ensures EnquiryOf(EnquiryBody(f), now).kind == "general"
    ensures EnquiryValid(EnquiryOf(EnquiryBody(f), now)) <==> f.name != "" && f.phone != ""
  {
  }

  /** An admission form sent without an email reaches the admin as `N/A`. */
  lemma BlankEmailShowsNA(f: AdmissionForm, now: nat)
    requires f.email == ""
    ensures AdmissionOf(AdmissionBody(f), now).email == Some("")
    ensures OrElse(AdmissionOf(AdmissionBody(f), now).email, "N/A") == "N/A"
  {
  }

  /** The forms' state. `ok` is whether the request was answered with an ok
      status; a thrown request counts as not ok. */
  class AdmissionPageState {
    var formData: EnquiryForm
    var demoData: DemoForm
    var admissionData: AdmissionForm
    var submitted: bool
    var demoSubmitted: bool
    var admissionSubmitted: bool
    var submitting: bool
    var demoSubmitting: bool
    var admissionSubmitting: bool

    constructor ()
      ensures formData == EmptyEnquiry && demoData == EmptyDemo && admissionData == EmptyAdmission
      ensures !submitted && !demoSubmitted && !admissionSubmitted
      ensures !submitting && !demoSubmitting && !admissionSubmitting
    {
      formData, demoData, admissionData := EmptyEnquiry, EmptyDemo, EmptyAdmission;
      submitted, demoSubmitted, admissionSubmitted := false, false, false;
      submitting, demoSubmitting, admissionSubmitting := false, false, false;
    }

    /** `handleEnquiry`: posts the form and clears it only on success. */
    method HandleEnquiry(ok: bool) returns (posted: Body)
      modifies this`formData, this`submitted, this`submitting
      ensures posted == EnquiryBody(old(formData)) && !submitting
      ensures ok ==> submitted && formData == EmptyEnquiry
      ensures !ok ==> submitted == old(submitted) && formData == old(formData)
    {
      submitting := true;
      posted := EnquiryBody(formData);
      if ok {
        submitted := true;
        formData := EmptyEnquiry;
      }
      submitting := false;
    }

    /** `handleDemo`: posts the booking and clears it only on success. */
    method HandleDemo(ok: bool) returns (posted: Body)
      modifies this`demoData, this`demoSubmitted, this`demoSubmitting
      ensures posted == DemoBody(old(demoData)) && !demoSubmitting
      ensures ok ==> demoSubmitted && demoData == EmptyDemo
      ensures !ok ==> demoSubmitted == old(demoSubmitted) && demoData == old(demoData)
    {
      demoSubmitting := true;
      posted := DemoBody(demoData);
      if ok {
        demoSubmitted := true;
        demoData := EmptyDemo;
      }
      demoSubmitting := false;
    }

    /** `handleAdmission`: posts the application and clears it only on success. */
    method HandleAdmission(ok: bool) returns (posted: Body)
      modifies this`admissionData, this`admissionSubmitted, this`admissionSubmitting
      ensures posted == AdmissionBody(old(admissionData)) && !admissionSubmitting
      ensures ok ==> admissionSubmitted && admissionData == EmptyAdmission
      ensures !ok ==> admissionSubmitted == old(admissionSubmitted) && admissionData == old(admissionData)
    {
      admissionSubmitting := true;
      posted := AdmissionBody(admissionData);
      if ok {
        admissionSubmitted := true;
        admissionData := EmptyAdmission;
      }
      admissionSubmitting := false;
    }
  }
}
