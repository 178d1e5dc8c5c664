/**
 * The lead submission and listing routes. A submission is checked (demo
 * bookings only), saved as one document stamped with `now`, announced to the
 * admin by a best-effort notification, and answered with a status code. The
 * notification's outcome never changes the answer.
 */
module LeadRoutes {
  import opened Js
  import opened LeadModels
  import opened EmailService

  /** The JSON or text an answer carries. */
  datatype Reply<D> =
    | MsgJson(msg: string)
    | DocJson(doc: D)
    | SuccessJson(data: D)
    | ListJson(docs: seq<D>)
    | Text(text: string)

  datatype Response<D> = Response(status: nat, reply: Reply<D>)

  function ServerError<D>(): (r: Response<D>)
    ensures r.status == 500
  {
    Response(500, Text("Server Error"))
  }

  /** `process.env.ADMIN_EMAIL || fallback`. */
  datatype MailConfig = MailConfig(adminEmail: Option<string>, fallbackAdmin: string)

  function Recipient(config: MailConfig): string {
    OrElse(config.adminEmail, config.fallbackAdmin)
  }

  /** `${v}` of a document field: an absent one renders as `undefined`. */
  function Show(v: Option<string>): (s: string)
    ensures v.Some? ==> s == v.value
  {
    if v.Some? then v.value else "undefined"
  }

  /** The rows of a demo notification. */
  function DemoEntries(d: Demo): seq<Entry> {
    [Entry("Student Name", Show(d.name)), Entry("Phone", Show(d.phone)),
     Entry("Class", Show(d.className)), Entry("Preferred Date", Show(d.preferredDate))]
  }

  function DemoNotice(d: Demo): string {
    AdminEmailTemplate("New Demo Class Booking", DemoEntries(d))
  }

  /** The rows of an admission notification. */
  function AdmissionEntries(a: Admission): seq<Entry> {
    [Entry("Student Name", Show(a.studentName)), Entry("Parent Name", Show(a.parentName)),
     Entry("Phone", Show(a.phone)), Entry("Email", OrElse(a.email, "N/A")),
     Entry("Class", Show(a.className)), Entry("Gender", Show(a.gender)),
     Entry("DOB", Show(a.dateOfBirth)), Entry("Address", Show(a.address))]
  }

  function AdmissionNotice(a: Admission): string {
    AdminEmailTemplate("New Admission Form Submission", AdmissionEntries(a))
  }

  /** The rows of a contact notification. */
  function ContactEntries(c: Contact): seq<Entry> {
    [Entry("Name", Show(c.name)), Entry("Email", Show(c.email)),
     Entry("Phone", OrElse(c.phone, "N/A")), Entry("Subject", OrElse(c.subject, "Website Contact")),
     Entry("Message", Show(c.message))]
  }

  function ContactNotice(c: Contact): string {
    AdminEmailTemplate("New Contact Form Submission", ContactEntries(c))
  }

  /** What a notification adds to the outbox: the mail, or nothing when the
      transport failed. */
  function Notified(config: MailConfig, subject: string, html: string, transportFails: bool): seq<Mail> {
    if transportFails then [] else [Mail(Recipient(config), subject, html)]
  }

  /** The demo route's own check: `name`, `phone`, `class`, `preferredDate`. */
  predicate DemoFieldsGiven(body: Body) {
    && Truthy(Field(body, "name")) && Truthy(Field(body, "phone"))
    && Truthy(Field(body, "class")) && Truthy(Field(body, "preferredDate"))
  }

  /** The route's check is the schema's: after it, the save cannot be rejected. */
  lemma DemoCheckIsSchema(body: Body, now: nat)
    ensures DemoFieldsGiven(body) <==> DemoValid(DemoOf(body, now))
    ensures DemoFieldsGiven(body) <==> AllGiven(body, DemoRequired)
  {
    DemoValidIff(body, now);
  }

  /** `POST /demo/submit`. */
  method SubmitDemo(body: Body, now: nat, demos: Collection<Demo>, mailer: Mailer, config: MailConfig,
                    saveFault: bool, transportFails: bool) returns (resp: Response<Demo>)
    modifies demos, mailer
    ensures !DemoFieldsGiven(body) ==>
      resp == Response(400, MsgJson("Please enter all required fields")) && unchanged(demos) && unchanged(mailer)
    ensures DemoFieldsGiven(body) && saveFault ==>
      resp == ServerError() && unchanged(demos) && unchanged(mailer)
    ensures DemoFieldsGiven(body) && !saveFault ==>
      var d := DemoOf(Pick(body, DemoKeys), now);
      && resp == Response(201, SuccessJson(d))
      && demos.docs == old(demos.docs) + [d]
      && mailer.outbox == old(mailer.outbox) + Notified(config, "New Demo Booking Received", DemoNotice(d), transportFails)
  {
    if !DemoFieldsGiven(body) {
      return Response(400, MsgJson("Please enter all required fields"));
    }
    var d := DemoOf(Pick(body, DemoKeys), now);
    assert Field(Pick(body, DemoKeys), "name") == Field(body, "name");
    assert Field(Pick(body, DemoKeys), "phone") == Field(body, "phone");
    assert Field(Pick(body, DemoKeys), "class") == Field(body, "class");
    assert Field(Pick(body, DemoKeys), "preferredDate") == Field(body, "preferredDate");
    var saved := demos.Save(d, DemoValid(d), saveFault);
    if saved.Failure? {
      return ServerError();
    }
    var _ := mailer.SendEmail(Recipient(config), "New Demo Booking Received", DemoNotice(d), transportFails);
    resp := Response(201, SuccessJson(d));
  }

  /** `POST /admission/submit`: the whole body goes to the schema, and a schema
      rejection answers 500 like a database error. */
  method SubmitAdmission(body: Body, now: nat, admissions: Collection<Admission>, mailer: Mailer, config: MailConfig,
                         saveFault: bool, transportFails: bool) returns (resp: Response<Admission>)
    modifies admissions, mailer
    ensures var a := AdmissionOf(body, now);
      !AdmissionValid(a) || saveFault ==>
        resp == ServerError() && unchanged(admissions) && unchanged(mailer)
    ensures var a := AdmissionOf(body, now);
      AdmissionValid(a) && !saveFault ==>
        && resp == Response(201, DocJson(a))
        && admissions.docs == old(admissions.docs) + [a]
        && mailer.outbox == old(mailer.outbox) + Notified(config, "New Admission Application Received", AdmissionNotice(a), transportFails)
  {
    var a := AdmissionOf(body, now);
    var saved := admissions.Save(a, AdmissionValid(a), saveFault);
    if saved.Failure? {
      return ServerError();
    }
    var _ := mailer.SendEmail(Recipient(config), "New Admission Application Received", AdmissionNotice(a), transportFails);
    resp := Response(201, DocJson(a));
  }

  /** `POST /contact/submit` of the JavaScript server. */
  method SubmitContact(body: Body, now: nat, contacts: Collection<Contact>, mailer: Mailer, config: MailConfig,
                       saveFault: bool, transportFails: bool) returns (resp: Response<Contact>)
    modifies contacts, mailer
    ensures var c := ContactOf(body, now);
      !ContactValid(c) || saveFault ==>
        resp == ServerError() && unchanged(contacts) && unchanged(mailer)
    ensures var c := ContactOf(body, now);
      ContactValid(c) && !saveFault ==>
        && resp == Response(201, DocJson(c))
        && contacts.docs == old(contacts.docs) + [c]
        && mailer.outbox == old(mailer.outbox) + Notified(config, "New Contact Received", ContactNotice(c), transportFails)
  {
    var c := ContactOf(body, now);
    var saved := contacts.Save(c, ContactValid(c), saveFault);
    if saved.Failure? {
      return ServerError();
    }
    var _ := mailer.SendEmail(Recipient(config), "New Contact Received", ContactNotice(c), transportFails);
    resp := Response(201, DocJson(c));
  }

  /** The fields the TypeScript contact route copies out of the body. */
  const ContactTsKeys: set<string> := {"name", "email", "subject", "message"}

  /** `POST /contact/submit` of the TypeScript server: no notification, and
      `res.json` answers 200. */
  method SubmitContactTs(body: Body, now: nat, contacts: Collection<Contact>, saveFault: bool)
    returns (resp: Response<Contact>)
    modifies contacts
    ensures var c := ContactOf(Pick(body, ContactTsKeys), now);
      !ContactValid(c) || saveFault ==> resp == ServerError() && unchanged(contacts)
    ensures var c := ContactOf(Pick(body, ContactTsKeys), now);
      ContactValid(c) && !saveFault ==> resp == Response(200, DocJson(c)) && contacts.docs == old(contacts.docs) + [c]
  {
    var c := ContactOf(Pick(body, ContactTsKeys), now);
    var saved := contacts.Save(c, ContactValid(c), saveFault);
    if saved.Failure? {
      return ServerError();
    }
    resp := Response(200, DocJson(c));
  }

  /** The TypeScript contact route drops a `phone` sent in the body and keeps
      everything else the schema would keep. */
  lemma ContactTsDropsPhone(body: Body, now: nat)
    ensures ContactOf(Pick(body, ContactTsKeys), now) == ContactOf(body, now).(phone := None)
  {
    assert Field(Pick(body, ContactTsKeys), "phone") == None;
  }

  /** `POST /enquiry/submit` of the JavaScript server: the whole body. */
  method SubmitEnquiry(body: Body, now: nat, enquiries: Collection<Enquiry>, saveFault: bool)
    returns (resp: Response<Enquiry>)
    modifies enquiries
    ensures var e := EnquiryOf(body, now);
      !EnquiryValid(e) || saveFault ==> resp == ServerError() && unchanged(enquiries)
    ensures var e := EnquiryOf(body, now);
      EnquiryValid(e) && !saveFault ==> resp == Response(201, DocJson(e)) && enquiries.docs == old(enquiries.docs) + [e]
  {
    var e := EnquiryOf(body, now);
    var saved := enquiries.Save(e, EnquiryValid(e), saveFault);
    if saved.Failure? {
      return ServerError();
    }
    resp := Response(201, DocJson(e));
  }

  /** The seven fields the TypeScript enquiry route copies out of the body. */
  const EnquiryTsKeys: set<string> := {"name", "email", "phone", "message", "class", "preferredDate", "type"}

  /** `POST /enquiry/submit` of the TypeScript server: an explicit pick, and
      `res.json` answers 200. */
  method SubmitEnquiryTs(body: Body, now: nat, enquiries: Collection<Enquiry>, saveFault: bool)
    returns (resp: Response<Enquiry>)
    modifies enquiries
    ensures var e := EnquiryOf(Pick(body, EnquiryTsKeys), now);
      !EnquiryValid(e) || saveFault ==> resp == ServerError() && unchanged(enquiries)
    ensures var e := EnquiryOf(Pick(body, EnquiryTsKeys), now);
      EnquiryValid(e) && !saveFault ==> resp == Response(200, DocJson(e)) && enquiries.docs == old(enquiries.docs) + [e]
  {
    var e := EnquiryOf(Pick(body, EnquiryTsKeys), now);
    var saved := enquiries.Save(e, EnquiryValid(e), saveFault);
    if saved.Failure? {
      return ServerError();
    }
    resp := Response(200, DocJson(e));
  }

  /** The explicit pick keeps every schema field, `class` included: both
      enquiry routes store the same document. */
  lemma EnquiryTsStoresSame(body: Body, now: nat)
    ensures EnquiryOf(Pick(body, EnquiryTsKeys), now) == EnquiryOf(body, now)
  {
    assert Field(Pick(body, EnquiryTsKeys), "class") == Field(body, "class");
    assert Field(Pick(body, EnquiryTsKeys), "type") == Field(body, "type");
  }

  /** `GET /` of every lead router (behind the admin check): the whole
      collection newest first, or 500 when the query fails. */
  method ListNewestFirst<D>(c: Collection<D>, date: D -> nat, queryFault: bool) returns (resp: Response<D>)
    ensures queryFault ==> resp == ServerError()
    ensures !queryFault ==>
      && resp.status == 200 && resp.reply.ListJson?
      && multiset(resp.reply.docs) == multiset(c.docs) && NewestFirst(resp.reply.docs, date)
  {
    var found := c.FindNewestFirst(date, queryFault);
    if found.None? {
      return ServerError();
    }
    resp := Response(200, ListJson(found.value));
  }

  /** A demo notification shows the four booked fields, in this order. */
  lemma DemoNoticeShowsBooking(body: Body, now: nat)
    requires DemoFieldsGiven(body) && PlainBody(body)
    ensures var d := DemoOf(body, now);
      ParseTemplate(DemoNotice(d)) == Some(("New Demo Class Booking", [
        Entry("Student Name", body["name"]), Entry("Phone", body["phone"]),
        Entry("Class", body["class"]), Entry("Preferred Date", body["preferredDate"])]))
  {
    var d := DemoOf(body, now);
    DemoEntriesOf(body, now);
    TemplateRoundTrip("New Demo Class Booking", DemoEntries(d));
  }

  lemma DemoEntriesOf(body: Body, now: nat)
    requires DemoFieldsGiven(body) && PlainBody(body)
    ensures var d := DemoOf(body, now);
      && PlainEntries(DemoEntries(d))
      && DemoEntries(d) == [
        Entry("Student Name", body["name"]), Entry("Phone", body["phone"]),
        Entry("Class", body["class"]), Entry("Preferred Date", body["preferredDate"])]
  {
    var data := DemoEntries(DemoOf(body, now));
    DemoKeysPlain();
    assert Plain(data[0].value) && Plain(data[1].value) && Plain(data[2].value) && Plain(data[3].value);
    assert Plain(data[0].key) && Plain(data[1].key) && Plain(data[2].key) && Plain(data[3].key);
  }

  lemma DemoKeysPlain()
    ensures Plain("Student Name") && Plain("Phone") && Plain("Class") && Plain("Preferred Date")
  {
  }

  /** No field of the body contains markup. */
  predicate PlainBody(body: Body) {
    forall k :: k in body ==> Plain(body[k])
  }

  /** A field that, when given, contains no markup. */
  predicate PlainField(v: Option<string>) {
    v.None? || Plain(v.value)
  }

  lemma PlainShown(v: Option<string>)
    requires PlainField(v)
    ensures Plain(Show(v))
  {
  }

  /** An admission notification reads back with eight rows, its email row
      showing `N/A` for a missing or empty email and the email otherwise. */
  lemma AdmissionNoticeEmail(a: Admission)
    requires PlainAdmission(a)
    ensures var parsed := ParseTemplate(AdmissionNotice(a));
      && parsed.Some? && parsed.value.0 == "New Admission Form Submission" && |parsed.value.1| == 8
      && parsed.value.1[3] == Entry("Email", if Truthy(a.email) then a.email.value else "N/A")
  {
    var data := AdmissionEntries(a);
    assert |data| == 8 && data[3] == Entry("Email", OrElse(a.email, "N/A"));
    AdmissionEntriesPlain(a);
    TemplateRoundTrip("New Admission Form Submission", data);
  }

  predicate PlainAdmission(a: Admission) {
    && PlainField(a.studentName) && PlainField(a.parentName) && PlainField(a.phone) && PlainField(a.email)
    && PlainField(a.className) && PlainField(a.gender) && PlainField(a.dateOfBirth) && PlainField(a.address)
  }

  lemma AdmissionEntriesPlain(a: Admission)
    requires PlainAdmission(a)
    ensures PlainEntries(AdmissionEntries(a))
  {
    var data := AdmissionEntries(a);
    AdmissionKeysPlain();
    assert Plain(data[0].value) by { PlainShown(a.studentName); }
    assert Plain(data[1].value) by { PlainShown(a.parentName); }
    assert Plain(data[2].value) by { PlainShown(a.phone); }
    assert Plain(data[3].value);
    assert Plain(data[4].value) by { PlainShown(a.className); }
    assert Plain(data[5].value) by { PlainShown(a.gender); }
    assert Plain(data[6].value) by { PlainShown(a.dateOfBirth); }
    assert Plain(data[7].value) by { PlainShown(a.address); }
    assert Plain(data[0].key) && Plain(data[1].key) && Plain(data[2].key) && Plain(data[3].key);
    assert Plain(data[4].key) && Plain(data[5].key) && Plain(data[6].key) && Plain(data[7].key);
  }

  lemma AdmissionKeysPlain()
    ensures Plain("Student Name") && Plain("Parent Name") && Plain("Phone") && Plain("Email")
    ensures Plain("Class") && Plain("Gender") && Plain("DOB") && Plain("Address")
  {
  }

  /** A contact notification reads back with five rows, showing `N/A` for a
      missing phone and `Website Contact` for a missing subject. */
  lemma ContactNoticeDefaults(c: Contact)
    requires PlainContact(c)
    ensures var parsed := ParseTemplate(ContactNotice(c));
      && parsed.Some? && parsed.value.0 == "New Contact Form Submission" && |parsed.value.1| == 5
      && parsed.value.1[2] == Entry("Phone", if Truthy(c.phone) then c.phone.value else "N/A")
      && parsed.value.1[3] == Entry("Subject", if Truthy(c.subject) then c.subject.value else "Website Contact")
  {
    var data := ContactEntries(c);
    assert |data| == 5 && data[2] == Entry("Phone", OrElse(c.phone, "N/A"));
    assert data[3] == Entry("Subject", OrElse(c.subject, "Website Contact"));
    ContactEntriesPlain(c);
    TemplateRoundTrip("New Contact Form Submission", data);
  }

  predicate PlainContact(c: Contact) {
    PlainField(c.name) && PlainField(c.email) && PlainField(c.phone) && PlainField(c.subject) && PlainField(c.message)
  }

  lemma ContactEntriesPlain(c: Contact)
    requires PlainContact(c)
    ensures PlainEntries(ContactEntries(c))
  {
    var data := ContactEntries(c);
    ContactKeysPlain();
    assert Plain(data[0].value) by { PlainShown(c.name); }
    assert Plain(data[1].value) by { PlainShown(c.email); }
    assert Plain(data[2].value) && Plain(data[3].value);
    assert Plain(data[4].value) by { PlainShown(c.message); }
    assert Plain(data[0].key) && Plain(data[1].key) && Plain(data[2].key) && Plain(data[3].key) && Plain(data[4].key);
  }

  lemma ContactKeysPlain()
    ensures Plain("Name") && Plain("Email") && Plain("Phone") && Plain("Subject") && Plain("Message")
    ensures Plain("N/A") && Plain("Website Contact")
  {
  }
}
