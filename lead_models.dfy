/**
 * The lead documents (admission applications, enquiries, demo bookings and
 * contact messages) as the document store's schemas define them: which
 * fields a document keeps, which are required, their defaults, and the
 * collection that saves them and lists them newest first.
 */
module LeadModels {
  import opened Js

  /** A parsed JSON request body whose fields are strings. */
  type Body = map<string, string>

  /** `body.k`: `undefined` when the field is absent. */
  function Field(body: Body, k: string): (v: Option<string>)
    ensures v.Some? <==> k in body
    ensures v.Some? ==> v.value == body[k]
  {
    if k in body then Some(body[k]) else None
  }

  /** `{ a, b, … } = body` rebuilt as a new object: only the listed fields. */
  function Pick(body: Body, keys: set<string>): (r: Body)
    ensures r.Keys == body.Keys * keys
    ensures forall k :: k in r ==> r[k] == body[k]
  {
    map k | k in body && k in keys :: body[k]
  }

  /** A schema's `required: true` on a String: present and not empty. */
  predicate Present(v: Option<string>) {
    Truthy(v)
  }

  /** `Admission` schema; `date` defaults to the creation time `now`. */
  datatype Admission = Admission(
    studentName: Option<string>, parentName: Option<string>, phone: Option<string>,
    email: Option<string>, className: Option<string>, address: Option<string>,
    dateOfBirth: Option<string>, gender: Option<string>, previousSchool: Option<string>,
    status: string, date: nat)

  /** `Enquiry` schema; `kind` is the `type` field. */
  datatype Enquiry = Enquiry(
    name: Option<string>, email: Option<string>, phone: Option<string>,
    message: Option<string>, className: Option<string>, preferredDate: Option<string>,
    kind: string, date: nat)

  /** `Demo` schema: no status and no type. */
  datatype Demo = Demo(
    name: Option<string>, phone: Option<string>, className: Option<string>,
    preferredDate: Option<string>, date: nat)

  /** `Contact` schema. */
  datatype Contact = Contact(
    name: Option<string>, email: Option<string>, phone: Option<string>,
    subject: Option<string>, message: Option<string>, date: nat)

  function Defaulted(body: Body, k: string, default: string): (v: string)
    ensures k in body ==> v == body[k]
    ensures k !in body ==> v == default
  {
    if k in body then body[k] else default
  }

  /** `new Admission(body)` at time `now`. */
  function AdmissionOf(body: Body, now: nat): Admission {
    Admission(Field(body, "studentName"), Field(body, "parentName"), Field(body, "phone"),
              Field(body, "email"), Field(body, "class"), Field(body, "address"),
              Field(body, "dateOfBirth"), Field(body, "gender"), Field(body, "previousSchool"),
              Defaulted(body, "status", "pending"), now)
  }

  /** `new Enquiry(body)` at time `now`. */
  function EnquiryOf(body: Body, now: nat): Enquiry {
    Enquiry(Field(body, "name"), Field(body, "email"), Field(body, "phone"),
            Field(body, "message"), Field(body, "class"), Field(body, "preferredDate"),
            Defaulted(body, "type", "general"), now)
  }

  /** `new Demo(body)` at time `now`. */
  function DemoOf(body: Body, now: nat): Demo {
    Demo(Field(body, "name"), Field(body, "phone"), Field(body, "class"), Field(body, "preferredDate"), now)
  }

  /** `new Contact(body)` at time `now`. */
  function ContactOf(body: Body, now: nat): Contact {
    Contact(Field(body, "name"), Field(body, "email"), Field(body, "phone"),
            Field(body, "subject"), Field(body, "message"), now)
  }

  const AdmissionKeys: set<string> := {"studentName", "parentName", "phone", "email", "class", "address", "dateOfBirth", "gender", "previousSchool", "status"}
  const EnquiryKeys: set<string> := {"name", "email", "phone", "message", "class", "preferredDate", "type"}
  const DemoKeys: set<string> := {"name", "phone", "class", "preferredDate"}
  const ContactKeys: set<string> := {"name", "email", "phone", "subject", "message"}

  const AdmissionRequired: seq<string> := ["studentName", "parentName", "phone", "class", "address", "dateOfBirth", "gender"]
  const EnquiryRequired: seq<string> := ["name", "phone"]
  const DemoRequired: seq<string> := ["name", "phone", "class", "preferredDate"]
  const ContactRequired: seq<string> := ["name", "email", "message"]

  /** Every listed field of the body is present and non-empty. */
  predicate AllGiven(body: Body, keys: seq<string>) {
    forall i :: 0 <= i < |keys| ==> Present(Field(body, keys[i]))
  }

  predicate AdmissionValid(a: Admission) {
    && Present(a.studentName) && Present(a.parentName) && Present(a.phone) && Present(a.className)
    && Present(a.address) && Present(a.dateOfBirth) && Present(a.gender)
  }

  predicate EnquiryValid(e: Enquiry) {
    Present(e.name) && Present(e.phone)
  }

  predicate DemoValid(d: Demo) {
    Present(d.name) && Present(d.phone) && Present(d.className) && Present(d.preferredDate)
  }

  predicate ContactValid(c: Contact) {
    Present(c.name) && Present(c.email) && Present(c.message)
  }

  /** An admission is accepted exactly when its seven required fields are given. */
  lemma AdmissionValidIff(body: Body, now: nat)
    ensures AdmissionValid(AdmissionOf(body, now)) <==> AllGiven(body, AdmissionRequired)
  {
    if AllGiven(body, AdmissionRequired) {
      var r := AdmissionRequired;
      assert Present(Field(body, r[0])) && Present(Field(body, r[1])) && Present(Field(body, r[2]));
      assert Present(Field(body, r[3])) && Present(Field(body, r[4])) && Present(Field(body, r[5]));
      assert Present(Field(body, r[6]));
    }
  }

  /** `email` and `previousSchool` are optional: they never decide validity. */
  lemma AdmissionOptionalFields(a: Admission, email: Option<string>, previousSchool: Option<string>)
    ensures AdmissionValid(a.(email := email, previousSchool := previousSchool)) == AdmissionValid(a)
  {
  }

  /** A new admission is `pending` unless the body names a status, and is
      stamped with the creation time. */
  lemma AdmissionDefaults(body: Body, now: nat)
    ensures "status" !in body ==> AdmissionOf(body, now).status == "pending"
    ensures "status" in body ==> AdmissionOf(body, now).status == body["status"]
    ensures AdmissionOf(body, now).date == now
  {
  }

  /** Only `name` and `phone` decide whether an enquiry is accepted. */
  lemma EnquiryValidIff(body: Body, now: nat)
    ensures EnquiryValid(EnquiryOf(body, now)) <==> AllGiven(body, EnquiryRequired)
  {
    if AllGiven(body, EnquiryRequired) {
      assert Present(Field(body, EnquiryRequired[0])) && Present(Field(body, EnquiryRequired[1]));
    }
  }

  lemma EnquiryOptionalFields(e: Enquiry, email: Option<string>, message: Option<string>, className: Option<string>, preferredDate: Option<string>)
    ensures EnquiryValid(e.(email := email, message := message, className := className, preferredDate := preferredDate)) == EnquiryValid(e)
  {
  }

  /** A new enquiry is of type `general` unless the body names a type. */
  lemma EnquiryDefaults(body: Body, now: nat)
    ensures "type" !in body ==> EnquiryOf(body, now).kind == "general"
    ensures "type" in body ==> EnquiryOf(body, now).kind == body["type"]
    ensures EnquiryOf(body, now).date == now
  {
  }

  /** A demo booking needs all four of its fields. */
  lemma DemoValidIff(body: Body, now: nat)
    ensures DemoValid(DemoOf(body, now)) <==> AllGiven(body, DemoRequired)
  {
    if AllGiven(body, DemoRequired) {
      var r := DemoRequired;
      assert Present(Field(body, r[0])) && Present(Field(body, r[1]));
      assert Present(Field(body, r[2])) && Present(Field(body, r[3]));
    }
  }

  /** A demo booking keeps nothing but its four fields and the creation time:
      a `status` or `type` in the body is dropped. */
  lemma DemoKeepsOnlyItsFields(body: Body, now: nat)
    ensures DemoOf(body, now) == DemoOf(Pick(body, DemoKeys), now)
    ensures DemoOf(body, now).date == now
  {
  }

  lemma ContactValidIff(body: Body, now: nat)
    ensures ContactValid(ContactOf(body, now)) <==> AllGiven(body, ContactRequired)
  {
    if AllGiven(body, ContactRequired) {
      var r := ContactRequired;
      assert Present(Field(body, r[0])) && Present(Field(body, r[1])) && Present(Field(body, r[2]));
    }
  }

  /** The schemas are strict: fields outside a schema never reach the document. */
  lemma SchemasAreStrict(body: Body, now: nat)
    ensures AdmissionOf(body, now) == AdmissionOf(Pick(body, AdmissionKeys), now)
    ensures EnquiryOf(body, now) == EnquiryOf(Pick(body, EnquiryKeys), now)
    ensures ContactOf(body, now) == ContactOf(Pick(body, ContactKeys), now)
  {
  }

  /** `find().sort({ date: -1 })`'s order: newest first. */
  predicate NewestFirst<D>(s: seq<D>, date: D -> nat) {
    forall i, j :: 0 <= i < j < |s| ==> date(s[i]) >= date(s[j])
  }

  function InsertByDate<D>(x: D, s: seq<D>, date: D -> nat): (r: seq<D>)
    requires NewestFirst(s, date)
    ensures multiset(r) == multiset(s) + multiset{x}
    ensures NewestFirst(r, date)
  {
    if s == [] || date(x) >= date(s[0]) then
      NewestFirstCons(x, s, date);
      [x] + s
    else
      var rest := InsertByDate(x, s[1..], date);
      NoNewerThan(s[0], x, s[1..], rest, date);
      NewestFirstCons(s[0], rest, date);
      assert s == [s[0]] + s[1..];
      [s[0]] + rest
  }

  /** A document at least as new as everything after it can go in front. */
  lemma NewestFirstCons<D>(h: D, s: seq<D>, date: D -> nat)
    requires NewestFirst(s, date)
    requires s == [] || date(h) >= date(s[0])
    ensures NewestFirst([h] + s, date)
  {
    var r := [h] + s;
    forall i, j | 0 <= i < j < |r|
      ensures date(r[i]) >= date(r[j])
    {
      if i == 0 {
        assert r[j] == s[j - 1];
      } else {
        assert r[i] == s[i - 1] && r[j] == s[j - 1];
      }
    }
  }

  /** A rearrangement of `s` plus `x` holds nothing newer than `top` when
      neither `s` nor `x` does. */
  lemma NoNewerThan<D>(top: D, x: D, s: seq<D>, rest: seq<D>, date: D -> nat)
    requires date(top) >= date(x)
    requires forall k :: 0 <= k < |s| ==> date(top) >= date(s[k])
    requires multiset(rest) == multiset(s) + multiset{x}
    ensures rest == [] || date(top) >= date(rest[0])
    ensures forall k :: 0 <= k < |rest| ==> date(top) >= date(rest[k])
  {
    forall k | 0 <= k < |rest|
      ensures date(top) >= date(rest[k])
    {
      assert rest[k] in multiset(rest);
      if rest[k] != x {
        assert rest[k] in multiset(s);
        var j :| 0 <= j < |s| && s[j] == rest[k];
      }
    }
  }

  /** The listing the store returns: the documents, newest first. */
  function SortNewestFirst<D>(s: seq<D>, date: D -> nat): (r: seq<D>)
    ensures multiset(r) == multiset(s)
    ensures NewestFirst(r, date)
  {
    if s == [] then []
    else
      assert s == [s[0]] + s[1..];
      InsertByDate(s[0], SortNewestFirst(s[1..], date), date)
  }

  function AdmissionDate(a: Admission): nat { a.date }
  function EnquiryDate(e: Enquiry): nat { e.date }
  function DemoDate(d: Demo): nat { d.date }
  function ContactDate(c: Contact): nat { c.date }

  datatype SaveError = ValidationError | DatabaseError

  /** One collection of the document store. Whether the schema accepts a
      document (`valid`) and whether the database fails (`fault`) are inputs. */
  class Collection<D> {
    var docs: seq<D>

    constructor ()
      ensures docs == []
    {
      docs := [];
    }

    /** `doc.save()`: a schema rejection or a database error throws and stores
        nothing; otherwise the document is appended and returned. */
    method Save(doc: D, valid: bool, fault: bool) returns (r: Result<D, SaveError>)
      modifies this
      ensures !valid ==> r == Failure(ValidationError) && unchanged(this)
      ensures valid && fault ==> r == Failure(DatabaseError) && unchanged(this)
      ensures valid && !fault ==> r == Success(doc) && docs == old(docs) + [doc]
    {
      if !valid {
        r := Failure(ValidationError);
      } else if fault {
        r := Failure(DatabaseError);
      } else {
        docs := docs + [doc];
        r := Success(doc);
      }
    }

    /** `find().sort({ date: -1 })`: every document, newest first, or
        `None` when the query fails. */
    method FindNewestFirst(date: D -> nat, fault: bool) returns (r: Option<seq<D>>)
      ensures fault <==> r.None?
      ensures r.Some? ==> multiset(r.value) == multiset(docs) && NewestFirst(r.value, date)
    {
      if fault {
        r := None;
      } else {
        r := Some(SortNewestFirst(docs, date));
      }
    }
  }
}
