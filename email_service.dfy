/**
 * The admin notification mail: an HTML table with one row per field of the
 * submission, and a sender whose transport failures are reported as `false`
 * rather than thrown.
 */
module EmailService {
  import opened Js

  /** One `[key, value]` pair of `Object.entries(data)`, in insertion order. */
  datatype Entry = Entry(key: string, value: string)

  /** The fixed pieces of the template, one constant per line of it. */
  const RowOpen0: string := "\n"
  const RowOpen1: string := "        <tr>\n"
  const RowOpen2: string := "            <td style=\"padding: 10px; border: 1px solid #ddd; font-weight: bold; width: 30%;\">"
  const RowOpen: string := RowOpen0 + RowOpen1 + RowOpen2
  const RowMid0: string := "</td>\n"
  const RowMid1: string := "            <td style=\"padding: 10px; border: 1px solid #ddd;\">"
  const RowMid: string := RowMid0 + RowMid1
  const RowClose0: string := "</td>\n"
  const RowClose1: string := "        </tr>\n"
  const RowClose2: string := "    "
  const RowClose: string := RowClose0 + RowClose1 + RowClose2
  const Head0: string := "\n"
  const Head1: string := "        <div style=\"font-family: Arial, sans-serif; max-width: 600px; margin: 0 auto;\">\n"
  const Head2: string := "            <h2 style=\"color: #333; text-align: center;\">"
  const Head: string := Head0 + Head1 + Head2
  /** Closes the title and holds the fixed `Field` / `Details` header row. */
  const Middle0: string := "</h2>\n"
  const Middle1: string := "            <table style=\"width: 100%; border-collapse: collapse; margin-top: 20px;\">\n"
  const Middle2: string := "                <thead>\n"
  const Middle3: string := "                    <tr style=\"background-color: #f4f4f4;\">\n"
  const Middle4: string := "                        <th style=\"padding: 10px; border: 1px solid #ddd; text-align: left;\">Field</th>\n"
  const Middle5: string := "                        <th style=\"padding: 10px; border: 1px solid #ddd; text-align: left;\">Details</th>\n"
  const Middle6: string := "                    </tr>\n"
  const Middle7: string := "                </thead>\n"
  const Middle8: string := "                <tbody>\n"
  const Middle9: string := "                    "
  const Middle: string := Middle0 + Middle1 + Middle2 + Middle3 + Middle4 + Middle5 + Middle6 + Middle7 + Middle8 + Middle9
  const Tail0: string := "\n"
  const Tail1: string := "                </tbody>\n"
  const Tail2: string := "            </table>\n"
  const Tail3: string := "            <p style=\"text-align: center; margin-top: 30px; font-size: 12px; color: #888;\">\n"
  const Tail4: string := "                This is an automated notification from your website.\n"
  const Tail5: string := "            </p>\n"
  const Tail6: string := "        </div>\n"
  const Tail7: string := "    "
  const Tail: string := Tail0 + Tail1 + Tail2 + Tail3 + Tail4 + Tail5 + Tail6 + Tail7

  /** The rows of `data`, each `o + key + m + value + c`: key and value are
      interpolated as they are, unescaped. */
  function RowsWith(data: seq<Entry>, o: string, m: string, c: string): (r: string)
    ensures data == [] ==> r == []
    ensures data != [] && c != [] ==> r != []
  {
    if data == [] then "" else o + data[0].key + m + data[0].value + c + RowsWith(data[1..], o, m, c)
  }

  /** `rows`: the rows of all entries joined with `''`. */
  function Rows(data: seq<Entry>): (r: string)
    ensures data == [] <==> r == []
  {
    MarkupStarts();
    RowsWith(data, RowOpen, RowMid, RowClose)
  }

  predicate EndsWith(s: string, z: string) {
    |z| <= |s| && s[|s| - |z|..] == z
  }

  /** `generateAdminEmailTemplate(title, data)`. */
  function AdminEmailTemplate(title: string, data: seq<Entry>): (r: string)
    ensures StartsWith(r, Head + title + Middle) && EndsWith(r, Tail)
  {
    FrameOf(Head + title + Middle, Rows(data), Tail);
    Head + title + Middle + Rows(data) + Tail
  }

  /** Text that cannot be mistaken for markup. */
  predicate Plain(s: string) {
    '<' !in s
  }

  predicate PlainEntries(data: seq<Entry>) {
    forall i :: 0 <= i < |data| ==> Plain(data[i].key) && Plain(data[i].value)
  }

  /** The longest prefix of `s` that does not contain `c`. */
  function TakeUntil(s: string, c: char): (r: string)
    ensures |r| <= |s| && r == s[..|r|] && c !in r
    ensures |r| == |s| || s[|r|] == c
  {
    if s == [] || s[0] == c then "" else [s[0]] + TakeUntil(s[1..], c)
  }

  lemma {:induction false} TakeUntilConcat(k: string, rest: string, c: char)
    requires c !in k && rest != [] && rest[0] == c
    ensures TakeUntil(k + rest, c) == k
  {
    if k != [] {
      assert (k + rest)[1..] == k[1..] + rest;
      TakeUntilConcat(k[1..], rest, c);
    }
  }

  /** Reads a sequence of rows with markup `o`, `m`, `c` back into its entries. */
  function ParseRowsWith(s: string, o: string, m: string, c: string): Option<seq<Entry>>
    requires c != []
    decreases |s|
  {
    if s == [] then Some([])
    else if !StartsWith(s, o) then None
    else
      var a := s[|o|..];
      var k := TakeUntil(a, '<');
      var b := a[|k|..];
      if !StartsWith(b, m) then None
      else
        var cc := b[|m|..];
        var v := TakeUntil(cc, '<');
        var d := cc[|v|..];
        if !StartsWith(d, c) then None
        else
          match ParseRowsWith(d[|c|..], o, m, c)
          case None => None
          case Some(rest) => Some([Entry(k, v)] + rest)
  }

  /** Reads a row sequence back into its entries. */
  function ParseRows(s: string): Option<seq<Entry>> {
    MarkupStarts();
    ParseRowsWith(s, RowOpen, RowMid, RowClose)
  }

  /** Where each piece of markup begins with `<`. */
  lemma MarkupStarts()
    ensures RowMid != [] && RowMid[0] == '<'
    ensures RowClose != [] && RowClose[0] == '<'
    ensures Middle != [] && Middle[0] == '<'
  {
  }

  /** One step of reading `o + k + m + v + c + t` back, for plain `k` and `v`
      followed by markup `m` and `c`. */
  lemma Unpack(o: string, k: string, m: string, v: string, c: string, t: string)
    requires '<' !in k && '<' !in v && m != [] && m[0] == '<' && c != [] && c[0] == '<'
    ensures var s := o + k + m + v + c + t;
      && StartsWith(s, o)
      && var a := s[|o|..];
      && TakeUntil(a, '<') == k
      && var b := a[|k|..];
      && StartsWith(b, m)
      && var cc := b[|m|..];
      && TakeUntil(cc, '<') == v
      && var d := cc[|v|..];
      && StartsWith(d, c) && d[|c|..] == t
  {
    var s := o + k + m + v + c + t;
    assert s[..|o|] == o;
    var a := s[|o|..];
    assert a == k + (m + v + c + t);
    TakeUntilConcat(k, m + v + c + t, '<');
    var b := a[|k|..];
    assert b == m + (v + c + t);
    assert b[..|m|] == m;
    var cc := b[|m|..];
    assert cc == v + (c + t);
    TakeUntilConcat(v, c + t, '<');
    var d := cc[|v|..];
    assert d == c + t;
    assert d[..|c|] == c;
  }

  /** Reading back one row in front of already readable rows. */
  lemma ParseRowsStep(e: Entry, o: string, m: string, c: string, tail: string, rest: seq<Entry>)
    requires Plain(e.key) && Plain(e.value) && m != [] && m[0] == '<' && c != [] && c[0] == '<'
    requires ParseRowsWith(tail, o, m, c) == Some(rest)
    ensures ParseRowsWith(o + e.key + m + e.value + c + tail, o, m, c) == Some([e] + rest)
  {
    Unpack(o, e.key, m, e.value, c, tail);
  }

  lemma {:induction false} ParseRowsOfRowsWith(data: seq<Entry>, o: string, m: string, c: string)
    requires PlainEntries(data) && m != [] && m[0] == '<' && c != [] && c[0] == '<'
    ensures ParseRowsWith(RowsWith(data, o, m, c), o, m, c) == Some(data)
  {
    if data != [] {
      assert PlainEntries(data[1..]) by {
        forall i | 0 <= i < |data[1..]|
          ensures Plain(data[1..][i].key) && Plain(data[1..][i].value)
        {
          assert data[1..][i] == data[i + 1];
        }
      }
      ParseRowsOfRowsWith(data[1..], o, m, c);
      ParseRowsStep(data[0], o, m, c, RowsWith(data[1..], o, m, c), data[1..]);
      assert [data[0]] + data[1..] == data;
    }
  }

  /** Exactly one row per entry, in entry order, with key and value verbatim:
      reading the rows back yields the entries. */
  lemma ParseRowsOfRows(data: seq<Entry>)
    requires PlainEntries(data)
    ensures ParseRows(Rows(data)) == Some(data)
  {
    MarkupStarts();
    ParseRowsOfRowsWith(data, RowOpen, RowMid, RowClose);
  }

  /** Reads `h + title + m + rows + z` back into its title and the row text. */
  function ParseFramed(html: string, h: string, m: string, z: string): Option<(string, string)> {
    if !StartsWith(html, h) then None
    else
      var a := html[|h|..];
      var title := TakeUntil(a, '<');
      var b := a[|title|..];
      if !StartsWith(b, m) || |b| < |m| + |z| || b[|b| - |z|..] != z then None
      else Some((title, b[|m|..|b| - |z|]))
  }

  /** Reads a notification back into its title and entries. */
  function ParseTemplate(html: string): Option<(string, seq<Entry>)> {
    match ParseFramed(html, Head, Middle, Tail)
    case None => None
    case Some((title, rows)) =>
      match ParseRows(rows)
      case None => None
      case Some(data) => Some((title, data))
  }

  /** Reading `h + t + m + r + z` back gives `t` and `r`, for plain `t`
      followed by markup `m`. */
  lemma FramedRoundTrip(h: string, t: string, m: string, r: string, z: string)
    requires '<' !in t && m != [] && m[0] == '<'
    ensures ParseFramed(h + t + m + r + z, h, m, z) == Some((t, r))
  {
    var s := h + t + m + r + z;
    assert s[..|h|] == h;
    var a := s[|h|..];
    assert a == t + (m + r + z);
    TakeUntilConcat(t, m + r + z, '<');
    var b := a[|t|..];
    assert b == m + r + z;
    assert b[..|m|] == m;
    assert b[|b| - |z|..] == z;
    assert b[|m|..|b| - |z|] == r;
  }

  /** The title sits alone inside the `h2`, and the rows inside `tbody`
      carry exactly the entries: the notification can be read back. */
  lemma TemplateRoundTrip(title: string, data: seq<Entry>)
    requires Plain(title) && PlainEntries(data)
    ensures ParseTemplate(AdminEmailTemplate(title, data)) == Some((title, data))
  {
    MarkupStarts();
    FramedRoundTrip(Head, title, Middle, Rows(data), Tail);
    ParseRowsOfRows(data);
  }

  /** Everything around the title and the rows, the `Field` / `Details`
      header included, is the same whatever the data. */
  lemma TemplateFrame(title: string, d1: seq<Entry>, d2: seq<Entry>)
    ensures var n := |Head| + |title| + |Middle|;
      var t1 := AdminEmailTemplate(title, d1);
      var t2 := AdminEmailTemplate(title, d2);
      && t1[..n] == t2[..n] == Head + title + Middle
      && t1[|t1| - |Tail|..] == t2[|t2| - |Tail|..] == Tail
  {
    var f := Head + title + Middle;
    FrameOf(f, Rows(d1), Tail);
    FrameOf(f, Rows(d2), Tail);
  }

  lemma FrameOf(h: string, r: string, z: string)
    ensures (h + r + z)[..|h|] == h && (h + r + z)[|h + r + z| - |z|..] == z
  {
    assert (h + r + z)[..|h|] == h;
    assert (h + r + z)[|h + r + z| - |z|..] == z;
  }

  /** A message handed to the transport. */
  datatype Mail = Mail(to: string, subject: string, html: string)

  /** The mail transport; `outbox` holds what it accepted. */
  class Mailer {
    var outbox: seq<Mail>

    constructor ()
      ensures outbox == []
    {
      outbox := [];
    }

    /** `sendEmail(to, subject, html)`: `true` once the transport accepted the
        message, `false` on any transport error (`transportFails`); it never
        throws. */
    method SendEmail(to: string, subject: string, html: string, transportFails: bool) returns (sent: bool)
      modifies this
      ensures sent == !transportFails
      ensures outbox == old(outbox) + (if sent then [Mail(to, subject, html)] else [])
    {
      if transportFails {
        sent := false;
      } else {
        outbox := outbox + [Mail(to, subject, html)];
        sent := true;
      }
    }
  }
}
