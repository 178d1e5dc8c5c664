/**
 * Server bootstrap: the CORS origin list built from `FRONTEND_URL`, the
 * listening port, and the exit on a failed database connection.
 */
module ServerConfig {
  import opened Js

  const DefaultOrigins: seq<string> := ["http://localhost:5173", "http://localhost:8080"]

  /** `.map(url => url.trim()).filter(Boolean)`. */
  function TrimmedNonEmpty(pieces: seq<string>): (r: seq<string>)
    ensures |r| <= |pieces|
  {
    if pieces == [] then []
    else
      var t := Trim(pieces[0]);
      (if t == "" then [] else [t]) + TrimmedNonEmpty(pieces[1..])
  }

  /** An entry survives exactly when it is the non-empty trim of some piece. */
  lemma TrimmedNonEmptyMembers(pieces: seq<string>, o: string)
    ensures o in TrimmedNonEmpty(pieces) <==> o != "" && exists k :: 0 <= k < |pieces| && Trim(pieces[k]) == o
  {
    if o in TrimmedNonEmpty(pieces) {
      var k := SurvivorSource(pieces, o);
    }
    if o != "" && exists k :: 0 <= k < |pieces| && Trim(pieces[k]) == o {
      var k :| 0 <= k < |pieces| && Trim(pieces[k]) == o;
      SourceSurvives(pieces, k);
    }
  }

  /** The piece a surviving entry was trimmed from. */
  lemma {:induction false} SurvivorSource(pieces: seq<string>, o: string) returns (k: nat)
    requires o in TrimmedNonEmpty(pieces)
    ensures k < |pieces| && Trim(pieces[k]) == o && o != ""
  {
    var t := Trim(pieces[0]);
    if t != "" && o == t {
      k := 0;
    } else {
      assert o in TrimmedNonEmpty(pieces[1..]);
      var j := SurvivorSource(pieces[1..], o);
      k := j + 1;
    }
  }

  lemma {:induction false} SourceSurvives(pieces: seq<string>, k: nat)
    requires k < |pieces| && Trim(pieces[k]) != ""
    ensures Trim(pieces[k]) in TrimmedNonEmpty(pieces)
  {
    if k > 0 {
      assert pieces[1..][k - 1] == pieces[k];
      SourceSurvives(pieces[1..], k - 1);
    }
  }

  /** Every surviving entry is non-empty and already trimmed. */
  lemma EntriesTrimmed(pieces: seq<string>, o: string)
    requires o in TrimmedNonEmpty(pieces)
    ensures o != "" && Trim(o) == o
  {
    TrimmedNonEmptyMembers(pieces, o);
    var k :| 0 <= k < |pieces| && Trim(pieces[k]) == o;
    TrimIdempotent(pieces[k]);
  }

  /** `allowedOrigins`: the comma-separated entries of `FRONTEND_URL`, trimmed,
      blanks dropped, order kept; the two local development origins when none
      is left. */
  method AllowedOrigins(frontendUrl: Option<string>) returns (origins: seq<string>)
    ensures |origins| >= 1
    ensures var parsed := TrimmedNonEmpty(Split(OrElse(frontendUrl, ""), ','));
      origins == if parsed == [] then DefaultOrigins else parsed
    ensures forall k :: 0 <= k < |origins| ==> origins[k] != "" && ',' !in origins[k]
  {
    var pieces := Split(OrElse(frontendUrl, ""), ',');
    origins := TrimmedNonEmpty(pieces);
    EntriesClean(pieces);
    if |origins| == 0 {
      origins := origins + DefaultOrigins;
      assert origins == DefaultOrigins;
    }
  }

  /** The entries of pieces free of `,` are non-empty and free of `,`. */
  lemma EntriesClean(pieces: seq<string>)
    requires forall k :: 0 <= k < |pieces| ==> ',' !in pieces[k]
    ensures var r := TrimmedNonEmpty(pieces);
      forall k :: 0 <= k < |r| ==> r[k] != "" && ',' !in r[k]
  {
    var r := TrimmedNonEmpty(pieces);
    forall k | 0 <= k < |r|
      ensures r[k] != "" && ',' !in r[k]
    {
      var j := SurvivorSource(pieces, r[k]);
      TrimInside(pieces[j], ',');
    }
  }

  /** Trimming keeps only characters of the original. */
  lemma TrimInside(s: string, c: char)
    requires c !in s
    ensures c !in Trim(s)
  {
    var r := Trim(s);
    var j := TrimIsSlice(s);
    forall i | 0 <= i < |r|
      ensures r[i] != c
    {
      assert r[i] == s[j + i];
    }
  }

  /** An unset `FRONTEND_URL` gives exactly the two development origins. */
  lemma UnsetGivesDefaults()
    ensures TrimmedNonEmpty(Split("", ',')) == []
  {
    SplitEmpty(',');
    assert Trim("") == "";
  }

  /** `Number(process.env.PORT) || 5000`; `parsed` is `None` for `NaN`. */
  function Port(parsed: Option<int>): (p: int)
    ensures p != 0
    ensures parsed.Some? && parsed.value != 0 ==> p == parsed.value
    ensures parsed.None? || parsed.value == 0 ==> p == 5000
  {
    if parsed.Some? && parsed.value != 0 then parsed.value else 5000
  }

  datatype Startup = Listening(host: string, port: int) | Exited(code: nat)

  /** `startServer()`: listen on all interfaces once the database is
      connected, otherwise exit with code 1. */
  method StartServer(parsedPort: Option<int>, connectFails: bool) returns (s: Startup)
    ensures connectFails <==> s == Exited(1)
    ensures !connectFails ==> s == Listening("0.0.0.0", Port(parsedPort))
  {
    if connectFails {
      return Exited(1);
    }
    s := Listening("0.0.0.0", Port(parsedPort));
  }
}
