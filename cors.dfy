/**
 * The cross-origin policy of `backend/server.js`: the list of allowed
 * origins read from the `CORS_ORIGIN` environment variable, and the
 * decision taken for each request's `Origin` header.
 */
module Cors {
  import opened Wrappers
  import opened Text

  /** The list used when `CORS_ORIGIN` is unset or empty. */
  const DefaultOrigins: seq<string> := ["http://localhost:3000"]

  const VercelSuffix := ".vercel.app"

  const RejectMessage := "Not allowed by CORS"

  /** What the origin callback answers: allow, or fail with an error. */
  datatype Decision = Allow | Reject(message: string)

  /** `.map(origin => origin.trim())`. */
  function TrimAll(ws: seq<string>): (r: seq<string>)
    ensures |r| == |ws|
    ensures forall i :: 0 <= i < |ws| ==> r[i] == Trim(ws[i])
  {
    if ws == [] then [] else [Trim(ws[0])] + TrimAll(ws[1..])
  }

  /** `allowedOrigins`: a set, non-empty variable is split on commas and
      every piece trimmed; otherwise the local development origin alone. */
  function ParseOrigins(env: Option<string>): (r: seq<string>)
    ensures env == None || env == Some("") ==> r == DefaultOrigins
    ensures env.Some? && env.value != "" ==> r == TrimAll(Split(env.value, ','))
  {
    if env.Some? && env.value != "" then TrimAll(Split(env.value, ',')) else DefaultOrigins
  }

  /** `corsOptions.origin`: a request without an origin, one listed exactly,
      or one whose origin ends in `.vercel.app` is allowed. */
  function Decide(allowed: seq<string>, origin: Option<string>): (r: Decision)
    ensures r == Allow || r == Reject(RejectMessage)
    ensures r == Allow <==>
      origin == None || origin == Some("") || origin.value in allowed || EndsWith(origin.value, VercelSuffix)
  {
    if origin == None || origin.value == "" then Allow
    else if origin.value in allowed || EndsWith(origin.value, VercelSuffix) then Allow
    else Reject(RejectMessage)
  }

  /** One entry per comma-separated piece: one more than there are commas. */
  lemma OriginCount(env: string)
    requires env != ""
    ensures |ParseOrigins(Some(env))| == CharCount(env, ',') + 1
  {
    SplitCount(env, ',');
  }

  /** An entry holds no comma and neither starts nor ends with white space. */
  predicate WellFormedOrigin(o: string) {
    ',' !in o && (o == [] || (!IsWhiteSpace(o[0]) && !IsWhiteSpace(o[|o| - 1])))
  }

  /** No entry holds a comma, and none starts or ends with white space. */
  lemma OriginsWellFormed(env: Option<string>)
    ensures forall o :: o in ParseOrigins(env) ==> ',' !in o
    ensures forall o :: o in ParseOrigins(env) ==>
      o == [] || (!IsWhiteSpace(o[0]) && !IsWhiteSpace(o[|o| - 1]))
  {
    if env.Some? && env.value != "" {
      TrimAllWellFormed(Split(env.value, ','));
    } else {
      DefaultOriginsWellFormed();
    }
  }

  /** Trimming comma-free pieces gives well-formed entries. */
  lemma {:induction false} TrimAllWellFormed(pieces: seq<string>)
    requires forall w :: w in pieces ==> ',' !in w
    ensures forall o :: o in TrimAll(pieces) ==> WellFormedOrigin(o)
  {
    if pieces != [] {
      TrimmedPiece(pieces[0]);
      TrimAllWellFormed(pieces[1..]);
      assert TrimAll(pieces) == [Trim(pieces[0])] + TrimAll(pieces[1..]);
    }
  }

  /** The default list is well formed. */
  lemma DefaultOriginsWellFormed()
    ensures forall o :: o in DefaultOrigins ==> WellFormedOrigin(o)
  {
    var o := DefaultOrigins[0];
    forall k | 0 <= k < |o| ensures o[k] != ',' {
    }
    assert o[0] == 'h' && o[|o| - 1] == '0';
  }

  /** A comma-free piece stays comma-free when trimmed. */
  lemma TrimmedPiece(w: string)
    requires ',' !in w
    ensures ',' !in Trim(w)
    ensures Trim(w) == [] || (!IsWhiteSpace(Trim(w)[0]) && !IsWhiteSpace(Trim(w)[|Trim(w)| - 1]))
    ensures WellFormedOrigin(Trim(w))
  {
    TrimSlice(w);
    TrimBounds(w);
    var a, b :| 0 <= a <= b <= |w| && Trim(w) == w[a..b];
    forall k | 0 <= k < b - a ensures w[a..b][k] != ',' {
      assert w[a..b][k] == w[a + k];
    }
  }

  /** Every piece of the variable, once trimmed, is an allowed origin. */
  lemma ListedPieceAllowed(env: string, i: nat)
    requires env != "" && i < |Split(env, ',')|
    ensures Decide(ParseOrigins(Some(env)), Some(Trim(Split(env, ',')[i]))) == Allow
  {
    assert ParseOrigins(Some(env))[i] == Trim(Split(env, ',')[i]);
  }

  /** With `CORS_ORIGIN` unset, a request with an origin is allowed exactly
      when that origin is the local development server or a Vercel
      deployment. */
  lemma DefaultPolicy(origin: string)
    requires origin != ""
    ensures Decide(ParseOrigins(None), Some(origin)) == Allow <==>
      origin == "http://localhost:3000" || EndsWith(origin, VercelSuffix)
  {
  }

  /** The Vercel rule is a suffix test and ignores the list: it admits any
      origin that ends in `.vercel.app`, whatever the variable says. */
  lemma VercelAlwaysAllowed(env: Option<string>, host: string)
    ensures Decide(ParseOrigins(env), Some("https://" + host + VercelSuffix)) == Allow
  {
    var o := "https://" + host + VercelSuffix;
    assert o[|o| - |VercelSuffix|..] == VercelSuffix;
  }

  /** The list is matched exactly: a trailing slash is not the same origin. */
  lemma ExactMatchOnly()
    ensures Decide(ParseOrigins(None), Some("http://localhost:3000/")) == Reject(RejectMessage)
  {
    assert "http://localhost:3000/" != "http://localhost:3000";
    var o := "http://localhost:3000/";
    assert o[|o| - |VercelSuffix|..] != VercelSuffix by {
      assert o[|o| - 1] == '/';
    }
  }
}
