/**
 * The DATABASE_URL clean-up that `get_db_connection` in dashboard.py runs
 * before handing the URL to the database driver. The environment value is
 * a parameter (`None` when the variable is unset); the connection itself is
 * not part of this model.
 */
module Dashboard {
  import opened Wrappers
  import opened PyStr

  /** The scheme prefix the code rewrites, and what it is rewritten to. */
  const LegacyScheme: string := "postgres://"
  const Scheme: string := "postgresql://"

  /** The deleting steps, in the source's order: every `psql `, then every
      double quote, then every single quote, then surrounding whitespace. */
  function Sanitized(u: string): string {
    Strip(ReplaceAll(ReplaceAll(ReplaceAll(u, "psql ", ""), "\"", ""), "'", ""))
  }

  /** A leading `postgres://` becomes `postgresql://` (first occurrence only). */
  function RewriteScheme(d: string): string {
    if StartsWith(d, LegacyScheme) then ReplaceFirst(d, LegacyScheme, Scheme) else d
  }

  /** The value of `url` just before the connect call: an unset or empty
      variable is passed on as it is; any other value is cleaned. */
  function CleanUrl(url: Option<string>): (r: Option<string>)
    ensures r.Some? <==> url.Some?
    ensures url == None || url == Some("") ==> r == url
  {
    match url
    case None => None
    case Some(u) => if u == "" then url else Some(RewriteScheme(Sanitized(u)))
  }

  // ---------------------------------------------------------------------
  // The deleting steps

  /** What the deleting steps leave is quote-free, trimmed, and made only of
      characters of the input, in their original order. */
  lemma SanitizedShape(u: string)
    ensures '"' !in Sanitized(u) && '\'' !in Sanitized(u)
    ensures Trimmed(Sanitized(u))
    ensures IsSubseq(Sanitized(u), u)
  {
    var a := ReplaceAll(u, "psql ", "");
    var b := ReplaceAll(a, "\"", "");
    var c := ReplaceAll(b, "'", "");
    var d := Strip(c);
    ReplaceAllDeletes(u, "psql ");
    ReplaceAllDeletes(a, "\"");
    ReplaceAllDeletes(b, "'");
    StripTrims(c);
    SubseqTrans(d, c, b);
    SubseqTrans(d, b, a);
    SubseqTrans(d, a, u);
    ReplaceAllRemovesChar(a, '"');
    ReplaceAllRemovesChar(b, '\'');
    if '"' in d {
      SubseqMembers(d, b, '"');
    }
    if '\'' in d {
      SubseqMembers(d, c, '\'');
    }
  }

  // ---------------------------------------------------------------------
  // The scheme step

  /** The scheme step keeps the result quote-free and trimmed. */
  lemma RewriteSchemeKeepsShape(d: string)
    requires '"' !in d && '\'' !in d && Trimmed(d)
    ensures '"' !in RewriteScheme(d) && '\'' !in RewriteScheme(d)
    ensures Trimmed(RewriteScheme(d))
  {
    if StartsWith(d, LegacyScheme) {
      var rest := d[|LegacyScheme|..];
      ReplaceFirstAtStart(d, LegacyScheme, Scheme);
      assert RewriteScheme(d) == Scheme + rest;
      if rest != [] {
        assert rest[|rest| - 1] == d[|d| - 1];
      }
      forall ch | ch in Scheme + rest
        ensures ch in Scheme || ch in d
      {
        if ch !in Scheme {
          var i :| 0 <= i < |Scheme + rest| && (Scheme + rest)[i] == ch;
          assert d[i - 2] == ch;
        }
      }
    }
  }

  /** A URL already spelled `postgresql://` does not start with
      `postgres://`, so the scheme step leaves it alone. */
  lemma RewriteSchemeKeepsPostgresql(d: string)
    requires StartsWith(d, Scheme)
    ensures !StartsWith(d, LegacyScheme)
    ensures RewriteScheme(d) == d
  {
    assert d[8] == Scheme[8] == 'q';
  }

  // ---------------------------------------------------------------------
  // The whole clean-up

  /** The cleaned URL contains no double and no single quote. */
  lemma CleanUrlHasNoQuotes(url: Option<string>)
    ensures CleanUrl(url).Some? ==> '"' !in CleanUrl(url).value && '\'' !in CleanUrl(url).value
  {
    if url.Some? && url.value != "" {
      SanitizedShape(url.value);
      RewriteSchemeKeepsShape(Sanitized(url.value));
    }
  }

  /** The cleaned URL has no leading or trailing whitespace. */
  lemma CleanUrlIsTrimmed(url: Option<string>)
    ensures CleanUrl(url).Some? ==> Trimmed(CleanUrl(url).value)
  {
    if url.Some? && url.value != "" {
      SanitizedShape(url.value);
      RewriteSchemeKeepsShape(Sanitized(url.value));
    }
  }

  /** A sanitised URL starting with `postgres://` comes out as
      `postgresql://` followed by the rest, unchanged: later occurrences of
      `postgres://` are not touched. */
  lemma CleanUrlRewritesScheme(u: string)
    ensures StartsWith(Sanitized(u), LegacyScheme) ==>
      CleanUrl(Some(u)) == Some(Scheme + Sanitized(u)[|LegacyScheme|..])
  {
    if StartsWith(Sanitized(u), LegacyScheme) {
      assert u != "";
      ReplaceFirstAtStart(Sanitized(u), LegacyScheme, Scheme);
    }
  }

  /** A sanitised URL not starting with `postgres://` (e.g. one already
      starting with `postgresql://`) is not changed by the scheme step. */
  lemma CleanUrlKeepsOtherSchemes(u: string)
    ensures !StartsWith(Sanitized(u), LegacyScheme) ==> CleanUrl(Some(u)) == Some(Sanitized(u))
  {
    if u == "" {
      assert Sanitized(u) == "";
    }
  }

  /** A URL that is already clean is returned unchanged. */
  lemma CleanUrlFixedPoint(u: string)
    requires !Occurs("psql ", u) && '"' !in u && '\'' !in u
    requires Trimmed(u) && !StartsWith(u, LegacyScheme)
    ensures CleanUrl(Some(u)) == Some(u)
  {
    ReplaceAllAbsent(u, "psql ", "");
    OccursChar(u, '"');
    ReplaceAllAbsent(u, "\"", "");
    OccursChar(u, '\'');
    ReplaceAllAbsent(u, "'", "");
    StripKeepsTrimmed(u);
  }

  /** Every step only deletes characters, except the scheme step, which
      inserts `ql`; so what survives keeps its order and the result is at
      most two characters longer than the input. */
  lemma CleanUrlOnlyDeletes(u: string)
    ensures CleanUrl(Some(u)).Some?
    ensures IsSubseq(Sanitized(u), u)
    ensures var r, d := CleanUrl(Some(u)).value, Sanitized(u);
      || r == d
      || (d == LegacyScheme + d[|LegacyScheme|..] && r == Scheme + d[|LegacyScheme|..])
    ensures |CleanUrl(Some(u)).value| <= |u| + 2
  {
    var d := Sanitized(u);
    SanitizedShape(u);
    SubseqLength(d, u);
    CleanUrlRewritesScheme(u);
    CleanUrlKeepsOtherSchemes(u);
  }

  /** The steps run once, in a fixed order, so the clean-up is not
      idempotent and its result may still contain `psql `: deleting a quote
      can form a `psql ` that the earlier step has already passed. */
  lemma CleanUrlNotIdempotent()
    ensures CleanUrl(Some("ps'ql x")) == Some("psql x")
    ensures CleanUrl(Some("psql x")) == Some("x")
  {
    QuoteFormsPsql();
    PsqlRemoved();
  }

  /** `Sanitized("ps'ql x") == "psql x"`, one step at a time. */
  lemma QuoteFormsPsql()
    ensures Sanitized("ps'ql x") == "psql x"
  {
    NoPsqlInQuoted();
    NoDoubleQuoteInQuoted();
    SingleQuoteDropped();
    StripKeepsTrimmed("psql x");
  }

  lemma NoPsqlInQuoted()
    ensures ReplaceAll("ps'ql x", "psql ", "") == "ps'ql x"
  {
    var p, u := "psql ", "ps'ql x";
    assert u[..5][2] != p[2];
    assert u[1..][..5][0] != p[0];
    assert u[2..][..5][0] != p[0];
    assert ReplaceAll(u[3..], p, "") == u[3..];
  }

  lemma NoDoubleQuoteInQuoted()
    ensures ReplaceAll("ps'ql x", "\"", "") == "ps'ql x"
  {
    OccursChar("ps'ql x", '"');
    ReplaceAllAbsent("ps'ql x", "\"", "");
  }

  lemma SingleQuoteDropped()
    ensures ReplaceAll("ps'ql x", "'", "") == "psql x"
  {
    var u := "ps'ql x";
    OccursChar(u[3..], '\'');
    ReplaceAllAbsent(u[3..], "'", "");
    assert u[2..][..1] == "'";
    assert ReplaceAll(u[2..], "'", "") == u[3..];
    assert u[1..][..1] != "'";
    assert u[..1] != "'";
  }

  lemma PsqlRemoved()
    ensures Sanitized("psql x") == "x"
  {
    var v := "psql x";
    assert ReplaceAll(v, "psql ", "") == "x" by {
      assert v[..5] == "psql ";
    }
    assert ReplaceAll("x", "\"", "") == "x";
    assert ReplaceAll("x", "'", "") == "x";
    StripKeepsTrimmed("x");
  }
}
