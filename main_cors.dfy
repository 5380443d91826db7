/**
 * The CORS origin list of backend-fastapi/app/main.py, read from the
 * `CORS_ORIGINS` environment variable (a parameter here).
 */
module MainCors {
  import opened Outcomes
  import opened Text

  /** The comma-separated pieces of `raw`, each stripped, blank ones dropped, in order. */
  function Pieces(raw: string): seq<string> {
    NonBlankTrimmed(Split(raw, ','))
  }

  /**
   * The origins listed in the variable (which defaults to "*"), or "*" alone
   * when none is listed.
   */
  function AllowedOrigins(corsEnv: Option<string>): (r: seq<string>)
    ensures r != []
  {
    var origins := Pieces(corsEnv.GetOr("*"));
    if origins == [] then ["*"] else origins
  }

  /** Every origin is nonempty, has no surrounding white space and holds no comma. */
  lemma OriginsClean(corsEnv: Option<string>)
    ensures forall k :: 0 <= k < |AllowedOrigins(corsEnv)| ==>
              var origin := AllowedOrigins(corsEnv)[k];
              origin != "" && IsTrimmed(origin) && NoneOf(origin, {','})
  {
    var raw := corsEnv.GetOr("*");
    if Pieces(raw) == [] {
      assert AllowedOrigins(corsEnv) == ["*"];
      assert |"*"| == 1 && "*"[0] == '*';
    } else {
      assert AllowedOrigins(corsEnv) == Pieces(raw);
      PiecesHaveNoComma(raw);
      NonBlankTrimmedClean(Split(raw, ','));
    }
  }

  lemma PiecesHaveNoComma(raw: string)
    ensures forall k :: 0 <= k < |Pieces(raw)| ==> NoneOf(Pieces(raw)[k], {','})
  {
    SplitAnyNoSeparator(raw, {','});
    NonBlankTrimmedChars(Split(raw, ','), {','});
  }

  /** Unset, empty and blank-only settings all allow every origin. */
  lemma DefaultsToWildcard()
    ensures AllowedOrigins(None) == ["*"]
    ensures AllowedOrigins(Some("")) == ["*"]
    ensures AllowedOrigins(Some(" , ")) == ["*"]
  {
    UnsetIsWildcard();
    EmptyIsWildcard();
    BlankIsWildcard();
  }

  lemma UnsetIsWildcard()
    ensures AllowedOrigins(None) == ["*"]
  {
    assert NoneOf("*", {','}) by { assert |"*"| == 1 && "*"[0] == '*'; }
    SplitNoSep("*", ',');
    assert IsTrimmed("*") by { assert "*"[0] == '*'; }
    TrimOfTrimmed("*");
    assert NonBlankTrimmed(["*"]) == ["*"] + NonBlankTrimmed([]);
  }

  lemma EmptyIsWildcard()
    ensures AllowedOrigins(Some("")) == ["*"]
  {
    SplitNoSep("", ',');
    assert Trim("") == "";
    assert NonBlankTrimmed([""]) == NonBlankTrimmed([]);
  }

  lemma BlankIsWildcard()
    ensures AllowedOrigins(Some(" , ")) == ["*"]
  {
    assert NoneOf(" ", {','}) by { assert |" "| == 1 && " "[0] == ' '; }
    SplitNoSep(" ", ',');
    SplitAfterSep(" ", ',', " ");
    assert " " + [','] + " " == " , ";
    assert Split(" , ", ',') == [" ", " "];
    assert AllSpace(" ") by { assert |" "| == 1 && " "[0] == ' '; }
    assert Trim(" ") == "";
    assert [" ", " "][1..] == [" "];
    assert NonBlankTrimmed([" "]) == NonBlankTrimmed([]);
    assert NonBlankTrimmed([" ", " "]) == NonBlankTrimmed([" "]);
  }

  /** A list of clean origins written comma-separated is read back as the same list. */
  lemma OriginsRoundTrip(origins: seq<string>)
    requires origins != []
    requires forall k :: 0 <= k < |origins| ==> origins[k] != "" && IsTrimmed(origins[k]) && NoneOf(origins[k], {','})
    ensures AllowedOrigins(Some(Join(origins, ","))) == origins
  {
    SplitJoin(origins, ',');
    NonBlankTrimmedFixed(origins);
  }
}
