/** Application settings: the CORS origin list derived from the
    comma-separated ALLOWED_ORIGINS setting. */
module Config {
  import opened Text

  /** The ALLOWED_ORIGINS default. */
  const DefaultAllowedOrigins: string := "http://localhost:3000,http://127.0.0.1:3000"

  /** `[origin.strip() for origin in allowed_origins.split(',')]`: one origin
      per comma-separated piece, in order, each stripped of outer whitespace. */
  function AllowedOriginsList(allowedOrigins: string): (origins: seq<string>)
    ensures |origins| == Count(allowedOrigins, ',') + 1
    ensures forall i :: 0 <= i < |origins| ==>
      && origins[i] == Strip(Split(allowedOrigins, ',')[i])
      && Unpadded(origins[i]) && ',' !in origins[i]
  {
    var pieces := Split(allowedOrigins, ',');
    var origins := seq(|pieces|, i requires 0 <= i < |pieces| => Strip(pieces[i]));
    origins
  }

  /** With no whitespace around the commas, joining the list with "," gives back the setting. */
  lemma UnpaddedOriginsRoundTrip(allowedOrigins: string)
    requires forall i :: 0 <= i < |Split(allowedOrigins, ',')| ==> Unpadded(Split(allowedOrigins, ',')[i])
    ensures Join(AllowedOriginsList(allowedOrigins), ",") == allowedOrigins
  {
    var pieces := Split(allowedOrigins, ',');
    forall i | 0 <= i < |pieces| ensures Strip(pieces[i]) == pieces[i] {
      StripKeepsUnpadded(pieces[i]);
    }
    assert AllowedOriginsList(allowedOrigins) == pieces;
    SplitThenJoin(allowedOrigins, ',');
  }

  /** Conversely, a list of comma-free, unpadded origins survives joining and re-reading. */
  lemma OriginsListRoundTrip(origins: seq<string>)
    requires |origins| >= 1
    requires forall i :: 0 <= i < |origins| ==> ',' !in origins[i] && Unpadded(origins[i])
    ensures AllowedOriginsList(Join(origins, ",")) == origins
  {
    JoinThenSplit(origins, ',');
    forall i | 0 <= i < |origins| ensures Strip(origins[i]) == origins[i] {
      StripKeepsUnpadded(origins[i]);
    }
  }

  /** The empty setting gives one empty origin, not an empty list. */
  lemma EmptySettingGivesOneEmptyOrigin()
    ensures AllowedOriginsList("") == [""]
  {
  }

  /** The default setting gives the two local development origins. */
  lemma DefaultOrigins()
    ensures AllowedOriginsList(DefaultAllowedOrigins) == ["http://localhost:3000", "http://127.0.0.1:3000"]
  {
    var a, b := "http://localhost:3000", "http://127.0.0.1:3000";
    assert Join([a, b], ",") == a + "," + b by {
      assert [a, b][1..] == [b];
    }
    assert DefaultAllowedOrigins == Join([a, b], ",");
    OriginsListRoundTrip([a, b]);
  }
}
