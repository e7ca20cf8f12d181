/** Country flags: a player's country is the URL of a country resource ending in its ISO code. */
module Country {
  import opened Text

  const FlagCdn: string := "https://flagcdn.com/w40/"
  const CountryEndpoint: string := "https://api.chess.com/pub/country/"

  /**
   * `getFlagUrl`: the flag image for the lowercased last path segment, or ""
   * when that segment is empty (which includes the empty URL).
   */
  function FlagUrl(countryUrl: string): (r: string)
    ensures r == "" <==> LastSegment(countryUrl) == ""
    ensures r != "" ==> r == FlagCdn + ToLower(LastSegment(countryUrl)) + ".png"
  {
    if countryUrl == "" then ""
    else
      var code := ToLower(LastSegment(countryUrl));
      if code == "" then "" else FlagCdn + code + ".png"
  }

  /** The flag does not depend on how the country URL is capitalised. */
  lemma FlagUrlIgnoresCase(countryUrl: string)
    ensures FlagUrl(ToLower(countryUrl)) == FlagUrl(countryUrl)
  {
    LastSegmentToLower(countryUrl);
    ToLowerIdempotent(LastSegment(countryUrl));
  }

  /** For a country resource URL the flag is that of its code, in lower case. */
  lemma FlagForCountryResource(code: string)
    requires code != "" && '/' !in code
    ensures FlagUrl(CountryEndpoint + code) == FlagCdn + ToLower(code) + ".png"
  {
    var u := CountryEndpoint + code;
    assert u[|u| - |code|..] == code;
    assert u[|u| - |code| - 1] == '/';
    LastSegmentUnique(u, code);
  }
}
