/**
 * The provider-record normaliser of `API/TMDb.swift`: the wire structs the
 * JSON decoder fills in, and the pure conversions from them to `TVShow`.
 *
 * The HTTP request and the JSON decoding are not modelled; the decoded
 * structs are the inputs. The shared `yyyy-MM-dd` date formatter is passed
 * in as `parse`, a partial function that yields `None` for a string it
 * cannot read.
 */
module TMDb {
  import opened Optional
  import opened Shows

  // ---------------------------------------------------------------------
  // Wire structs (decoded JSON)
  // ---------------------------------------------------------------------

  /** One entry of the `results` array of a search response. */
  datatype TVShowData = TVShowData(
    id: int,
    name: string,
    posterPath: Option<string>,
    backdropPath: Option<string>,
    firstAirDate: Option<string>)

  /** `next_episode_to_air` of a detail response; its `air_date` is always present. */
  datatype WireEpisode = WireEpisode(
    airDate: string,
    episodeNumber: int,
    id: int,
    name: string,
    overview: string,
    productionCode: string,
    seasonNumber: int,
    stillPath: Option<string>)

  datatype WireNetwork = WireNetwork(name: string, id: int, logoPath: Option<string>, originCountry: string)

  /** A detail response. */
  datatype TVShowDetails = TVShowDetails(
    id: int,
    inProduction: bool,
    name: string,
    nextEpisode: Option<WireEpisode>,
    networks: seq<WireNetwork>,
    numberOfSeasons: int,
    posterPath: Option<string>,
    backdropPath: Option<string>)

  // ---------------------------------------------------------------------
  // `String(id)`: decimal stringification of an integer id
  // ---------------------------------------------------------------------

  function DigitChar(d: nat): (c: char)
    requires d < 10
    ensures '0' <= c <= '9' && c as int - '0' as int == d
  {
    ('0' as int + d) as char
  }

  predicate IsDigits(s: string) {
    |s| > 0 && forall i :: 0 <= i < |s| ==> '0' <= s[i] <= '9'
  }

  /** The decimal digits of `n`, most significant first, without leading zeros. */
  function NatToDecimal(n: nat): (s: string)
    ensures |s| > 0 && (s[0] == '0' ==> n == 0 && s == "0")
    ensures '0' <= s[0] <= '9'
    decreases n
  {
    if n < 10 then [DigitChar(n)] else NatToDecimal(n / 10) + [DigitChar(n % 10)]
  }

  /** Swift's `String(_: Int)`: a leading `-` for a negative value, then the digits of its magnitude. */
  function IntToDecimal(n: int): (s: string)
    ensures |s| > 0 && (s[0] == '-' <==> n < 0)
  {
    if n < 0 then "-" + NatToDecimal(-n) else NatToDecimal(n)
  }

  /** The value of a string of decimal digits. */
  function DigitsValue(s: string): nat
    requires forall i :: 0 <= i < |s| ==> '0' <= s[i] <= '9'
  {
    if |s| == 0 then 0
    else DigitsValue(s[..|s| - 1]) * 10 + (s[|s| - 1] as int - '0' as int)
  }

  /** Reads an optional `-` followed by at least one decimal digit; anything else is `None`. */
  function ParseDecimal(s: string): Option<int> {
    if |s| > 0 && s[0] == '-' && IsDigits(s[1..]) then Some(0 - DigitsValue(s[1..]) as int)
    else if IsDigits(s) then Some(DigitsValue(s) as int)
    else None
  }

  lemma {:induction false} NatToDecimalRoundTrip(n: nat)
    ensures IsDigits(NatToDecimal(n))
    ensures DigitsValue(NatToDecimal(n)) == n
  {
    var s := NatToDecimal(n);
    if n >= 10 {
      NatToDecimalRoundTrip(n / 10);
      var prefix := NatToDecimal(n / 10);
      assert s[..|s| - 1] == prefix;
      assert s[|s| - 1] == DigitChar(n % 10);
    }
  }

  /** The string id of a show, episode or network gives back the provider's integer id. */
  lemma DecimalRoundTrip(n: int)
    ensures ParseDecimal(IntToDecimal(n)) == Some(n)
  {
    var s := IntToDecimal(n);
    if n < 0 {
      var digits := NatToDecimal(-n);
      NatToDecimalRoundTrip(-n);
      assert s == "-" + digits;
      assert s[0] == '-' && s[1..] == digits;
    } else {
      NatToDecimalRoundTrip(n);
      assert '0' <= s[0] <= '9';
    }
  }

  /** Distinct provider ids never collapse to one string id. */
  lemma DecimalInjective(a: int, b: int)
    requires IntToDecimal(a) == IntToDecimal(b)
    ensures a == b
  {
    DecimalRoundTrip(a);
    DecimalRoundTrip(b);
  }

  // ---------------------------------------------------------------------
  // `URL(tmdbPath:)`
  // ---------------------------------------------------------------------

  /** The fixed prefix of every poster, backdrop, still and logo URL. */
  const ImageBase: string := "https://image.tmdb.org/t/p/w500"

  /** `URL(tmdbPath:)`: no URL for a missing path, otherwise the base followed directly by the path. */
  function ImageURL(path: Option<string>): (url: Option<URL>)
    ensures url.None? <==> path.None?
    ensures url.Some? ==> |url.value| == |ImageBase| + |path.value| && url.value[..|ImageBase|] == ImageBase
    ensures url.Some? ==> url.value[|ImageBase|..] == path.value
  {
    match path
    case None => None
    case Some(p) => Some(ImageBase + p)
  }

  /** The inverse of `ImageURL`: the path behind an image URL, if it is one. */
  function ImagePath(url: Option<URL>): Option<string> {
    match url
    case None => None
    case Some(u) =>
      if |ImageBase| <= |u| && u[..|ImageBase|] == ImageBase then Some(u[|ImageBase|..]) else None
  }

  lemma ImageURLRoundTrip(path: Option<string>)
    ensures ImagePath(ImageURL(path)) == path
  {
    if path.Some? {
      assert (ImageBase + path.value)[|ImageBase|..] == path.value;
    }
  }

  /** An empty path is still a path: it gives the bare base URL, not `nil`. */
  lemma EmptyPathGivesBaseURL()
    ensures ImageURL(Some("")) == Some(ImageBase)
  {
    assert ImageBase + "" == ImageBase;
  }

  // ---------------------------------------------------------------------
  // Conversions to `TVShow`
  // ---------------------------------------------------------------------

  /** `data.firstAirDate.flatMap(dateFormatter.date(from:))`. */
  function ParseOptionalDate(s: Option<string>, parse: string -> Option<Date>): (d: Option<Date>)
    ensures s.None? ==> d.None?
    ensures s.Some? ==> d == parse(s.value)
  {
    match s
    case None => None
    case Some(text) => parse(text)
  }

  /** `TVShow.Network.init(_: Network)`. */
  function NetworkFrom(n: WireNetwork): (r: Network)
    ensures r.id == IntToDecimal(n.id) && ParseDecimal(r.id) == Some(n.id)
    ensures r.name == n.name
    ensures r.logoURL == ImageURL(n.logoPath) && ImagePath(r.logoURL) == n.logoPath
  {
    DecimalRoundTrip(n.id);
    ImageURLRoundTrip(n.logoPath);
    Network(IntToDecimal(n.id), n.name, ImageURL(n.logoPath))
  }

  /** `TVShow.Episode.init(_: Episode)`: the still path becomes the thumbnail, the season number the season. */
  function EpisodeFrom(e: WireEpisode, parse: string -> Option<Date>): (r: Episode)
    ensures r.id == IntToDecimal(e.id) && ParseDecimal(r.id) == Some(e.id)
    ensures r.name == e.name && r.episodeNumber == e.episodeNumber && r.season == e.seasonNumber
    ensures r.airDate == parse(e.airDate)
    ensures r.thumbnailURL == ImageURL(e.stillPath) && ImagePath(r.thumbnailURL) == e.stillPath
  {
    DecimalRoundTrip(e.id);
    ImageURLRoundTrip(e.stillPath);
    Episode(IntToDecimal(e.id), e.name, e.episodeNumber, parse(e.airDate), e.seasonNumber, ImageURL(e.stillPath))
  }

  /** `details.networks.map(TVShow.Network.init)`. */
  function NetworksFrom(ns: seq<WireNetwork>): (r: seq<Network>)
    ensures |r| == |ns|
    ensures forall i :: 0 <= i < |r| ==> r[i] == NetworkFrom(ns[i])
    ensures forall i :: 0 <= i < |r| ==> ParseDecimal(r[i].id) == Some(ns[i].id)
    ensures forall i :: 0 <= i < |r| ==> r[i].name == ns[i].name && ImagePath(r[i].logoURL) == ns[i].logoPath
  {
    seq(|ns|, i requires 0 <= i < |ns| => NetworkFrom(ns[i]))
  }

  /** `TVShow.init(_: TVShowData)`: a search result, which never carries detail. */
  function FromSearchResult(data: TVShowData, parse: string -> Option<Date>): (r: TVShow)
    ensures r.id == IntToDecimal(data.id) && ParseDecimal(r.id) == Some(data.id)
    ensures r.name == data.name
    ensures r.posterURL == ImageURL(data.posterPath) && r.backdropURL == ImageURL(data.backdropPath)
    ensures ImagePath(r.posterURL) == data.posterPath && ImagePath(r.backdropURL) == data.backdropPath
    ensures r.firstAirDate == ParseOptionalDate(data.firstAirDate, parse)
    ensures r.detail.None?
  {
    DecimalRoundTrip(data.id);
    ImageURLRoundTrip(data.posterPath);
    ImageURLRoundTrip(data.backdropPath);
    TVShow(IntToDecimal(data.id), data.name, ImageURL(data.posterPath), ImageURL(data.backdropPath),
           ParseOptionalDate(data.firstAirDate, parse), None)
  }

  /**
   * `TVShow.init(_: TVShowDetails)`: a detail response always yields a
   * detail; the initializer passes no first air date, so it is `None`.
   */
  function FromDetails(details: TVShowDetails, parse: string -> Option<Date>): (r: TVShow)
    ensures r.id == IntToDecimal(details.id) && ParseDecimal(r.id) == Some(details.id)
    ensures r.name == details.name
    ensures r.posterURL == ImageURL(details.posterPath) && r.backdropURL == ImageURL(details.backdropPath)
    ensures ImagePath(r.posterURL) == details.posterPath && ImagePath(r.backdropURL) == details.backdropPath
    ensures r.firstAirDate.None?
    ensures r.detail.Some?
    ensures r.detail.value.seasons == details.numberOfSeasons
    ensures r.detail.value.inProduction == details.inProduction
    ensures r.detail.value.nextEpisode.None? <==> details.nextEpisode.None?
    ensures details.nextEpisode.Some? ==> r.detail.value.nextEpisode == Some(EpisodeFrom(details.nextEpisode.value, parse))
    ensures details.nextEpisode.Some? ==> r.detail.value.nextEpisode.value.airDate == parse(details.nextEpisode.value.airDate)
    ensures r.detail.value.networks == NetworksFrom(details.networks)
    ensures |r.detail.value.networks| == |details.networks|
    ensures forall i :: 0 <= i < |details.networks| ==>
      ParseDecimal(r.detail.value.networks[i].id) == Some(details.networks[i].id)
  {
    DecimalRoundTrip(details.id);
    ImageURLRoundTrip(details.posterPath);
    ImageURLRoundTrip(details.backdropPath);
    var nextEpisode := match details.nextEpisode
      case None => None
      case Some(e) => Some(EpisodeFrom(e, parse));
    var detail := Detail(details.numberOfSeasons, details.inProduction, nextEpisode, NetworksFrom(details.networks));
    TVShow(IntToDecimal(details.id), details.name, ImageURL(details.posterPath), ImageURL(details.backdropPath), None, Some(detail))
  }

  /**
   * `details(for:)` once its request is answered: `None` stands for the
   * thrown error, otherwise the converted detail response.
   */
  function Details(response: Option<TVShowDetails>, parse: string -> Option<Date>): (r: Option<TVShow>)
    ensures r.Some? <==> response.Some?
    ensures r.Some? ==> ParseDecimal(r.value.id) == Some(response.value.id)
    ensures r.Some? ==> r.value.detail.Some? && r.value.firstAirDate.None?
    ensures r.Some? ==> r.value == FromDetails(response.value, parse)
  {
    match response
    case None => None
    case Some(details) => Some(FromDetails(details, parse))
  }

  /** One `details(for:)` outcome per response, in order. */
  function DetailsResults(responses: seq<Option<TVShowDetails>>, parse: string -> Option<Date>): (r: seq<Option<TVShow>>)
    ensures |r| == |responses|
    ensures forall i :: 0 <= i < |r| ==> r[i] == Details(responses[i], parse)
  {
    seq(|responses|, i requires 0 <= i < |responses| => Details(responses[i], parse))
  }

  /** `searchRoot.data.map(TVShow.init)`: one show per result, in the provider's order. */
  function SearchResults(results: seq<TVShowData>, parse: string -> Option<Date>): (r: seq<TVShow>)
    ensures |r| == |results|
    ensures forall i :: 0 <= i < |r| ==> ParseDecimal(r[i].id) == Some(results[i].id) && r[i].detail.None?
    ensures forall i :: 0 <= i < |r| ==> r[i].name == results[i].name
    ensures forall i :: 0 <= i < |r| ==> r[i] == FromSearchResult(results[i], parse)
  {
    seq(|results|, i requires 0 <= i < |results| => FromSearchResult(results[i], parse))
  }

  /**
   * Two search results with different provider ids become shows with
   * different string ids, so the store's membership test tells them apart.
   */
  lemma SearchIdsDistinct(results: seq<TVShowData>, parse: string -> Option<Date>, i: nat, j: nat)
    requires i < |results| && j < |results|
    requires results[i].id != results[j].id
    ensures SearchResults(results, parse)[i].id != SearchResults(results, parse)[j].id
  {
    var r := SearchResults(results, parse);
    if r[i].id == r[j].id {
      assert ParseDecimal(r[i].id) == Some(results[i].id);
      assert ParseDecimal(r[j].id) == Some(results[j].id);
    }
  }

  /**
   * A search result and a detail response for the same provider id give
   * shows with the same string id, so a refreshed show is still recognised
   * by `hasAdded`.
   */
  lemma SearchAndDetailsAgreeOnId(data: TVShowData, details: TVShowDetails, parse: string -> Option<Date>)
    requires data.id == details.id
    ensures FromSearchResult(data, parse).id == FromDetails(details, parse).id
  {
  }
}
