/**
 * The show record value types of `Shared/Models/TVShow.swift`.
 *
 * Every Swift struct here is `Hashable` with synthesized, field-wise
 * equality; Dafny datatypes have exactly that structural equality, so the
 * store's "assigned an equal list" guard compares lists with `==`.
 */
module Shows {
  import opened Optional

  /** Foundation's `Date`, a point in time, abstracted to whole seconds since the reference date. */
  type Date = int

  /** `Date.distantFuture` (1 January 4001), used as the sort key of a show without a next air date. */
  const DistantFuture: Date := 63113904000

  /** URLs are kept as their absolute string. */
  type URL = string

  /** `TVShow.Identifier`, `TVShow.Episode.Identifier` and `TVShow.Network.Identifier` are all `String`. */
  type Identifier = string

  datatype Network = Network(id: Identifier, name: string, logoURL: Option<URL>)

  datatype Episode = Episode(
    id: Identifier,
    name: string,
    episodeNumber: int,
    airDate: Option<Date>,
    season: int,
    thumbnailURL: Option<URL>)

  /** The part of a show that only a per-show detail fetch supplies; `networks` is ordered. */
  datatype Detail = Detail(
    seasons: int,
    inProduction: bool,
    nextEpisode: Option<Episode>,
    networks: seq<Network>)

  datatype TVShow = TVShow(
    id: Identifier,
    name: string,
    posterURL: Option<URL>,
    backdropURL: Option<URL>,
    firstAirDate: Option<Date>,
    detail: Option<Detail>)

  /**
   * Two shows are equal exactly when all six fields are equal, nested
   * detail, episode and network values (and the order of the networks)
   * included.
   */
  lemma ShowEqualityIsFieldwise(a: TVShow, b: TVShow)
    ensures a == b <==>
      && a.id == b.id && a.name == b.name
      && a.posterURL == b.posterURL && a.backdropURL == b.backdropURL
      && a.firstAirDate == b.firstAirDate && a.detail == b.detail
  {
  }

  /**
   * A show whose detail was never fetched is a different value from one
   * whose detail says there is no next episode, and a reordering of the
   * networks gives a different detail.
   */
  lemma DetailPresenceMatters(s: TVShow, seasons: int, inProduction: bool, n1: Network, n2: Network)
    requires n1 != n2
    ensures s.(detail := None) != s.(detail := Some(Detail(seasons, inProduction, None, [])))
    ensures Detail(seasons, inProduction, None, [n1, n2]) != Detail(seasons, inProduction, None, [n2, n1])
  {
    assert [n1, n2][0] != [n2, n1][0];
  }
}
