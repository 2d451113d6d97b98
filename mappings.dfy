/** The table from tag id to playlist (`MUSIC_MAPPINGS`) and its first-match lookup. */
module Mappings {
  import opened Options

  datatype Mapping = Mapping(tagId: nat, name: string, url: string)

  /** The table the controller ships with. */
  const MUSIC_MAPPINGS: seq<Mapping> := [
    Mapping(123456789, "Jazz Playlist", "https://open.spotify.com/playlist/YOUR_JAZZ_PLAYLIST"),
    Mapping(987654321, "Rock Classics", "https://open.spotify.com/playlist/YOUR_ROCK_PLAYLIST"),
    Mapping(456789123, "Classical Symphony", "https://open.spotify.com/album/YOUR_CLASSICAL_ALBUM"),
    Mapping(789123456, "Podcasts", "https://open.spotify.com/show/YOUR_PODCAST"),
    Mapping(234567891, "Radio Station", "https://tunein.com/radio/YOUR_STATION")
  ]

  predicate Unmapped(table: seq<Mapping>, id: nat)
  {
    forall j :: 0 <= j < |table| ==> table[j].tagId != id
  }

  /** The index of the first entry for `id`, or None when the table has none. */
  function FirstMatch(table: seq<Mapping>, id: nat): (r: Option<nat>)
    ensures r.None? <==> Unmapped(table, id)
    ensures r.Some? ==> r.value < |table| && table[r.value].tagId == id
    ensures r.Some? ==> forall j :: 0 <= j < r.value ==> table[j].tagId != id
  {
    if table == [] then None
    else if table[0].tagId == id then Some(0)
    else
      match FirstMatch(table[1..], id)
      case None => None
      case Some(k) => Some(k + 1)
  }

  /** The scan over the table in `play_music_for_tag`, returning at the first match. */
  method FindMapping(table: seq<Mapping>, id: nat) returns (r: Option<nat>)
    ensures r == FirstMatch(table, id)
  {
    for i := 0 to |table|
      invariant forall j :: 0 <= j < i ==> table[j].tagId != id
    {
      if table[i].tagId == id {
        return Some(i);
      }
    }
    return None;
  }

  /** The shipped table never lists one tag twice, so its first match is its only match. */
  lemma ShippedIdsDistinct()
    ensures forall i, j :: 0 <= i < j < |MUSIC_MAPPINGS| ==> MUSIC_MAPPINGS[i].tagId != MUSIC_MAPPINGS[j].tagId
  {
  }
}
