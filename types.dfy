/** Value types shared by the Rust application and its Python helper. */
module Types {

  const U16_LIMIT: nat := 0x1_0000
  const U32_LIMIT: nat := 0x1_0000_0000

  /** Rust `u16` and `u32`. */
  type u16 = x: int | 0 <= x < 0x1_0000
  type u32 = x: int | 0 <= x < 0x1_0000_0000

  datatype Option<+T> = None | Some(value: T)

  /** `Artist` of data.rs: the profile shown at the top of the main window. */
  datatype Artist = Artist(name: string, id: u32, recentCount: nat, isFollowed: bool)

  /** `Illustration` of data.rs. An illustration with id 0 is an empty slot. */
  datatype Illustration = Illustration(
    id: u32, views: nat, bookmarks: nat, uploadDate: string, isBookmarked: bool)

  /** `ArtistResult` of data.rs, also the layout of `./jsons/{id}.json`. */
  datatype ArtistResult = ArtistResult(
    artist: Artist, lastBookmarked: Illustration, illusts: seq<Illustration>)

  /** The Rust type `[Illustration; 4]` fixes the number of slots. */
  predicate WellFormed(r: ArtistResult) {
    |r.illusts| == 4
  }

  /** `UserData` of data.rs, the contents of settings.json. */
  datatype UserData = UserData(token: string, amountToSearch: string, timezone: string)

  const DEFAULT_AMOUNT_TO_SEARCH: string := "210"
  const DEFAULT_TIMEZONE: string := "Etc/GMT-9"
}
