/** The files the application keeps in its working directory, and the
    review queue stored in artists.json (src/file_handler.rs). */
module FileHandler {
  import opened Types
  import opened Text

  /** One element of artists.json: the artist id and whether that artist
      has been checked (reviewed). */
  type Entry = (u32, bool)

  /** artists.json: absent, present but not a list of entries, or a list. */
  datatype ListFile = Missing | Unreadable | Stored(entries: seq<Entry>)

  // ---------------------------------------------------------------------
  // The queue and its watermark

  /** The watermark invariant with mark `w`: every entry before `w` is
      checked and every entry from `w` on is not. */
  ghost predicate WatermarkAt(l: seq<Entry>, w: nat) {
    && w <= |l|
    && (forall j :: 0 <= j < w ==> l[j].1)
    && (forall j :: w <= j < |l| ==> !l[j].1)
  }

  lemma WatermarkUnique(l: seq<Entry>, w1: nat, w2: nat)
    requires WatermarkAt(l, w1) && WatermarkAt(l, w2)
    ensures w1 == w2
  {
    assert w1 < |l| ==> !l[w1].1 && (l[w1].1 <==> w1 < w2);
    assert w2 < |l| ==> !l[w2].1 && (l[w2].1 <==> w2 < w1);
  }

  /** The list after visiting entry `i`: its flag is set, nothing else moves. */
  function Visited(l: seq<Entry>, i: nat): (r: seq<Entry>)
    requires i < |l|
    ensures |r| == |l| && r[i] == (l[i].0, true)
    ensures forall j :: 0 <= j < |l| && j != i ==> r[j] == l[j]
  {
    l[i := (l[i].0, true)]
  }

  /** Visiting an entry at or before the watermark keeps the invariant; visiting
      the entry at the watermark moves it one step on. */
  lemma VisitKeepsWatermark(l: seq<Entry>, w: nat, i: nat)
    requires WatermarkAt(l, w) && i < |l| && i <= w
    ensures WatermarkAt(Visited(l, i), if i == w then w + 1 else w)
  {
  }

  /** The list after `mark_as_checked_up_to_index(k)`. */
  function MarkedUpTo(l: seq<Entry>, k: nat): (r: seq<Entry>)
    ensures |r| == |l|
    ensures forall j :: 0 <= j < |l| ==> r[j].0 == l[j].0 && (r[j].1 <==> j < k)
  {
    seq(|l|, j requires 0 <= j < |l| => (l[j].0, j < k))
  }

  /** The jump rewrite establishes the watermark, whatever the list was. */
  lemma MarkedUpToWatermark(l: seq<Entry>, k: nat)
    ensures WatermarkAt(MarkedUpTo(l, k), if k < |l| then k else |l|)
  {
  }

  /** The first entry at or after `from` that is not checked, or `|l|`. */
  function FirstUncheckedFrom(l: seq<Entry>, from: nat): nat
    requires from <= |l|
    decreases |l| - from
  {
    if from == |l| then |l|
    else if !l[from].1 then from
    else FirstUncheckedFrom(l, from + 1)
  }

  lemma {:induction false} FirstUncheckedFromIsFirst(l: seq<Entry>, from: nat)
    requires from <= |l|
    ensures from <= FirstUncheckedFrom(l, from) <= |l|
    ensures forall j :: from <= j < FirstUncheckedFrom(l, from) ==> l[j].1
    ensures FirstUncheckedFrom(l, from) < |l| ==> !l[FirstUncheckedFrom(l, from)].1
    decreases |l| - from
  {
    if from < |l| && l[from].1 {
      FirstUncheckedFromIsFirst(l, from + 1);
    }
  }

  /** Under the watermark invariant the mark is the first unchecked entry. */
  lemma WatermarkIsFirstUnchecked(l: seq<Entry>, w: nat)
    requires WatermarkAt(l, w)
    ensures FirstUncheckedFrom(l, 0) == w
  {
    FirstUncheckedFromIsFirst(l, 0);
    var f := FirstUncheckedFrom(l, 0);
    assert w < |l| ==> !l[w].1;
    assert f < |l| ==> !l[f].1;
  }

  /** artists.json, when it holds a list, satisfies the watermark invariant
      (its mark is then its first unchecked entry). */
  ghost predicate HasWatermark(f: ListFile) {
    f.Stored? ==> WatermarkAt(f.entries, FirstUncheckedFrom(f.entries, 0))
  }

  /** Two lists with the same flags from `from` on agree on the search. */
  lemma {:induction false} FirstUncheckedFromLooksAhead(l: seq<Entry>, m: seq<Entry>, from: nat)
    requires from <= |l| == |m|
    requires forall j :: from <= j < |l| ==> l[j].1 == m[j].1
    ensures FirstUncheckedFrom(l, from) == FirstUncheckedFrom(m, from)
    decreases |l| - from
  {
    if from < |l| && l[from].1 {
      FirstUncheckedFromLooksAhead(l, m, from + 1);
    }
  }

  /** The value of `get_last_checked_artist_index` for a readable non-empty
      list: the index before the first unchecked entry after index 0, or the
      last index when there is none, cast to u16. */
  function ResumeIndex(l: seq<Entry>): u16
    requires |l| > 0
  {
    (FirstUncheckedFrom(l, 1) - 1) % U16_LIMIT
  }

  lemma ResumeIndexInRange(l: seq<Entry>)
    requires |l| > 0
    ensures ResumeIndex(l) < |l|
  {
    FirstUncheckedFromIsFirst(l, 1);
  }

  /** Under the watermark `w` the resume index is the last checked entry
      (`w - 1`), or 0 when nothing is checked yet. */
  lemma ResumeIndexUnderWatermark(l: seq<Entry>, w: nat)
    requires |l| > 0 && WatermarkAt(l, w)
    ensures ResumeIndex(l) == (if w == 0 then 0 else w - 1) % U16_LIMIT
  {
    FirstUncheckedFromIsFirst(l, 1);
    var f := FirstUncheckedFrom(l, 1);
    assert f < |l| ==> f >= w;
    assert w < |l| ==> !l[w].1;
    assert w < |l| && w >= 1 ==> f <= w;
    assert 1 < |l| && w == 0 ==> f == 1;
  }

  /** Index 0 is never inspected: its flag does not affect the resume index. */
  lemma ResumeIndexIgnoresFirstEntry(l: seq<Entry>, b: bool)
    requires |l| > 0
    ensures ResumeIndex(l[0 := (l[0].0, b)]) == ResumeIndex(l)
  {
    FirstUncheckedFromLooksAhead(l, l[0 := (l[0].0, b)], 1);
  }

  // ---------------------------------------------------------------------
  // Image paths

  const IMAGES_DIR: string := "./images/"

  /** `get_path_to_pfp`: the cached profile picture of an artist. */
  function PathToPfp(id: u32): string {
    IMAGES_DIR + "u_" + NatToString(id) + ".jpeg"
  }

  /** `get_path_to_illust`: the cached thumbnail of an illustration. */
  function PathToIllust(id: u32): string {
    IMAGES_DIR + "i_" + NatToString(id) + ".jpeg"
  }

  /** The number inside a path of either kind. */
  lemma PathDigits(p: string, tag: char, id: u32)
    requires p == IMAGES_DIR + [tag] + "_" + NatToString(id) + ".jpeg"
    ensures |p| >= 16 && p[9] == tag && p[11..|p| - 5] == NatToString(id)
  {
  }

  lemma PathToPfpInjective(a: u32, b: u32)
    requires PathToPfp(a) == PathToPfp(b)
    ensures a == b
  {
    PathDigits(PathToPfp(a), 'u', a);
    PathDigits(PathToPfp(b), 'u', b);
    NatToStringInjective(a, b);
  }

  lemma PathToIllustInjective(a: u32, b: u32)
    requires PathToIllust(a) == PathToIllust(b)
    ensures a == b
  {
    PathDigits(PathToIllust(a), 'i', a);
    PathDigits(PathToIllust(b), 'i', b);
    NatToStringInjective(a, b);
  }

  /** A profile picture never overwrites an illustration thumbnail. */
  lemma PfpIsNeverIllust(a: u32, b: u32)
    ensures PathToPfp(a) != PathToIllust(b)
  {
    PathDigits(PathToPfp(a), 'u', a);
    PathDigits(PathToIllust(b), 'i', b);
  }

  // ---------------------------------------------------------------------
  // The working directory

  /** The application's files: artists.json, ./jsons/{id}.json (parsed),
      the files under ./images, and settings.json. The ghost counters
      record how often the two top-level files have been rewritten. */
  class Store {
    var artistsFile: ListFile
    var records: map<u32, ArtistResult>
    var images: set<string>
    var settingsFile: Option<UserData>
    ghost var listWrites: nat
    ghost var settingsWrites: nat

    /** Every cached record has the four slots its Rust type demands and
        is filed under its own artist id (`save_result` names the file
        after `result["artist"]["id"]`). */
    ghost predicate Valid()
      reads this`records
    {
      forall id :: id in records ==> WellFormed(records[id]) && records[id].artist.id == id
    }

    /** The working directory of a first run, before `prepare_settings`
        and `prepare_artists` write anything: none of the files. It shows
        that `Valid()` can be met. */
    constructor Empty()
      ensures Valid()
      ensures artistsFile == Missing && records == map[] && images == {} && settingsFile == None
      ensures listWrites == 0 && settingsWrites == 0
    {
      artistsFile, records, images, settingsFile := Missing, map[], {}, None;
      listWrites, settingsWrites := 0, 0;
    }

    /** `save_artist_list`: rewrites artists.json as a whole. */
    method SaveArtistList(list: seq<Entry>)
      modifies this`artistsFile, this`listWrites
      ensures artistsFile == Stored(list) && listWrites == old(listWrites) + 1
    {
      artistsFile := Stored(list);
      listWrites := listWrites + 1;
    }

    /** `UserData::save`: rewrites settings.json. */
    method SaveSettings(u: UserData)
      modifies this`settingsFile, this`settingsWrites
      ensures settingsFile == Some(u) && settingsWrites == old(settingsWrites) + 1
    {
      settingsFile := Some(u);
      settingsWrites := settingsWrites + 1;
    }

    /** `get_last_checked_artist_index`. An empty list makes the source's
        `len() - 1` underflow, so a readable list must not be empty. */
    method GetLastCheckedArtistIndex() returns (r: u16)
      requires artistsFile.Stored? ==> |artistsFile.entries| > 0
      ensures r == if artistsFile.Stored? then ResumeIndex(artistsFile.entries) else 0
    {
      if !artistsFile.Stored? {
        return 0;
      }
      var list := artistsFile.entries;
      var index := 1;
      while index < |list|
        invariant 1 <= index <= |list|
        invariant FirstUncheckedFrom(list, index) == FirstUncheckedFrom(list, 1)
      {
        if !list[index].1 {
          return (index - 1) % U16_LIMIT;
        }
        index := index + 1;
      }
      return (|list| - 1) % U16_LIMIT;
    }

    /** `get_small_artist_info`: the id, the flag before the visit and the
        list length (cast to u16) of entry `artistIndex`, which is marked as
        checked; artists.json is rewritten only if the flag was false. */
    method GetSmallArtistInfo(artistIndex: u16) returns (info: Option<(u32, bool, u16)>)
      modifies this`artistsFile, this`listWrites
      ensures !(old(artistsFile).Stored? && artistIndex < |old(artistsFile).entries|) ==>
                info == None && artistsFile == old(artistsFile) && listWrites == old(listWrites)
      ensures old(artistsFile).Stored? && artistIndex < |old(artistsFile).entries| ==>
                var l := old(artistsFile).entries;
                && info == Some((l[artistIndex].0, l[artistIndex].1, |l| % U16_LIMIT))
                && artistsFile == Stored(Visited(l, artistIndex))
                && listWrites == old(listWrites) + (if l[artistIndex].1 then 0 else 1)
    {
      if !artistsFile.Stored? {
        return None;
      }
      var list := artistsFile.entries;
      var count := |list|;
      if artistIndex >= count {
        return None;
      }
      var (id, status) := list[artistIndex];
      if !list[artistIndex].1 {
        list := list[artistIndex := (id, true)];
        SaveArtistList(list);
      } else {
        assert list == Visited(list, artistIndex);
      }
      info := Some((id, status, count % U16_LIMIT));
    }

    /** `mark_as_checked_up_to_index`: entries before `artistIndex` become
        checked and all others unchecked. The source unwraps the list read. */
    method MarkAsCheckedUpToIndex(artistIndex: u16)
      requires artistsFile.Stored?
      modifies this`artistsFile, this`listWrites
      ensures artistsFile == Stored(MarkedUpTo(old(artistsFile).entries, artistIndex))
      ensures listWrites == old(listWrites) + 1
    {
      var list := artistsFile.entries;
      ghost var original := list;
      var index := 0;
      while index < |list|
        invariant 0 <= index <= |list| == |original|
        invariant forall j :: 0 <= j < index ==> list[j] == (original[j].0, j < artistIndex)
        invariant forall j :: index <= j < |list| ==> list[j] == original[j]
      {
        if index < artistIndex {
          list := list[index := (list[index].0, true)];
        } else {
          list := list[index := (list[index].0, false)];
        }
        index := index + 1;
      }
      assert list == MarkedUpTo(original, artistIndex);
      SaveArtistList(list);
    }
  }
}
