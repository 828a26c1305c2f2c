/**
 * The job store (convex/videos.ts): the `videos` table as a sequence of
 * records in insertion order, which is also the order of Convex's implicit
 * creation-time index.
 */
module Videos {
  import opened Wrappers
  import opened Schema

  type Store = seq<Video>

  /** How many records `getVideos` returns. */
  const PageSize := 10

  /** The arguments of the `updateStatus` mutation; an omitted optional is `None`. */
  datatype UpdateArgs = UpdateArgs(
    heygenId: string,
    status: string,
    url: Option<string>,
    thumbnailUrl: Option<string>,
    error: Option<string>)

  /** `i` is the position of the oldest record whose `heygenId` is `id`. */
  predicate IsFirstMatch(s: Store, id: string, i: int) {
    0 <= i < |s| && s[i].heygenId == id && forall j :: 0 <= j < i ==> s[j].heygenId != id
  }

  /** No record has `heygenId` equal to `id`. */
  predicate Absent(s: Store, id: string) {
    forall j :: 0 <= j < |s| ==> s[j].heygenId != id
  }

  /** The heygenIds of the store, in order. */
  function Ids(s: Store): (ids: seq<string>)
    ensures |ids| == |s| && forall j :: 0 <= j < |s| ==> ids[j] == s[j].heygenId
  {
    seq(|s|, j requires 0 <= j < |s| => s[j].heygenId)
  }

  /**
   * The record `createVideo` inserts: status "processing", no url, thumbnail
   * or error, and the creation time the caller read from the clock.
   */
  function NewVideo(heygenId: string, now: int): (v: Video)
    ensures v.heygenId == heygenId && v.status == Processing && v.createdAt == now
    ensures v.url.None? && v.thumbnailUrl.None? && v.error.None?
  {
    Video(heygenId, Processing, None, None, None, now)
  }

  /**
   * `createVideo`: one record is appended and every existing record is kept.
   * No lookup is made first, so a `heygenId` already in the store is added again.
   */
  function CreateVideo(s: Store, heygenId: string, now: int): (s': Store)
    ensures |s'| == |s| + 1 && s'[..|s|] == s
    ensures s'[|s|] == NewVideo(heygenId, now)
    ensures multiset(s') == multiset(s) + multiset{NewVideo(heygenId, now)}
  {
    s + [NewVideo(heygenId, now)]
  }

  /** `.filter(heygenId == id).first()`: the oldest record with that id, if any. */
  function FirstIndex(s: Store, id: string): (r: Option<nat>)
    ensures r.Some? <==> !Absent(s, id)
    ensures r.Some? ==> IsFirstMatch(s, id, r.value)
    decreases |s|
  {
    if |s| == 0 then None
    else if s[0].heygenId == id then Some(0)
    else
      match FirstIndex(s[1..], id)
      case None => None
      case Some(i) => Some(i + 1)
  }

  /**
   * `ctx.db.patch` with all four fields: each takes the argument's value, and
   * an omitted optional removes the field. Identity and creation time stay.
   */
  function Patched(v: Video, a: UpdateArgs): (w: Video)
    ensures w.heygenId == v.heygenId && w.createdAt == v.createdAt
    ensures w.status == a.status && w.url == a.url
    ensures w.thumbnailUrl == a.thumbnailUrl && w.error == a.error
  {
    v.(status := a.status, url := a.url, thumbnailUrl := a.thumbnailUrl, error := a.error)
  }

  /**
   * `updateStatus`: patch the oldest record whose `heygenId` matches; do
   * nothing when none does. The prior status is never consulted.
   */
  function UpdateStatus(s: Store, a: UpdateArgs): (s': Store)
    ensures |s'| == |s|
    ensures Absent(s, a.heygenId) ==> s' == s
    ensures forall i :: IsFirstMatch(s, a.heygenId, i) ==>
              s'[i] == Patched(s[i], a)
              && forall j :: 0 <= j < |s| && j != i ==> s'[j] == s[j]
  {
    match FirstIndex(s, a.heygenId)
    case None => s
    case Some(i) => s[i := Patched(s[i], a)]
  }

  /** `getVideos`: the newest `n` records, newest first (`order("desc").take(n)`). */
  function Newest(s: Store, n: nat): (r: Store)
    ensures |r| == if |s| < n then |s| else n
    ensures forall k :: 0 <= k < |r| ==> r[k] == s[|s| - 1 - k]
    decreases n
  {
    if n == 0 || |s| == 0 then []
    else [s[|s| - 1]] + Newest(s[..|s| - 1], n - 1)
  }

  function GetVideos(s: Store): (r: Store)
    ensures |r| == if |s| < PageSize then |s| else PageSize
    ensures forall k :: 0 <= k < |r| ==> r[k] == s[|s| - 1 - k]
  {
    Newest(s, PageSize)
  }

  // ---------------------------------------------------------------------------
  // Properties of the store operations

  /** Updates never change any record's `heygenId`, so they never change which record a later lookup finds. */
  lemma {:induction false} UpdateKeepsIds(s: Store, a: UpdateArgs)
    ensures Ids(UpdateStatus(s, a)) == Ids(s)
    ensures forall id :: FirstIndex(UpdateStatus(s, a), id) == FirstIndex(s, id)
  {
    var s' := UpdateStatus(s, a);
    if FirstIndex(s, a.heygenId).Some? {
      assert forall j :: 0 <= j < |s| ==> s'[j].heygenId == s[j].heygenId;
    }
    assert Ids(s') == Ids(s);
    forall id
      ensures FirstIndex(s', id) == FirstIndex(s, id)
    {
      SameIdsSameLookup(s, s', id);
    }
  }

  /** Lookup depends only on the sequence of heygenIds. */
  lemma {:induction false} SameIdsSameLookup(s: Store, t: Store, id: string)
    requires Ids(s) == Ids(t)
    ensures FirstIndex(s, id) == FirstIndex(t, id)
  {
    forall j | 0 <= j < |s|
      ensures s[j].heygenId == t[j].heygenId
    {
      assert Ids(s)[j] == Ids(t)[j];
    }
    var a, b := FirstIndex(s, id), FirstIndex(t, id);
    if a.Some? && b.Some? {
      assert !(a.value < b.value) && !(b.value < a.value);
    }
  }

  /**
   * Last writer wins, wholesale: a second update of the same id leaves
   * exactly what that second update alone would leave. Nothing of the first
   * update survives, whatever status either one wrote.
   */
  lemma LastWriteWins(s: Store, a: UpdateArgs, b: UpdateArgs)
    requires a.heygenId == b.heygenId
    ensures UpdateStatus(UpdateStatus(s, a), b) == UpdateStatus(s, b)
  {
  }

  /** Applying the same update twice is the same as applying it once. */
  lemma UpdateIdempotent(s: Store, a: UpdateArgs)
    ensures UpdateStatus(UpdateStatus(s, a), a) == UpdateStatus(s, a)
  {
  }

  /** Updates of different ids touch different records, so their order does not matter. */
  lemma UpdatesOfDifferentIdsCommute(s: Store, a: UpdateArgs, b: UpdateArgs)
    requires a.heygenId != b.heygenId
    ensures UpdateStatus(UpdateStatus(s, a), b) == UpdateStatus(UpdateStatus(s, b), a)
  {
  }

  /**
   * There is no terminal-state guard: whatever the matched record held
   * before (a "completed" status with a url, say), it ends with exactly the
   * update's status and optionals.
   */
  lemma NoTerminalGuard(s: Store, i: nat, a: UpdateArgs)
    requires IsFirstMatch(s, a.heygenId, i)
    ensures var v := UpdateStatus(s, a)[i];
            v.status == a.status && v.url == a.url && v.thumbnailUrl == a.thumbnailUrl
            && v.error == a.error && v.heygenId == s[i].heygenId && v.createdAt == s[i].createdAt
  {
  }

  /** An update for an unknown id neither fails nor creates a record. */
  lemma UnknownIdIsDropped(s: Store, a: UpdateArgs)
    requires Absent(s, a.heygenId)
    ensures UpdateStatus(s, a) == s
  {
  }

  /**
   * A newly created record is found by a later update only if no older
   * record shares its id; otherwise the older one shadows it and the new
   * record stays as created.
   */
  lemma CreateThenLookup(s: Store, id: string, now: int)
    ensures Absent(s, id) ==> FirstIndex(CreateVideo(s, id, now), id) == Some(|s|)
    ensures !Absent(s, id) ==> FirstIndex(CreateVideo(s, id, now), id) == FirstIndex(s, id)
  {
  }

  /**
   * A duplicate `createVideo` for an id already stored is invisible to
   * `updateStatus`: the duplicate keeps its initial "processing" state.
   */
  lemma DuplicateIsShadowed(s: Store, id: string, now: int, a: UpdateArgs)
    requires !Absent(s, id) && a.heygenId == id
    ensures var s' := UpdateStatus(CreateVideo(s, id, now), a);
            |s'| == |s| + 1 && s'[|s|] == NewVideo(id, now)
  {
  }

  /** After `createVideo`, the new record heads the `getVideos` page and the oldest entry of a full page drops out. */
  lemma CreateHeadsPage(s: Store, id: string, now: int)
    ensures GetVideos(CreateVideo(s, id, now))
            == [NewVideo(id, now)] + GetVideos(s)[..if |s| < PageSize then |s| else PageSize - 1]
  {
  }
}
