/**
 * The favourites hook (hooks/useFavorites.js). Every operation of the hook is a
 * functional updater over the previous list, so each is a function on
 * `seq<Favorite>`; the hook's `favorites` / `isLoading` pair and the stored
 * copy under the key `aspect_music_favorites` are values too.
 */
module Favorites {

  /** Whatever a song object carries besides its id (name, artists, images, ...). */
  type Metadata = map<string, string>

  /** A song object as handed to `addFavorite` / `toggleFavorite`. */
  datatype Song = Song(id: string, metadata: Metadata)

  /** A stored entry: the song's fields plus the `addedAt` stamp. */
  datatype Favorite = Favorite(id: string, metadata: Metadata, addedAt: int)

  /** No two entries share an id. */
  predicate UniqueIds(favs: seq<Favorite>) {
    forall i, j :: 0 <= i < j < |favs| ==> favs[i].id != favs[j].id
  }

  /** `isFavorited`: `favorites.some(song => song.id === songId)`. */
  function IsFavorited(favs: seq<Favorite>, songId: string): (b: bool)
    ensures b <==> exists i :: 0 <= i < |favs| && favs[i].id == songId
  {
    if favs == [] then false
    else favs[0].id == songId || IsFavorited(favs[1..], songId)
  }

  /**
   * `addFavorite`: a song whose id is already present leaves the list as it was;
   * a new one is appended, stamped with `now`.
   */
  function AddFavorite(favs: seq<Favorite>, song: Song, now: int): (r: seq<Favorite>)
    ensures IsFavorited(favs, song.id) ==> r == favs
    ensures !IsFavorited(favs, song.id) ==>
              |r| == |favs| + 1 && r[..|favs|] == favs && r[|favs|] == Favorite(song.id, song.metadata, now)
    ensures IsFavorited(r, song.id)
    ensures UniqueIds(favs) ==> UniqueIds(r)
  {
    if IsFavorited(favs, song.id) then favs
    else favs + [Favorite(song.id, song.metadata, now)]
  }

  /** `removeFavorite`: `filter(song => song.id !== songId)`. */
  function RemoveFavorite(favs: seq<Favorite>, songId: string): (r: seq<Favorite>)
    ensures !IsFavorited(r, songId)
    ensures forall f :: f in r <==> f in favs && f.id != songId
    ensures |r| <= |favs|
    ensures UniqueIds(favs) ==> UniqueIds(r)
  {
    if favs == [] then []
    else if favs[0].id == songId then RemoveFavorite(favs[1..], songId)
    else [favs[0]] + RemoveFavorite(favs[1..], songId)
  }

  /** `toggleFavorite`: remove the song when it is favourited, add it otherwise. */
  function ToggleFavorite(favs: seq<Favorite>, song: Song, now: int): (r: seq<Favorite>)
    ensures IsFavorited(r, song.id) <==> !IsFavorited(favs, song.id)
    ensures !IsFavorited(favs, song.id) ==> r == favs + [Favorite(song.id, song.metadata, now)]
    ensures IsFavorited(favs, song.id) ==> forall f :: f in r <==> f in favs && f.id != song.id
    ensures UniqueIds(favs) ==> UniqueIds(r)
  {
    if IsFavorited(favs, song.id) then RemoveFavorite(favs, song.id)
    else AddFavorite(favs, song, now)
  }

  /** `clearFavorites`. */
  function ClearFavorites(): (r: seq<Favorite>)
    ensures |r| == 0
  {
    []
  }

  /** `getFavoritesCount`. */
  function FavoritesCount(favs: seq<Favorite>): (n: nat)
    ensures n == 0 <==> favs == []
  {
    |favs|
  }

  // ---------------------------------------------------------------------------
  // Removal keeps the order of everything it keeps

  /** Filtering distributes over concatenation, so the relative order of the kept entries is the old one. */
  lemma {:induction false} RemoveDistributes(a: seq<Favorite>, b: seq<Favorite>, songId: string)
    ensures RemoveFavorite(a + b, songId) == RemoveFavorite(a, songId) + RemoveFavorite(b, songId)
  {
    if a == [] {
      assert a + b == b;
    } else {
      assert (a + b)[1..] == a[1..] + b;
      RemoveDistributes(a[1..], b, songId);
    }
  }

  /** Removing an id that is not present changes nothing. */
  lemma {:induction false} RemoveAbsent(favs: seq<Favorite>, songId: string)
    requires !IsFavorited(favs, songId)
    ensures RemoveFavorite(favs, songId) == favs
  {
    if favs != [] {
      RemoveAbsent(favs[1..], songId);
      assert [favs[0]] + favs[1..] == favs;
    }
  }

  /** Removing the id of an entry that occurs nowhere else deletes exactly that entry. */
  lemma RemoveOnly(a: seq<Favorite>, x: Favorite, b: seq<Favorite>)
    requires !IsFavorited(a, x.id) && !IsFavorited(b, x.id)
    ensures RemoveFavorite(a + [x] + b, x.id) == a + b
  {
    var ax := a + [x];
    RemoveDistributes(ax, b, x.id);
    RemoveDistributes(a, [x], x.id);
    RemoveAbsent(a, x.id);
    RemoveAbsent(b, x.id);
    assert RemoveFavorite([x], x.id) == RemoveFavorite([], x.id) == [] by {
      assert [x][1..] == [];
    }
    calc {
      RemoveFavorite(a + [x] + b, x.id);
      RemoveFavorite(ax, x.id) + RemoveFavorite(b, x.id);
      RemoveFavorite(a, x.id) + RemoveFavorite([x], x.id) + b;
      { assert RemoveFavorite(a, x.id) + [] == a; }
      a + b;
    }
  }

  lemma UniqueAt(favs: seq<Favorite>, i: nat)
    requires UniqueIds(favs) && i < |favs|
    ensures !IsFavorited(favs[..i], favs[i].id) && !IsFavorited(favs[i + 1..], favs[i].id)
  {
    var pre, post := favs[..i], favs[i + 1..];
    forall k | 0 <= k < |pre| ensures pre[k].id != favs[i].id {
      assert pre[k] == favs[k];
    }
    forall k | 0 <= k < |post| ensures post[k].id != favs[i].id {
      assert post[k] == favs[i + 1 + k];
    }
  }

  /** In an id-unique list, removing the id at index `i` deletes exactly that entry. */
  lemma RemoveUniqueAt(favs: seq<Favorite>, i: nat)
    requires UniqueIds(favs) && i < |favs|
    ensures RemoveFavorite(favs, favs[i].id) == favs[..i] + favs[i + 1..]
  {
    var pre, x, post := favs[..i], favs[i], favs[i + 1..];
    UniqueAt(favs, i);
    assert favs == pre + [x] + post;
    RemoveOnly(pre, x, post);
  }

  // ---------------------------------------------------------------------------
  // Toggling

  /** Toggling an absent song twice gives back the original list. */
  lemma ToggleTwiceAbsent(favs: seq<Favorite>, song: Song, t1: int, t2: int)
    requires !IsFavorited(favs, song.id)
    ensures ToggleFavorite(ToggleFavorite(favs, song, t1), song, t2) == favs
  {
    var added := favs + [Favorite(song.id, song.metadata, t1)];
    RemoveDistributes(favs, [Favorite(song.id, song.metadata, t1)], song.id);
    RemoveAbsent(favs, song.id);
    assert RemoveFavorite([Favorite(song.id, song.metadata, t1)], song.id) == [];
  }

  /**
   * Toggling a present song twice (in an id-unique list) moves it to the end,
   * restamped with the second toggle's time and carrying the metadata it was toggled with.
   */
  lemma ToggleTwicePresent(favs: seq<Favorite>, i: nat, song: Song, t1: int, t2: int)
    requires UniqueIds(favs) && i < |favs| && favs[i].id == song.id
    ensures ToggleFavorite(ToggleFavorite(favs, song, t1), song, t2)
            == favs[..i] + favs[i + 1..] + [Favorite(song.id, song.metadata, t2)]
  {
    RemoveUniqueAt(favs, i);
  }

  // ---------------------------------------------------------------------------
  // Any sequence of operations keeps ids unique

  datatype Op =
    | Add(song: Song, now: int)
    | Remove(songId: string)
    | Toggle(song: Song, now: int)
    | Clear

  function Apply(favs: seq<Favorite>, op: Op): seq<Favorite> {
    match op
    case Add(song, now) => AddFavorite(favs, song, now)
    case Remove(songId) => RemoveFavorite(favs, songId)
    case Toggle(song, now) => ToggleFavorite(favs, song, now)
    case Clear => ClearFavorites()
  }

  function ApplyAll(favs: seq<Favorite>, ops: seq<Op>): seq<Favorite>
    decreases |ops|
  {
    if ops == [] then favs else ApplyAll(Apply(favs, ops[0]), ops[1..])
  }

  lemma {:induction false} ApplyAllKeepsUniqueIds(favs: seq<Favorite>, ops: seq<Op>)
    requires UniqueIds(favs)
    ensures UniqueIds(ApplyAll(favs, ops))
    decreases |ops|
  {
    if ops != [] {
      var next := Apply(favs, ops[0]);
      assert UniqueIds(next);
      ApplyAllKeepsUniqueIds(next, ops[1..]);
    }
  }

  /** After a clear, whatever came before, the list is empty and the count is 0. */
  lemma ClearEmpties(favs: seq<Favorite>)
    ensures Apply(favs, Clear) == [] && FavoritesCount(Apply(favs, Clear)) == 0
  {
  }

  // ---------------------------------------------------------------------------
  // Loading from and persisting to storage

  /** What `localStorage.getItem(FAVORITES_STORAGE_KEY)` yields, after `JSON.parse`. */
  datatype Stored =
    | Absent                            // null, or the falsy empty string
    | Unparsable                        // JSON.parse throws
    | Json(entries: seq<Favorite>)      // a parsed list

  /** The hook's two pieces of state. */
  datatype Hook = Hook(favorites: seq<Favorite>, isLoading: bool)

  /** The state of the first render. */
  function InitialHook(): Hook {
    Hook([], true)
  }

  /** The mount effect: take the stored list when there is one, then stop loading. */
  function LoadOnMount(h: Hook, stored: Stored): (r: Hook)
    ensures !r.isLoading
    ensures stored.Json? ==> r.favorites == stored.entries
    ensures !stored.Json? ==> r.favorites == h.favorites
  {
    Hook(if stored.Json? then stored.entries else h.favorites, false)
  }

  /**
   * The persistence effect: write the list unless the hook is still loading;
   * a failing write (`writeFails`) is swallowed and leaves storage as it was.
   */
  function PersistEffect(h: Hook, stored: Stored, writeFails: bool): (r: Stored)
    ensures h.isLoading ==> r == stored
    ensures !h.isLoading && !writeFails ==> r == Json(h.favorites)
    ensures writeFails ==> r == stored
  {
    if !h.isLoading && !writeFails then Json(h.favorites) else stored
  }

  /**
   * The mount sequence: on the first render both effects run, the persistence
   * effect still sees `isLoading`; the load effect then re-renders, and the
   * persistence effect runs again with the loaded state.
   */
  function Mount(stored: Stored, writeFails: bool): (Hook, Stored) {
    var first := PersistEffect(InitialHook(), stored, writeFails);
    var loaded := LoadOnMount(InitialHook(), stored);
    (loaded, PersistEffect(loaded, first, writeFails))
  }

  /**
   * Nothing is written during the first render; an absent or unreadable stored
   * value leaves the list empty, and once loaded the list is written back (so an
   * unreadable value is replaced by the empty list).
   */
  lemma MountBehaviour(stored: Stored, writeFails: bool)
    ensures PersistEffect(InitialHook(), stored, writeFails) == stored
    ensures var (h, after) := Mount(stored, writeFails);
            && !h.isLoading
            && (stored.Json? ==> h.favorites == stored.entries)
            && (!stored.Json? ==> h.favorites == [])
            && (!writeFails ==> after == Json(h.favorites))
            && (writeFails ==> after == stored)
  {
  }

  /** What the hook writes is what a later mount reads back. */
  lemma PersistThenLoad(h: Hook, stored: Stored)
    requires !h.isLoading
    ensures LoadOnMount(InitialHook(), PersistEffect(h, stored, false)).favorites == h.favorites
  {
  }
}
