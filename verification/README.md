# aspect_music: favourites, player controls and library ordering in Dafny

This project models the three pieces of logic in the aspect_music web client
that go beyond markup:

- **The favourites hook** (`hooks/useFavorites.js`). This is a list of song
  records kept free of duplicate ids. The hook supports add, remove, toggle,
  clear, membership and count. It loads the list from browser storage once on
  mount and writes it back whenever it changes, but only after loading is
  done. Every operation is a functional update of the previous list, so module
  `Favorites` (in `Favorites.dfy`) models each one as a function on
  `seq<Favorite>`. The lemmas show that ids stay unique under any sequence of
  operations, that removal keeps the order of the entries it keeps, and that
  toggling twice undoes an add. They also cover the load/persist gating.
- **The bottom player** (`components/cards/player.jsx`). The stream-URL
  fallback (candidate 2, else 1, else 0) and `formatTime` are pure functions.
  The handlers change state: play/pause, seek, loop, time update, the effect
  that runs when a song is selected, the close button, and the `<audio>`
  element's `onPlay`/`onPause`/`onLoadedData`. They are methods of class
  `Player` in `Player.dfy`. The class's fields mirror the component's React
  state, the music context's `music`/`current`, and `localStorage`. Class
  `AudioElement` stands for `audioRef.current`. It holds `currentTime`,
  `duration`, `loop` and `src`, plus the ordered list of `play()`/`pause()`
  calls made on it. Each method's `ensures` ties the new state to a step
  function of the old state (`State() == SeekStep(old(State()), t)`). The
  class invariant `Valid()` keeps `audio.loop == isLooping`, and lemmas on the
  step functions state what each handler promises.
- **The library panel** (`components/LibraryPanel.jsx`). It provides the
  `sortedSongs` order (title ascending, artist ascending, or `dateAdded`
  descending by default), the selection toggle of `handleSongClick`,
  `formatDuration` (`M:SS`) and the plural count label. Module `Library` in
  `Library.dfy` models them. The sort is an insertion sort proved to return a
  permutation of the input, ordered by the chosen key.

`Text.dfy` holds the JavaScript text conversions these rely on:
`String(n)`, `padStart` and the truncating `%`. It also holds their partners:
`DecimalValue` reads a digit string back, and `IsClock`/`ClockMinutes`/
`ClockSeconds` read an `M:SS` text back. `Wrappers.dfy` holds `Option`, which
stands for `null`/`undefined`.

The code has no seek clamping, no guard against a stale song fetch, no
persisted position record, no OS media-session bridge and no status state
machine; seeks are unclamped and `playing` is a plain boolean, and the model
does the same.

`playing` starts true when the stored flag `"p"` is `"true"`, absent or `""`,
because `!localStorage.getItem("p")` treats `""` as falsy
(`Player.AutoplayDecision`).

## Model

| member | source | states |
|---|---|---|
| `Favorites.IsFavorited` | hooks/useFavorites.js:79-84 | true exactly when some entry of the list has the given id |
| `Favorites.AddFavorite` | hooks/useFavorites.js:50-62 | an id already present leaves the list unchanged. Otherwise exactly one entry is appended: the song's id and metadata plus `addedAt`. Earlier entries are unchanged and in order. The id is present afterwards, and id-uniqueness is preserved |
| `Favorites.RemoveFavorite` | hooks/useFavorites.js:68-72 | no entry with the id remains. An entry is kept exactly when it was there and has another id. The list never grows, and id-uniqueness is preserved |
| `Favorites.RemoveDistributes` | hooks/useFavorites.js:68-72 | removal distributes over concatenation, so kept entries keep their relative order |
| `Favorites.RemoveAbsent` | hooks/useFavorites.js:68-72 | removing an absent id returns the list unchanged |
| `Favorites.RemoveUniqueAt` | hooks/useFavorites.js:68-72 | in an id-unique list, removing the id at index i gives the list without exactly that entry |
| `Favorites.ToggleFavorite` | hooks/useFavorites.js:90-99 | the song is favourited afterwards exactly when it was not before. An absent song is appended with its stamp after the unchanged list; for a present one every other entry is kept and only entries with its id are dropped. Id-uniqueness is preserved |
| `Favorites.ToggleTwiceAbsent` | hooks/useFavorites.js:90-99 | toggling an absent song twice restores the original list |
| `Favorites.ToggleTwicePresent` | hooks/useFavorites.js:90-99 | toggling a present song twice moves it to the end with the second toggle's stamp |
| `Favorites.ClearFavorites` | hooks/useFavorites.js:104-106 | the result is the empty list |
| `Favorites.FavoritesCount` | hooks/useFavorites.js:120-122 | the count is 0 exactly when the list is empty |
| `Favorites.ClearEmpties` | hooks/useFavorites.js:104-122 | after a clear the list is empty and its count is 0, whatever came before |
| `Favorites.ApplyAllKeepsUniqueIds` | hooks/useFavorites.js:50-106 | any sequence of add, remove, toggle and clear applied to an id-unique list leaves ids unique |
| `Favorites.LoadOnMount` | hooks/useFavorites.js:22-33 | the mount effect ends loading. It takes the stored list when one parses, and otherwise keeps the current list |
| `Favorites.PersistEffect` | hooks/useFavorites.js:36-44 | nothing is written while loading or when the write fails. Otherwise the current list is written |
| `Favorites.MountBehaviour` | hooks/useFavorites.js:17-44 | the first render writes nothing. An absent or unparsable stored value leaves the list empty. Once loaded, the list is written back (a failed write changes nothing) |
| `Favorites.PersistThenLoad` | hooks/useFavorites.js:22-44 | a list written after loading is the list a later mount reads back |
| `Player.ChosenIndex` | components/cards/player.jsx:36-42 | the index read is 2, 1 or 0. A nonzero index is usable, and no higher index up to 2 is usable |
| `Player.StreamUrl` | components/cards/player.jsx:36-42 | the URL is the candidate at the chosen index. It is a usable URL exactly when one of candidates 0..2 is usable. With no candidates it is `undefined` (`None`) |
| `Player.FormatTimeClock` | components/cards/player.jsx:45-49 | for t >= 0 the text is `MM:SS`: the minutes field is `String(t / 60)` padded to two digits, seconds exactly two and below 60, and minutes*60+seconds = t |
| `Player.TogglePlayPauseEffect` | components/cards/player.jsx:51-58 | `pause()` is called when playing and `play()` otherwise, `playing` is negated, and nothing else changes |
| `Player.TogglePlayPauseTwice` | components/cards/player.jsx:51-58 | two toggles restore `playing` and record one pause and one play call |
| `Player.SeekEffect` | components/cards/player.jsx:60-64 | both the element's position and `currentTime` become exactly the requested time, with no clamping; nothing else changes |
| `Player.LoopEffect` | components/cards/player.jsx:66-69 | both loop flags flip and stay equal if they were equal. `playing` is untouched, and looping twice is the identity |
| `Player.TimeUpdateEffect` | components/cards/player.jsx:81-89 | `currentTime` and `current` take the element's position and `duration` its duration. A failed read only sets `playing` to false |
| `Player.AutoplayDecision` | components/cards/player.jsx:77-80 | `playing` starts true exactly when stored `"p"` is absent, `"true"` or empty |
| `Player.MusicEffect` | components/cards/player.jsx:71-80 | with a selected song, the element resumes at `current + 1` when `current` is nonzero, and `playing` follows the stored flag. Without one, nothing changes |
| `Player.CloseEffect` | components/cards/player.jsx:230-237 | close clears `music`, `current`, `audioURL`, storage, the element's position and `src`. It leaves `playing` and the loop flags alone, and the effect then does nothing |
| `Player.AudioElement.constructor` | components/cards/player.jsx:100-107 | a fresh element: position 0, looping off, no calls made, and the `src` of the first render, where `audioURL` is `""` |
| `Player.Player.constructor` | components/cards/player.jsx:23-30 | the initial state: not playing, not looping, times 0, URL `""`, with the context's song and position, and `Valid()` |
| `Player.Player.TogglePlayPause` | components/cards/player.jsx:51-58 | new state is `TogglePlayPauseStep` of the old one, and `Valid()` is kept |
| `Player.Player.HandleSeek` | components/cards/player.jsx:60-64 | new state is `SeekStep` of the old one, and `Valid()` is kept |
| `Player.Player.LoopSong` | components/cards/player.jsx:66-69 | new state is `LoopStep` of the old one, and `Valid()` (loop flags equal) is kept |
| `Player.Player.HandleTimeUpdate` | components/cards/player.jsx:81-89 | new state is `TimeUpdateStep` of the old one, and `Valid()` is kept |
| `Player.Player.OnMusicChange` | components/cards/player.jsx:71-80 | new state is `MusicEffectStep` of the old one, and `Valid()` is kept |
| `Player.Player.OnSongLoaded` | components/cards/player.jsx:36-42 | `audioURL` becomes `StreamUrl` of the fetched candidates; nothing else changes |
| `Player.Player.Close` | components/cards/player.jsx:230-237 | new state is `CloseStep` of the old one, and `Valid()` is kept |
| `Player.Player.OnPlay` | components/cards/player.jsx:102 | `playing` becomes true; nothing else changes |
| `Player.Player.OnPause` | components/cards/player.jsx:103 | `playing` becomes false; nothing else changes |
| `Player.Player.OnLoadedData` | components/cards/player.jsx:104 | `duration` takes the element's duration; nothing else changes |
| `Library.StrLeTotal` | components/LibraryPanel.jsx:19-25 | the string order used for `localeCompare` is total |
| `Library.StrLeTransitive` | components/LibraryPanel.jsx:19-25 | the string order used for `localeCompare` is transitive |
| `Library.ModeOf` | components/LibraryPanel.jsx:17-31 | `'title'` and `'artist'` select their modes, and every other value selects the `dateAdded` default |
| `Library.Insert` | components/LibraryPanel.jsx:14-32 | inserting into a sorted list gives a sorted list holding one more copy of the element |
| `Library.SortSongs` | components/LibraryPanel.jsx:14-32 | the result is a permutation of the input, sorted by the mode's comparator |
| `Library.SortedSongs` | components/LibraryPanel.jsx:14-32 | the result is a permutation of `favoriteSongs` of the same length. It is ascending by title or by artist (missing counts as `''`), or descending by `dateAdded` for `'dateAdded'` and any other mode |
| `Library.SongClick` | components/LibraryPanel.jsx:34-36 | the selection is cleared exactly when the clicked song's id is the selected one; otherwise the clicked song is selected |
| `Library.SongClickTwice` | components/LibraryPanel.jsx:34-36 | two clicks on one song restore that song's selection status (nothing, or that song) |
| `Library.FormatDurationEmpty` | components/LibraryPanel.jsx:180-181 | a missing, non-numeric or zero duration gives `"0:00"` |
| `Library.FormatDurationClock` | components/LibraryPanel.jsx:180-187 | a positive duration gives `M:SS`: unpadded minutes, exactly two seconds digits below 60, and minutes*60+seconds = the duration |
| `Library.SongCountLabelShape` | components/LibraryPanel.jsx:169 | the label starts with the count's digits and ends in `s` exactly when the count is not 1 |

## Left out

- Browser storage and JSON are not modelled as I/O. The favourites key is a
  `Stored` value: absent, unparsable, or a parsed list. A stored JSON value
  that parses to something other than a list is not modelled. A failing write
  is the `writeFails` parameter.
- `addedAt` is an ISO date string in the source and an integer timestamp
  here. Song metadata other than the id is an opaque map.
- `getFavorites` returns the list itself and has no member of its own.
- `toggleFavorite` decides from the rendered `favorites`, while add and remove
  update the latest list. The model applies each toggle to the current list,
  so two toggles batched into one render are not modelled.
- The song fetch (`getSongsById`), its `await`s and their timing are not
  modelled. `OnSongLoaded` takes the fetched `downloadUrl` list as a
  parameter. The fetched record kept in `data` is used only for display and
  is not modelled.
- The real `<audio>` element is not modelled. Playback advancing its
  position, event delivery, and adding and removing the `timeupdate`
  listener in the effect and its cleanup are left out. The render-time
  bindings `src={audioURL}` and `autoPlay={playing}` are left out too. A
  failed read in the time-update handler is the `readFails` parameter.
- Floating point is not modelled: times and durations are whole seconds, and
  `NaN` (such as an element's duration before it loads) is not represented.
  `Math.floor` becomes integer division.
- `localStorage.clear()` in the close handler also removes the favourites
  key. The model's `Player.storage` is the player's own view of storage and
  is not linked to `Favorites.Stored`.
- Player.FormatTimeClock: stated only for non-negative times. `FormatTime`
  itself follows JavaScript for negative times (a `-` sign and a truncating
  remainder), but no lemma describes that output.
- Library.FormatDurationClock: stated only for positive durations. For a
  negative one `FormatDuration` follows JavaScript (for -5 seconds it gives
  `"-1:-5"`, not an `M:SS` text), but no lemma describes that output.
- Player.AudioElement.constructor: `src` starts at the first render's
  `audioURL`, the empty string. Since the render-time binding
  `src={audioURL}` is left out, later changes of `audioURL` do not reach
  `audio.src`; only `Close` assigns it.
- Library.StrLeTotal: `localeCompare` becomes lexicographic order on
  characters. Locale-aware collation is not modelled, and only its use as a
  total order matters here.
- Library.SortedSongs: does not state the stability of `Array.prototype.sort`.
  Songs with equal keys may appear in any order as far as the contract goes.
- The panel sorts on `dateAdded`, while the favourites hook stamps entries
  with `addedAt`. The two files are modelled as written. A missing
  `dateAdded` (`NaN` from `new Date`) is not represented: every song has an
  integer `dateAdded`.
- `components/FavoriteButton.jsx` only flips a boolean and forwards it, which
  `ToggleFavorite` already covers. `components/page/footer.jsx` is static
  markup. JSX rendering, CSS, icons and toasts are not modelled.
