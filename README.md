# lorikeet search index and main area, in Dafny

This project models the only stateful logic of the lorikeet file browser:

- The search index of `lorikeet/search.js` (module `Search`, file `search.dfy`).
  The module-level `index` is either absent or holds file descriptions
  `{path, file, type}`. `resetIndex` replaces it with an empty index.
  `addToIndex` stores a record only if an index exists. `find` creates an
  empty index when there is none, then queries it and passes the results to
  its callback.
- The main area of `lorikeet/userInterface.js` (module `UserInterface`, file
  `user_interface.dfy`). This is the list of tiles, each with a path, a name,
  a type icon, a double-click navigation flag and a visibility flag. It also
  covers the operations that clear the list, fill it and filter it, and the
  callback that runs when a directory listing arrives.

The full-text library (lunr) is an `Engine`: a total function from the stored
records and a query to a list of results. Its type constraint is the only
thing assumed about it: every returned `ref` is the `path` of a record it was
given. `SearchIndex` is a class with the engine and the `index` field. `View`
is a class with the tile list, the alerts shown so far, and the `SearchIndex`
it feeds.

Each state-changing method is proved against a specification function:

- `Step` and `Run` give the index after one call or a sequence of calls.
- `Displayed` and `Listed` give the view after `displayFiles` and after the
  listing callback.
- `Filtered` and `Unfiltered` give the tiles after `filterResults` and after
  `resetFilter`.

The lemmas prove the lifecycle properties about these functions. The main
one is that after a reset, `find` can only return paths added since that
reset.

The filesystem collaborators are parameters. The listing outcome is an
`Outcome<seq<string>>` and `inspectAndDescribeFiles` is a function
`describe`. Every callback chain runs sequentially.

Three behaviours of the code are worth knowing, and the model keeps them:

- **Empty results hide everything.** `filterResults` with an empty result
  list hides every tile, and so does a falsy `results`. An empty result list
  never makes a tile visible; only `resetFilter` shows every tile again. A
  search box would usually show every tile for an empty query.
- **`loadDirectory` never lists the new folder.** The breadcrumb display
  throws on every call, so the listing callback is never reached from
  `loadDirectory`. Navigation resets the index and stops there; the view is
  not cleared and the new folder is not listed.
- **The start-up load is never indexed.** `lorikeet/app.js` displays the home
  folder without a reset, so its files are never indexed (see
  `StartupSearchHidesEverything`).

## Model

| member | source | states |
|---|---|---|
| `Search.SearchIndex.constructor` | lorikeet/search.js:4 | at module load there is no index |
| `Search.SearchIndex.ResetIndex` | lorikeet/search.js:6-12 | afterwards an empty index is present, whatever was there before |
| `Search.SearchIndex.AddToIndex` | lorikeet/search.js:14-18 | with no index the state is unchanged and still has no index; with one, exactly the record is appended |
| `Search.SearchIndex.Find` | lorikeet/search.js:20-28 | afterwards an index exists and an existing one is unchanged; `cb` is invoked once with the results if it is a function and never otherwise; every returned `ref` is a stored path |
| `Search.ResetIsIdempotent` | lorikeet/search.js:6-12 | a reset gives an empty index from any state, and two resets equal one |
| `Search.AddWithoutIndexIsNoOp` | lorikeet/search.js:14-18 | adding with no index neither stores the record nor creates an index |
| `Search.AddKeepsEarlierRecords` | lorikeet/search.js:15-17 | adding to an index makes it one longer, keeps the earlier records in place and puts the new record last |
| `Search.FindCreatesEmptyIndex` | lorikeet/search.js:20-24 | `find` with no index creates an empty one and returns no result for any query |
| `Search.FindKeepsRecords` | lorikeet/search.js:20-28 | `find` never adds or removes records: an existing index is unchanged, and a missing one becomes empty |
| `Search.ResultsAreStoredPaths` | lorikeet/search.js:24 | every `ref` that `find` returns is the path of a record in the index it queried |
| `Search.RunWithoutReset` | lorikeet/search.js:14-28 | once an index exists, any sequence of adds and finds with no reset leaves the earlier records followed by exactly the added records, in call order |
| `Search.StartupIgnoresAdds` | lorikeet/app.js:9-13 | from process start, any number of adds with no reset or find leaves no index |
| `Search.NoLeakAfterReset` | lorikeet/search.js:6-24 | after any history, a reset, and then adds and finds, the index holds exactly the records added since the reset; every `ref` found is the path of one of them |
| `Search.AddAllStoresInOrder` | lorikeet/userInterface.js:82 | adding a list of files appends them all, in order, if an index exists, and leaves the index absent otherwise |
| `UserInterface.View.ClearView` | lorikeet/userInterface.js:13-20 | the loop removes the first tile until none remains; the main area ends empty |
| `UserInterface.View.DisplayFile` | lorikeet/userInterface.js:39-54 | the file goes to `addToIndex` and exactly one tile for it is appended at the end; the tile navigates if and only if the type is `directory`; with an index present, its path is indexed |
| `UserInterface.View.DisplayFiles` | lorikeet/userInterface.js:78-83 | on an error: one alert, no tile and no record added; otherwise one tile per file is appended in input order and each file is indexed if an index exists |
| `UserInterface.View.FilterResults` | lorikeet/userInterface.js:56-69 | each tile becomes visible exactly when its path is among the results' refs, and hidden otherwise |
| `UserInterface.View.ResetFilter` | lorikeet/userInterface.js:71-76 | every tile becomes visible and nothing else changes |
| `UserInterface.View.OnListing` | lorikeet/userInterface.js:29-35 | the view is cleared first; a listing error gives one alert; otherwise the described files are displayed |
| `UserInterface.View.LoadDirectory` | lorikeet/userInterface.js:22-37 | as written: the index is reset, then the call throws, and the tiles are left unchanged |
| `UserInterface.View.LoadDirectoryIntended` | lorikeet/userInterface.js:27-35 | reset then listing callback; afterwards the tiles and the index records match path for path |
| `UserInterface.DisplayedAppendsInOrder` | lorikeet/userInterface.js:39-54 | the earlier tiles are kept, and tile k of the new files carries file k's path, its name and the `images/<type>.svg` icon; it is visible, and it navigates if and only if the type is `directory` |
| `UserInterface.DisplayedIndexesFiles` | lorikeet/userInterface.js:78-83 | with an index, displaying files appends exactly those files to the records; with none, the index stays absent |
| `UserInterface.DescribeErrorAddsNothing` | lorikeet/userInterface.js:78-81 | a describing error leaves the tiles and the index as they were and adds the one alert |
| `UserInterface.FilteredShowsExactlyResults` | lorikeet/userInterface.js:56-69 | after filtering, a tile is visible if and only if some result's `ref` equals its path; the number, order and all other fields of the tiles are unchanged |
| `UserInterface.FilterWithoutResultsHidesAll` | lorikeet/userInterface.js:58-67 | filtering with falsy or empty results hides every tile |
| `UserInterface.UnfilteredIsIdempotent` | lorikeet/userInterface.js:71-76 | resetting the filter shows every tile and keeps the other fields; it is idempotent and undoes any earlier filter |
| `UserInterface.VisibleTilesAreIndexed` | lorikeet/userInterface.js:63 | after filtering with `find`'s results, every visible tile's path is stored in the queried index |
| `UserInterface.ListingErrorShowsNothing` | lorikeet/userInterface.js:29-33 | on a listing error no tiles remain, the index is unchanged and the one alert is added |
| `UserInterface.ListingAfterResetInSync` | lorikeet/userInterface.js:27-35 | after a reset, the listing callback leaves tile paths equal to index paths, on every error and success path |
| `UserInterface.StartupSearchHidesEverything` | lorikeet/app.js:9-13 | the home folder is shown without a reset, so nothing is indexed; any query finds nothing, filtering hides every tile, and tiles and index are out of step |
| `UserInterface.NavigationLeavesStaleTiles` | lorikeet/userInterface.js:27-29 | as written, navigating from a non-empty view empties the index but keeps the old tiles, so the two are out of step |
| `UserInterface.IntendedNavigationInSync` | lorikeet/userInterface.js:27-35 | without the throwing breadcrumb, a navigation always leaves tiles and index in step, and the records are exactly the described files |

## Left out

- lunr's tokenising, field weighting, ranking and query syntax. The `Engine` type states only that results refer to stored records, so no lemma says which records a query matches.
- The model assumes lunr's mutable 0.x/1.x API, in which `lunr(fn)` returns an index with an `add` method. Under lunr 2.x that object has no `add`, so `addToIndex` would throw whenever an index exists; that behaviour is not modelled.
- Replacing the index with a fresh lunr object is modelled as assigning a record list. No other code holds the index object, so aliasing is not modelled.
- `find`'s callback is modelled only as whether `typeof cb` is `'function'`. The method returns the list of arguments `cb` would receive.
- The breadcrumb code (`displayFolderPath`, `convertFolderPathIntoLinks`, `bindCurrentFolderPath`) is not modelled. `LoadDirectory` only records that it throws after the reset. `LoadDirectoryIntended` leaves it out and invents no breadcrumb behaviour.
- The `fileSystem` module (`getFilesInFolder`, `inspectAndDescribeFiles`, `getUserHomeFolder`) is not part of this model. Its outcomes are parameters.
- DOM work is represented by plain `Tile` records and an alert list:
  - template cloning, `getElementsByClassName` and `innerText`
  - registering event listeners (only the `navigable` flag remains)
  - the `window`/`document` binding, `bindDocument` and `bindSearchField`
  - `alert` dialogs
- The DOM main area is assumed to hold exactly the rendered items. `getElementsByClassName('item')` is assumed to return the same list.
- Asynchrony is not modelled. Different navigations cannot interleave, and every callback chain runs to completion.
- `lorikeet/app.js` is not modelled as a method. It appears only as the start-up scenario in `StartupIgnoresAdds` and `StartupSearchHidesEverything`.
- `trayApp/main.js` is Electron tray and window wiring over static notes. It is not part of this model.

## Findings

| source | as written | input that shows it | evidently intended | confidence | as-written member | corrected member |
|---|---|---|---|---|---|---|
| lorikeet/userInterface.js:101 | `convertFolderPathIntoLinks` pushes to the undeclared `contnts`, so the breadcrumb display throws a ReferenceError on every call. `loadDirectory` has reset the index at line 27 and never reaches the listing at line 29. | any folder path, e.g. a double-click on a directory tile while the home folder's tiles are shown: the tiles stay, the index is empty | `contents.push(...)`: navigation clears the view and lists and indexes the new folder | not executed; high | `UserInterface.NavigationLeavesStaleTiles` | `UserInterface.IntendedNavigationInSync` |
