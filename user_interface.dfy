/** The main area of the lorikeet file browser (lorikeet/userInterface.js).

    The main area is a list of tiles, one per displayed file. Every tile
    shows a file's name and a type-derived icon, carries the file's path as
    its `data-filePath`, navigates on double-click when it stands for a
    directory, and is either shown or hidden by the search filter. The
    view talks to the search index (module Search) and collects the alerts
    it raises.
 */
module UserInterface {
  import opened Search

  /** One `.item` of the main area. */
  datatype Tile = Tile(path: string, name: string, icon: string, navigable: bool, visible: bool)

  /** The outcome of an external listing or describing step: lorikeet's
      `(err, value)` callback arguments, where a truthy `err` wins. */
  datatype Outcome<T> = Failure | Success(value: T)

  /** How a statement sequence ended: normally, or by an exception. */
  datatype Completion = Returned | Threw

  const Directory := "directory"
  const FolderAlert := "Sorry, you could not load your folder"
  const FilesAlert := "Sorry, we could not display your files"

  /** The `src` of a tile's icon. */
  function Icon(kind: string): string
  {
    "images/" + kind + ".svg"
  }

  /** The tile `displayFile` renders for a file: a fresh clone has no
      style, so it is shown. */
  function TileOf(file: FileDescription): Tile
  {
    Tile(file.path, file.file, Icon(file.kind), file.kind == Directory, true)
  }

  function TilesOf(files: seq<FileDescription>): seq<Tile>
  {
    seq(|files|, k requires 0 <= k < |files| => TileOf(files[k]))
  }

  /** The `data-filePath` of every tile, in order. */
  function TilePaths(tiles: seq<Tile>): seq<string>
  {
    seq(|tiles|, k requires 0 <= k < |tiles| => tiles[k].path)
  }

  /** The paths a filter shows: none for a falsy `results` (`None`),
      otherwise each result's `ref`, in order. */
  function ValidPaths(results: Option<seq<SearchResult>>): seq<string>
  {
    match results
    case None => []
    case Some(hits) => seq(|hits|, k requires 0 <= k < |hits| => hits[k].ref)
  }

  /** The tiles once each is shown exactly when its path is valid. */
  function Filtered(tiles: seq<Tile>, valid: seq<string>): seq<Tile>
  {
    seq(|tiles|, k requires 0 <= k < |tiles| => tiles[k].(visible := tiles[k].path in valid))
  }

  /** The tiles once every style is cleared. */
  function Unfiltered(tiles: seq<Tile>): seq<Tile>
  {
    seq(|tiles|, k requires 0 <= k < |tiles| => tiles[k].(visible := true))
  }

  /** What the view and the index hold together, and the alerts shown so far. */
  datatype ViewState = ViewState(tiles: seq<Tile>, index: IndexState, alerts: seq<string>)

  /** Every rendered tile has an index record and the index has no record
      for a tile that is not rendered, in the same order. */
  predicate InSync(s: ViewState)
  {
    s.index.Some? && TilePaths(s.tiles) == Paths(s.index.value)
  }

  /** `displayFiles(err, files)`. */
  function Displayed(s: ViewState, described: Outcome<seq<FileDescription>>): ViewState
  {
    match described
    case Failure => s.(alerts := s.alerts + [FilesAlert])
    case Success(files) => s.(tiles := s.tiles + TilesOf(files), index := AddAll(s.index, files))
  }

  /** The callback `loadDirectory` hands to the directory listing: clear the
      view, then either alert or describe the entries and display them. */
  function Listed(s: ViewState, folderPath: string, listing: Outcome<seq<string>>,
                  describe: (string, seq<string>) -> Outcome<seq<FileDescription>>): ViewState
  {
    var cleared := s.(tiles := []);
    match listing
    case Failure => cleared.(alerts := cleared.alerts + [FolderAlert])
    case Success(entries) => Displayed(cleared, describe(folderPath, entries))
  }

  /** `loadDirectory(folderPath)()` as written: the index is reset, then the
      breadcrumb code throws before the listing is requested. */
  function Navigated(s: ViewState): ViewState
  {
    s.(index := Some([]))
  }

  /** `loadDirectory(folderPath)()` without the breadcrumb display: reset
      the index, then run the listing callback. */
  function NavigatedIntended(s: ViewState, folderPath: string, listing: Outcome<seq<string>>,
                             describe: (string, seq<string>) -> Outcome<seq<FileDescription>>): ViewState
  {
    Listed(s.(index := Some([])), folderPath, listing, describe)
  }

  lemma TilePathsOfTiles(files: seq<FileDescription>)
    ensures TilePaths(TilesOf(files)) == Paths(files)
  {
  }

  /** `displayFiles` renders one tile per file, in input order: each with
      the file's path, name and type icon, shown, and navigable exactly
      when the file is a directory. */
  lemma DisplayedAppendsInOrder(s: ViewState, files: seq<FileDescription>)
    ensures var t := Displayed(s, Success(files)).tiles;
      |t| == |s.tiles| + |files| && t[..|s.tiles|] == s.tiles &&
      forall k | 0 <= k < |files| ::
        t[|s.tiles| + k].path == files[k].path &&
        t[|s.tiles| + k].name == files[k].file &&
        t[|s.tiles| + k].icon == "images/" + files[k].kind + ".svg" &&
        t[|s.tiles| + k].visible &&
        (t[|s.tiles| + k].navigable <==> files[k].kind == "directory")
  {
  }

  /** With an index present, `displayFiles` indexes each displayed file
      after the existing records; with none, it indexes nothing. */
  lemma DisplayedIndexesFiles(s: ViewState, files: seq<FileDescription>)
    ensures s.index.Some? ==> Displayed(s, Success(files)).index == Some(s.index.value + files)
    ensures s.index.None? ==> Displayed(s, Success(files)).index == None
  {
    AddAllStoresInOrder(s.index, files);
  }

  /** `displayFiles` with an error alerts once and renders and indexes nothing. */
  lemma DescribeErrorAddsNothing(s: ViewState)
    ensures Displayed(s, Failure).tiles == s.tiles
    ensures Displayed(s, Failure).index == s.index
    ensures Displayed(s, Failure).alerts == s.alerts + ["Sorry, we could not display your files"]
  {
  }

  /** After `filterResults(results)` a tile is shown exactly when its path
      is the `ref` of some result; number, order and everything but
      visibility are kept. */
  lemma FilteredShowsExactlyResults(tiles: seq<Tile>, hits: seq<SearchResult>)
    ensures |Filtered(tiles, ValidPaths(Some(hits)))| == |tiles|
    ensures forall k | 0 <= k < |tiles| ::
      Filtered(tiles, ValidPaths(Some(hits)))[k] == tiles[k].(visible := Filtered(tiles, ValidPaths(Some(hits)))[k].visible)
    ensures forall k | 0 <= k < |tiles| ::
      Filtered(tiles, ValidPaths(Some(hits)))[k].visible <==> exists h | h in hits :: h.ref == tiles[k].path
  {
    var valid := ValidPaths(Some(hits));
    forall k | 0 <= k < |tiles|
      ensures Filtered(tiles, valid)[k].visible <==> exists h | h in hits :: h.ref == tiles[k].path
    {
      if tiles[k].path in valid {
        var j :| 0 <= j < |valid| && valid[j] == tiles[k].path;
        assert hits[j] in hits;
      }
      if exists h | h in hits :: h.ref == tiles[k].path {
        var h :| h in hits && h.ref == tiles[k].path;
        var j :| 0 <= j < |hits| && hits[j] == h;
        assert valid[j] == tiles[k].path;
      }
    }
  }

  /** A falsy `results`, or an empty result list, hides every tile and
      leaves none visible. */
  lemma FilterWithoutResultsHidesAll(tiles: seq<Tile>, results: Option<seq<SearchResult>>)
    requires results.None? || results == Some([])
    ensures |Filtered(tiles, ValidPaths(results))| == |tiles|
    ensures forall k | 0 <= k < |tiles| :: !Filtered(tiles, ValidPaths(results))[k].visible
  {
    assert ValidPaths(results) == [];
  }

  /** `resetFilter` shows every tile, keeps everything else, and undoes any
      filter; applying it twice is applying it once. */
  lemma UnfilteredIsIdempotent(tiles: seq<Tile>, valid: seq<string>)
    ensures |Unfiltered(tiles)| == |tiles|
    ensures forall k | 0 <= k < |tiles| :: Unfiltered(tiles)[k] == tiles[k].(visible := true)
    ensures Unfiltered(Unfiltered(tiles)) == Unfiltered(tiles)
    ensures Unfiltered(Filtered(tiles, valid)) == Unfiltered(tiles)
  {
  }

  /** Searching and then filtering with the results shows only tiles whose
      path is stored in the index that was queried. */
  lemma VisibleTilesAreIndexed(engine: Engine, s: IndexState, query: string, tiles: seq<Tile>)
    ensures forall k | 0 <= k < |tiles| && Filtered(tiles, ValidPaths(Some(Results(engine, s, query))))[k].visible ::
      tiles[k].path in Paths(Step(s, FindCall(query)).value)
  {
    var hits := Results(engine, s, query);
    FilteredShowsExactlyResults(tiles, hits);
    ResultsAreStoredPaths(engine, s, query);
  }

  /** On a listing error the view is cleared first: no tile remains,
      nothing is indexed and exactly one alert is raised. */
  lemma ListingErrorShowsNothing(s: ViewState, folderPath: string,
                                 describe: (string, seq<string>) -> Outcome<seq<FileDescription>>)
    ensures Listed(s, folderPath, Failure, describe).tiles == []
    ensures Listed(s, folderPath, Failure, describe).index == s.index
    ensures Listed(s, folderPath, Failure, describe).alerts == s.alerts + ["Sorry, you could not load your folder"]
  {
  }

  /** After a reset, the listing callback leaves the rendered tiles and the
      index records in step, whichever way the listing and describing end. */
  lemma ListingAfterResetInSync(s: ViewState, folderPath: string, listing: Outcome<seq<string>>,
                                describe: (string, seq<string>) -> Outcome<seq<FileDescription>>)
    requires s.index == Some([])
    ensures InSync(Listed(s, folderPath, listing, describe))
  {
    if listing.Success? {
      var described := describe(folderPath, listing.value);
      if described.Success? {
        var files := described.value;
        AddAllStoresInOrder(Some([]), files);
        assert [] + files == files;
        assert [] + TilesOf(files) == TilesOf(files);
        TilePathsOfTiles(files);
      }
    }
  }

  /** The home folder is displayed at start-up without any reset, so none
      of its files is indexed, a search finds nothing whatever the query,
      and filtering with its results hides every tile. */
  lemma StartupSearchHidesEverything(engine: Engine, s: ViewState, files: seq<FileDescription>, query: string)
    requires s.index.None?
    ensures Displayed(s, Success(files)).index == None
    ensures forall r :: r !in Results(engine, Displayed(s, Success(files)).index, query)
    ensures forall k | 0 <= k < |Displayed(s, Success(files)).tiles| ::
      !Filtered(Displayed(s, Success(files)).tiles, ValidPaths(Some(Results(engine, None, query))))[k].visible
    ensures files != [] ==> !InSync(Displayed(s, Success(files)))
  {
    AddAllStoresInOrder(s.index, files);
    FindCreatesEmptyIndex(engine, query);
    FilteredShowsExactlyResults(Displayed(s, Success(files)).tiles, Results(engine, None, query));
  }

  /** As written, navigating resets the index but throws before the view is
      cleared: tiles of the folder left stay on screen with no index
      record, so the two are out of step. */
  lemma NavigationLeavesStaleTiles(s: ViewState)
    requires s.tiles != []
    ensures Navigated(s).tiles == s.tiles
    ensures Navigated(s).index == Some([])
    ensures !InSync(Navigated(s))
  {
    assert |TilePaths(s.tiles)| == |s.tiles|;
  }

  /** Without the failing breadcrumb display, every navigation ends with
      tiles and index in step, and the records are exactly the new folder's. */
  lemma IntendedNavigationInSync(s: ViewState, folderPath: string, listing: Outcome<seq<string>>,
                                 describe: (string, seq<string>) -> Outcome<seq<FileDescription>>)
    ensures InSync(NavigatedIntended(s, folderPath, listing, describe))
    ensures listing.Success? && describe(folderPath, listing.value).Success? ==>
      NavigatedIntended(s, folderPath, listing, describe).index == Some(describe(folderPath, listing.value).value)
    ensures listing.Failure? ==> NavigatedIntended(s, folderPath, listing, describe).tiles == []
  {
    ListingAfterResetInSync(s.(index := Some([])), folderPath, listing, describe);
    if listing.Success? && describe(folderPath, listing.value).Success? {
      var files := describe(folderPath, listing.value).value;
      AddAllStoresInOrder(Some([]), files);
      assert [] + files == files;
    }
  }

  /** The document's main area and items, with the search module. */
  class View {
    var tiles: seq<Tile>
    var alerts: seq<string>
    const search: SearchIndex

    ghost function State(): ViewState
      reads this, search
    {
      ViewState(tiles, search.index, alerts)
    }

    /** An empty main area bound to the search module. */
    constructor (search: SearchIndex)
      ensures this.search == search
      ensures tiles == [] && alerts == []
    {
      this.search := search;
      tiles := [];
      alerts := [];
    }

    /** `clearView()`: remove the first child until there is none. */
    method ClearView()
      modifies this`tiles
      ensures tiles == []
    {
      while tiles != []
        decreases |tiles|
      {
        tiles := tiles[1..];
      }
    }

    /** `displayFile(file)`: index the file, then append its tile. */
    method DisplayFile(file: FileDescription)
      modifies this`tiles, search`index
      ensures search.index == Step(old(search.index), AddCall(file))
      ensures tiles == old(tiles) + [TileOf(file)]
      ensures tiles[|tiles| - 1].navigable <==> file.kind == "directory"
      ensures old(search.index).Some? ==> file.path in Paths(search.index.value)
    {
      search.AddToIndex(file);
      tiles := tiles + [TileOf(file)];
      if old(search.index).Some? {
        assert Paths(search.index.value)[|search.index.value| - 1] == file.path;
      }
    }

    /** `displayFiles(err, files)`: alert on an error, else display each
        file in order. */
    method DisplayFiles(described: Outcome<seq<FileDescription>>)
      modifies this`tiles, this`alerts, search`index
      ensures State() == Displayed(old(State()), described)
      ensures described.Failure? ==>
        tiles == old(tiles) && search.index == old(search.index) && alerts == old(alerts) + [FilesAlert]
      ensures described.Success? ==>
        tiles == old(tiles) + TilesOf(described.value) && alerts == old(alerts) &&
        search.index == if old(search.index).Some? then Some(old(search.index).value + described.value) else None
    {
      if described.Failure? {
        alerts := alerts + [FilesAlert];
        return;
      }
      var files := described.value;
      for i := 0 to |files|
        invariant tiles == old(tiles) + TilesOf(files[..i])
        invariant search.index == AddAll(old(search.index), files[..i])
        invariant alerts == old(alerts)
      {
        DisplayFile(files[i]);
        assert files[..i + 1] == files[..i] + [files[i]];
        AddAllSnoc(old(search.index), files[..i], files[i]);
        assert TilesOf(files[..i + 1]) == TilesOf(files[..i]) + [TileOf(files[i])];
      }
      assert files[..|files|] == files;
      AddAllStoresInOrder(old(search.index), files);
    }

    /** `filterResults(results)`: show each item exactly when its path is
        among the results' refs, hide it otherwise. */
    method FilterResults(results: Option<seq<SearchResult>>)
      modifies this`tiles
      ensures tiles == Filtered(old(tiles), ValidPaths(results))
    {
      var valid := ValidPaths(results);
      for i := 0 to |tiles|
        invariant |tiles| == |old(tiles)|
        invariant forall k | 0 <= k < i :: tiles[k] == Filtered(old(tiles), valid)[k]
        invariant forall k | i <= k < |tiles| :: tiles[k] == old(tiles)[k]
      {
        if tiles[i].path in valid {
          tiles := tiles[i := tiles[i].(visible := true)];
        } else {
          tiles := tiles[i := tiles[i].(visible := false)];
        }
      }
    }

    /** `resetFilter()`: clear every item's style. */
    method ResetFilter()
      modifies this`tiles
      ensures tiles == Unfiltered(old(tiles))
    {
      for i := 0 to |tiles|
        invariant |tiles| == |old(tiles)|
        invariant forall k | 0 <= k < i :: tiles[k] == old(tiles)[k].(visible := true)
        invariant forall k | i <= k < |tiles| :: tiles[k] == old(tiles)[k]
      {
        tiles := tiles[i := tiles[i].(visible := true)];
      }
    }

    /** The listing callback of `loadDirectory`: `listing` is what the
        directory listing reported and `describe` stands for
        `inspectAndDescribeFiles`. */
    method OnListing(folderPath: string, listing: Outcome<seq<string>>,
                     describe: (string, seq<string>) -> Outcome<seq<FileDescription>>)
      modifies this`tiles, this`alerts, search`index
      ensures State() == Listed(old(State()), folderPath, listing, describe)
    {
      ClearView();
      if listing.Failure? {
        alerts := alerts + [FolderAlert];
        return;
      }
      DisplayFiles(describe(folderPath, listing.value));
    }

    /** `loadDirectory(folderPath)(window)` as written: the index is reset,
        then `displayFolderPath` throws a ReferenceError (its helper pushes
        to an undeclared `contnts`), so the listing is never requested. */
    method LoadDirectory(folderPath: string) returns (completion: Completion)
      modifies search`index
      ensures completion == Threw
      ensures State() == Navigated(old(State()))
      ensures tiles == old(tiles) && search.index == Some([])
    {
      search.ResetIndex();
      completion := Threw;
    }

    /** `loadDirectory` with the breadcrumb display taken out: reset the
        index, then the listing callback. Tiles and index end in step. */
    method LoadDirectoryIntended(folderPath: string, listing: Outcome<seq<string>>,
                                 describe: (string, seq<string>) -> Outcome<seq<FileDescription>>)
      modifies this`tiles, this`alerts, search`index
      ensures State() == NavigatedIntended(old(State()), folderPath, listing, describe)
      ensures InSync(State())
    {
      search.ResetIndex();
      OnListing(folderPath, listing, describe);
      IntendedNavigationInSync(old(State()), folderPath, listing, describe);
    }
  }
}
