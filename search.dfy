/** The search index of the lorikeet file browser (lorikeet/search.js).

    The module keeps one process-wide index that is either absent or holds
    the file descriptions added since it was created. `resetIndex` replaces
    it with an empty one, `addToIndex` inserts a record only when an index
    exists, and `find` creates an empty index when there is none and then
    queries it. The full-text library behind the index is abstract here: an
    `Engine` may rank and match as it likes, but every reference it returns
    is the path of a record it was given.
 */
module Search {

  datatype Option<T> = None | Some(value: T)

  /** A file of the folder being viewed, as the describer produces it: the
      absolute `path` (the index reference), the display name `file`, and
      the classification tag that lorikeet calls `type`. */
  datatype FileDescription = FileDescription(path: string, file: string, kind: string)

  /** One hit of a query; `ref` is the reference field of the matched record. */
  datatype SearchResult = SearchResult(ref: string)

  /** The module-level `index`: absent, or the records added to it, in order. */
  type IndexState = Option<seq<FileDescription>>

  /** The reference keys of a list of records, in order. */
  function Paths(records: seq<FileDescription>): seq<string>
  {
    seq(|records|, k requires 0 <= k < |records| => records[k].path)
  }

  /** The one thing assumed of the full-text library: a query over some
      records answers only with references of those records. */
  ghost predicate Sound(search: (seq<FileDescription>, string) -> seq<SearchResult>)
  {
    forall records, query, k | 0 <= k < |search(records, query)| ::
      search(records, query)[k].ref in Paths(records)
  }

  /** `index.search(query)` of the full-text library, as a function of the
      stored records and the query text. */
  type Engine = search: (seq<FileDescription>, string) -> seq<SearchResult> | Sound(search)
    witness (records: seq<FileDescription>, query: string) => []

  /** A call into the module, as far as it concerns the index. */
  datatype Call = ResetCall | AddCall(file: FileDescription) | FindCall(query: string)

  /** The index after one call. */
  function Step(s: IndexState, call: Call): IndexState
  {
    match call
    case ResetCall => Some([])
    case AddCall(file) => if s.Some? then Some(s.value + [file]) else s
    case FindCall(_) => if s.None? then Some([]) else s
  }

  /** The index after a sequence of calls, the last one applied last. */
  function Run(s: IndexState, calls: seq<Call>): IndexState
    decreases |calls|
  {
    if calls == [] then s else Step(Run(s, calls[..|calls| - 1]), calls[|calls| - 1])
  }

  /** What `find(query, cb)` hands to `cb`: the engine's answer over the
      index that exists once `find` has created one if needed. */
  function Results(engine: Engine, s: IndexState, query: string): seq<SearchResult>
  {
    engine(Step(s, FindCall(query)).value, query)
  }

  /** The `addToIndex` calls `displayFiles` makes through `displayFile`, one per file. */
  function AddCalls(files: seq<FileDescription>): seq<Call>
  {
    seq(|files|, k requires 0 <= k < |files| => AddCall(files[k]))
  }

  /** The index after adding each of `files`, in order. */
  function AddAll(s: IndexState, files: seq<FileDescription>): IndexState
  {
    Run(s, AddCalls(files))
  }

  /** The records passed to `addToIndex` in a sequence of calls, in order. */
  function AddedIn(calls: seq<Call>): seq<FileDescription>
    decreases |calls|
  {
    if calls == [] then []
    else
      var last := calls[|calls| - 1];
      AddedIn(calls[..|calls| - 1]) + (if last.AddCall? then [last.file] else [])
  }

  predicate NoReset(calls: seq<Call>)
  {
    forall k | 0 <= k < |calls| :: !calls[k].ResetCall?
  }

  predicate AddsOnly(calls: seq<Call>)
  {
    forall k | 0 <= k < |calls| :: calls[k].AddCall?
  }

  /** `resetIndex` discards whatever index there was and leaves an empty one,
      so a second reset changes nothing. */
  lemma ResetIsIdempotent(s: IndexState)
    ensures Step(s, ResetCall) == Some([])
    ensures Run(s, [ResetCall, ResetCall]) == Run(s, [ResetCall]) == Some([])
  {
    assert [ResetCall, ResetCall][..1] == [ResetCall];
  }

  /** `addToIndex` before any index exists neither stores the record nor
      creates an index. */
  lemma AddWithoutIndexIsNoOp(file: FileDescription)
    ensures Step(None, AddCall(file)) == None
  {
  }

  /** With an index present, `addToIndex` appends exactly that record and
      leaves the earlier ones as they were. */
  lemma AddKeepsEarlierRecords(records: seq<FileDescription>, file: FileDescription)
    ensures Step(Some(records), AddCall(file)).Some?
    ensures |Step(Some(records), AddCall(file)).value| == |records| + 1
    ensures Step(Some(records), AddCall(file)).value[..|records|] == records
    ensures Step(Some(records), AddCall(file)).value[|records|] == file
  {
  }

  /** `find` with no index creates an empty one, and a sound engine finds
      nothing in it. */
  lemma FindCreatesEmptyIndex(engine: Engine, query: string)
    ensures Step(None, FindCall(query)) == Some([])
    ensures forall r :: r !in Results(engine, None, query)
  {
    ResultsAreStoredPaths(engine, None, query);
    assert Paths([]) == [];
  }

  /** `find` never adds or removes records; an existing index is left as it
      is and the only possible change is the lazy creation. */
  lemma FindKeepsRecords(s: IndexState, query: string)
    ensures Step(s, FindCall(query)).Some?
    ensures s.Some? ==> Step(s, FindCall(query)) == s
    ensures s.None? ==> Step(s, FindCall(query)) == Some([])
  {
  }

  /** Every reference `find` returns is the path of a record stored in the
      index it queried. */
  lemma ResultsAreStoredPaths(engine: Engine, s: IndexState, query: string)
    ensures forall r | r in Results(engine, s, query) ::
      r.ref in Paths(Step(s, FindCall(query)).value)
  {
    var records := Step(s, FindCall(query)).value;
    forall r | r in Results(engine, s, query)
      ensures r.ref in Paths(records)
    {
      var k :| 0 <= k < |Results(engine, s, query)| && Results(engine, s, query)[k] == r;
      assert engine(records, query)[k].ref in Paths(records);
    }
  }

  lemma {:induction false} RunAppend(s: IndexState, a: seq<Call>, b: seq<Call>)
    ensures Run(s, a + b) == Run(Run(s, a), b)
    decreases |b|
  {
    if b == [] {
      assert a + b == a;
    } else {
      assert (a + b)[..|a + b| - 1] == a + b[..|b| - 1];
      assert (a + b)[|a + b| - 1] == b[|b| - 1];
      RunAppend(s, a, b[..|b| - 1]);
    }
  }

  /** Once an index exists and no reset follows, the index holds exactly
      its earlier records followed by every record added since, in order;
      interleaved finds change nothing. */
  lemma {:induction false} RunWithoutReset(records: seq<FileDescription>, calls: seq<Call>)
    requires NoReset(calls)
    ensures Run(Some(records), calls) == Some(records + AddedIn(calls))
    decreases |calls|
  {
    if calls != [] {
      var most := calls[..|calls| - 1];
      assert NoReset(most) by {
        forall k | 0 <= k < |most| ensures !most[k].ResetCall? {
          assert most[k] == calls[k];
        }
      }
      RunWithoutReset(records, most);
      var last := calls[|calls| - 1];
      assert !last.ResetCall?;
      var extra := if last.AddCall? then [last.file] else [];
      assert Run(Some(records), calls) == Step(Some(records + AddedIn(most)), last);
      if last.FindCall? {
        assert records + AddedIn(most) + extra == records + AddedIn(most);
      }
      assert AddedIn(calls) == AddedIn(most) + extra;
      assert records + AddedIn(most) + extra == records + AddedIn(calls);
    } else {
      assert records + [] == records;
    }
  }

  /** From process start, while only `addToIndex` is called (the initial
      folder load, which never resets), there is still no index. */
  lemma {:induction false} StartupIgnoresAdds(calls: seq<Call>)
    requires AddsOnly(calls)
    ensures Run(None, calls) == None
    decreases |calls|
  {
    if calls != [] {
      var most := calls[..|calls| - 1];
      assert AddsOnly(most) by {
        forall k | 0 <= k < |most| ensures most[k].AddCall? {
          assert most[k] == calls[k];
        }
      }
      StartupIgnoresAdds(most);
      assert calls[|calls| - 1].AddCall?;
    }
  }

  /** The load-bearing invariant: after a reset followed by any adds and
      finds, the index holds exactly the records added since that reset,
      and every reference `find` returns is the path of one of them.
      Nothing from before the reset can be returned. */
  lemma NoLeakAfterReset(engine: Engine, s: IndexState, before: seq<Call>, after: seq<Call>, query: string)
    requires NoReset(after)
    ensures Run(s, before + [ResetCall] + after) == Some(AddedIn(after))
    ensures forall r | r in Results(engine, Run(s, before + [ResetCall] + after), query) ::
      r.ref in Paths(AddedIn(after))
  {
    var resetAt := before + [ResetCall];
    RunAppend(s, resetAt, after);
    assert resetAt[..|resetAt| - 1] == before;
    assert Run(s, resetAt) == Some([]);
    RunWithoutReset([], after);
    assert [] + AddedIn(after) == AddedIn(after);
    ResultsAreStoredPaths(engine, Run(s, before + [ResetCall] + after), query);
  }

  lemma AddAllSnoc(s: IndexState, files: seq<FileDescription>, file: FileDescription)
    ensures AddAll(s, files + [file]) == Step(AddAll(s, files), AddCall(file))
  {
    var calls := AddCalls(files + [file]);
    assert calls[..|calls| - 1] == AddCalls(files);
  }

  lemma {:induction false} AddedInAddCalls(files: seq<FileDescription>)
    ensures NoReset(AddCalls(files)) && AddsOnly(AddCalls(files))
    ensures AddedIn(AddCalls(files)) == files
    decreases |files|
  {
    if files != [] {
      var most := files[..|files| - 1];
      assert AddCalls(files)[..|files| - 1] == AddCalls(most);
      AddedInAddCalls(most);
      assert files == most + [files[|files| - 1]];
    }
  }

  /** Adding a list of files stores them all, in order, after the existing
      records when an index exists, and does nothing when none exists. */
  lemma AddAllStoresInOrder(s: IndexState, files: seq<FileDescription>)
    ensures s.None? ==> AddAll(s, files) == None
    ensures s.Some? ==> AddAll(s, files) == Some(s.value + files)
  {
    AddedInAddCalls(files);
    if s.None? {
      StartupIgnoresAdds(AddCalls(files));
    } else {
      RunWithoutReset(s.value, AddCalls(files));
    }
  }

  /** The module's state: the library's query function and the `index`
      variable. */
  class SearchIndex {
    const engine: Engine
    var index: IndexState

    /** Module load: `let index;` leaves it undefined. */
    constructor (engine: Engine)
      ensures this.engine == engine
      ensures index == None
    {
      this.engine := engine;
      index := None;
    }

    /** `resetIndex()`: a fresh, empty index replaces the old one. */
    method ResetIndex()
      modifies this`index
      ensures index == Step(old(index), ResetCall)
      ensures index == Some([])
    {
      index := Some([]);
    }

    /** `addToIndex(file)`: stored only if an index exists. */
    method AddToIndex(file: FileDescription)
      modifies this`index
      ensures index == Step(old(index), AddCall(file))
      ensures old(index).None? ==> index == None
      ensures old(index).Some? ==> index == Some(old(index).value + [file])
    {
      if index.Some? {
        index := Some(index.value + [file]);
      }
    }

    /** `find(query, cb)`. `cbIsFunction` says whether `typeof cb` is
        `'function'`; `invocations` lists the arguments `cb` is called with. */
    method Find(query: string, cbIsFunction: bool) returns (invocations: seq<seq<SearchResult>>)
      modifies this`index
      ensures index == Step(old(index), FindCall(query))
      ensures index.Some? && (old(index).Some? ==> index == old(index))
      ensures |invocations| == if cbIsFunction then 1 else 0
      ensures forall call | call in invocations :: call == Results(engine, old(index), query)
      ensures forall call, r | call in invocations && r in call :: r.ref in Paths(index.value)
    {
      if index.None? {
        ResetIndex();
      }
      var results := engine(index.value, query);
      ResultsAreStoredPaths(engine, old(index), query);
      invocations := if cbIsFunction then [results] else [];
    }
  }
}
