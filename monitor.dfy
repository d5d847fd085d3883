/** One run of the monitor (`main`): every source's fresh listing is compared
    with its snapshot, the new games are collected under `"<source>_new"`,
    a Slack message is sent when any source has new games, and every
    snapshot is then overwritten with the fresh listing. Fetching is not
    modelled: the fresh listings are a parameter. */
module Monitor {
  import opened Wrappers
  import opened Games
  import opened Sources
  import opened SnapshotStore
  import opened ChangeDetection
  import opened Slack

  /** What `check_source` returns for one source. */
  datatype SourceResult = SourceResult(current: seq<Game>, added: seq<Game>)

  /** `check_source`: the fresh listing together with the games in it whose
      id the stored snapshot does not hold. */
  function CheckSource(current: seq<Game>, stored: StoredFile): (result: SourceResult)
    ensures result.current == current
    ensures result.added == FindNew(current, LoadSaved(stored))
    ensures forall g :: g in result.added <==> g in current && g.id !in Ids(LoadSaved(stored))
    ensures stored.Missing? || stored.Unreadable? ==> result.added == current
  {
    var saved := LoadSaved(stored);
    FindNewAgainstNothing(current);
    forall g ensures g in FindNew(current, saved) <==> g in current && g.id !in Ids(saved) {
      FindNewExactly(current, saved, g);
    }
    SourceResult(current, FindNew(current, saved))
  }

  /** A snapshot just written for a listing reports none of that listing's
      games as new: a second run on unchanged listings finds nothing. */
  lemma SavedListingHasNothingNew(savedAt: string, current: seq<Game>)
    ensures CheckSource(current, SaveGames(savedAt, current)).added == []
  {
    FindNewAgainstItself(current);
  }

  /** The loop of `main` that collects every source's new games under
      `"<source>_new"`, in source order, and notes whether any source has
      new games. */
  method CollectChanges(sources: map<SourceKey, SourceResult>)
    returns (changes: map<string, seq<Game>>, hasChanges: bool)
    requires forall k :: k in sources
    ensures forall k :: NewKey(k) in changes && changes[NewKey(k)] == sources[k].added
    ensures forall key :: key in changes ==> exists k :: key == NewKey(k)
    ensures hasChanges <==> exists k :: sources[k].added != []
  {
    changes := map[];
    hasChanges := false;
    for i := 0 to |Order|
      invariant changes == ChangesUpTo(sources, i)
      invariant hasChanges == AnyNewUpTo(sources, i)
    {
      var k := Order[i];
      changes := changes[NewKey(k) := sources[k].added];
      if sources[k].added != [] {
        hasChanges := true;
      }
    }
    forall k ensures NewKey(k) in changes && changes[NewKey(k)] == sources[k].added {
      ChangesUpToHas(sources, |Order|, Position(k));
    }
    forall key | key in changes ensures exists k :: key == NewKey(k) {
      ChangesUpToOnly(sources, |Order|, key);
    }
    AnyNewUpToIff(sources, |Order|);
    if !hasChanges {
      forall k ensures sources[k].added == [] {
        var j := Position(k);
      }
    }
  }

  /** `changes` after the loop has visited the first n sources. */
  function ChangesUpTo(sources: map<SourceKey, SourceResult>, n: nat): map<string, seq<Game>>
    requires forall k :: k in sources
    requires n <= |Order|
  {
    if n == 0 then map[]
    else ChangesUpTo(sources, n - 1)[NewKey(Order[n - 1]) := sources[Order[n - 1]].added]
  }

  /** `has_changes` after the loop has visited the first n sources. */
  function AnyNewUpTo(sources: map<SourceKey, SourceResult>, n: nat): bool
    requires forall k :: k in sources
    requires n <= |Order|
  {
    n > 0 && (AnyNewUpTo(sources, n - 1) || sources[Order[n - 1]].added != [])
  }

  /** A visited source's new games are under its key: no later source
      overwrites them, as the keys are distinct. */
  lemma {:induction false} ChangesUpToHas(sources: map<SourceKey, SourceResult>, n: nat, j: nat)
    requires forall k :: k in sources
    requires j < n <= |Order|
    ensures NewKey(Order[j]) in ChangesUpTo(sources, n)
    ensures ChangesUpTo(sources, n)[NewKey(Order[j])] == sources[Order[j]].added
  {
    if j < n - 1 {
      ChangesUpToHas(sources, n - 1, j);
      PositionOfOrder(j);
      PositionOfOrder(n - 1);
      NewKeyInjective(Order[j], Order[n - 1]);
    }
  }

  /** Only visited sources' keys are in `changes`. */
  lemma {:induction false} ChangesUpToOnly(sources: map<SourceKey, SourceResult>, n: nat, key: string)
    requires forall k :: k in sources
    requires n <= |Order|
    requires key in ChangesUpTo(sources, n)
    ensures exists j :: 0 <= j < n && key == NewKey(Order[j])
  {
    if key != NewKey(Order[n - 1]) {
      ChangesUpToOnly(sources, n - 1, key);
    }
  }

  /** `has_changes` is set exactly when a visited source has new games. */
  lemma {:induction false} AnyNewUpToIff(sources: map<SourceKey, SourceResult>, n: nat)
    requires forall k :: k in sources
    requires n <= |Order|
    ensures AnyNewUpTo(sources, n) <==> exists j :: 0 <= j < n && sources[Order[j]].added != []
  {
    if n > 0 {
      AnyNewUpToIff(sources, n - 1);
      if sources[Order[n - 1]].added != [] {
        assert 0 <= n - 1 < n && sources[Order[n - 1]].added != [];
      }
    }
  }

  /** A fetch that returns nothing still overwrites the snapshot, so the run
      after it reports the whole listing as new again. */
  lemma EmptyFetchForgetsSnapshot(savedAt: string, current: seq<Game>)
    ensures CheckSource(current, SaveGames(savedAt, [])).added == current
  {
    FindNewAgainstNothing(current);
  }

  /** The monitor's state between runs: the webhook it reports to and the
      snapshot file of each source (a source without one reads as a
      missing file). */
  class Monitor {
    const webhookUrl: Option<string>
    var files: map<SourceKey, StoredFile>

    constructor (webhookUrl: Option<string>, files: map<SourceKey, StoredFile>)
      ensures this.webhookUrl == webhookUrl && this.files == files
    {
      this.webhookUrl := webhookUrl;
      this.files := files;
    }

    function File(k: SourceKey): StoredFile
      reads this
    {
      if k in files then files[k] else Missing
    }

    /** `load_saved` on the source's snapshot file. */
    function Saved(k: SourceKey): seq<Game>
      reads this
    {
      LoadSaved(File(k))
    }

    /** The five `save_games` calls that end `main`: every source's snapshot
        becomes the record of its fresh listing. */
    method SaveSnapshots(listings: map<SourceKey, seq<Game>>, savedAt: string)
      requires forall k :: k in listings
      modifies this
      ensures forall k :: File(k) == SaveGames(savedAt, listings[k])
    {
      files := files[GPlay := SaveGames(savedAt, listings[GPlay])];
      files := files[Inven := SaveGames(savedAt, listings[Inven])];
      files := files[Kakao := SaveGames(savedAt, listings[Kakao])];
      files := files[OneStore := SaveGames(savedAt, listings[OneStore])];
      files := files[Naver := SaveGames(savedAt, listings[Naver])];
      forall k ensures File(k) == SaveGames(savedAt, listings[k]) {
        match k
        case GPlay =>
        case Inven =>
        case Kakao =>
        case OneStore =>
        case Naver =>
      }
    }

    /** `main`, given the listing each source's fetch returned, the time the
        snapshots are written, the time shown in the message and whether the
        webhook accepts the message. `message` is the message posted, if
        any. */
    method Run(fetched: map<SourceKey, seq<Game>>, savedAt: string, checkedAt: string, delivered: bool)
      returns (changes: map<string, seq<Game>>, hasChanges: bool, message: Option<seq<Block>>)
      requires forall k :: k in fetched
      modifies this
      ensures forall k :: NewKey(k) in changes && changes[NewKey(k)] == FindNew(fetched[k], old(Saved(k)))
      ensures forall key :: key in changes ==> exists k :: key == NewKey(k)
      ensures hasChanges <==> exists k :: FindNew(fetched[k], old(Saved(k))) != []
      ensures message == if hasChanges && Text(webhookUrl) != "" then Some(Message(changes, checkedAt)) else None
      ensures forall k :: File(k) == SaveGames(savedAt, fetched[k])
      ensures forall k :: Saved(k) == fetched[k]
    {
      var sources := map k: SourceKey :: CheckSource(fetched[k], File(k));

      changes, hasChanges := CollectChanges(sources);

      message := None;
      if hasChanges {
        var _, posted := SendSlackNotification(webhookUrl, changes, checkedAt, delivered);
        message := posted;
      }

      SaveSnapshots(map k: SourceKey :: sources[k].current, savedAt);
    }
  }
}
