/** The shape shared by the fetchers' item loops: turn each raw item into a
    game or drop it, in input order; and, for the fetchers that keep a
    `seen_ids` set, keep only the first game with each id. */
module Collect {
  import opened Wrappers
  import opened Games

  /** The games that `normalize` makes of `items`, in item order; items it
      rejects are dropped. */
  function Kept<T>(items: seq<T>, normalize: T -> Option<Game>): (games: seq<Game>)
    ensures |games| <= |items|
  {
    if items == [] then []
    else
      var init := Kept(items[..|items| - 1], normalize);
      match normalize(items[|items| - 1])
      case Some(g) => init + [g]
      case None => init
  }

  /** Every game comes from an item. */
  lemma {:induction false} KeptFrom<T>(items: seq<T>, normalize: T -> Option<Game>, g: Game)
    requires g in Kept(items, normalize)
    ensures exists x :: x in items && normalize(x) == Some(g)
  {
    var init := items[..|items| - 1];
    if g in Kept(init, normalize) {
      KeptFrom(init, normalize, g);
      var x :| x in init && normalize(x) == Some(g);
      assert x in items;
    } else {
      assert normalize(items[|items| - 1]) == Some(g);
    }
  }

  /** Every item that normalizes to a game contributes that game. */
  lemma {:induction false} KeptComplete<T>(items: seq<T>, normalize: T -> Option<Game>, i: nat)
    requires i < |items| && normalize(items[i]).Some?
    ensures normalize(items[i]).value in Kept(items, normalize)
  {
    if i < |items| - 1 {
      KeptComplete(items[..|items| - 1], normalize, i);
    }
  }

  /** Normalizing is done item by item: the games of a concatenation are the
      games of each part, in order. */
  lemma {:induction false} KeptAppend<T>(a: seq<T>, b: seq<T>, normalize: T -> Option<Game>)
    ensures Kept(a + b, normalize) == Kept(a, normalize) + Kept(b, normalize)
  {
    if b == [] {
      assert a + b == a;
    } else {
      KeptAppend(a, b[..|b| - 1], normalize);
      assert (a + b)[..|a + b| - 1] == a + b[..|b| - 1];
    }
  }

  /** One more item, unfolded. */
  lemma KeptStep<T>(items: seq<T>, normalize: T -> Option<Game>, i: nat)
    requires i < |items|
    ensures Kept(items[..i + 1], normalize) ==
      Kept(items[..i], normalize) + (if normalize(items[i]).Some? then [normalize(items[i]).value] else [])
  {
    assert items[..i + 1][..i] == items[..i];
  }

  /** One more game, unfolded. */
  lemma DedupStep(gs: seq<Game>, g: Game)
    ensures Dedup(gs + [g]) == if g.id in Ids(Dedup(gs)) then Dedup(gs) else Dedup(gs) + [g]
  {
    assert (gs + [g])[..|gs|] == gs;
  }

  /** One more item of a loop that keeps the first game of each id. */
  lemma DedupKeptStep<T>(items: seq<T>, normalize: T -> Option<Game>, i: nat)
    requires i < |items|
    ensures
      var before := Dedup(Kept(items[..i], normalize));
      var next := normalize(items[i]);
      Dedup(Kept(items[..i + 1], normalize)) ==
        if next.Some? && next.value.id !in Ids(before) then before + [next.value] else before
  {
    KeptStep(items, normalize, i);
    match normalize(items[i]) {
      case Some(g) => DedupStep(Kept(items[..i], normalize), g);
      case None => assert Kept(items[..i + 1], normalize) == Kept(items[..i], normalize);
    }
  }

  /** The loop `for item in items: ... games.append(game)`. */
  method CollectGames<T>(items: seq<T>, normalize: T -> Option<Game>) returns (games: seq<Game>)
    ensures games == Kept(items, normalize)
  {
    games := [];
    for i := 0 to |items|
      invariant games == Kept(items[..i], normalize)
    {
      KeptStep(items, normalize, i);
      match normalize(items[i]) {
        case Some(g) => games := games + [g];
        case None =>
      }
    }
    assert items[..|items|] == items;
  }

  /** A listing with only the first game of each id, in order: the
      game is appended unless its id is already among the kept ones. */
  function Dedup(gs: seq<Game>): (kept: seq<Game>)
    ensures Ids(kept) == Ids(gs)
  {
    if gs == [] then []
    else
      var init := Dedup(gs[..|gs| - 1]);
      var g := gs[|gs| - 1];
      IdsAppend(gs[..|gs| - 1], [g]);
      assert gs == gs[..|gs| - 1] + [g];
      if g.id in Ids(init) then init
      else
        IdsAppend(init, [g]);
        init + [g]
  }

  /** Dedup leaves no two games with the same id. */
  lemma {:induction false} DedupUnique(gs: seq<Game>)
    ensures UniqueIds(Dedup(gs))
  {
    if gs != [] {
      var init := gs[..|gs| - 1];
      var g := gs[|gs| - 1];
      DedupUnique(init);
      assert gs == init + [g];
      DedupStep(init, g);
      var before := Dedup(init);
      assert forall i :: 0 <= i < |before| ==> before[i].id in Ids(before);
    }
  }

  /** Dedup only drops games. */
  lemma {:induction false} DedupFrom(gs: seq<Game>, g: Game)
    requires g in Dedup(gs)
    ensures g in gs
  {
    var init := gs[..|gs| - 1];
    assert gs == init + [gs[|gs| - 1]];
    DedupStep(init, gs[|gs| - 1]);
    if g in Dedup(init) {
      DedupFrom(init, g);
    }
  }

  /** Whether the game at position i is the first of its id. */
  predicate FirstOfId(gs: seq<Game>, i: nat)
    requires i < |gs|
  {
    gs[i].id !in Ids(gs[..i])
  }

  /** Dedup keeps exactly the first game of each id. */
  lemma {:induction false} DedupKeepsFirst(gs: seq<Game>, g: Game)
    ensures g in Dedup(gs) <==> exists i :: 0 <= i < |gs| && gs[i] == g && FirstOfId(gs, i)
  {
    if gs != [] {
      var init := gs[..|gs| - 1];
      DedupKeepsFirst(init, g);
      forall i | 0 <= i < |init|
        ensures gs[i] == init[i] && gs[..i] == init[..i]
      {}
      if g in Dedup(gs) && g !in Dedup(init) {
        assert FirstOfId(gs, |gs| - 1);
      }
      if i :| 0 <= i < |gs| && gs[i] == g && FirstOfId(gs, i) {
        if i == |gs| - 1 {
          assert gs[..i] == init;
        } else {
          assert FirstOfId(init, i);
        }
      }
    }
  }

  /** Dedup keeps the relative order of the games it keeps. */
  lemma {:induction false} DedupIsSubsequence(gs: seq<Game>) returns (idx: seq<nat>)
    ensures Embeds(idx, Dedup(gs), gs)
  {
    if gs == [] {
      idx := [];
    } else {
      var init := gs[..|gs| - 1];
      var rest := DedupIsSubsequence(init);
      if gs[|gs| - 1].id in Ids(Dedup(init)) {
        idx := rest;
      } else {
        idx := rest + [|gs| - 1];
      }
    }
  }

  /** The kept games are a subsequence of the input. */
  lemma DedupKeepsOrder(gs: seq<Game>)
    ensures IsSubsequence(Dedup(gs), gs)
  {
    var idx := DedupIsSubsequence(gs);
  }

  /** A listing whose ids are already unique is left as it is; in particular
      Dedup is idempotent. */
  lemma {:induction false} DedupOfUnique(gs: seq<Game>)
    requires UniqueIds(gs)
    ensures Dedup(gs) == gs
  {
    if gs != [] {
      var init := gs[..|gs| - 1];
      DedupOfUnique(init);
      var g := gs[|gs| - 1];
      assert gs == init + [g];
    }
  }
}
