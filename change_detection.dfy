/** Change detection: which games of a source's current listing were not in
    its saved snapshot. Games are compared by id only; a game whose title or
    url changed under the same id is not new. Nothing reports games that
    disappeared from a listing. */
module ChangeDetection {
  import opened Games

  /** `find_new(current, saved)`: the games of `current`, in their order,
      whose id is not among the ids of `saved`. */
  function FindNew(current: seq<Game>, saved: seq<Game>): (added: seq<Game>)
    ensures |added| <= |current|
  {
    if current == [] then []
    else (if current[0].id in Ids(saved) then [] else [current[0]]) + FindNew(current[1..], saved)
  }

  /** A game is reported as new exactly when it is in the current listing and
      its id is not in the snapshot. */
  lemma {:induction false} FindNewExactly(current: seq<Game>, saved: seq<Game>, g: Game)
    ensures g in FindNew(current, saved) <==> g in current && g.id !in Ids(saved)
  {
    if current != [] {
      FindNewExactly(current[1..], saved, g);
      assert current == [current[0]] + current[1..];
    }
  }

  /** Listings are diffed piecewise: the new games of a concatenation are the
      new games of each part, in the order of the parts. With the one-game
      case this fixes the order of the result to that of `current`. */
  lemma {:induction false} FindNewAppend(a: seq<Game>, b: seq<Game>, saved: seq<Game>)
    ensures FindNew(a + b, saved) == FindNew(a, saved) + FindNew(b, saved)
  {
    if a != [] {
      FindNewAppend(a[1..], b, saved);
      assert (a + b)[1..] == a[1..] + b;
    } else {
      assert a + b == b;
    }
  }

  /** The new games keep their relative order in the current listing. */
  lemma {:induction false} FindNewIsSubsequence(current: seq<Game>, saved: seq<Game>)
    returns (idx: seq<nat>)
    ensures Embeds(idx, FindNew(current, saved), current)
  {
    if current == [] {
      idx := [];
    } else {
      var rest := FindNewIsSubsequence(current[1..], saved);
      var r := FindNew(current[1..], saved);
      var taken := current[0].id !in Ids(saved);
      assert FindNew(current, saved) == if taken then [current[0]] + r else r;
      idx := EmbedsShift(rest, r, current, taken);
    }
  }

  /** The new games are a subsequence of the current listing. */
  lemma FindNewKeepsOrder(current: seq<Game>, saved: seq<Game>)
    ensures IsSubsequence(FindNew(current, saved), current)
  {
    var idx := FindNewIsSubsequence(current, saved);
  }

  /** On a first run (no snapshot) every current game is new. */
  lemma {:induction false} FindNewAgainstNothing(current: seq<Game>)
    ensures FindNew(current, []) == current
  {
    if current != [] {
      FindNewAgainstNothing(current[1..]);
      assert current == [current[0]] + current[1..];
    }
  }

  /** Re-checking an unchanged listing against itself reports nothing. */
  lemma FindNewAgainstItself(current: seq<Game>)
    ensures FindNew(current, current) == []
  {
    FindNewEmptyIff(current, current);
  }

  /** Nothing is new exactly when every current id is already saved. */
  lemma FindNewEmptyIff(current: seq<Game>, saved: seq<Game>)
    ensures FindNew(current, saved) == [] <==> Ids(current) <= Ids(saved)
  {
    if FindNew(current, saved) == [] {
      forall id | id in Ids(current) ensures id in Ids(saved) {
        var g :| g in current && g.id == id;
        FindNewExactly(current, saved, g);
      }
    } else {
      var g := FindNew(current, saved)[0];
      FindNewExactly(current, saved, g);
      assert g.id in Ids(current) && g.id !in Ids(saved);
    }
  }

  /** The ids reported as new are the current ids minus the saved ids. */
  lemma FindNewIds(current: seq<Game>, saved: seq<Game>)
    ensures Ids(FindNew(current, saved)) == Ids(current) - Ids(saved)
  {
    forall g | g in FindNew(current, saved) ensures g in current && g.id !in Ids(saved) {
      FindNewExactly(current, saved, g);
    }
    forall id | id in Ids(current) - Ids(saved) ensures id in Ids(FindNew(current, saved)) {
      var g :| g in current && g.id == id;
      FindNewExactly(current, saved, g);
    }
  }

  /** Only the snapshot's ids matter: two snapshots with the same ids (titles,
      urls or order aside) report the same new games. */
  lemma {:induction false} FindNewOnlyIdsMatter(current: seq<Game>, saved1: seq<Game>, saved2: seq<Game>)
    requires Ids(saved1) == Ids(saved2)
    ensures FindNew(current, saved1) == FindNew(current, saved2)
  {
    if current != [] {
      FindNewOnlyIdsMatter(current[1..], saved1, saved2);
    }
  }

  /** Filtering the new games against the same snapshot again changes nothing. */
  lemma {:induction false} FindNewIdempotent(current: seq<Game>, saved: seq<Game>)
    ensures FindNew(FindNew(current, saved), saved) == FindNew(current, saved)
  {
    if current != [] {
      FindNewIdempotent(current[1..], saved);
      var head := if current[0].id in Ids(saved) then [] else [current[0]];
      FindNewAppend(head, FindNew(current[1..], saved), saved);
      if head != [] {
        assert FindNew(head, saved) == head by {
          assert head[1..] == [];
        }
      }
    }
  }
}
