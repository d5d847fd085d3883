/** The record every source produces and every snapshot stores. */
module Games {
  import opened Wrappers

  /** One game of one source's listing. `id`, `title` and `url` are written
      by every source; `developer` (Google Play), `releaseDate` (Inven,
      Naver), `reward` (Inven) and `platform` (Naver) only by some, and a
      key a source does not write is `None`. */
  datatype Game = Game(
    id: string,
    title: string,
    url: string,
    developer: Option<string>,
    releaseDate: Option<string>,
    reward: Option<string>,
    platform: Option<string>)

  /** The value of an optional key as `g.get(key)` yields it in a condition:
      an absent key reads as the empty (false) string. */
  function Text(field: Option<string>): string {
    field.GetOr("")
  }

  /** The set of ids of a listing (`{g["id"] for g in gs}`). */
  function Ids(gs: seq<Game>): set<string> {
    set g | g in gs :: g.id
  }

  lemma IdsAppend(a: seq<Game>, b: seq<Game>)
    ensures Ids(a + b) == Ids(a) + Ids(b)
  {
    assert forall g :: g in a + b <==> g in a || g in b;
  }

  lemma IdsSnoc(gs: seq<Game>, g: Game)
    ensures Ids(gs + [g]) == Ids(gs) + {g.id}
  {
    IdsAppend(gs, [g]);
    assert forall h :: h in [g] <==> h == g;
  }

  /** No two entries of the listing share an id. */
  predicate UniqueIds(gs: seq<Game>) {
    forall i, j :: 0 <= i < j < |gs| ==> gs[i].id != gs[j].id
  }

  /** `idx` picks, in increasing positions of `s`, the elements of `r`. */
  ghost predicate Embeds<T>(idx: seq<nat>, r: seq<T>, s: seq<T>) {
    && |idx| == |r|
    && (forall k :: 0 <= k < |idx| ==> idx[k] < |s| && s[idx[k]] == r[k])
    && (forall k, l :: 0 <= k < l < |idx| ==> idx[k] < idx[l])
  }

  /** An embedding into the tail of `s` is one into `s`, shifted by one
      position; the head of `s` may be taken in front of it. */
  lemma EmbedsShift<T>(idx: seq<nat>, r: seq<T>, s: seq<T>, takeHead: bool) returns (idx': seq<nat>)
    requires s != [] && Embeds(idx, r, s[1..])
    ensures Embeds(idx', if takeHead then [s[0]] + r else r, s)
  {
    var shifted := seq(|idx|, k requires 0 <= k < |idx| => idx[k] + 1);
    assert forall k :: 0 <= k < |idx| ==> s[shifted[k]] == s[1..][idx[k]];
    idx' := if takeHead then [0] + shifted else shifted;
  }

  /** `r` is `s` with some elements left out and the rest in their order. */
  ghost predicate IsSubsequence<T>(r: seq<T>, s: seq<T>) {
    exists idx :: Embeds(idx, r, s)
  }
}
