/** The five polled catalogs, in the fixed order in which the monitor
    checks them, reports them and saves their snapshots. */
module Sources {

  datatype SourceKey = GPlay | Inven | Kakao | OneStore | Naver

  /** The key of the source in the `sources` and `changes` dictionaries. */
  function Name(k: SourceKey): string {
    match k
    case GPlay => "gplay"
    case Inven => "inven"
    case Kakao => "kakao"
    case OneStore => "onestore"
    case Naver => "naver"
  }

  const Order: seq<SourceKey> := [GPlay, Inven, Kakao, OneStore, Naver]

  /** The position of a source in `Order`. */
  function Position(k: SourceKey): (i: nat)
    ensures i < |Order| && Order[i] == k
  {
    match k
    case GPlay => 0
    case Inven => 1
    case Kakao => 2
    case OneStore => 3
    case Naver => 4
  }

  /** `Position` inverts indexing into `Order`, so `Order` lists every
      source once. */
  lemma PositionOfOrder(i: nat)
    requires i < |Order|
    ensures Position(Order[i]) == i
  {
  }

  /** The key `f"{key}_new"` under which a source's new games are reported. */
  function NewKey(k: SourceKey): string {
    Name(k) + "_new"
  }

  /** Distinct sources report under distinct keys of `changes`. */
  lemma NewKeyInjective(a: SourceKey, b: SourceKey)
    ensures NewKey(a) == NewKey(b) <==> a == b
  {
    if NewKey(a) == NewKey(b) {
      assert NewKey(a)[0] == Name(a)[0] && NewKey(b)[0] == Name(b)[0];
    }
  }
}
