/** The per-source item loops of the fetchers, over the fields that the page
    driver, the HTML parser or the JSON decoder has already extracted from
    each raw element. A field is `None` when its element or attribute is
    absent, and a string field is "" when its key is absent or empty. */
module Scrapers {
  import opened Wrappers
  import opened Strings
  import opened Games
  import opened Collect

  // ---------------------------------------------------------------------
  // Google Play: the candidate list built from the collection page's links
  // ---------------------------------------------------------------------

  /** One `a[href*='/store/apps/details']` link. `appId` is the `id=`
      parameter of its href (`None` when the href is missing or has none);
      `innerText` is the link's rendered text; `imageAlt` is `None` when the
      link holds no image, otherwise the image's alt text ("" when missing). */
  datatype GPlayLink = GPlayLink(appId: Option<string>, innerText: string, imageAlt: Option<string>)

  const GPlayDetails: string := "https://play.google.com/store/apps/details?id="

  /** The first line of the link's text, stripped. */
  function GPlayTextTitle(innerText: string): string {
    var title := Strip(innerText);
    if title != "" then Strip(Before(title, '\n')) else title
  }

  /** The candidate's title: the first line of the link text when it has at
      least two characters; otherwise, when the link holds an image, its alt
      text, or the app id when the alt text is empty. */
  function GPlayTitle(appId: string, link: GPlayLink): (title: string)
    ensures |GPlayTextTitle(link.innerText)| >= 2 ==> title == GPlayTextTitle(link.innerText)
    ensures |GPlayTextTitle(link.innerText)| < 2 && link.imageAlt.None? ==> title == GPlayTextTitle(link.innerText)
    ensures |GPlayTextTitle(link.innerText)| < 2 && link.imageAlt.Some? ==>
      title == (if link.imageAlt.value != "" then link.imageAlt.value else appId)
  {
    var title := GPlayTextTitle(link.innerText);
    if title == "" || |title| < 2 then
      match link.imageAlt
      case Some(alt) => if alt != "" then alt else appId
      case None => title
    else title
  }

  /** The candidate a link yields on its own, before the `seen_ids` check:
      one with an app id and a title of at least two characters. */
  function NormalizeGPlay(link: GPlayLink): (candidate: Option<Game>)
    ensures candidate.Some? <==> link.appId.Some? && |GPlayTitle(link.appId.value, link)| >= 2
    ensures candidate.Some? ==>
      && candidate.value.id == link.appId.value
      && candidate.value.title == GPlayTitle(link.appId.value, link)
      && candidate.value.url == GPlayDetails + link.appId.value + "&hl=ko"
      && candidate.value.developer.None? && candidate.value.releaseDate.None?
      && candidate.value.reward.None? && candidate.value.platform.None?
  {
    match link.appId
    case None => None
    case Some(appId) =>
      var title := GPlayTitle(appId, link);
      if title != "" && |title| >= 2 then
        Some(Game(appId, title, GPlayDetails + appId + "&hl=ko", None, None, None, None))
      else None
  }

  /** The candidate loop of `fetch_gplay_games`: links without an app id or
      whose id was already taken are skipped, and an id is taken only by a
      link that yields a title of at least two characters. */
  method GPlayCandidates(links: seq<GPlayLink>) returns (candidates: seq<Game>)
    ensures candidates == Dedup(Kept(links, NormalizeGPlay))
    ensures UniqueIds(candidates)
    ensures forall g :: g in candidates ==>
      |g.title| >= 2 && g.url == GPlayDetails + g.id + "&hl=ko"
  {
    candidates := [];
    var seenIds: set<string> := {};
    for i := 0 to |links|
      invariant candidates == Dedup(Kept(links[..i], NormalizeGPlay))
      invariant seenIds == Ids(candidates)
    {
      GPlayStep(links, i);
      var link := links[i];
      if link.appId.Some? && link.appId.value !in seenIds {
        var appId := link.appId.value;
        var title := GPlayTitle(appId, link);
        if title != "" && |title| >= 2 {
          var g := Game(appId, title, GPlayDetails + appId + "&hl=ko", None, None, None, None);
          IdsSnoc(candidates, g);
          seenIds := seenIds + {appId};
          candidates := candidates + [g];
        }
      }
    }
    assert links[..|links|] == links;
    GPlayCandidatesShape(links);
  }

  /** What every list of candidates satisfies: unique ids, titles of at least
      two characters, and the details url of the app id. */
  lemma GPlayCandidatesShape(links: seq<GPlayLink>)
    ensures UniqueIds(Dedup(Kept(links, NormalizeGPlay)))
    ensures forall g :: g in Dedup(Kept(links, NormalizeGPlay)) ==>
      |g.title| >= 2 && g.url == GPlayDetails + g.id + "&hl=ko"
  {
    DedupUnique(Kept(links, NormalizeGPlay));
    forall g | g in Dedup(Kept(links, NormalizeGPlay))
      ensures |g.title| >= 2 && g.url == GPlayDetails + g.id + "&hl=ko"
    {
      DedupFrom(Kept(links, NormalizeGPlay), g);
      KeptFrom(links, NormalizeGPlay, g);
    }
  }

  /** One more link of the candidate loop: it adds a candidate exactly when
      it has an app id not yet taken and a title of at least two characters. */
  lemma GPlayStep(links: seq<GPlayLink>, i: nat)
    requires i < |links|
    ensures
      var before := Dedup(Kept(links[..i], NormalizeGPlay));
      var link := links[i];
      Dedup(Kept(links[..i + 1], NormalizeGPlay)) ==
        if link.appId.Some? && link.appId.value !in Ids(before) && |GPlayTitle(link.appId.value, link)| >= 2
        then before + [Game(link.appId.value, GPlayTitle(link.appId.value, link),
                            GPlayDetails + link.appId.value + "&hl=ko", None, None, None, None)]
        else before
  {
    DedupKeptStep(links, NormalizeGPlay, i);
  }

  // ---------------------------------------------------------------------
  // Inven
  // ---------------------------------------------------------------------

  /** One `li.item a[href*='/campaign/']` element. `campaignId` is the number
      after `/campaign/` in the href (`None` when the href does not match);
      `nameText`, `dayText`, `rewardText` are the stripped texts of
      `p.name`, `p.day`, `p.sreward` (`None` when absent); `imageAlt` is
      `None` without an image, else its alt text ("" when missing). */
  datatype InvenLink = InvenLink(
    href: string,
    campaignId: Option<string>,
    nameText: Option<string>,
    imageAlt: Option<string>,
    dayText: Option<string>,
    rewardText: Option<string>)

  const InvenSite: string := "https://pick.inven.co.kr"

  /** A site-relative href is made absolute on the Inven site; any other
      href is kept as it is. */
  function InvenUrl(href: string): (url: string)
    ensures StartsWith(href, "/") ==> StartsWith(url, InvenSite) && url[|InvenSite|..] == href
    ensures !StartsWith(href, "/") ==> url == href
  {
    if StartsWith(href, "/") then InvenSite + href else href
  }

  /** The game of one campaign link: it needs a campaign id and a title,
      which is the name text or, failing that, the image's alt text. */
  function NormalizeInven(link: InvenLink): (game: Option<Game>)
    ensures game.Some? <==> link.campaignId.Some? && (Text(link.nameText) != "" || Text(link.imageAlt) != "")
    ensures game.Some? ==>
      && game.value.id == link.campaignId.value
      && game.value.title == (if Text(link.nameText) != "" then Text(link.nameText) else Text(link.imageAlt))
      && game.value.url == InvenUrl(link.href)
      && game.value.releaseDate == Some(Text(link.dayText))
      && game.value.reward == Some(Text(link.rewardText))
      && game.value.developer.None? && game.value.platform.None?
  {
    match link.campaignId
    case None => None
    case Some(campaignId) =>
      var url := InvenUrl(link.href);
      var title := if Text(link.nameText) != "" then Text(link.nameText) else Text(link.imageAlt);
      if title == "" then None
      else Some(Game(campaignId, title, url, None, Some(Text(link.dayText)), Some(Text(link.rewardText)), None))
  }

  /** The item loop of `fetch_inven_games`. */
  method FetchInvenGames(links: seq<InvenLink>) returns (games: seq<Game>)
    ensures games == Kept(links, NormalizeInven)
    ensures forall g :: g in games ==> g.title != "" && g.releaseDate.Some? && g.reward.Some?
    ensures forall i :: 0 <= i < |links| && NormalizeInven(links[i]).Some? ==>
      NormalizeInven(links[i]).value in games
  {
    games := CollectGames(links, NormalizeInven);
    forall g | g in games ensures g.title != "" && g.releaseDate.Some? && g.reward.Some? {
      KeptFrom(links, NormalizeInven, g);
    }
    forall i | 0 <= i < |links| && NormalizeInven(links[i]).Some?
      ensures NormalizeInven(links[i]).value in games
    {
      KeptComplete(links, NormalizeInven, i);
    }
  }

  // ---------------------------------------------------------------------
  // Kakao Games
  // ---------------------------------------------------------------------

  /** The `a` element of one `li.js-ar-item, li.js-pr-item` item: its href
      ("" when missing), the `data-app-master-id`, `data-id`,
      `data-pregname` and `aria-label` attributes, and `arId`, the word after
      `/ar/` in the href (`None` when there is none). */
  datatype KakaoLink = KakaoLink(
    href: string,
    appMasterId: Option<string>,
    dataId: Option<string>,
    arId: Option<string>,
    pregName: Option<string>,
    ariaLabel: Option<string>)

  /** One list item: its first link (`None` without one) and the stripped
      text of its name element (`None` when it has none). */
  datatype KakaoItem = KakaoItem(link: Option<KakaoLink>, nameText: Option<string>)

  const KakaoSite: string := "https://game.kakao.com"

  /** The game id: `data-app-master-id`, else `data-id`, else the `/ar/` id,
      the first of them that is non-empty. */
  function KakaoId(link: KakaoLink): (id: string)
    ensures Text(link.appMasterId) != "" ==> id == Text(link.appMasterId)
    ensures Text(link.appMasterId) == "" && Text(link.dataId) != "" ==> id == Text(link.dataId)
    ensures Text(link.appMasterId) == "" && Text(link.dataId) == "" ==> id == Text(link.arId)
  {
    var id := if Text(link.appMasterId) != "" then Text(link.appMasterId)
              else if Text(link.dataId) != "" then Text(link.dataId)
              else "";
    if id == "" then Text(link.arId) else id
  }

  /** The title: the name text, else `data-pregname`, else the first
      space-separated word of `aria-label`. */
  function KakaoTitle(item: KakaoItem, link: KakaoLink): (title: string)
    ensures Text(item.nameText) != "" ==> title == Text(item.nameText)
    ensures Text(item.nameText) == "" && Text(link.pregName) != "" ==> title == Text(link.pregName)
    ensures Text(item.nameText) == "" && Text(link.pregName) == "" ==>
      title == Before(Text(link.ariaLabel), ' ')
  {
    var title := Text(item.nameText);
    if title != "" then title
    else if Text(link.pregName) != "" then Text(link.pregName)
    else Before(Text(link.ariaLabel), ' ')
  }

  /** Hrefs that do not start with "http" are prefixed with the Kakao Games
      site. */
  function KakaoUrl(href: string): (url: string)
    ensures StartsWith(url, "http")
    ensures StartsWith(href, "http") ==> url == href
    ensures !StartsWith(href, "http") ==> url == KakaoSite + href
  {
    if StartsWith(href, "http") then href
    else
      assert (KakaoSite + href)[..4] == KakaoSite[..4];
      KakaoSite + href
  }

  /** The game of one item: it needs a link, a non-empty id and a non-empty
      title. */
  function NormalizeKakao(item: KakaoItem): (game: Option<Game>)
    ensures game.Some? <==>
      item.link.Some? && KakaoId(item.link.value) != "" && KakaoTitle(item, item.link.value) != ""
    ensures game.Some? ==>
      && game.value.id == KakaoId(item.link.value)
      && game.value.title == KakaoTitle(item, item.link.value)
      && game.value.url == KakaoUrl(item.link.value.href)
      && game.value.developer.None? && game.value.releaseDate.None?
      && game.value.reward.None? && game.value.platform.None?
  {
    match item.link
    case None => None
    case Some(link) =>
      var id := KakaoId(link);
      if id == "" then None
      else
        var title := KakaoTitle(item, link);
        if title == "" then None
        else Some(Game(id, title, KakaoUrl(link.href), None, None, None, None))
  }

  /** The item loop of `fetch_kakao_games`. */
  method FetchKakaoGames(items: seq<KakaoItem>) returns (games: seq<Game>)
    ensures games == Kept(items, NormalizeKakao)
    ensures forall g :: g in games ==> g.id != "" && g.title != "" && StartsWith(g.url, "http")
    ensures forall i :: 0 <= i < |items| && NormalizeKakao(items[i]).Some? ==>
      NormalizeKakao(items[i]).value in games
  {
    games := CollectGames(items, NormalizeKakao);
    forall g | g in games ensures g.id != "" && g.title != "" && StartsWith(g.url, "http") {
      KeptFrom(items, NormalizeKakao, g);
    }
    forall i | 0 <= i < |items| && NormalizeKakao(items[i]).Some?
      ensures NormalizeKakao(items[i]).value in games
    {
      KeptComplete(items, NormalizeKakao, i);
    }
  }

  // ---------------------------------------------------------------------
  // ONE store
  // ---------------------------------------------------------------------

  const OneStoreEvent: string := "https://m.onestore.co.kr/v2/ko-kr/event/preregistrations"

  /** The game of one `(prodId, prodName)` pair found in the page data. */
  function OneStoreGame(prodId: string, prodName: string): Game {
    Game(prodId, prodName, OneStoreEvent + "/" + prodId, None, None, None, None)
  }

  /** The games of all pairs, duplicates included. */
  function OneStoreListing(matches: seq<(string, string)>): (games: seq<Game>)
    ensures |games| == |matches|
    ensures forall i :: 0 <= i < |matches| ==> games[i] == OneStoreGame(matches[i].0, matches[i].1)
  {
    seq(|matches|, i requires 0 <= i < |matches| => OneStoreGame(matches[i].0, matches[i].1))
  }

  /** The pair loop of `fetch_onestore_games`: the first pair of each product
      id becomes a game, in order; every product id is listed once. */
  method OneStoreGames(matches: seq<(string, string)>) returns (games: seq<Game>)
    ensures games == Dedup(OneStoreListing(matches))
    ensures UniqueIds(games)
    ensures forall i :: 0 <= i < |matches| ==> matches[i].0 in Ids(games)
    ensures forall g :: g in games ==> exists i :: 0 <= i < |matches| && g == OneStoreGame(matches[i].0, matches[i].1)
  {
    games := [];
    var seenIds: set<string> := {};
    for i := 0 to |matches|
      invariant games == Dedup(OneStoreListing(matches[..i]))
      invariant seenIds == Ids(games)
    {
      var (prodId, prodName) := matches[i];
      var g := OneStoreGame(prodId, prodName);
      assert OneStoreListing(matches[..i + 1]) == OneStoreListing(matches[..i]) + [g];
      DedupStep(OneStoreListing(matches[..i]), g);
      if prodId !in seenIds {
        IdsSnoc(games, g);
        seenIds := seenIds + {prodId};
        games := games + [g];
      }
    }
    assert matches[..|matches|] == matches;
    DedupUnique(OneStoreListing(matches));
    forall i | 0 <= i < |matches| ensures matches[i].0 in Ids(games) {
      OneStoreListingHas(matches, i);
    }
    forall g | g in games
      ensures exists i :: 0 <= i < |matches| && g == OneStoreGame(matches[i].0, matches[i].1)
    {
      DedupFrom(OneStoreListing(matches), g);
      OneStoreListingFrom(matches, g);
    }
  }

  lemma OneStoreListingHas(matches: seq<(string, string)>, i: nat)
    requires i < |matches|
    ensures matches[i].0 in Ids(OneStoreListing(matches))
  {
    var all := OneStoreListing(matches);
    assert all[i] in all;
  }

  lemma OneStoreListingFrom(matches: seq<(string, string)>, g: Game)
    requires g in OneStoreListing(matches)
    ensures exists i :: 0 <= i < |matches| && g == OneStoreGame(matches[i].0, matches[i].1)
  {
    var all := OneStoreListing(matches);
    var i :| 0 <= i < |all| && all[i] == g;
  }

  // ---------------------------------------------------------------------
  // Naver Game
  // ---------------------------------------------------------------------

  /** One entry of the API's `launchGameList`; a string is "" when its key is
      absent. */
  datatype NaverItem = NaverItem(
    gameId: string,
    gameName: string,
    landingUrl: string,
    releaseType: string,
    schedule: string,
    platform: string)

  const NaverSite: string := "https://game.naver.com"

  /** A non-empty landing url that does not start with "http" is prefixed
      with the Naver Game site; an empty one stays empty. */
  function NaverUrl(landingUrl: string): (url: string)
    ensures url == "" <==> landingUrl == ""
    ensures url == "" || StartsWith(url, "http")
    ensures StartsWith(landingUrl, "http") ==> url == landingUrl
    ensures landingUrl != "" && !StartsWith(landingUrl, "http") ==> url == NaverSite + landingUrl
  {
    if landingUrl != "" && !StartsWith(landingUrl, "http") then
      assert (NaverSite + landingUrl)[..4] == NaverSite[..4];
      NaverSite + landingUrl
    else landingUrl
  }

  /** The release date shown for a game: empty without a schedule; the
      schedule, followed by a space and the release type when there is one. */
  function ReleaseInfo(releaseType: string, schedule: string): (info: string)
    ensures info == "" <==> schedule == ""
    ensures StartsWith(info, schedule)
    ensures schedule != "" && releaseType != "" ==> info[|schedule|..] == " " + releaseType
    ensures schedule != "" && releaseType == "" ==> info == schedule
  {
    if releaseType != "" && schedule != "" then schedule + " " + releaseType
    else if schedule != "" then schedule
    else ""
  }

  /** The game of one API entry: entries without an id or a name are
      dropped. */
  function NormalizeNaver(item: NaverItem): (game: Option<Game>)
    ensures game.None? <==> item.gameId == "" || item.gameName == ""
    ensures game.Some? ==>
      && game.value.id == item.gameId
      && game.value.title == item.gameName
      && game.value.url == NaverUrl(item.landingUrl)
      && game.value.releaseDate == Some(ReleaseInfo(item.releaseType, item.schedule))
      && game.value.platform == Some(item.platform)
      && game.value.developer.None? && game.value.reward.None?
  {
    if item.gameId == "" || item.gameName == "" then None
    else
      Some(Game(item.gameId, item.gameName, NaverUrl(item.landingUrl), None,
                Some(ReleaseInfo(item.releaseType, item.schedule)), None, Some(item.platform)))
  }

  /** The item loop of `fetch_naver_games`. */
  method FetchNaverGames(items: seq<NaverItem>) returns (games: seq<Game>)
    ensures games == Kept(items, NormalizeNaver)
    ensures forall g :: g in games ==> g.id != "" && g.title != "" && (g.url == "" || StartsWith(g.url, "http"))
    ensures forall i :: 0 <= i < |items| && items[i].gameId != "" && items[i].gameName != "" ==>
      NormalizeNaver(items[i]).value in games
  {
    games := CollectGames(items, NormalizeNaver);
    forall g | g in games ensures g.id != "" && g.title != "" && (g.url == "" || StartsWith(g.url, "http")) {
      KeptFrom(items, NormalizeNaver, g);
    }
    forall i | 0 <= i < |items| && items[i].gameId != "" && items[i].gameName != ""
      ensures NormalizeNaver(items[i]).value in games
    {
      KeptComplete(items, NormalizeNaver, i);
    }
  }
}
