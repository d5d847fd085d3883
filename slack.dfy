/** The Slack message: the blocks `_add_source_blocks` appends per source
    and the whole list `send_slack_notification` assembles. The webhook POST
    itself is not modelled; its outcome is a parameter. */
module Slack {
  import opened Wrappers
  import opened Strings
  import opened Games
  import opened Sources

  /** One block of the message: a divider, a header (plain text, emoji
      enabled), a section (markdown text) or a context line (one markdown
      element). */
  datatype Block =
    | Divider
    | Header(text: string)
    | Section(text: string)
    | Context(text: string)

  /** The suffix of a game's line: " | " before each of the developer and the
      release date that is non-empty, in that order. */
  function ExtraSuffix(g: Game): (extra: string)
    ensures Text(g.developer) == "" && Text(g.releaseDate) == "" ==> extra == ""
    ensures Text(g.developer) != "" && Text(g.releaseDate) == "" ==> extra == " | " + Text(g.developer)
    ensures Text(g.developer) == "" && Text(g.releaseDate) != "" ==> extra == " | " + Text(g.releaseDate)
    ensures Text(g.developer) != "" && Text(g.releaseDate) != "" ==>
      extra == " | " + Text(g.developer) + " | " + Text(g.releaseDate)
  {
    var parts := (if Text(g.developer) != "" then [Text(g.developer)] else [])
               + (if Text(g.releaseDate) != "" then [Text(g.releaseDate)] else []);
    assert |parts| == 2 ==> Join(parts, " | ") == parts[0] + " | " + parts[1];
    if parts == [] then "" else " | " + Join(parts, " | ")
  }

  /** A game's line: a bullet, a link to its url labelled with its title, and
      the suffix. */
  function GameLine(g: Game): string {
    Join(["• <", g.url, "|", g.title, ">", ExtraSuffix(g)], "")
  }

  function HeaderText(emoji: string, header: string): string {
    emoji + " " + header
  }

  /** The count line above a source's games. */
  function CountText(n: nat): string {
    "*🆕 신규 (" + Decimal(n) + "개)*"
  }

  /** One section per game, in the games' order. */
  function GameLines(games: seq<Game>): (lines: seq<Block>)
    ensures |lines| == |games|
  {
    if games == [] then []
    else GameLines(games[..|games| - 1]) + [Section(GameLine(games[|games| - 1]))]
  }

  /** The game lines hold one line per game, the i-th game's line at i. */
  lemma {:induction false} GameLinesAt(games: seq<Game>)
    ensures forall i :: 0 <= i < |games| ==> GameLines(games)[i] == Section(GameLine(games[i]))
  {
    if games != [] {
      var init := games[..|games| - 1];
      GameLinesAt(init);
      forall i | 0 <= i < |init| ensures GameLines(games)[i] == Section(GameLine(games[i])) {
        assert init[i] == games[i];
      }
    }
  }

  /** A source's part of the message: header, divider, count, one line per
      game. */
  function SourceBlocks(header: string, emoji: string, games: seq<Game>): seq<Block> {
    [Header(HeaderText(emoji, header)), Divider, Section(CountText(|games|))] + GameLines(games)
  }

  /** The block list after `_add_source_blocks`: unchanged for no games;
      otherwise the source's part, after a divider when the list already
      holds an earlier source's part. */
  function WithSource(blocks: seq<Block>, header: string, emoji: string, games: seq<Game>): seq<Block> {
    if games == [] then blocks
    else blocks + (if blocks != [] then [Divider] else []) + SourceBlocks(header, emoji, games)
  }

  /** `_add_source_blocks(blocks, header, emoji, new)`: appends to the list
      (passed in and returned here, as the list is local to its one caller). */
  method AddSourceBlocks(blocks: seq<Block>, header: string, emoji: string, games: seq<Game>)
    returns (out: seq<Block>)
    ensures out == WithSource(blocks, header, emoji, games)
  {
    if games == [] {
      return blocks;
    }
    ghost var front := blocks + (if blocks != [] then [Divider] else []);
    out := blocks;
    if out != [] {
      out := out + [Divider];
    }
    out := out + [Header(HeaderText(emoji, header))];
    out := out + [Divider];
    out := out + [Section(CountText(|games|))];
    AppendThree(front, Header(HeaderText(emoji, header)), Divider, Section(CountText(|games|)));
    AppendAssociates(front, [Header(HeaderText(emoji, header)), Divider, Section(CountText(|games|))], GameLines(games));
    out := AppendGameLines(out, games);
  }

  lemma AppendThree<T>(a: seq<T>, x: T, y: T, z: T)
    ensures a + [x] + [y] + [z] == a + [x, y, z]
  {
  }

  lemma AppendAssociates<T>(a: seq<T>, b: seq<T>, c: seq<T>)
    ensures (a + b) + c == a + (b + c)
  {
  }

  /** The loop of `_add_source_blocks` that appends one line per game. */
  method AppendGameLines(blocks: seq<Block>, games: seq<Game>) returns (out: seq<Block>)
    ensures out == blocks + GameLines(games)
  {
    out := blocks;
    for i := 0 to |games|
      invariant out == blocks + GameLines(games[..i])
    {
      GameLinesSnoc(games, i);
      out := out + [Section(GameLine(games[i]))];
    }
    assert games[..|games|] == games;
  }

  lemma GameLinesSnoc(games: seq<Game>, i: nat)
    requires i < |games|
    ensures GameLines(games[..i + 1]) == GameLines(games[..i]) + [Section(GameLine(games[i]))]
  {
    assert games[..i + 1][..i] == games[..i];
  }

  /** What `WithSource` keeps: the list is unchanged for no games; otherwise
      the earlier blocks stay in front, followed by a divider only when
      there were any, and the source adds three blocks and one per game. */
  lemma WithSourceShape(blocks: seq<Block>, header: string, emoji: string, games: seq<Game>)
    ensures games == [] ==> WithSource(blocks, header, emoji, games) == blocks
    ensures games != [] ==>
      var out := WithSource(blocks, header, emoji, games);
      && |out| == |blocks| + (if blocks == [] then 0 else 1) + 3 + |games|
      && out[..|blocks|] == blocks
      && (blocks != [] ==> out[|blocks|] == Divider)
  {
    if games != [] {
      var sep: seq<Block> := if blocks != [] then [Divider] else [];
      var out := WithSource(blocks, header, emoji, games);
      assert out == (blocks + sep) + SourceBlocks(header, emoji, games);
      assert (blocks + sep)[..|blocks|] == blocks;
    }
  }

  /** What `WithSource` appends for a source with games, before its game
      lines: its header, a divider and the count of its games. */
  lemma WithSourceTop(blocks: seq<Block>, header: string, emoji: string, games: seq<Game>)
    requires games != []
    ensures
      var out := WithSource(blocks, header, emoji, games);
      && |out| >= |games| + 3
      && out[|out| - |games| - 3] == Header(HeaderText(emoji, header))
      && out[|out| - |games| - 2] == Divider
      && out[|out| - |games| - 1] == Section(CountText(|games|))
  {
    var sep: seq<Block> := if blocks != [] then [Divider] else [];
    TailOfAppend(blocks + sep, SourceBlocks(header, emoji, games),
      Header(HeaderText(emoji, header)), Divider, Section(CountText(|games|)), GameLines(games));
  }

  /** A source with games ends the list with its game lines, one per game in
      the games' order. */
  lemma WithSourceTail(blocks: seq<Block>, header: string, emoji: string, games: seq<Game>)
    requires games != []
    ensures
      var out := WithSource(blocks, header, emoji, games);
      && |out| >= |games| + 3
      && out[|out| - |games|..] == GameLines(games)
  {
    var sep: seq<Block> := if blocks != [] then [Divider] else [];
    TailOfAppend(blocks + sep, SourceBlocks(header, emoji, games),
      Header(HeaderText(emoji, header)), Divider, Section(CountText(|games|)), GameLines(games));
  }

  /** Where the parts of `part == [x, y, z] + tail` sit in `front + part`. */
  lemma TailOfAppend<T>(front: seq<T>, part: seq<T>, x: T, y: T, z: T, tail: seq<T>)
    requires part == [x, y, z] + tail
    ensures var out := front + part;
      && |out| == |front| + 3 + |tail|
      && out[|out| - |tail| - 3] == x
      && out[|out| - |tail| - 2] == y
      && out[|out| - |tail| - 1] == z
      && out[|out| - |tail|..] == tail
  {
    var out := front + part;
    assert out[|front| + 3..] == tail;
  }

  /** The headers `WithSource` adds: the source's own, only when it has
      games. */
  lemma HeaderTextsWithSource(blocks: seq<Block>, header: string, emoji: string, games: seq<Game>)
    ensures HeaderTexts(WithSource(blocks, header, emoji, games))
         == HeaderTexts(blocks) + (if games != [] then [HeaderText(emoji, header)] else [])
  {
    if games != [] {
      var sep: seq<Block> := if blocks != [] then [Divider] else [];
      SourceBlocksHeaders(header, emoji, games);
      SeparatorHasNoHeader(blocks, sep);
      HeaderTextsAppend(blocks + sep, SourceBlocks(header, emoji, games));
    }
  }

  /** A source's part of the message has one header, its own. */
  lemma SourceBlocksHeaders(header: string, emoji: string, games: seq<Game>)
    ensures HeaderTexts(SourceBlocks(header, emoji, games)) == [HeaderText(emoji, header)]
  {
    var lines := GameLines(games);
    var count := Section(CountText(|games|));
    var head := Header(HeaderText(emoji, header));
    assert SourceBlocks(header, emoji, games) == [head] + ([Divider] + ([count] + lines));
    GameLinesAt(games);
    NoHeaders(lines);
    HeaderTextsCons(count, lines);
    HeaderTextsCons(Divider, [count] + lines);
    HeaderTextsCons(head, [Divider] + ([count] + lines));
  }

  lemma SeparatorHasNoHeader(blocks: seq<Block>, sep: seq<Block>)
    requires sep == [] || sep == [Divider]
    ensures HeaderTexts(blocks + sep) == HeaderTexts(blocks)
  {
    HeaderTextsAppend(blocks, sep);
    if sep != [] {
      HeaderTextsCons(Divider, []);
      assert sep == [Divider] + [];
    }
  }

  /** A source as the message presents it. */
  datatype SourceHeading = SourceHeading(header: string, emoji: string, key: SourceKey)

  /** The sources in message order, with their headers and emoji. */
  const Headings: seq<SourceHeading> := [
    SourceHeading("Google Play 사전등록", "🎮", GPlay),
    SourceHeading("인벤 사전예약", "📋", Inven),
    SourceHeading("카카오게임즈 사전예약", "🟡", Kakao),
    SourceHeading("원스토어 사전예약", "🟣", OneStore),
    SourceHeading("네이버게임 이번 달 출시", "🟢", Naver)
  ]

  /** `changes.get(f"{key}_new", [])` */
  function NewGames(changes: map<string, seq<Game>>, k: SourceKey): seq<Game> {
    if NewKey(k) in changes then changes[NewKey(k)] else []
  }

  /** The block list after the first n sources of `Headings`. */
  function SourceSections(changes: map<string, seq<Game>>, n: nat): seq<Block>
    requires n <= |Headings|
  {
    if n == 0 then []
    else
      var h := Headings[n - 1];
      WithSource(SourceSections(changes, n - 1), h.header, h.emoji, NewGames(changes, h.key))
  }

  /** The closing divider and the context line with the check time. */
  function Footer(checkedAt: string): seq<Block> {
    [Divider, Context("⏰ 확인 시각: " + checkedAt + " KST")]
  }

  /** The whole message. */
  function Message(changes: map<string, seq<Game>>, checkedAt: string): seq<Block> {
    SourceSections(changes, |Headings|) + Footer(checkedAt)
  }

  /** `send_slack_notification`: without a webhook url nothing is built and
      the result is false; otherwise the message is built and handed to the
      transport, and the result is whether it was delivered. */
  method SendSlackNotification(webhookUrl: Option<string>, changes: map<string, seq<Game>>,
                               checkedAt: string, delivered: bool)
    returns (ok: bool, message: Option<seq<Block>>)
    ensures Text(webhookUrl) == "" ==> !ok && message.None?
    ensures Text(webhookUrl) != "" ==> ok == delivered && message == Some(Message(changes, checkedAt))
    ensures message.Some? ==>
      |message.value| >= 2 && message.value[|message.value| - 2..] == Footer(checkedAt)
  {
    if Text(webhookUrl) == "" {
      return false, None;
    }
    var blocks: seq<Block> := [];
    for i := 0 to |Headings|
      invariant blocks == SourceSections(changes, i)
    {
      var h := Headings[i];
      blocks := AddSourceBlocks(blocks, h.header, h.emoji, NewGames(changes, h.key));
    }
    blocks := blocks + [Divider];
    blocks := blocks + [Context("⏰ 확인 시각: " + checkedAt + " KST")];
    assert blocks == Message(changes, checkedAt);
    return delivered, Some(blocks);
  }

  /** The sources' part of the message is empty exactly when no source of
      the first n has new games. */
  lemma {:induction false} SourceSectionsEmptyIff(changes: map<string, seq<Game>>, n: nat)
    requires n <= |Headings|
    ensures SourceSections(changes, n) == [] <==>
      forall j :: 0 <= j < n ==> NewGames(changes, Headings[j].key) == []
  {
    if n > 0 {
      SourceSectionsEmptyIff(changes, n - 1);
    }
  }

  /** The texts of the header blocks, in order. */
  function HeaderTexts(blocks: seq<Block>): seq<string> {
    if blocks == [] then []
    else (if blocks[0].Header? then [blocks[0].text] else []) + HeaderTexts(blocks[1..])
  }

  lemma HeaderTextsCons(b: Block, bs: seq<Block>)
    ensures HeaderTexts([b] + bs) == (if b.Header? then [b.text] else []) + HeaderTexts(bs)
  {
    assert ([b] + bs)[1..] == bs;
  }

  lemma {:induction false} HeaderTextsAppend(a: seq<Block>, b: seq<Block>)
    ensures HeaderTexts(a + b) == HeaderTexts(a) + HeaderTexts(b)
  {
    if a == [] {
      assert a + b == b;
    } else {
      var first := if a[0].Header? then [a[0].text] else [];
      assert (a + b)[1..] == a[1..] + b;
      calc {
        HeaderTexts(a + b);
        first + HeaderTexts(a[1..] + b);
        { HeaderTextsAppend(a[1..], b); }
        first + (HeaderTexts(a[1..]) + HeaderTexts(b));
        (first + HeaderTexts(a[1..])) + HeaderTexts(b);
        HeaderTexts(a) + HeaderTexts(b);
      }
    }
  }

  /** Blocks none of which is a header have no header texts. */
  lemma {:induction false} NoHeaders(blocks: seq<Block>)
    requires forall i :: 0 <= i < |blocks| ==> !blocks[i].Header?
    ensures HeaderTexts(blocks) == []
  {
    if blocks != [] {
      NoHeaders(blocks[1..]);
    }
  }

  /** The headers of the sources with new games among the first n, in
      message order. */
  function ChangedHeaders(changes: map<string, seq<Game>>, n: nat): seq<string>
    requires n <= |Headings|
  {
    if n == 0 then []
    else
      var h := Headings[n - 1];
      ChangedHeaders(changes, n - 1)
        + (if NewGames(changes, h.key) != [] then [HeaderText(h.emoji, h.header)] else [])
  }

  /** The message has one header per source with new games, in the fixed
      source order, and no other header. */
  lemma {:induction false} SourceSectionsHeaders(changes: map<string, seq<Game>>, n: nat)
    requires n <= |Headings|
    ensures HeaderTexts(SourceSections(changes, n)) == ChangedHeaders(changes, n)
  {
    if n > 0 {
      SourceSectionsHeaders(changes, n - 1);
      var h := Headings[n - 1];
      HeaderTextsWithSource(SourceSections(changes, n - 1), h.header, h.emoji, NewGames(changes, h.key));
    }
  }

  /** Without new games for any source the message is the footer alone. */
  lemma MessageWithoutNewGames(changes: map<string, seq<Game>>, checkedAt: string)
    requires forall k :: NewGames(changes, k) == []
    ensures Message(changes, checkedAt) == Footer(checkedAt)
  {
    SourceSectionsEmptyIff(changes, |Headings|);
  }
}
