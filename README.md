# GTM_KR pre-registration monitor — a Dafny model of its core

The monitor polls five Korean game catalogs for pre-registration and launch
announcements: Google Play, Inven, Kakao Games, ONE store and Naver Game. It
turns each catalog's raw listing into a list of uniform game records (id,
title, url and optional developer, release date, reward, platform). Each
listing is compared with that source's saved snapshot by id. All the new games
go out in one Slack message. Then every snapshot is overwritten with the fresh
listing.

This project models that deterministic core:

- `Strings`: the few Python string operations it relies on. These are `str.strip()`
  over Python's white-space set, `split(sep)[0]`, `startswith`, `join` and the
  decimal rendering of a count.
- `Games`: the game record, the set of ids of a listing, and unique ids.
- `Sources`: the five sources, their fixed order and the `"<source>_new"`
  keys of the change report.
- `ChangeDetection`: `find_new`, with the properties of the diff.
- `SnapshotStore`: the record `save_games` writes and what `load_saved` reads
  back from a missing, unreadable or decoded file.
- `Collect`: the shape the fetchers share. It is the item loop that
  normalizes or drops each raw item in order, plus the first-occurrence
  filter of the fetchers that keep a `seen_ids` set.
- `Scrapers`: each fetcher's per-item normalization, over records holding the
  fields that the browser, the HTML parser, the regular expressions or the
  JSON decoder extracted.
- `Slack`: the message blocks of `_add_source_blocks` and
  `send_slack_notification`.
- `Monitor`: `check_source` and `main`. `main` is a class whose snapshot
  files are a field that one run overwrites.

## Model

| member | source | states |
|---|---|---|
| ChangeDetection.FindNew | main.py:422-424 | the new games are never more than the current ones |
| ChangeDetection.FindNewExactly | main.py:422-424 | a game is reported as new iff it is in the current listing and its id is not among the saved ids |
| ChangeDetection.FindNewAppend | main.py:422-424 | the new games of a concatenation are the new games of each part, in order (the comprehension keeps `current`'s order) |
| ChangeDetection.FindNewIsSubsequence | main.py:422-424 | the new games appear in the current listing at increasing positions |
| ChangeDetection.FindNewKeepsOrder | main.py:422-424 | the new games are a subsequence of the current listing |
| ChangeDetection.FindNewAgainstNothing | main.py:422-424 | against an empty snapshot (first run) every current game is new |
| ChangeDetection.FindNewAgainstItself | main.py:422-424 | a listing compared with itself has nothing new |
| ChangeDetection.FindNewEmptyIff | main.py:422-424 | nothing is new iff every current id is already saved |
| ChangeDetection.FindNewIds | main.py:422-424 | the ids reported as new are the current ids minus the saved ids |
| ChangeDetection.FindNewOnlyIdsMatter | main.py:422-424 | two snapshots with the same ids give the same result whatever their titles, urls or order |
| ChangeDetection.FindNewIdempotent | main.py:422-424 | filtering the result again against the same snapshot changes nothing |
| SnapshotStore.LoadSaved | main.py:399-408 | a missing, unreadable or non-JSON file loads as the empty listing; a decoded record loads as its "games" list, or as the empty listing without one |
| SnapshotStore.SaveGames | main.py:411-419 | the record carries the write time and count == number of games, and loading it back gives the listing unchanged |
| Strings.Strip | main.py:86-88 | the result is the slice of the input between its leading and trailing white space, with no white space at either end |
| Strings.Before | main.py:88 | `split(sep)[0]`: the longest prefix without the separator, followed in the input by the separator when shorter |
| Strings.Decimal | main.py:447 | the count is written as non-empty decimal digits, with a leading zero only for zero itself |
| Strings.DecimalValue | main.py:447 | the digits written for a count denote that count |
| Collect.Kept | main.py:167-209 | the games of the item loop are never more than its items |
| Collect.KeptFrom | main.py:167-209 | every game produced comes from some raw item |
| Collect.KeptComplete | main.py:167-209 | every raw item that normalizes to a game contributes that game |
| Collect.KeptAppend | main.py:167-209 | items are normalized one by one: the games of a concatenation are those of each part, in order |
| Collect.CollectGames | main.py:248-278 | the item loop computes exactly `Kept` of the items |
| Collect.Dedup | main.py:317-321 | the first-occurrence filter loses no id |
| Collect.DedupUnique | main.py:317-321 | after the `seen_ids` filter no two games share an id |
| Collect.DedupFrom | main.py:317-321 | the filter only drops games |
| Collect.DedupKeepsFirst | main.py:317-321 | a game is kept iff it is the first of its id in the input |
| Collect.DedupIsSubsequence | main.py:317-321 | the kept games keep their input order |
| Collect.DedupKeepsOrder | main.py:317-321 | the kept games are a subsequence of the input |
| Collect.DedupOfUnique | main.py:317-321 | a listing whose ids are already unique is kept whole |
| Sources.NewKeyInjective | main.py:530-531 | distinct sources report under distinct `"<source>_new"` keys |
| Scrapers.GPlayTitle | main.py:86-93 | the title is the first stripped line of the link text when it has two or more characters; otherwise the image's alt text, or the app id when the alt text is empty; the text title when there is no image |
| Scrapers.NormalizeGPlay | main.py:74-101 | a link yields a candidate iff it has an app id and a title of at least two characters; the candidate's id, title and details url |
| Scrapers.GPlayCandidates | main.py:71-101 | the candidate loop keeps the first qualifying link of each app id, in order; ids unique, titles of two or more characters, url is the details page of the id |
| Scrapers.GPlayStep | main.py:83-101 | a link adds a candidate exactly when its app id is not yet taken and its title qualifies |
| Scrapers.GPlayCandidatesShape | main.py:95-101 | every candidate list has unique ids, titles of two or more characters and the details url of its id |
| Scrapers.InvenUrl | main.py:179-182 | a site-relative href is prefixed with the Inven site; any other href is kept |
| Scrapers.NormalizeInven | main.py:169-209 | a campaign yields a game iff it has a campaign id and a name or image alt text; release date and reward are always set ("" when absent) |
| Scrapers.FetchInvenGames | main.py:167-213 | the games are exactly those of the normalizable campaigns, in order, each with a title, release date and reward |
| Scrapers.KakaoId | main.py:255-261 | the id is the app master id, else the data id, else the `/ar/` id |
| Scrapers.KakaoTitle | main.py:264-269 | the title is the name text, else the registration name, else the first space-separated word of the aria label |
| Scrapers.KakaoUrl | main.py:272 | the url always starts with `http`: hrefs starting with `http` are kept, others are prefixed with the Kakao Games site |
| Scrapers.NormalizeKakao | main.py:250-278 | an item yields a game iff it has a link, a non-empty id and a non-empty title |
| Scrapers.FetchKakaoGames | main.py:248-282 | the games are exactly those of the normalizable items, in order, each with an id, a title and a url starting with `http` |
| Scrapers.OneStoreListing | main.py:318-329 | one game per extracted (product id, name) pair, in order, with the event url of the id |
| Scrapers.OneStoreGames | main.py:317-330 | the first pair of each product id becomes a game; ids unique, every product id listed, every game from a pair |
| Scrapers.NaverUrl | main.py:368-370 | an empty landing url stays empty; one starting with `http` is kept; any other is prefixed with the Naver Game site; the result is empty or starts with `http` |
| Scrapers.ReleaseInfo | main.py:376-380 | empty iff there is no schedule; the schedule, followed by a space and the release type when there is one |
| Scrapers.NormalizeNaver | main.py:363-388 | an entry is dropped iff its id or name is empty; otherwise the game's fields |
| Scrapers.FetchNaverGames | main.py:362-389 | the games are exactly those of the entries with an id and a name, in order |
| Slack.ExtraSuffix | main.py:450-455 | a game line ends with the developer and the release date that are set, in that order, each preceded by a space, a vertical bar and a space; with neither set it ends at the link |
| Slack.AddSourceBlocks | main.py:431-459 | the blocks appended for one source are exactly `WithSource` of the list |
| Slack.AppendGameLines | main.py:449-459 | the game loop appends exactly one line per game, in the games' order, after the blocks already there |
| Slack.GameLinesAt | main.py:449-459 | one line per game, the i-th line being the i-th game's link and suffix |
| Slack.WithSourceShape | main.py:433-437 | nothing is added for no games; otherwise the earlier blocks stay in front, followed by a divider exactly when there were any, and the source adds three blocks plus one per game |
| Slack.WithSourceTop | main.py:439-448 | before its game lines, a source with games adds its header "<emoji> <name>", a divider and its count line |
| Slack.WithSourceTail | main.py:449-459 | a source with games ends the list with its game lines, one per game in the games' order |
| Slack.SourceBlocksHeaders | main.py:439-459 | a source's part holds exactly one header, its own |
| Slack.HeaderTextsWithSource | main.py:433-442 | a source adds its own header, and only when it has new games |
| Slack.SendSlackNotification | main.py:462-495 | without a webhook url nothing is sent and the result is false; otherwise the message is the sources' blocks followed by the footer, and the result is the delivery outcome |
| Slack.SourceSectionsEmptyIff | main.py:479-481 | the sources' part of the message is empty iff no source has new games |
| Slack.SourceSectionsHeaders | main.py:471-481 | the message has one header per source with new games, in the fixed source order, and no other header |
| Slack.MessageWithoutNewGames | main.py:479-486 | with no new games the message would be the footer alone |
| Monitor.CheckSource | main.py:502-510 | the result holds the fetched listing and `find_new` of it against the loaded snapshot: the games whose id is not saved, in the listing's order; all of it when the file is missing or unreadable |
| Monitor.SavedListingHasNothingNew | main.py:502-510 | right after a listing is saved, checking the same listing reports nothing new |
| Monitor.EmptyFetchForgetsSnapshot | main.py:552-556 | an empty fetch overwrites the snapshot, so the next run reports the whole listing as new again |
| Monitor.ChangesUpToHas | main.py:528-531 | after the loop has visited a source, its new games stay under its key: later sources never overwrite them |
| Monitor.ChangesUpToOnly | main.py:528-531 | the report holds only the keys of visited sources |
| Monitor.AnyNewUpToIff | main.py:528-533 | `has_changes` is set exactly when a visited source has new games |
| Monitor.CollectChanges | main.py:528-533 | every source's new games are reported under its `"<source>_new"` key and under no other key; `has_changes` iff some source has new games |
| Monitor.Monitor.SaveSnapshots | main.py:552-556 | every source's snapshot becomes the record of its fetched listing |
| Monitor.Monitor.Run | main.py:513-562 | new games per source against the snapshots before the run; a message only when something is new and a webhook is set; afterwards every snapshot loads as the fetched listing |

## Left out

- Fetching is not modelled: the headless browser (scrolling, detail-page visits), HTTP requests, HTML parsing, regular expressions, URL decoding and JSON decoding. The fetchers are modelled from the fields those steps extract.
- The Google Play detail-page filter is not modelled. It keeps games in a game category with a Korean developer and records the developer, and it needs the browser, so `GPlayCandidates` stops at the candidate list.
- Exceptions that make an item loop `continue` are not modelled. A fetch whose request raises `RequestException` returns an empty listing (main.py:158-160, 239-241, 304-306, 355-357), which `Monitor.EmptyFetchForgetsSnapshot` covers.
- An exception that escapes a fetcher or `save_games` aborts `main`, so no message is sent and no later snapshot is written. Examples are Naver's `response.json()` at main.py:359, a null "content" at main.py:360, Playwright errors other than a timeout (main.py:55) and a failed write at main.py:418-419. This is not modelled: `Monitor.Monitor.Run` assumes every fetch returns a listing and every write succeeds.
- Console output (`print`) is not modelled.
- Clocks are parameters. `datetime.now()` becomes one `savedAt` string for the five snapshot writes and one `checkedAt` string for the message footer, and their formats are not modelled.
- The webhook POST is not modelled; whether it succeeded is the parameter `delivered`. The webhook url is a field of the monitor instead of an environment variable.
- A snapshot file that is not valid UTF-8 (`UnicodeDecodeError`) or whose top-level JSON value is not an object (`data.get` raises) makes `load_saved` raise and abort the run; neither kind of file is modelled.
- JSON values of other types than strings in the saved file and the API response are not modelled. Neither are saved records without an "id" key, on which the source raises.
- Python's `str.strip()` is modelled over the characters `str.isspace()` accepts. Unicode beyond that is not modelled.
- No "removed" set, of games saved but no longer listed, is modelled: `main` computes none, so `has_changes` is true only when some source has new games.
- `Slack.AddSourceBlocks` returns the extended list instead of appending in place. The list is local to `send_slack_notification`, so no other reference can observe the difference.
- Collect.Kept: its own contract states only the length bound; what it keeps is stated by `Collect.KeptFrom`, `Collect.KeptComplete` and `Collect.KeptAppend`.
- Collect.Dedup: its own contract states only that no id is lost; the first-occurrence rule is stated by `Collect.DedupKeepsFirst`, `Collect.DedupUnique` and `Collect.DedupIsSubsequence`.
