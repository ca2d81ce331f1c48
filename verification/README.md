# QILLQuantum harvest pipeline in Dafny

QILLQuantum (`qillquantum.py`) is a local knowledge vault. A background job,
`harvest()`, reads six RSS/Atom feeds. For each feed it looks at the first 15
entries and drops entries without a link. It also drops entries whose
fingerprint is already in the `seen` set. The fingerprint is the SHA-256 hex
digest of the title and the link concatenated with no separator. Every other
entry is stored as a numbered JSON record `NNNNNN.json` in the vault
directory, and its fingerprint is added to `seen`. A record's number is one
more than the number of `*.json` files that currently parse to a truthy JSON
value. `seen` is persisted as `seen.txt`, one fingerprint per line, and is
rewritten only when a harvest stored something. A web page lists the vault's
records, newest id first, optionally filtered by a case-insensitive title
search, at most 50 of them.

The model has six modules, one per file:

- `Wrappers` (`wrappers.dfy`): `Option`.
- `Text` (`text.dfy`): `str.splitlines()`, `"\n".join`, decimal formatting with
  zero padding and its inverse, hexadecimal digests, and the substring test
  `needle in hay`.
- `Store` (`store.dfy`): the vault directory as a map from file name to
  content. It covers `safe_load`, which files count as records, the next id,
  the record file name, and what storing a record does to the count. This
  includes id allocation in a contiguous vault and after a deletion.
- `Ledger` (`ledger.dfy`): loading and writing `seen.txt`.
- `Harvest` (`harvest.dfy`):
  - The specification functions `Consider` (one entry), `FeedFrom` and
    `HarvestFeed` (one feed), and `CycleFrom` and `Cycle` (one `harvest()`
    call). They give the effect on the vault and on `seen`, and the returned
    count.
  - The lemmas about them: dedup, counting and bounds, idempotence, fault
    isolation and id allocation.
  - The class `Vault`. It holds the vault files, the `seen` set and the text
    of `seen.txt`. Its method `Harvest` runs the nested loops step by step as
    the source does, rescanning the vault for every accepted entry, and is
    proved to have exactly the effect `Cycle` describes.
- `Listing` (`listing.dfy`): the read side, meaning the valid records sorted by
  id (highest first), the search filter and the cut at 50.

What the model takes as given instead of computing:

- **Outside world.** The world outside the program is a value of type
  `World`. It has four parts:
  - the SHA-256 hex digest, an uninterpreted `string -> string`;
  - the timestamp `datetime.now().isoformat()` returned at each store;
  - whether each record write succeeds;
  - whether the final rewrite of `seen.txt` succeeds.
- **Feed fetches.** Fetching and parsing a feed gives a `Fetch`: either the
  exception `FetchFailed`, or the parsed entries, each with an optional title
  and link.
- **Vault file contents** are reduced to what `json.loads` makes of them after
  `strip()`: blank, undecodable, a record object, or another JSON value with
  its Python truth value.
- **Lower-casing.** Unicode `str.lower` is a parameter of the listing.

Three behaviours of the code that the model keeps as they are:

- **Fingerprint.** The key concatenates title and link with no separator
  (line 39), so ("ab", "c") and ("a", "bc") get the same key
  (`Harvest.ConcatenationCollides`).
- **Next id.** Line 41 rescans the vault directory before every accepted
  entry, and `Vault.HarvestEntries` calls `CountValid` each time. This gives
  the same ids as counting once and incrementing, as long as no stored name
  was already a valid file (`Store.PutEffect`). `Harvest.FeedKeepsContiguous`
  proves this for a contiguous vault.
- **Unreadable `seen.txt`.** Line 11 reads the file with no guard, so a file
  that cannot be read or decoded raises at import. The model takes the
  file's text as given characters.

## Model

| member | source | states |
|---|---|---|
| Harvest.TitleOf | qillquantum.py:36 | the title, "Untitled" when the entry has none (a function without a contract, used by `Consider`) |
| Harvest.LinkOf | qillquantum.py:37 | the link, "" when the entry has none (a function without a contract, used by `Consider`) |
| Harvest.Fingerprint | qillquantum.py:39 | the digest of title and link concatenated with no separator; `ConcatenationCollides` shows the consequence |
| Harvest.Consider | qillquantum.py:36-46 | one entry: skipped, stored as the next record with its key added, or a failed write; its contract is stated by `EmptyLinkIgnored`, `SkipIffSeen` and `ConsiderEffect` |
| Harvest.FeedFrom | qillquantum.py:35-47 | entries j onwards of one feed, up to the 15th, stopping at a failed write; its properties are the `Feed*` lemmas and `WriteFailureTruncates` |
| Harvest.HarvestFeed | qillquantum.py:32-47 | one `try` block: a failed fetch changes nothing, otherwise `FeedFrom`; stated by `HarvestFeedCounts` |
| Harvest.CycleFrom | qillquantum.py:31-47 | feeds f onwards in order, each from the state the previous one left; stated by the `Cycle*` lemmas |
| Harvest.Cycle | qillquantum.py:29-49 | one `harvest()` call's effect and count; stated by `CycleBound`, `Idempotent`, `FetchFailureIsolated`, `CycleKeepsContiguous` and implemented by `Vault.Harvest` |
| Harvest.Vault.Open | qillquantum.py:10-11 | at start-up `seen` is the set of lines of `seen.txt` when that file exists, and empty otherwise |
| Harvest.Vault.CountValid | qillquantum.py:41 | the scan returns the number of `*.json` files whose `safe_load` result is truthy |
| Harvest.Vault.HarvestEntries | qillquantum.py:35-47 | the inner loop over one feed's entries leaves the vault, `seen` and the count exactly as `FeedFrom` says: at most 15 entries, stopping at the first failed write; `seen.txt` is untouched |
| Harvest.Vault.Harvest | qillquantum.py:29-49 | `harvest()` changes the vault and `seen` exactly as `Cycle` says. `seen.txt` is untouched when the count is 0. Otherwise it is rewritten as the whole `seen` set joined by newlines in some order, and reads back as `seen` when every key is a line; it returns the count. When that rewrite fails (line 48 is outside the `try`) it raises instead of returning, and the vault and `seen` keep the cycle's changes |
| Harvest.EmptyLinkIgnored | qillquantum.py:37-38 | an entry with an empty link is skipped whatever the state: no write, no new key, no count |
| Harvest.SkipIffSeen | qillquantum.py:36-40 | an entry is skipped exactly when its link is empty or its key is already seen; the feed URL and position play no part |
| Harvest.ConsiderEffect | qillquantum.py:36-46 | an accepted entry is stored as a record with the next id, its title, link, feed and time under that id's file name, exactly its key is added, and every other file is unchanged; a failed write happens only for an unseen key |
| Harvest.ConcatenationCollides | qillquantum.py:39 | ("a", "bc") has the same key as ("ab", "c") and is skipped once the latter is seen |
| Harvest.FeedCounts | qillquantum.py:35-46 | over one feed `seen` only grows, and it grows by exactly the feed's count |
| Harvest.FeedNewKeys | qillquantum.py:35-45 | every key a feed adds belongs to one of its looked-at entries that has a link |
| Harvest.FeedBound | qillquantum.py:35 | a feed accepts at most one entry per looked-at position, so at most 15 |
| Harvest.HarvestFeedCounts | qillquantum.py:32-47 | one iteration of the outer loop, fetched or failed: `seen` grows by its count, the new keys are its own, and the count is at most 15 |
| Harvest.CycleCounts | qillquantum.py:29-49 | over a cycle `seen` only grows, by exactly the returned count, and every new key belongs to a looked-at entry of some feed |
| Harvest.CycleBoundFrom | qillquantum.py:31-47 | the feeds from `f` on accept at most 15 entries each |
| Harvest.CycleBound | qillquantum.py:29-49 | `harvest()` returns the number of keys it added to `seen`, at most 15 times the number of feeds |
| Harvest.FeedAllSeen | qillquantum.py:39-40 | a feed whose looked-at keys are all seen changes nothing and counts 0 |
| Harvest.FeedCovers | qillquantum.py:35-46 | when no write fails, every looked-at key of a feed with a link is seen afterwards |
| Harvest.CycleCovers | qillquantum.py:31-47 | when no write fails, every looked-at key of every fetched feed is seen after the cycle |
| Harvest.CycleAllSeen | qillquantum.py:31-47 | a cycle whose looked-at keys are all seen changes nothing and returns 0 |
| Harvest.Idempotent | qillquantum.py:29-49 | when no write fails, harvesting the same feed results again returns 0 and leaves the vault and `seen` as the first harvest left them |
| Harvest.FetchFailureIsolated | qillquantum.py:32-47 | a feed whose fetch or parse raised is handled exactly like a feed with no entries, so the other feeds are unaffected |
| Harvest.WriteFailureTruncates | qillquantum.py:44-47 | when the write for entry j fails, the feed's effect is exactly that of its first j entries: earlier acceptances stay and nothing later is looked at |
| Harvest.TruncateFrom | qillquantum.py:35-47 | the same from any position i up to j onwards |
| Harvest.FeedKeepsContiguous | qillquantum.py:35-46 | from a vault whose valid files are exactly records 1..n, a feed leaves exactly records 1..n+count, so ids increase by one per acceptance |
| Harvest.CycleKeepsContiguous | qillquantum.py:31-47 | the same over a whole cycle |
| Harvest.TwoEntryScenario | qillquantum.py:29-49 | from an empty vault, one feed with two fresh entries yields 2 with records 1 and 2 in `000001.json` and `000002.json`, and a second harvest yields 0 and changes nothing |
| Harvest.SeenFileKeysAreLines | qillquantum.py:39-48 | with a hex digest, every key in `seen` after a cycle is a non-empty line, so the rewritten `seen.txt` reads back as `seen` |
| Harvest.CycleKeysAreDigests | qillquantum.py:39 | every key a cycle can add is a hex digest, hence a line |
| Harvest.FeedKeysAreDigests | qillquantum.py:39 | every key a feed can add is a hex digest, hence a line |
| Ledger.LoadSeen | qillquantum.py:11 | no keys when `seen.txt` is absent; every loaded key is free of line boundaries |
| Ledger.Serialise | qillquantum.py:48 | `"\n".join(seen)` lists every element of `seen` exactly once, in some order, joined by newlines |
| Ledger.RoundTrip | qillquantum.py:11 | reading back a written `seen` set with `splitlines()` gives the same set when every key is a non-empty line |
| Ledger.EmptyKeyLost | qillquantum.py:48 | an empty key does not survive: alone it is written as an empty file, which reads back as no keys |
| Text.SplitLines | qillquantum.py:11 | `splitlines()`: no returned line contains a line boundary; `SplitJoin` gives its round trip with `JoinLines` |
| Text.JoinLines | qillquantum.py:48 | `"\n".join`: a function without a contract, whose round trip with `SplitLines` is `SplitJoin` |
| Text.Contains | qillquantum.py:73 | Python's `needle in hay` for strings; `ContainsAt` states what it means |
| Text.SplitJoin | qillquantum.py:11 | `splitlines()` undoes `"\n".join` on non-empty lines without line boundaries |
| Text.ParseDecimalOfDecimal | qillquantum.py:42 | the decimal digits of n parse back to n |
| Text.DecimalWidth | qillquantum.py:42 | n has at most w decimal digits exactly when n < 10^w |
| Text.ContainsAt | qillquantum.py:73 | `needle in hay` holds exactly when the needle occurs at some position of the haystack |
| Store.SafeLoad | qillquantum.py:22-27 | `safe_load`: None for a blank or undecodable file, the decoded document otherwise (a function without a contract; `PutEffect` and `AllocateOverGap` use what it decides) |
| Store.Truthy | qillquantum.py:41 | Python's truth value of what `safe_load` returned: None is false, a record is true, another document has its own truth value |
| Store.IsValid | qillquantum.py:41 | a file counts when its name matches `*.json` and its `safe_load` result is truthy |
| Store.JsonNames | qillquantum.py:64 | the names `glob("*.json")` yields, the order the listing visits |
| Store.ValidNames | qillquantum.py:41 | the names of the files that count; `ValidNamesAfterWrite` states how one write changes it |
| Store.ValidCount | qillquantum.py:41 | the number of counting files; `WriteValid` and `PutEffect` state how a write changes it |
| Store.NextId | qillquantum.py:41 | one more than the count; `AllocateContiguous`, `AllocateOverGap` and `AllocateAfterDeletion` state which file it names |
| Store.RecordName | qillquantum.py:42 | the record name matches `*.json` and has at least 11 characters; `RecordNameFormat` gives the rest |
| Store.Put | qillquantum.py:42-44 | writing a record to its file; `PutEffect` states what it changes and what it leaves |
| Store.RecordNameFormat | qillquantum.py:42 | the record name is a `*.json` name; its digit part is exactly six digits iff the id is at most 999999, and the id reads back from it |
| Store.RecordNameInjective | qillquantum.py:42 | distinct ids give distinct file names |
| Store.FifthRecordName | qillquantum.py:42 | record 5 is stored as `000005.json` |
| Store.ValidNamesAfterWrite | qillquantum.py:41-44 | writing one file changes only whether that file counts |
| Store.WriteValid | qillquantum.py:41-44 | writing a counting file adds one to the count unless that file already counted |
| Store.PutEffect | qillquantum.py:42-44 | storing a record creates or overwrites only the file named after its id, which then holds the record and counts; the count grows by one exactly when that file did not count before |
| Store.AllocateContiguous | qillquantum.py:41-44 | when the valid files are exactly records 1..n, the next id is n+1, its file is not yet valid, and storing it leaves exactly records 1..n+1 |
| Store.AllocateOverGap | qillquantum.py:41-44 | when the next id's file already counts, storing overwrites it, the file set is unchanged and the count does not grow |
| Store.AllocateAfterDeletion | qillquantum.py:41-44 | after deleting record k < n from records 1..n, the next id is n, whose file is still a valid record; storing overwrites it and n-1 valid records remain |
| Store.GapExample | qillquantum.py:41-44 | with `000003.json` deleted from records 1..5, the next entry gets id 5, is written over `000005.json`, and 4 valid records remain |
| Listing.Records | qillquantum.py:64 | the loaded records of the valid files in glob order; `RecordsCount` and `RecordsAll` count them |
| Listing.SortById | qillquantum.py:72 | sort by id, highest first; `SortByIdCorrect` states it |
| Listing.Filter | qillquantum.py:73 | the title filter; `FilterMembers`, `FilterSub` and `FilterSorted` state it |
| Listing.Search | qillquantum.py:73 | filter only when the query is non-empty; stated within `ListingSound` and `ListingComplete` |
| Listing.Take | qillquantum.py:75 | `[:50]`; `TakePrefix` states it |
| Listing.Listing | qillquantum.py:64-75 | what the page shows; `ListingSound` and `ListingComplete` state it |
| Listing.InsertPerm | qillquantum.py:72 | inserting a record adds exactly that record |
| Listing.InsertSorted | qillquantum.py:72 | inserting into a list ordered by id, highest first, keeps it ordered |
| Listing.SortByIdCorrect | qillquantum.py:72 | sorting gives a permutation of the records ordered by id, highest first |
| Listing.FilterMembers | qillquantum.py:73 | the filter keeps exactly the records whose lower-cased title contains the lower-cased query |
| Listing.FilterSub | qillquantum.py:73 | the filter keeps each record at most as often as it occurs |
| Listing.FilterSorted | qillquantum.py:73 | the filter preserves order, so the ordering by id survives |
| Listing.TakePrefix | qillquantum.py:75 | `[:50]` keeps a prefix: at most 50 records, all of them when there are fewer, in their order |
| Listing.TakeHighest | qillquantum.py:72-75 | from a list ordered by id, the kept prefix holds the highest ids: no left-out record has a higher id than a kept one |
| Listing.RecordsCount | qillquantum.py:64 | the loaded records are as many as the valid names among the visited files |
| Listing.RecordsAll | qillquantum.py:64-65 | visiting the `*.json` names in glob order, the page loads as many records as the vault has valid files, the count it shows |
| Listing.ListingSound | qillquantum.py:64-75 | at most 50 records are shown, ordered by id with the highest first, all loaded from the vault; with a query every shown title contains it after lower-casing |
| Listing.ListingComplete | qillquantum.py:64-75 | with fewer than 50 shown, every record that matches the query (every record, with no query) is shown; with no query, min(50, valid files) records are shown, and every record when there are at most 50; a matching record that is not shown has an id no higher than any shown one, so the page holds the 50 highest ids |

## Left out

- Fetching and parsing feeds (`httpx.get`, `feedparser.parse`, lines 33-34) are foreign libraries. Their results are an input sequence of `Fetch` values, one per feed.
- The fixed `FEEDS` list (lines 13-20) is a parameter `feeds`. The bounds are stated for any number of feeds, 15 × 6 = 90 for the six configured.
- SHA-256 (FIPS 180-4, section 6.2) is an uninterpreted function in `World`. Two facts about it are assumed, each only where a lemma asks for it: its output is 64 hexadecimal digits (`SeenFileKeysAreLines`), and the two inputs of the worked scenario, "A" + "http://x" and "B" + "http://y", do not collide (`TwoEntryScenario`).
- JSON encoding and decoding are not modelled. A file's content is given as `Content`. A stored record is the `RecordDoc` value itself; its indented, non-ASCII-preserving text is not modelled.
- A write that fails part-way, leaving a truncated file behind, is not modelled. A failed write leaves the file as it was.
- Harvest.Vault.Harvest: a failed rewrite of `seen.txt` is modelled as leaving the file as it was. `write_text` may already have truncated it, so the next start-up could load fewer keys; that case is not modelled.
- The timestamp `datetime.now().isoformat()` (line 43) is an oracle indexed by feed and entry position.
- `VAULT_DIR.mkdir` (line 9) is not modelled; the vault map always exists.
- Text encodings are not modelled. Line 11 reads `seen.txt` and line 44 writes records in the locale's encoding, while `safe_load` (line 24) decodes UTF-8. The model assumes a UTF-8 locale, so a stored record always reads back and counts. On another locale a record with a non-ASCII title would not count, or its write would raise after truncating the file.
- The scheduler, the background thread and the `running` guard (lines 51-58) are concurrency and timing. The race between a button-triggered harvest and the background one is not modelled.
- Streamlit rendering (lines 60-62, 66, 69, 76-79) is UI only.
- Unicode `str.lower` is the `lower` parameter of the listing.
- Listing: a valid JSON file without `id` or `title` would make line 72 raise. `WellFormed` requires every valid file to hold a record instead.
- Listing: the files are loaded once at line 64 and again at line 72; the model reads the same map both times.
- Listing.SortByIdCorrect: ordering and permutation are proved. Python's sort stability among equal ids is not stated.
- Harvest.Idempotent: stated only when every write succeeds. After a failed write a later feed may add the failed entry's key, so a second run can look past the failure point and store more.
