/**
 * The harvest cycle: for every configured feed, look at its first 15
 * entries, drop those without a link or whose fingerprint is already seen,
 * and store each remaining one as the next numbered record. Any failure
 * abandons the rest of that feed only. The functions below give the cycle's
 * effect on the vault and the seen set; the class `Vault` runs it step by
 * step as the source does and is proved to have exactly that effect.
 */
module Harvest {
  import opened Wrappers
  import opened Text
  import opened Store
  import opened Ledger

  /** At most this many entries of each feed are looked at (`feed.entries[:15]`). */
  const MaxEntries: nat := 15

  /** One parsed feed item; feedparser leaves out `title` or `link` when the item has none. */
  datatype Entry = Entry(title: Option<string>, link: Option<string>)

  /** What fetching and parsing one feed gave: an exception, or the parsed entries in feed order. */
  datatype Fetch = FetchFailed | Fetched(entries: seq<Entry>)

  /** The outside world as `harvest()` consults it. */
  datatype World = World(
    digest: string -> string,       // hashlib.sha256(s.encode()).hexdigest()
    clock: (nat, nat) -> string,    // datetime.now().isoformat() when entry j of feed f is stored
    writeOk: (nat, nat) -> bool,    // whether writing the record for entry j of feed f succeeds
    ledgerOk: bool)                 // whether rewriting seen.txt at the end of the cycle succeeds

  /** The pipeline's state: the vault directory's files and the in-memory seen set. */
  datatype Snapshot = Snapshot(files: map<string, Content>, seen: set<string>)

  /** The effect of some part of a cycle: the state reached and the number of entries accepted. */
  datatype Outcome = Outcome(after: Snapshot, added: nat)

  /** What happens to one entry: ignored, stored (giving the new state), or an exception. */
  datatype Step = Skip | Accept(next: Snapshot) | Abandon

  /** `str(getattr(e, "title", "Untitled"))`. */
  function TitleOf(e: Entry): string {
    e.title.GetOr("Untitled")
  }

  /** `str(getattr(e, "link", ""))`. */
  function LinkOf(e: Entry): string {
    e.link.GetOr("")
  }

  /** The dedup key: the digest of title and link concatenated with no separator. */
  function Fingerprint(w: World, title: string, link: string): string {
    w.digest(title + link)
  }

  function KeyOf(w: World, e: Entry): string {
    Fingerprint(w, TitleOf(e), LinkOf(e))
  }

  /** The number of entries of a feed that are looked at. */
  function Considered(entries: seq<Entry>): nat {
    if |entries| < MaxEntries then |entries| else MaxEntries
  }

  /** The body of the inner loop for entry `j` of feed `f`, fetched from `url`. */
  function Consider(s: Snapshot, w: World, url: string, f: nat, j: nat, e: Entry): Step {
    var title := TitleOf(e);
    var link := LinkOf(e);
    if link == "" then Skip
    else
      var key := Fingerprint(w, title, link);
      if key in s.seen then Skip
      else if !w.writeOk(f, j) then Abandon
      else
        var rec := Record(NextId(s.files), title, link, url, w.clock(f, j));
        Accept(Snapshot(Put(s.files, rec), s.seen + {key}))
  }

  /** Entries `j` onwards of feed `f`, up to the 15th, stopping at the first exception. */
  function FeedFrom(s: Snapshot, w: World, url: string, f: nat, entries: seq<Entry>, j: nat): Outcome
    decreases |entries| - j
  {
    if j >= Considered(entries) then Outcome(s, 0)
    else
      match Consider(s, w, url, f, j, entries[j])
      case Skip => FeedFrom(s, w, url, f, entries, j + 1)
      case Abandon => Outcome(s, 0)
      case Accept(next) =>
        var o := FeedFrom(next, w, url, f, entries, j + 1);
        Outcome(o.after, o.added + 1)
  }

  /** One step of a feed: what entry `j` does decides how the rest of the feed goes on. */
  lemma FeedStep(s: Snapshot, w: World, url: string, f: nat, entries: seq<Entry>, j: nat)
    requires j < Considered(entries)
    ensures var st := Consider(s, w, url, f, j, entries[j]);
      var o := FeedFrom(s, w, url, f, entries, j);
      (st.Skip? ==> o == FeedFrom(s, w, url, f, entries, j + 1)) &&
      (st.Abandon? ==> o == Outcome(s, 0)) &&
      (st.Accept? ==> o.after == FeedFrom(st.next, w, url, f, entries, j + 1).after &&
                      o.added == FeedFrom(st.next, w, url, f, entries, j + 1).added + 1)
  {
  }

  /** One iteration of the outer loop: the whole `try` block for feed `f`. */
  function HarvestFeed(s: Snapshot, w: World, url: string, f: nat, fetch: Fetch): Outcome {
    match fetch
    case FetchFailed => Outcome(s, 0)
    case Fetched(entries) => FeedFrom(s, w, url, f, entries, 0)
  }

  /** Feeds `f` onwards, in order, each starting from the state the previous one left. */
  function CycleFrom(s: Snapshot, w: World, feeds: seq<string>, results: seq<Fetch>, f: nat): Outcome
    requires |results| == |feeds|
    decreases |feeds| - f
  {
    if f >= |feeds| then Outcome(s, 0)
    else
      var o := HarvestFeed(s, w, feeds[f], f, results[f]);
      var r := CycleFrom(o.after, w, feeds, results, f + 1);
      Outcome(r.after, o.added + r.added)
  }

  /** The effect of one `harvest()` call on the vault and the seen set, and its return value. */
  function Cycle(s: Snapshot, w: World, feeds: seq<string>, results: seq<Fetch>): Outcome
    requires |results| == |feeds|
  {
    CycleFrom(s, w, feeds, results, 0)
  }

  // ---------------------------------------------------------------------------
  // Single entries

  /** An entry without a link is ignored whatever the state: no write, no new key, no count. */
  lemma EmptyLinkIgnored(s: Snapshot, w: World, url: string, f: nat, j: nat, e: Entry)
    requires LinkOf(e) == ""
    ensures Consider(s, w, url, f, j, e) == Skip
  {
  }

  /**
   * An entry is ignored exactly when its link is empty or its key is already
   * seen; which feed it came from and where in the feed play no part.
   */
  lemma SkipIffSeen(s: Snapshot, w: World, url: string, f: nat, j: nat, e: Entry)
    ensures Consider(s, w, url, f, j, e).Skip? <==> LinkOf(e) == "" || KeyOf(w, e) in s.seen
  {
  }

  /**
   * Accepting an entry stores a record with the next id, its title, link,
   * feed and time under the name formatted from that id, adds exactly its
   * key to the seen set, and leaves every other file as it was. A failed
   * write changes nothing, so the key stays unseen.
   */
  lemma ConsiderEffect(s: Snapshot, w: World, url: string, f: nat, j: nat, e: Entry)
    ensures var st := Consider(s, w, url, f, j, e);
      (st.Abandon? ==> !w.writeOk(f, j) && KeyOf(w, e) !in s.seen) &&
      (st.Accept? ==>
        var id := NextId(s.files);
        LinkOf(e) != "" && KeyOf(w, e) !in s.seen &&
        st.next.seen == s.seen + {KeyOf(w, e)} &&
        st.next.files.Keys == s.files.Keys + {RecordName(id)} &&
        st.next.files[RecordName(id)] == Doc(RecordDoc(Record(id, TitleOf(e), LinkOf(e), url, w.clock(f, j)))) &&
        (forall n :: n in s.files && n != RecordName(id) ==> st.next.files[n] == s.files[n]))
  {
    var st := Consider(s, w, url, f, j, e);
    if st.Accept? {
      PutEffect(s.files, Record(NextId(s.files), TitleOf(e), LinkOf(e), url, w.clock(f, j)));
    }
  }

  /**
   * The key ignores where title ends and link begins: an entry titled "a"
   * linking to "bc" is dropped as a duplicate once "ab" with link "c" is seen.
   */
  lemma ConcatenationCollides(s: Snapshot, w: World, url: string, f: nat, j: nat)
    requires Fingerprint(w, "ab", "c") in s.seen
    ensures Fingerprint(w, "a", "bc") == Fingerprint(w, "ab", "c")
    ensures Consider(s, w, url, f, j, Entry(Some("a"), Some("bc"))) == Skip
  {
    assert "a" + "bc" == "ab" + "c";
  }

  // ---------------------------------------------------------------------------
  // Counting: what a feed and a cycle add

  /** The keys of the entries of a feed that are looked at and have a link. */
  function FeedKeys(w: World, entries: seq<Entry>, j: nat): set<string>
    decreases |entries| - j
  {
    if j >= Considered(entries) then {}
    else (if LinkOf(entries[j]) == "" then {} else {KeyOf(w, entries[j])}) + FeedKeys(w, entries, j + 1)
  }

  /** The keys of all looked-at entries with a link, over feeds `f` onwards. */
  function CycleKeys(w: World, results: seq<Fetch>, f: nat): set<string>
    decreases |results| - f
  {
    if f >= |results| then {}
    else FetchKeys(w, results[f]) + CycleKeys(w, results, f + 1)
  }

  /** The keys of the looked-at entries with a link of one fetched feed. */
  function FetchKeys(w: World, fetch: Fetch): set<string> {
    match fetch
    case FetchFailed => {}
    case Fetched(es) => FeedKeys(w, es, 0)
  }

  /** The keys of entries `j` onwards: entry `j`'s own key when it has a link, and those of the entries after it. */
  lemma FeedKeysStep(w: World, entries: seq<Entry>, j: nat)
    requires j < Considered(entries)
    ensures forall k :: k in FeedKeys(w, entries, j) <==>
      (k == KeyOf(w, entries[j]) && LinkOf(entries[j]) != "") || k in FeedKeys(w, entries, j + 1)
  {
  }

  /**
   * Over one feed the seen set only grows, by as many keys as the feed
   * counts.
   */
  lemma {:induction false} FeedCounts(s: Snapshot, w: World, url: string, f: nat, entries: seq<Entry>, j: nat)
    ensures var o := FeedFrom(s, w, url, f, entries, j);
      s.seen <= o.after.seen &&
      |o.after.seen| == |s.seen| + o.added
    decreases |entries| - j
  {
    if j < Considered(entries) {
      var e := entries[j];
      var st := Consider(s, w, url, f, j, e);
      if st.Skip? {
        FeedCounts(s, w, url, f, entries, j + 1);
        assert FeedFrom(s, w, url, f, entries, j) == FeedFrom(s, w, url, f, entries, j + 1);
      } else if st.Accept? {
        ConsiderEffect(s, w, url, f, j, e);
        SkipIffSeen(s, w, url, f, j, e);
        var next := st.next;
        FeedCounts(next, w, url, f, entries, j + 1);
        var o := FeedFrom(next, w, url, f, entries, j + 1);
        assert FeedFrom(s, w, url, f, entries, j) == Outcome(o.after, o.added + 1);
      }
    }
  }

  /** Every key a feed adds belongs to one of its looked-at entries with a link. */
  lemma {:induction false} FeedNewKeys(s: Snapshot, w: World, url: string, f: nat, entries: seq<Entry>, j: nat)
    ensures FeedFrom(s, w, url, f, entries, j).after.seen - s.seen <= FeedKeys(w, entries, j)
    decreases |entries| - j
  {
    if j < Considered(entries) {
      var e := entries[j];
      var st := Consider(s, w, url, f, j, e);
      FeedKeysStep(w, entries, j);
      if st.Skip? {
        FeedNewKeys(s, w, url, f, entries, j + 1);
        assert FeedFrom(s, w, url, f, entries, j) == FeedFrom(s, w, url, f, entries, j + 1);
      } else if st.Accept? {
        ConsiderEffect(s, w, url, f, j, e);
        SkipIffSeen(s, w, url, f, j, e);
        var next := st.next;
        FeedNewKeys(next, w, url, f, entries, j + 1);
        assert FeedFrom(s, w, url, f, entries, j).after == FeedFrom(next, w, url, f, entries, j + 1).after;
      }
    }
  }

  /** At most one entry is accepted per looked-at position. */
  lemma {:induction false} FeedBound(s: Snapshot, w: World, url: string, f: nat, entries: seq<Entry>, j: nat)
    requires j <= Considered(entries)
    ensures FeedFrom(s, w, url, f, entries, j).added <= Considered(entries) - j
    decreases |entries| - j
  {
    if j < Considered(entries) {
      match Consider(s, w, url, f, j, entries[j])
      case Skip =>
        FeedBound(s, w, url, f, entries, j + 1);
      case Abandon =>
      case Accept(next) =>
        FeedBound(next, w, url, f, entries, j + 1);
    }
  }

  /** One feed, fetched or not: the seen set grows by as many keys as counted, all of them its own, at most 15. */
  lemma HarvestFeedCounts(s: Snapshot, w: World, url: string, f: nat, fetch: Fetch)
    ensures var o := HarvestFeed(s, w, url, f, fetch);
      s.seen <= o.after.seen &&
      |o.after.seen| == |s.seen| + o.added &&
      o.after.seen - s.seen <= FetchKeys(w, fetch) &&
      o.added <= MaxEntries
  {
    match fetch
    case FetchFailed =>
    case Fetched(es) =>
      FeedCounts(s, w, url, f, es, 0);
      FeedNewKeys(s, w, url, f, es, 0);
      FeedBound(s, w, url, f, es, 0);
  }

  /** The keys added to a growing set are as many as it grew by. */
  lemma GrowthSize(s0: set<string>, s1: set<string>)
    requires s0 <= s1
    ensures |s1 - s0| == |s1| - |s0|
  {
    assert s1 == (s1 - s0) + s0;
  }

  /**
   * Over a cycle the seen set only grows, `harvest()` returns the number of
   * keys it added, and every added key belongs to an entry looked at in
   * some feed. The same entry arriving from two feeds therefore counts once.
   */
  lemma {:induction false} CycleCounts(s: Snapshot, w: World, feeds: seq<string>, results: seq<Fetch>, f: nat)
    requires |results| == |feeds|
    ensures var o := CycleFrom(s, w, feeds, results, f);
      s.seen <= o.after.seen &&
      |o.after.seen| == |s.seen| + o.added &&
      o.after.seen - s.seen <= CycleKeys(w, results, f)
    decreases |feeds| - f
  {
    if f < |feeds| {
      var h := HarvestFeed(s, w, feeds[f], f, results[f]);
      HarvestFeedCounts(s, w, feeds[f], f, results[f]);
      CycleCounts(h.after, w, feeds, results, f + 1);
    }
  }

  /** From feed `f` on, a cycle accepts at most 15 entries per feed. */
  lemma {:induction false} CycleBoundFrom(s: Snapshot, w: World, feeds: seq<string>, results: seq<Fetch>, f: nat)
    requires |results| == |feeds| && f <= |feeds|
    ensures CycleFrom(s, w, feeds, results, f).added <= MaxEntries * (|feeds| - f)
    decreases |feeds| - f
  {
    if f < |feeds| {
      var h := HarvestFeed(s, w, feeds[f], f, results[f]);
      HarvestFeedCounts(s, w, feeds[f], f, results[f]);
      CycleBoundFrom(h.after, w, feeds, results, f + 1);
    }
  }

  /**
   * One `harvest()` returns the number of keys it added to the seen set,
   * at most 15 times the number of feeds.
   */
  lemma CycleBound(s: Snapshot, w: World, feeds: seq<string>, results: seq<Fetch>)
    requires |results| == |feeds|
    ensures Cycle(s, w, feeds, results).added <= MaxEntries * |feeds|
    ensures Cycle(s, w, feeds, results).added == |Cycle(s, w, feeds, results).after.seen - s.seen|
  {
    CycleCounts(s, w, feeds, results, 0);
    CycleBoundFrom(s, w, feeds, results, 0);
    GrowthSize(s.seen, Cycle(s, w, feeds, results).after.seen);
  }

  // ---------------------------------------------------------------------------
  // Idempotence

  /** When every looked-at key is already seen, a feed changes nothing and adds nothing. */
  lemma {:induction false} FeedAllSeen(s: Snapshot, w: World, url: string, f: nat, entries: seq<Entry>, j: nat)
    requires FeedKeys(w, entries, j) <= s.seen
    ensures FeedFrom(s, w, url, f, entries, j) == Outcome(s, 0)
    decreases |entries| - j
  {
    if j < Considered(entries) {
      FeedAllSeen(s, w, url, f, entries, j + 1);
    }
  }

  /** When every write succeeds, a feed leaves all of its looked-at keys seen. */
  lemma {:induction false} FeedCovers(s: Snapshot, w: World, url: string, f: nat, entries: seq<Entry>, j: nat)
    requires forall k :: w.writeOk(f, k)
    ensures FeedKeys(w, entries, j) <= FeedFrom(s, w, url, f, entries, j).after.seen
    decreases |entries| - j
  {
    if j < Considered(entries) {
      var e := entries[j];
      var st := Consider(s, w, url, f, j, e);
      ConsiderEffect(s, w, url, f, j, e);
      SkipIffSeen(s, w, url, f, j, e);
      FeedStep(s, w, url, f, entries, j);
      FeedKeysStep(w, entries, j);
      if st.Skip? {
        FeedCovers(s, w, url, f, entries, j + 1);
        FeedCounts(s, w, url, f, entries, j + 1);
      } else {
        assert st.Accept?;
        FeedCovers(st.next, w, url, f, entries, j + 1);
        FeedCounts(st.next, w, url, f, entries, j + 1);
      }
    }
  }

  /** When every write succeeds, a cycle leaves every looked-at key of every feed seen. */
  lemma {:induction false} CycleCovers(s: Snapshot, w: World, feeds: seq<string>, results: seq<Fetch>, f: nat)
    requires |results| == |feeds|
    requires forall g, k :: w.writeOk(g, k)
    ensures CycleKeys(w, results, f) <= CycleFrom(s, w, feeds, results, f).after.seen
    decreases |feeds| - f
  {
    if f < |feeds| {
      var h := HarvestFeed(s, w, feeds[f], f, results[f]);
      match results[f] {
        case FetchFailed =>
        case Fetched(es) =>
          FeedCovers(s, w, feeds[f], f, es, 0);
      }
      CycleCovers(h.after, w, feeds, results, f + 1);
      CycleCounts(h.after, w, feeds, results, f + 1);
    }
  }

  /** When every looked-at key is already seen, a cycle changes nothing and returns 0. */
  lemma {:induction false} CycleAllSeen(s: Snapshot, w: World, feeds: seq<string>, results: seq<Fetch>, f: nat)
    requires |results| == |feeds|
    requires CycleKeys(w, results, f) <= s.seen
    ensures CycleFrom(s, w, feeds, results, f) == Outcome(s, 0)
    decreases |feeds| - f
  {
    if f < |feeds| {
      match results[f] {
        case FetchFailed =>
        case Fetched(es) =>
          FeedAllSeen(s, w, feeds[f], f, es, 0);
      }
      CycleAllSeen(s, w, feeds, results, f + 1);
    }
  }

  /**
   * Harvesting the same feed results a second time, when no write failed,
   * returns 0 and leaves the vault and the seen set exactly as the first
   * harvest left them.
   */
  lemma Idempotent(s: Snapshot, w: World, feeds: seq<string>, results: seq<Fetch>)
    requires |results| == |feeds|
    requires forall g, k :: w.writeOk(g, k)
    ensures var first := Cycle(s, w, feeds, results);
      Cycle(first.after, w, feeds, results) == Outcome(first.after, 0)
  {
    var first := Cycle(s, w, feeds, results);
    CycleCovers(s, w, feeds, results, 0);
    CycleAllSeen(first.after, w, feeds, results, 0);
  }

  // ---------------------------------------------------------------------------
  // Fault isolation

  /**
   * A feed whose fetch or parse raised is processed exactly like a feed with
   * no entries: the feeds before and after it are handled as if it were not
   * there.
   */
  lemma {:induction false} FetchFailureIsolated(s: Snapshot, w: World, feeds: seq<string>, results: seq<Fetch>, g: nat, f: nat)
    requires |results| == |feeds| && g < |feeds|
    ensures CycleFrom(s, w, feeds, results[g := FetchFailed], f) == CycleFrom(s, w, feeds, results[g := Fetched([])], f)
    decreases |feeds| - f
  {
    if f < |feeds| {
      var o := HarvestFeed(s, w, feeds[f], f, results[g := FetchFailed][f]);
      assert o == HarvestFeed(s, w, feeds[f], f, results[g := Fetched([])][f]);
      FetchFailureIsolated(o.after, w, feeds, results, g, f + 1);
    }
  }

  /**
   * When the write for entry `j` fails, in the state the earlier entries
   * left, the feed's effect is exactly that of its first `j` entries: what
   * was accepted before stays, and nothing after `j` is looked at.
   */
  lemma WriteFailureTruncates(s: Snapshot, w: World, url: string, f: nat, entries: seq<Entry>, j: nat)
    requires j < Considered(entries)
    requires Consider(FeedFrom(s, w, url, f, entries[..j], 0).after, w, url, f, j, entries[j]).Abandon?
    ensures FeedFrom(s, w, url, f, entries, 0) == FeedFrom(s, w, url, f, entries[..j], 0)
  {
    TruncateFrom(s, w, url, f, entries, j, 0);
  }

  lemma {:induction false} TruncateFrom(t: Snapshot, w: World, url: string, f: nat, entries: seq<Entry>, j: nat, i: nat)
    requires i <= j < Considered(entries)
    requires Consider(FeedFrom(t, w, url, f, entries[..j], i).after, w, url, f, j, entries[j]).Abandon?
    ensures FeedFrom(t, w, url, f, entries, i) == FeedFrom(t, w, url, f, entries[..j], i)
    decreases j - i
  {
    var prefix := entries[..j];
    assert Considered(prefix) == j;
    if i < j {
      assert prefix[i] == entries[i];
      match Consider(t, w, url, f, i, entries[i])
      case Skip =>
        TruncateFrom(t, w, url, f, entries, j, i + 1);
      case Abandon =>
      case Accept(next) =>
        TruncateFrom(next, w, url, f, entries, j, i + 1);
    }
  }

  // ---------------------------------------------------------------------------
  // Id allocation across a cycle

  /**
   * Starting from a vault whose valid files are exactly records 1 to n, every
   * accepted entry gets the next id in turn: the vault ends with exactly
   * records 1 to n + count, so within the cycle ids strictly increase and
   * none is reused.
   */
  lemma {:induction false} FeedKeepsContiguous(s: Snapshot, w: World, url: string, f: nat, entries: seq<Entry>, j: nat, n: nat)
    requires Contiguous(s.files, n)
    ensures Contiguous(FeedFrom(s, w, url, f, entries, j).after.files, n + FeedFrom(s, w, url, f, entries, j).added)
    decreases |entries| - j
  {
    if j < Considered(entries) {
      var e := entries[j];
      var st := Consider(s, w, url, f, j, e);
      FeedStep(s, w, url, f, entries, j);
      if st.Skip? {
        FeedKeepsContiguous(s, w, url, f, entries, j + 1, n);
      } else if st.Accept? {
        AllocateContiguous(s.files, n, TitleOf(e), LinkOf(e), url, w.clock(f, j));
        FeedKeepsContiguous(st.next, w, url, f, entries, j + 1, n + 1);
      }
    }
  }

  lemma {:induction false} CycleKeepsContiguous(s: Snapshot, w: World, feeds: seq<string>, results: seq<Fetch>, f: nat, n: nat)
    requires |results| == |feeds|
    requires Contiguous(s.files, n)
    ensures Contiguous(CycleFrom(s, w, feeds, results, f).after.files, n + CycleFrom(s, w, feeds, results, f).added)
    decreases |feeds| - f
  {
    if f < |feeds| {
      var h := HarvestFeed(s, w, feeds[f], f, results[f]);
      match results[f] {
        case FetchFailed =>
        case Fetched(es) =>
          FeedKeepsContiguous(s, w, feeds[f], f, es, 0, n);
      }
      CycleKeepsContiguous(h.after, w, feeds, results, f + 1, n + h.added);
    }
  }

  // ---------------------------------------------------------------------------
  // A worked scenario

  /**
   * With nothing seen and an empty vault, one feed giving ("A", "http://x")
   * and ("B", "http://y") yields 2, with record 1 for the first entry and
   * record 2 for the second; harvesting again yields 0 and changes nothing.
   */
  lemma TwoEntryScenario(w: World, url: string)
    requires Fingerprint(w, "A", "http://x") != Fingerprint(w, "B", "http://y")
    requires forall g, k :: w.writeOk(g, k)
    ensures var results := [Fetched([Entry(Some("A"), Some("http://x")), Entry(Some("B"), Some("http://y"))])];
      var first := Cycle(Snapshot(map[], {}), w, [url], results);
      first.added == 2 &&
      first.after.files.Keys == {RecordName(1), RecordName(2)} &&
      first.after.files[RecordName(1)] == Doc(RecordDoc(Record(1, "A", "http://x", url, w.clock(0, 0)))) &&
      first.after.files[RecordName(2)] == Doc(RecordDoc(Record(2, "B", "http://y", url, w.clock(0, 1)))) &&
      Cycle(first.after, w, [url], results) == Outcome(first.after, 0)
  {
    var a := Entry(Some("A"), Some("http://x"));
    var b := Entry(Some("B"), Some("http://y"));
    var results := [Fetched([a, b])];
    var s0 := Snapshot(map[], {});
    var r1 := Record(1, "A", "http://x", url, w.clock(0, 0));
    var r2 := Record(2, "B", "http://y", url, w.clock(0, 1));
    var s2 := Snapshot(Put(Put(s0.files, r1), r2), {KeyOf(w, a), KeyOf(w, b)});
    TwoEntryFeed(w, url);
    assert CycleFrom(s2, w, [url], results, 1) == Outcome(s2, 0);
    assert Cycle(s0, w, [url], results) == Outcome(s2, 2);
    TwoEntryFiles(r1, r2);
    Idempotent(s0, w, [url], results);
  }

  /** The feed of the scenario, entry by entry: record 1, then record 2. */
  lemma TwoEntryFeed(w: World, url: string)
    requires Fingerprint(w, "A", "http://x") != Fingerprint(w, "B", "http://y")
    requires forall g, k :: w.writeOk(g, k)
    ensures var a := Entry(Some("A"), Some("http://x"));
      var b := Entry(Some("B"), Some("http://y"));
      var r1 := Record(1, "A", "http://x", url, w.clock(0, 0));
      var r2 := Record(2, "B", "http://y", url, w.clock(0, 1));
      FeedFrom(Snapshot(map[], {}), w, url, 0, [a, b], 0) ==
        Outcome(Snapshot(Put(Put(map[], r1), r2), {KeyOf(w, a), KeyOf(w, b)}), 2)
  {
    var a := Entry(Some("A"), Some("http://x"));
    var b := Entry(Some("B"), Some("http://y"));
    var s0 := Snapshot(map[], {});
    var r1 := Record(1, "A", "http://x", url, w.clock(0, 0));
    var s1 := Snapshot(Put(s0.files, r1), {KeyOf(w, a)});
    var r2 := Record(2, "B", "http://y", url, w.clock(0, 1));
    var s2 := Snapshot(Put(s1.files, r2), {KeyOf(w, a), KeyOf(w, b)});
    FirstIdIsOne(r1);
    assert Consider(s0, w, url, 0, 0, a) == Accept(s1);
    assert Consider(s1, w, url, 0, 1, b) == Accept(s2);
    assert FeedFrom(s2, w, url, 0, [a, b], 2) == Outcome(s2, 0);
    FeedStep(s1, w, url, 0, [a, b], 1);
    FeedStep(s0, w, url, 0, [a, b], 0);
  }

  /** In an empty vault the next id is 1, and once record 1 is stored it is 2. */
  lemma FirstIdIsOne(r1: Record)
    requires r1.id == 1
    ensures NextId(map[]) == 1 && NextId(Put(map[], r1)) == 2
  {
    assert ValidNames(map[]) == {};
    PutEffect(map[], r1);
  }

  /** Records 1 and 2 written into an empty vault sit in two distinct files. */
  lemma TwoEntryFiles(r1: Record, r2: Record)
    requires r1.id == 1 && r2.id == 2
    ensures var files := Put(Put(map[], r1), r2);
      files.Keys == {RecordName(1), RecordName(2)} &&
      files[RecordName(1)] == Doc(RecordDoc(r1)) &&
      files[RecordName(2)] == Doc(RecordDoc(r2))
  {
    RecordNameInjective(1, 2);
  }

  // ---------------------------------------------------------------------------
  // The imperative pipeline

  /**
   * The vault directory and the module-level `seen` set, which `harvest()`
   * updates in place, together with the text of `seen.txt` (None while the
   * file does not exist).
   */
  class Vault {
    var files: map<string, Content>
    var seen: set<string>
    var seenFile: Option<string>

    /** Module start-up: `seen` is read from `seen.txt` when the file exists, and is empty otherwise. */
    constructor Open(dir: map<string, Content>, ledger: Option<string>)
      ensures files == dir && seenFile == ledger
      ensures seen == LoadSeen(ledger)
    {
      files := dir;
      seenFile := ledger;
      seen := LoadSeen(ledger);
    }

    /** The scan on line 41: counts the `*.json` files whose `safe_load` is truthy. */
    method CountValid() returns (count: nat)
      ensures count == ValidCount(files)
    {
      count := 0;
      var rest := files.Keys;
      ghost var done: set<string> := {};
      ghost var valid := ValidNames(files);
      while rest != {}
        invariant rest !! done && rest + done == files.Keys
        invariant count == |valid * done|
        decreases |rest|
      {
        var name :| name in rest;
        CountStep(valid, done, name);
        assert name in valid <==> IsValid(name, files[name]);
        if IsValid(name, files[name]) {
          count := count + 1;
        }
        rest := rest - {name};
        done := done + {name};
      }
      assert valid * done == valid;
    }

    /**
     * The inner loop of `harvest()` for feed `f`, fetched from `url`: the
     * first 15 entries in order, leaving the loop when a write raises.
     */
    method HarvestEntries(url: string, f: nat, entries: seq<Entry>, w: World) returns (added: nat)
      modifies this
      ensures var o := FeedFrom(Snapshot(old(files), old(seen)), w, url, f, entries, 0);
        files == o.after.files && seen == o.after.seen && added == o.added
      ensures seenFile == old(seenFile)
    {
      ghost var goal := FeedFrom(Snapshot(files, seen), w, url, f, entries, 0);
      added := 0;
      var j := 0;
      while j < |entries| && j < MaxEntries
        invariant j <= |entries|
        invariant seenFile == old(seenFile)
        invariant FeedFrom(Snapshot(files, seen), w, url, f, entries, j).after == goal.after
        invariant added + FeedFrom(Snapshot(files, seen), w, url, f, entries, j).added == goal.added
        decreases |entries| - j
      {
        var e := entries[j];
        ghost var before := Snapshot(files, seen);
        FeedStep(before, w, url, f, entries, j);
        var title := TitleOf(e);
        var link := LinkOf(e);
        if link != "" {
          var key := Fingerprint(w, title, link);
          if key !in seen {
            var count := CountValid();
            var idx := count + 1;
            var rec := Record(idx, title, link, url, w.clock(f, j));
            if !w.writeOk(f, j) {
              assert Consider(before, w, url, f, j, e) == Abandon;
              break;
            }
            files := Put(files, rec);
            seen := seen + {key};
            added := added + 1;
            assert Consider(before, w, url, f, j, e) == Accept(Snapshot(files, seen));
          } else {
            assert Consider(before, w, url, f, j, e) == Skip;
          }
        } else {
          assert Consider(before, w, url, f, j, e) == Skip;
        }
        j := j + 1;
      }
    }

    /**
     * `harvest()`: runs every feed in turn, changing the vault and the seen
     * set exactly as `Cycle` says. The seen file is rewritten, from the whole
     * seen set, only when the cycle's count is positive, and then reads back
     * as the seen set provided every key is a line. That rewrite lies outside
     * the per-feed `try`: when it fails, `harvest()` raises (None) instead of
     * returning the count, and the changes to the vault and the seen set stay.
     */
    method Harvest(feeds: seq<string>, results: seq<Fetch>, w: World) returns (count: Option<nat>)
      requires |results| == |feeds|
      modifies this
      ensures var o := Cycle(Snapshot(old(files), old(seen)), w, feeds, results);
        files == o.after.files && seen == o.after.seen &&
        count == (if o.added > 0 && !w.ledgerOk then None else Some(o.added)) &&
        (o.added == 0 || !w.ledgerOk ==> seenFile == old(seenFile)) &&
        (o.added > 0 && w.ledgerOk ==> exists lines :: Enumerates(lines, seen) && seenFile == Some(JoinLines(lines))) &&
        (o.added > 0 && w.ledgerOk && (forall k :: k in seen ==> IsLine(k)) ==> LoadSeen(seenFile) == seen)
    {
      ghost var start := Snapshot(files, seen);
      ghost var goal := Cycle(start, w, feeds, results);
      var added := 0;
      var f := 0;
      while f < |feeds|
        invariant f <= |feeds|
        invariant seenFile == old(seenFile)
        invariant CycleFrom(Snapshot(files, seen), w, feeds, results, f).after == goal.after
        invariant added + CycleFrom(Snapshot(files, seen), w, feeds, results, f).added == goal.added
      {
        match results[f] {
          case FetchFailed =>
          case Fetched(entries) =>
            var n := HarvestEntries(feeds[f], f, entries, w);
            added := added + n;
        }
        f := f + 1;
      }
      count := Some(added);
      if added > 0 {
        if !w.ledgerOk {
          count := None;
        } else {
          var text := Serialise(seen);
          seenFile := Some(text);
          forall lines | Enumerates(lines, seen) && (forall k :: k in seen ==> IsLine(k))
            ensures LoadSeen(Some(JoinLines(lines))) == seen
          {
            RoundTrip(seen, lines);
          }
        }
      }
    }
  }

  /**
   * A seen file written by `harvest()` reads back as the seen set when the
   * keys read at start-up were lines and the digest is a hexadecimal one.
   */
  lemma SeenFileKeysAreLines(s: Snapshot, w: World, feeds: seq<string>, results: seq<Fetch>)
    requires |results| == |feeds|
    requires forall k :: k in s.seen ==> IsLine(k)
    requires forall t :: IsHexDigest(w.digest(t))
    ensures forall k :: k in Cycle(s, w, feeds, results).after.seen ==> IsLine(k)
  {
    CycleCounts(s, w, feeds, results, 0);
    CycleKeysAreDigests(w, results, 0);
  }

  lemma {:induction false} CycleKeysAreDigests(w: World, results: seq<Fetch>, f: nat)
    requires forall t :: IsHexDigest(w.digest(t))
    ensures forall k :: k in CycleKeys(w, results, f) ==> IsLine(k)
    decreases |results| - f
  {
    if f < |results| {
      match results[f] {
        case FetchFailed =>
        case Fetched(es) =>
          FeedKeysAreDigests(w, es, 0);
      }
      CycleKeysAreDigests(w, results, f + 1);
    }
  }

  lemma {:induction false} FeedKeysAreDigests(w: World, entries: seq<Entry>, j: nat)
    requires forall t :: IsHexDigest(w.digest(t))
    ensures forall k :: k in FeedKeys(w, entries, j) ==> IsLine(k)
    decreases |entries| - j
  {
    if j < Considered(entries) {
      FeedKeysAreDigests(w, entries, j + 1);
      assert IsHexDigest(w.digest(TitleOf(entries[j]) + LinkOf(entries[j])));
    }
  }
}
