/**
 * The read side of the vault: load the valid records (line 64), sort them by
 * id, highest first (line 72), keep those whose lower-cased title contains
 * the lower-cased query when a query is given (line 73) and show at most the
 * first 50 (line 75).
 */
module Listing {
  import opened Text
  import opened Store

  /** At most this many records are shown. */
  const ShowLimit: nat := 50

  /** Every valid file holds a record with an id and a title; the listing raises on any other truthy document. */
  predicate WellFormed(files: map<string, Content>) {
    forall n :: n in ValidNames(files) ==> files[n].Doc? && files[n].json.RecordDoc?
  }

  /** `[safe_load(f) for f in files]` where `files` are the valid names, visited in the order `glob` gives. */
  function Records(files: map<string, Content>, order: seq<string>): seq<Record>
    requires forall k :: 0 <= k < |order| ==> order[k] in files
    requires WellFormed(files)
  {
    if order == [] then []
    else
      var last := order[|order| - 1];
      Records(files, order[..|order| - 1]) +
        (if IsValid(last, files[last]) then [files[last].json.record] else [])
  }

  /** Records are ordered by id, highest first. */
  predicate NonIncreasing(rs: seq<Record>) {
    forall i, j :: 0 <= i < j < |rs| ==> rs[i].id >= rs[j].id
  }

  /** Places `r` before the first record whose id is not above its own. */
  function Insert(r: Record, rs: seq<Record>): seq<Record> {
    if rs == [] || rs[0].id <= r.id then [r] + rs else [rs[0]] + Insert(r, rs[1..])
  }

  /** `sorted(rs, key=lambda x: x["id"], reverse=True)`. */
  function SortById(rs: seq<Record>): seq<Record> {
    if rs == [] then [] else Insert(rs[0], SortById(rs[1..]))
  }

  /** In a sequence ordered by id, no record has a higher id than the first. */
  lemma HeadIsHighest(rs: seq<Record>)
    requires rs != [] && NonIncreasing(rs)
    ensures forall x :: x in rs ==> x.id <= rs[0].id
  {
    forall x | x in rs ensures x.id <= rs[0].id {
      var i :| 0 <= i < |rs| && rs[i] == x;
    }
  }

  /** Inserting adds exactly the one record. */
  lemma {:induction false} InsertPerm(r: Record, rs: seq<Record>)
    ensures multiset(Insert(r, rs)) == multiset(rs) + multiset{r}
  {
    if rs != [] && rs[0].id > r.id {
      InsertPerm(r, rs[1..]);
      assert rs == [rs[0]] + rs[1..];
    }
  }

  /** Inserting into a sequence ordered by id keeps it ordered. */
  lemma {:induction false} InsertSorted(r: Record, rs: seq<Record>)
    requires NonIncreasing(rs)
    ensures NonIncreasing(Insert(r, rs))
  {
    if rs != [] {
      HeadIsHighest(rs);
      if rs[0].id > r.id {
        InsertSorted(r, rs[1..]);
        InsertPerm(r, rs[1..]);
        var t := Insert(r, rs[1..]);
        forall k | 0 <= k < |t| ensures rs[0].id >= t[k].id {
          assert t[k] in multiset(t);
        }
        assert Insert(r, rs) == [rs[0]] + t;
      }
    }
  }

  /** Sorting yields the same records, ordered by id, highest first. */
  lemma {:induction false} SortByIdCorrect(rs: seq<Record>)
    ensures NonIncreasing(SortById(rs))
    ensures multiset(SortById(rs)) == multiset(rs)
  {
    if rs != [] {
      SortByIdCorrect(rs[1..]);
      InsertSorted(rs[0], SortById(rs[1..]));
      InsertPerm(rs[0], SortById(rs[1..]));
      assert rs == [rs[0]] + rs[1..];
    }
  }

  /** Whether a record's title matches the query, both lower-cased by `lower` (Python's `str.lower`). */
  predicate Matches(r: Record, query: string, lower: string -> string) {
    Contains(lower(r.title), lower(query))
  }

  /** `[b for b in rs if query.lower() in b["title"].lower()]`. */
  function Filter(rs: seq<Record>, query: string, lower: string -> string): seq<Record> {
    if rs == [] then []
    else (if Matches(rs[0], query, lower) then [rs[0]] else []) + Filter(rs[1..], query, lower)
  }

  /** Line 73: filter when the query is non-empty, keep everything otherwise. */
  function Search(rs: seq<Record>, query: string, lower: string -> string): seq<Record> {
    if query != "" then Filter(rs, query, lower) else rs
  }

  /** `rs[:n]`. */
  function Take(rs: seq<Record>, n: nat): seq<Record> {
    if |rs| <= n then rs else rs[..n]
  }

  /** What the page shows for a query. */
  function Listing(files: map<string, Content>, order: seq<string>, query: string, lower: string -> string): seq<Record>
    requires forall k :: 0 <= k < |order| ==> order[k] in files
    requires WellFormed(files)
  {
    Take(Search(SortById(Records(files, order)), query, lower), ShowLimit)
  }

  /** Filtering keeps exactly the matching records of the input. */
  lemma {:induction false} FilterMembers(rs: seq<Record>, query: string, lower: string -> string)
    ensures forall r :: r in Filter(rs, query, lower) <==> r in rs && Matches(r, query, lower)
  {
    if rs != [] {
      FilterMembers(rs[1..], query, lower);
      assert forall r :: r in rs <==> r == rs[0] || r in rs[1..];
    }
  }

  /** Filtering keeps each record at most as often as it occurs. */
  lemma {:induction false} FilterSub(rs: seq<Record>, query: string, lower: string -> string)
    ensures multiset(Filter(rs, query, lower)) <= multiset(rs)
  {
    if rs != [] {
      FilterSub(rs[1..], query, lower);
      assert rs == [rs[0]] + rs[1..];
    }
  }

  /** Filtering keeps records in their order, so an ordering by id survives. */
  lemma {:induction false} FilterSorted(rs: seq<Record>, query: string, lower: string -> string)
    requires NonIncreasing(rs)
    ensures NonIncreasing(Filter(rs, query, lower))
  {
    if rs != [] {
      FilterSorted(rs[1..], query, lower);
      FilterMembers(rs[1..], query, lower);
      var t := Filter(rs[1..], query, lower);
      forall k | 0 <= k < |t| ensures rs[0].id >= t[k].id {
        assert t[k] in rs[1..];
      }
    }
  }

  /** The names `order` visits. */
  function Visited(order: seq<string>): set<string> {
    set n | n in order
  }

  lemma RecordsStep(files: map<string, Content>, order: seq<string>)
    requires order != []
    requires forall k :: 0 <= k < |order| ==> order[k] in files
    requires WellFormed(files)
    ensures var last := order[|order| - 1];
      |Records(files, order)| == |Records(files, order[..|order| - 1])| + (if last in ValidNames(files) then 1 else 0)
  {
  }

  /** With the names in `order` distinct, the loaded records are as many as the valid names among them. */
  lemma {:induction false} RecordsCount(files: map<string, Content>, order: seq<string>)
    requires forall k :: 0 <= k < |order| ==> order[k] in files
    requires forall i, j :: 0 <= i < j < |order| ==> order[i] != order[j]
    requires WellFormed(files)
    ensures |Records(files, order)| == |ValidNames(files) * Visited(order)|
  {
    if order != [] {
      var init := order[..|order| - 1];
      var last := order[|order| - 1];
      assert forall i, j :: 0 <= i < j < |init| ==> init[i] != init[j] by {
        forall i, j | 0 <= i < j < |init| ensures init[i] != init[j] {
          assert init[i] == order[i] && init[j] == order[j];
        }
      }
      RecordsCount(files, init);
      VisitedStep(order);
      RecordsStep(files, order);
      CountStep(ValidNames(files), Visited(init), last);
    }
  }

  lemma VisitedStep(order: seq<string>)
    requires order != []
    requires forall i, j :: 0 <= i < j < |order| ==> order[i] != order[j]
    ensures var last := order[|order| - 1];
      Visited(order) == Visited(order[..|order| - 1]) + {last} && last !in Visited(order[..|order| - 1])
  {
    var init := order[..|order| - 1];
    assert order == init + [order[|order| - 1]];
  }

  /** The loaded records are as many as the valid files: the count the page shows. */
  lemma RecordsAll(files: map<string, Content>, order: seq<string>)
    requires Enumerates(order, JsonNames(files))
    requires WellFormed(files)
    ensures |Records(files, order)| == ValidCount(files)
  {
    RecordsCount(files, order);
    assert ValidNames(files) * Visited(order) == ValidNames(files);
  }

  /** A prefix of at most `n` records, the whole sequence when it is shorter. */
  lemma TakePrefix(rs: seq<Record>, n: nat)
    ensures |Take(rs, n)| <= n
    ensures |Take(rs, n)| < n ==> Take(rs, n) == rs
    ensures multiset(Take(rs, n)) <= multiset(rs)
    ensures NonIncreasing(rs) ==> NonIncreasing(Take(rs, n))
    ensures Take(rs, n) == rs[..|Take(rs, n)|]
  {
    if |rs| > n {
      assert rs == rs[..n] + rs[n..];
    }
  }

  /** From a sequence ordered by id, a prefix keeps the highest ids: nothing left out is above anything kept. */
  lemma TakeHighest(rs: seq<Record>, n: nat)
    requires NonIncreasing(rs)
    ensures forall r, x :: r in rs && r !in Take(rs, n) && x in Take(rs, n) ==> r.id <= x.id
  {
    TakePrefix(rs, n);
    var shown := Take(rs, n);
    assert forall m :: 0 <= m < |shown| ==> shown[m] == rs[m];
    forall r, x | r in rs && r !in shown && x in shown ensures r.id <= x.id {
      var i :| 0 <= i < |rs| && rs[i] == r;
      var k :| 0 <= k < |shown| && shown[k] == x;
      assert k < i;
    }
  }

  /**
   * The listing shows at most 50 records, ordered by id with the highest
   * first, each one a record loaded from the vault; with a query, every
   * shown title contains the query after lower-casing.
   */
  lemma ListingSound(files: map<string, Content>, order: seq<string>, query: string, lower: string -> string)
    requires forall k :: 0 <= k < |order| ==> order[k] in files
    requires WellFormed(files)
    ensures var shown := Listing(files, order, query, lower);
      |shown| <= ShowLimit &&
      NonIncreasing(shown) &&
      multiset(shown) <= multiset(Records(files, order)) &&
      (query != "" ==> forall r :: r in shown ==> Matches(r, query, lower))
  {
    var all := Records(files, order);
    var sorted := SortById(all);
    SortByIdCorrect(all);
    FilterMembers(sorted, query, lower);
    FilterSub(sorted, query, lower);
    FilterSorted(sorted, query, lower);
    var found := Search(sorted, query, lower);
    TakePrefix(found, ShowLimit);
    var shown := Take(found, ShowLimit);
    forall r | r in shown ensures r in found {
      assert r in multiset(shown);
    }
  }

  /**
   * Nothing is left out that fits: when fewer than 50 are shown, every
   * loaded record that matches the query (every record, with no query) is
   * shown; with no query, min(50, valid files) records are shown, and with
   * at most 50 valid files every loaded record is; and a matching record that is left out has an id no higher than
   * any shown one.
   */
  lemma ListingComplete(files: map<string, Content>, order: seq<string>, query: string, lower: string -> string)
    requires Enumerates(order, JsonNames(files))
    requires WellFormed(files)
    ensures var shown := Listing(files, order, query, lower);
      var all := Records(files, order);
      (|shown| < ShowLimit ==> forall r :: r in all && (query == "" || Matches(r, query, lower)) ==> r in shown) &&
      (query == "" && ValidCount(files) <= ShowLimit ==> multiset(shown) == multiset(all)) &&
      (query == "" ==> |shown| == if ValidCount(files) < ShowLimit then ValidCount(files) else ShowLimit) &&
      (forall r, x :: r in all && (query == "" || Matches(r, query, lower)) && r !in shown && x in shown ==> r.id <= x.id)
  {
    var all := Records(files, order);
    var sorted := SortById(all);
    SortByIdCorrect(all);
    var found := Search(sorted, query, lower);
    TakePrefix(found, ShowLimit);
    FilterSorted(sorted, query, lower);
    TakeHighest(found, ShowLimit);
    FilterMembers(sorted, query, lower);
    forall r | r in all && (query == "" || Matches(r, query, lower)) ensures r in found {
      assert r in multiset(all);
      assert r in sorted;
    }
    if query == "" {
      RecordsAll(files, order);
      assert |sorted| == |all| by {
        assert |multiset(sorted)| == |multiset(all)|;
      }
    }
  }
}
