/**
 * The vault directory as the record store: the files in it, which of them
 * `safe_load` accepts, how the next record id is derived from them and the
 * name a record is written under.
 */
module Store {
  import opened Wrappers
  import opened Text

  /** The object `harvest()` writes for one accepted entry. */
  datatype Record = Record(id: int, title: string, url: string, source: string, date: string)

  /** A JSON document, reduced to what the vault's readers look at. */
  datatype Json =
    | RecordDoc(record: Record)  // an object with id, title, url, source and date: a non-empty dict, so truthy
    | OtherDoc(truthy: bool)     // any other value, with its Python truth value ({}, [], "", 0, false, null are falsy)

  /** The text of one vault file, as `json.loads` sees it after `strip()`. */
  datatype Content =
    | Blank            // empty or white space only
    | Garbage          // not JSON, or not readable as UTF-8
    | Doc(json: Json)  // well-formed JSON

  /** `safe_load`: the decoded document, or None when the text is blank or does not decode. */
  function SafeLoad(c: Content): Option<Json> {
    match c
    case Doc(j) => Some(j)
    case _ => None
  }

  /** Python's truth value of what `safe_load` returned. */
  predicate Truthy(v: Option<Json>) {
    match v
    case None => false
    case Some(RecordDoc(_)) => true
    case Some(OtherDoc(t)) => t
  }

  /** Whether pathlib's `glob("*.json")` yields a file of this name. */
  predicate IsJsonName(name: string) {
    |name| >= 5 && name[|name| - 5..] == ".json"
  }

  /** The names `VAULT_DIR.glob("*.json")` yields. */
  function JsonNames(files: map<string, Content>): set<string> {
    set n | n in files && IsJsonName(n)
  }

  /** Whether the file `name` with content `c` counts as a record: `*.json` whose `safe_load` is truthy. */
  predicate IsValid(name: string, c: Content) {
    IsJsonName(name) && Truthy(SafeLoad(c))
  }

  /** The files the vault counts as records. */
  function ValidNames(files: map<string, Content>): set<string> {
    set n | n in files && IsValid(n, files[n])
  }

  /** `len([f for f in VAULT_DIR.glob("*.json") if safe_load(f)])`. */
  function ValidCount(files: map<string, Content>): nat {
    |ValidNames(files)|
  }

  /** The id the next accepted entry gets: one more than the number of valid records. */
  function NextId(files: map<string, Content>): nat {
    ValidCount(files) + 1
  }

  /** `f"{idx:06d}.json"`. */
  function RecordName(idx: nat): (name: string)
    ensures IsJsonName(name) && |name| >= 11
  {
    var name := ZeroPad(Decimal(idx), 6) + ".json";
    assert name[|name| - 5..] == ".json";
    name
  }

  /** The number a record name was formatted from: the digits before ".json". */
  function NameIndex(name: string): nat
    requires IsJsonName(name) && AllDigits(name[..|name| - 5])
  {
    ParseDecimal(name[..|name| - 5])
  }

  /**
   * A record name is a `*.json` name of six digits exactly for ids up to
   * 999999 (longer beyond), and the id can be read back from it, so distinct
   * ids give distinct names.
   */
  lemma RecordNameFormat(idx: nat)
    ensures IsJsonName(RecordName(idx))
    ensures idx <= 999999 <==> |RecordName(idx)| == 11
    ensures AllDigits(RecordName(idx)[..|RecordName(idx)| - 5])
    ensures NameIndex(RecordName(idx)) == idx
  {
    var d := Decimal(idx);
    var name := RecordName(idx);
    var padded := ZeroPad(d, 6);
    assert name[..|name| - 5] == padded;
    assert name[|name| - 5..] == ".json";
    DecimalWidth(idx, 6);
    assert Pow10(6) == 1000000;
    ParseDecimalOfDecimal(idx);
    if |d| < 6 {
      ParseDecimalLeadingZeros(6 - |d|, d);
    }
  }

  /** Distinct ids are written under distinct names. */
  lemma RecordNameInjective(i: nat, j: nat)
    ensures RecordName(i) == RecordName(j) <==> i == j
  {
    RecordNameFormat(i);
    RecordNameFormat(j);
  }

  /** `path.write_text(json.dumps(data))`: the record's file now holds it; it is created or overwritten. */
  function Put(files: map<string, Content>, r: Record): map<string, Content>
    requires r.id >= 0
  {
    files[RecordName(r.id) := Doc(RecordDoc(r))]
  }

  /** Writing one file changes whether that file counts, and nothing else about the count. */
  lemma ValidNamesAfterWrite(files: map<string, Content>, name: string, c: Content)
    ensures ValidNames(files[name := c]) ==
            (ValidNames(files) - {name}) + (if IsValid(name, c) then {name} else {})
  {
  }

  /**
   * Storing a record touches only the file named after its id, which then
   * holds the record and counts; the number of valid records grows by one
   * exactly when that file did not count before, and stays put when it
   * overwrote a valid record.
   */
  lemma PutEffect(files: map<string, Content>, r: Record)
    requires r.id >= 0
    ensures var after := Put(files, r);
      after.Keys == files.Keys + {RecordName(r.id)} &&
      after[RecordName(r.id)] == Doc(RecordDoc(r)) &&
      (forall n :: n in files && n != RecordName(r.id) ==> after[n] == files[n]) &&
      RecordName(r.id) in ValidNames(after) &&
      ValidCount(after) == ValidCount(files) + (if RecordName(r.id) in ValidNames(files) then 0 else 1)
  {
    WriteValid(files, RecordName(r.id), Doc(RecordDoc(r)));
  }

  /** Writing a file that counts adds one to the count unless that file already counted. */
  lemma WriteValid(files: map<string, Content>, name: string, c: Content)
    requires IsValid(name, c)
    ensures name in ValidNames(files[name := c])
    ensures ValidCount(files[name := c]) == ValidCount(files) + (if name in ValidNames(files) then 0 else 1)
  {
    ValidNamesAfterWrite(files, name, c);
    if name in ValidNames(files) {
      assert ValidNames(files[name := c]) == ValidNames(files);
    } else {
      assert ValidNames(files[name := c]) == ValidNames(files) + {name};
    }
  }

  /** Visiting one more name adds one to the count of valid names visited exactly when it is valid. */
  lemma CountStep(valid: set<string>, visited: set<string>, x: string)
    requires x !in visited
    ensures |valid * (visited + {x})| == |valid * visited| + (if x in valid then 1 else 0)
  {
    if x in valid {
      assert valid * (visited + {x}) == valid * visited + {x};
    } else {
      assert valid * (visited + {x}) == valid * visited;
    }
  }

  /** The names of records 1 to n. */
  function NameRange(n: nat): set<string> {
    set i: nat | 1 <= i <= n :: RecordName(i)
  }

  /** The valid files are exactly 000001.json to the name of record n. */
  predicate Contiguous(files: map<string, Content>, n: nat) {
    ValidNames(files) == NameRange(n)
  }

  lemma {:induction false} NameRangeSize(n: nat)
    ensures |NameRange(n)| == n
  {
    if n > 0 {
      NameRangeNext(n - 1);
      NameRangeSize(n - 1);
    }
  }

  /** The name of record n + 1 is new to the range 1..n and extends it to 1..n + 1. */
  lemma NameRangeNext(n: nat)
    ensures RecordName(n + 1) !in NameRange(n)
    ensures NameRange(n + 1) == NameRange(n) + {RecordName(n + 1)}
  {
    if RecordName(n + 1) in NameRange(n) {
      var i: nat :| 1 <= i <= n && RecordName(i) == RecordName(n + 1);
      RecordNameInjective(i, n + 1);
    }
  }

  /**
   * From a vault whose valid files are exactly records 1 to n, the next id
   * is n + 1, its file is not yet a valid record, and storing it leaves the
   * valid files exactly records 1 to n + 1 (what else the store leaves alone
   * is `PutEffect`).
   */
  lemma AllocateContiguous(files: map<string, Content>, n: nat, title: string, url: string, source: string, date: string)
    requires Contiguous(files, n)
    ensures NextId(files) == n + 1
    ensures RecordName(n + 1) !in ValidNames(files)
    ensures var after := Put(files, Record(n + 1, title, url, source, date));
      Contiguous(after, n + 1)
  {
    NameRangeSize(n);
    NameRangeNext(n);
    var name := RecordName(n + 1);
    var c := Doc(RecordDoc(Record(n + 1, title, url, source, date)));
    ValidNamesAfterWrite(files, name, c);
    assert ValidNames(files) - {name} == NameRange(n);
  }

  /**
   * After a gap, the next id names a file that is already a valid record:
   * storing the new record overwrites it and the number of valid records
   * does not grow, so ids are not unique once a file has been removed.
   */
  lemma AllocateOverGap(files: map<string, Content>, title: string, url: string, source: string, date: string)
    requires RecordName(NextId(files)) in ValidNames(files)
    ensures var r := Record(NextId(files), title, url, source, date);
      ValidCount(Put(files, r)) == ValidCount(files) &&
      Put(files, r).Keys == files.Keys &&
      Put(files, r)[RecordName(r.id)] == Doc(RecordDoc(r))
  {
    PutEffect(files, Record(NextId(files), title, url, source, date));
  }

  /** Record 5 is stored as 000005.json. */
  lemma FifthRecordName()
    ensures RecordName(5) == "000005.json"
  {
    assert Decimal(5) == "5";
  }

  /**
   * Records 1 to n were written and record k < n was then deleted: n - 1
   * valid records remain, so the next entry gets id n, whose file already
   * holds a valid record; storing it overwrites that file and leaves n - 1
   * valid records. Ids silently compact instead of preserving the gap.
   */
  lemma AllocateAfterDeletion(files: map<string, Content>, n: nat, k: nat, title: string, url: string, source: string, date: string)
    requires 1 <= k < n
    requires ValidNames(files) == NameRange(n) - {RecordName(k)}
    ensures NextId(files) == n
    ensures RecordName(n) in ValidNames(files)
    ensures ValidCount(Put(files, Record(n, title, url, source, date))) == n - 1
  {
    var valid := ValidNames(files);
    assert |valid| == n - 1 by {
      NameRangeSize(n);
      assert RecordName(k) in NameRange(n);
    }
    assert RecordName(n) in valid by {
      assert RecordName(n) in NameRange(n);
      RecordNameInjective(k, n);
    }
    PutEffect(files, Record(n, title, url, source, date));
  }

  /**
   * The five-record case: with 000003.json deleted from records 1 to 5, the
   * next entry gets id 5, is written to 000005.json over record 5, and four
   * valid records remain.
   */
  lemma GapExample(files: map<string, Content>, title: string, url: string, source: string, date: string)
    requires ValidNames(files) == NameRange(5) - {RecordName(3)}
    ensures NextId(files) == 5
    ensures RecordName(NextId(files)) == "000005.json" && "000005.json" in ValidNames(files)
    ensures ValidCount(Put(files, Record(5, title, url, source, date))) == 4
  {
    AllocateAfterDeletion(files, 5, 3, title, url, source, date);
    FifthRecordName();
  }
}
