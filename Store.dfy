/**
 * The three tables of the in-memory database, the keys and relations
 * declared for them, the GUID supply, and what one ingestion run appends.
 */
module Store {
  import opened Entities

  /** The contents of the three tables, in insertion order. */
  datatype Tables = Tables(
    fileMetas: seq<FileMeta>,
    covidCases: seq<CovidCase>,
    covidCasesByDay: seq<CovidCasesByDay>)

  /** `u`'s rows added after `t`'s, table by table. */
  function Append(t: Tables, u: Tables): Tables {
    Tables(t.fileMetas + u.fileMetas, t.covidCases + u.covidCases, t.covidCasesByDay + u.covidCasesByDay)
  }

  const NoTables := Tables([], [], [])

  // Key columns of the three tables.

  function MetaIds(ms: seq<FileMeta>): seq<Guid> {
    seq(|ms|, k requires 0 <= k < |ms| => ms[k].fileMetaID)
  }

  function MetaFks(ms: seq<FileMeta>): seq<Guid> {
    seq(|ms|, k requires 0 <= k < |ms| => ms[k].covidCasesByDayID)
  }

  function CaseIds(cs: seq<CovidCase>): seq<Guid> {
    seq(|cs|, k requires 0 <= k < |cs| => cs[k].covidCaseID)
  }

  function CaseFks(cs: seq<CovidCase>): seq<Guid> {
    seq(|cs|, k requires 0 <= k < |cs| => cs[k].covidCasesByDayID)
  }

  function BatchIds(bs: seq<CovidCasesByDay>): seq<Guid> {
    seq(|bs|, k requires 0 <= k < |bs| => bs[k].covidCasesByDayID)
  }

  function UnlinkedMetas(ms: seq<FileMeta>): seq<FileMeta> {
    seq(|ms|, k requires 0 <= k < |ms| => UnlinkedMeta(ms[k]))
  }

  function UnlinkedCases(cs: seq<CovidCase>): seq<CovidCase> {
    seq(|cs|, k requires 0 <= k < |cs| => UnlinkedCase(cs[k]))
  }

  predicate Distinct(s: seq<Guid>) {
    forall k, l :: 0 <= k < l < |s| ==> s[k] != s[l]
  }

  predicate Disjoint(a: seq<Guid>, b: seq<Guid>) {
    forall k :: 0 <= k < |a| ==> a[k] !in b
  }

  predicate InRange(s: seq<Guid>, lo: nat, hi: nat) {
    forall k :: 0 <= k < |s| ==> lo <= s[k] < hi
  }

  /** The primary keys of the three tables are unique. */
  predicate KeysUnique(t: Tables) {
    Distinct(MetaIds(t.fileMetas)) && Distinct(CaseIds(t.covidCases)) && Distinct(BatchIds(t.covidCasesByDay))
  }

  /** Every file descriptor and every case row points at a stored batch. */
  predicate ForeignKeysResolve(t: Tables) {
    (forall k :: 0 <= k < |t.fileMetas| ==> t.fileMetas[k].covidCasesByDayID in BatchIds(t.covidCasesByDay)) &&
    (forall k :: 0 <= k < |t.covidCases| ==> t.covidCases[k].covidCasesByDayID in BatchIds(t.covidCasesByDay))
  }

  /** The one-to-one side of the model: each batch is pointed at by exactly one file descriptor. */
  predicate OneFileMetaPerBatch(t: Tables) {
    forall k :: 0 <= k < |t.covidCasesByDay| ==>
      multiset(MetaFks(t.fileMetas))[t.covidCasesByDay[k].covidCasesByDayID] == 1
  }

  /** The keys and relationships the database model declares. */
  predicate Valid(t: Tables) {
    KeysUnique(t) && ForeignKeysResolve(t) && OneFileMetaPerBatch(t)
  }

  /** No GUID is a key in two tables (they all come from one GUID supply). */
  predicate KeysDisjoint(t: Tables) {
    Disjoint(BatchIds(t.covidCasesByDay), MetaIds(t.fileMetas)) &&
    Disjoint(BatchIds(t.covidCasesByDay), CaseIds(t.covidCases)) &&
    Disjoint(MetaIds(t.fileMetas), CaseIds(t.covidCases))
  }

  /** Every key and foreign key lies in `[lo, hi)`. */
  predicate IdsInRange(t: Tables, lo: nat, hi: nat) {
    InRange(MetaIds(t.fileMetas), lo, hi) && InRange(MetaFks(t.fileMetas), lo, hi) &&
    InRange(CaseIds(t.covidCases), lo, hi) && InRange(CaseFks(t.covidCases), lo, hi) &&
    InRange(BatchIds(t.covidCasesByDay), lo, hi)
  }

  /**
   * The tables are valid, and every GUID in them is one the supply, whose
   * next GUID is `next`, has already handed out (never `Guid.Empty`).
   */
  predicate Consistent(t: Tables, next: nat) {
    1 <= next && Valid(t) && KeysDisjoint(t) && IdsInRange(t, 1, next)
  }

  /**
   * Guid.NewGuid. Each call hands out a GUID that no earlier call returned:
   * a counter, started above Guid.Empty.
   */
  class GuidSource {
    var next: nat

    constructor ()
      ensures next == 1
    {
      next := 1;
    }

    method NewGuid() returns (g: Guid)
      modifies this
      ensures g == old(next) && next == old(next) + 1
    {
      g := next;
      next := next + 1;
    }
  }

  /** The database context: three tables that are only ever appended to. */
  class CovidCaseDb {
    var fileMetas: seq<FileMeta>
    var covidCases: seq<CovidCase>
    var covidCasesByDay: seq<CovidCasesByDay>

    constructor ()
      ensures Snapshot() == NoTables
    {
      fileMetas, covidCases, covidCasesByDay := [], [], [];
    }

    function Snapshot(): Tables
      reads this
    {
      Tables(fileMetas, covidCases, covidCasesByDay)
    }

    /** `db.fileMetas.Add`. */
    method AddFileMeta(m: FileMeta)
      modifies this
      ensures Snapshot() == Append(old(Snapshot()), Tables([m], [], []))
    {
      fileMetas := fileMetas + [m];
    }

    /** `db.covidCases.Add`. */
    method AddCovidCase(c: CovidCase)
      modifies this
      ensures Snapshot() == Append(old(Snapshot()), Tables([], [c], []))
    {
      covidCases := covidCases + [c];
    }

    /** `db.covidCasesByDay.Add`. */
    method AddCovidCasesByDay(b: CovidCasesByDay)
      modifies this
      ensures Snapshot() == Append(old(Snapshot()), Tables([], [], [b]))
    {
      covidCasesByDay := covidCasesByDay + [b];
    }
  }

  // What one ingestion run appends. GUIDs are drawn in the endpoint's
  // order: for each file the batch id, then the file descriptor's id, then
  // one per case row.

  /** The case rows of one file, each with GUID `first + k` and foreign key `batch`. */
  function StageCases(rows: seq<CovidCase>, batch: Guid, first: Guid): seq<CovidCase> {
    seq(|rows|, k requires 0 <= k < |rows| => rows[k].(covidCaseID := first + k, covidCasesByDayID := batch))
  }

  /** One selected file staged with GUIDs from `base` on. */
  function StageOne(f: FileMeta, rows: seq<CovidCase>, base: Guid): Tables {
    Tables([f.(fileMetaID := base + 1, covidCasesByDayID := base)],
           StageCases(rows, base, base + 2),
           [CovidCasesByDay(base)])
  }

  /** The case rows of all files, file after file. */
  function AllRows(files: seq<FileMeta>, download: FileMeta -> seq<CovidCase>): seq<CovidCase>
    decreases |files|
  {
    if files == [] then [] else AllRows(files[..|files| - 1], download) + download(files[|files| - 1])
  }

  /** The number of GUIDs an ingestion of `files` draws. */
  function Consumed(files: seq<FileMeta>, download: FileMeta -> seq<CovidCase>): nat {
    2 * |files| + |AllRows(files, download)|
  }

  /** What staging `files` appends to the tables, with GUIDs from `base` on. */
  function StageAll(files: seq<FileMeta>, download: FileMeta -> seq<CovidCase>, base: Guid): Tables
    decreases |files|
  {
    if files == [] then NoTables
    else
      var init := files[..|files| - 1];
      var f := files[|files| - 1];
      Append(StageAll(init, download, base), StageOne(f, download(f), base + Consumed(init, download)))
  }

  /** Staging one more file is staging the prefix, then that file with the next unused GUIDs. */
  lemma StageAllStep(files: seq<FileMeta>, download: FileMeta -> seq<CovidCase>, base: Guid, i: nat)
    requires i < |files|
    ensures var done := files[..i];
      StageAll(files[..i + 1], download, base)
        == Append(StageAll(done, download, base), StageOne(files[i], download(files[i]), base + Consumed(done, download))) &&
      Consumed(files[..i + 1], download) == Consumed(done, download) + 2 + |download(files[i])|
  {
    assert files[..i + 1][..i] == files[..i];
  }

  // Facts about the key columns.

  lemma ColumnsOfAppend(t: Tables, u: Tables)
    ensures var a := Append(t, u);
      MetaIds(a.fileMetas) == MetaIds(t.fileMetas) + MetaIds(u.fileMetas) &&
      MetaFks(a.fileMetas) == MetaFks(t.fileMetas) + MetaFks(u.fileMetas) &&
      CaseIds(a.covidCases) == CaseIds(t.covidCases) + CaseIds(u.covidCases) &&
      CaseFks(a.covidCases) == CaseFks(t.covidCases) + CaseFks(u.covidCases) &&
      BatchIds(a.covidCasesByDay) == BatchIds(t.covidCasesByDay) + BatchIds(u.covidCasesByDay) &&
      UnlinkedMetas(a.fileMetas) == UnlinkedMetas(t.fileMetas) + UnlinkedMetas(u.fileMetas) &&
      UnlinkedCases(a.covidCases) == UnlinkedCases(t.covidCases) + UnlinkedCases(u.covidCases)
  {
  }

  lemma OutOfRange(s: seq<Guid>, lo: nat, hi: nat, x: Guid)
    requires InRange(s, lo, hi) && !(lo <= x < hi)
    ensures x !in s && multiset(s)[x] == 0
  {
  }

  lemma InRangeConcat(a: seq<Guid>, b: seq<Guid>, lo: nat, mid: nat, hi: nat)
    requires lo <= mid <= hi && InRange(a, lo, mid) && InRange(b, mid, hi)
    ensures InRange(a + b, lo, hi)
  {
  }

  lemma DistinctConcat(a: seq<Guid>, b: seq<Guid>, lo: nat, mid: nat, hi: nat)
    requires Distinct(a) && Distinct(b) && InRange(a, lo, mid) && InRange(b, mid, hi)
    ensures Distinct(a + b)
  {
  }

  lemma DisjointConcat(a1: seq<Guid>, a2: seq<Guid>, b1: seq<Guid>, b2: seq<Guid>, lo: nat, mid: nat, hi: nat)
    requires Disjoint(a1, b1) && Disjoint(a2, b2)
    requires InRange(a1, lo, mid) && InRange(b1, lo, mid) && InRange(a2, mid, hi) && InRange(b2, mid, hi)
    ensures Disjoint(a1 + a2, b1 + b2)
  {
  }

  /** A constant sequence holds its value as often as it is long. */
  lemma {:induction false} CountConstant(s: seq<Guid>, x: Guid)
    requires forall k :: 0 <= k < |s| ==> s[k] == x
    ensures multiset(s)[x] == |s|
    decreases |s|
  {
    if s != [] {
      CountConstant(s[1..], x);
      assert s == [s[0]] + s[1..];
    }
  }

  /**
   * Appending tables whose GUIDs all lie above those of `t` keeps every
   * key unique, every foreign key resolved and every batch with exactly
   * one file descriptor.
   */
  lemma AppendPreserves(t: Tables, u: Tables, lo: nat, mid: nat, hi: nat)
    requires lo <= mid <= hi
    requires Valid(t) && KeysDisjoint(t) && IdsInRange(t, lo, mid)
    requires Valid(u) && KeysDisjoint(u) && IdsInRange(u, mid, hi)
    ensures Valid(Append(t, u)) && KeysDisjoint(Append(t, u)) && IdsInRange(Append(t, u), lo, hi)
  {
    var a := Append(t, u);
    ColumnsOfAppend(t, u);
    InRangeConcat(MetaIds(t.fileMetas), MetaIds(u.fileMetas), lo, mid, hi);
    InRangeConcat(MetaFks(t.fileMetas), MetaFks(u.fileMetas), lo, mid, hi);
    InRangeConcat(CaseIds(t.covidCases), CaseIds(u.covidCases), lo, mid, hi);
    InRangeConcat(CaseFks(t.covidCases), CaseFks(u.covidCases), lo, mid, hi);
    InRangeConcat(BatchIds(t.covidCasesByDay), BatchIds(u.covidCasesByDay), lo, mid, hi);
    DistinctConcat(MetaIds(t.fileMetas), MetaIds(u.fileMetas), lo, mid, hi);
    DistinctConcat(CaseIds(t.covidCases), CaseIds(u.covidCases), lo, mid, hi);
    DistinctConcat(BatchIds(t.covidCasesByDay), BatchIds(u.covidCasesByDay), lo, mid, hi);
    DisjointConcat(BatchIds(t.covidCasesByDay), BatchIds(u.covidCasesByDay),
                   MetaIds(t.fileMetas), MetaIds(u.fileMetas), lo, mid, hi);
    DisjointConcat(BatchIds(t.covidCasesByDay), BatchIds(u.covidCasesByDay),
                   CaseIds(t.covidCases), CaseIds(u.covidCases), lo, mid, hi);
    DisjointConcat(MetaIds(t.fileMetas), MetaIds(u.fileMetas),
                   CaseIds(t.covidCases), CaseIds(u.covidCases), lo, mid, hi);
    forall k | 0 <= k < |a.fileMetas|
      ensures a.fileMetas[k].covidCasesByDayID in BatchIds(a.covidCasesByDay)
    {
      if k < |t.fileMetas| {
        assert a.fileMetas[k] == t.fileMetas[k];
      } else {
        assert a.fileMetas[k] == u.fileMetas[k - |t.fileMetas|];
      }
    }
    forall k | 0 <= k < |a.covidCases|
      ensures a.covidCases[k].covidCasesByDayID in BatchIds(a.covidCasesByDay)
    {
      if k < |t.covidCases| {
        assert a.covidCases[k] == t.covidCases[k];
      } else {
        assert a.covidCases[k] == u.covidCases[k - |t.covidCases|];
      }
    }
    forall k | 0 <= k < |a.covidCasesByDay|
      ensures multiset(MetaFks(a.fileMetas))[a.covidCasesByDay[k].covidCasesByDayID] == 1
    {
      var id := a.covidCasesByDay[k].covidCasesByDayID;
      if k < |t.covidCasesByDay| {
        assert id == BatchIds(t.covidCasesByDay)[k];
        OutOfRange(MetaFks(u.fileMetas), mid, hi, id);
      } else {
        assert id == BatchIds(u.covidCasesByDay)[k - |t.covidCasesByDay|];
        OutOfRange(MetaFks(t.fileMetas), lo, mid, id);
      }
    }
  }

  /** One staged file on its own: valid, GUIDs from `base`, and its batch owns all its rows. */
  lemma StageOneProperties(f: FileMeta, rows: seq<CovidCase>, base: Guid)
    ensures var u := StageOne(f, rows, base);
      Valid(u) && KeysDisjoint(u) && IdsInRange(u, base, base + 2 + |rows|) &&
      multiset(CaseFks(u.covidCases))[base] == |rows| &&
      UnlinkedCases(u.covidCases) == UnlinkedCases(rows)
  {
    var u := StageOne(f, rows, base);
    assert MetaFks(u.fileMetas) == [base];
    assert BatchIds(u.covidCasesByDay) == [base];
    CountConstant(CaseFks(u.covidCases), base);
  }

  /** A run tags everything it appends with GUIDs in `[base, base + Consumed)`. */
  lemma {:induction false} StageAllInRange(files: seq<FileMeta>, download: FileMeta -> seq<CovidCase>, base: Guid)
    ensures IdsInRange(StageAll(files, download, base), base, base + Consumed(files, download))
    decreases |files|
  {
    if files != [] {
      var init := files[..|files| - 1];
      var f := files[|files| - 1];
      var mid := base + Consumed(init, download);
      var hi := base + Consumed(files, download);
      var p := StageAll(init, download, base);
      var u := StageOne(f, download(f), mid);
      assert AllRows(files, download) == AllRows(init, download) + download(f);
      assert hi == mid + 2 + |download(f)|;
      StageAllInRange(init, download, base);
      assert IdsInRange(StageOne(f, download(f), mid), mid, mid + 2 + |download(f)|) by {
        StageOneProperties(f, download(f), mid);
      }
      ColumnsOfAppend(p, u);
      InRangeConcat(MetaIds(p.fileMetas), MetaIds(u.fileMetas), base, mid, hi);
      InRangeConcat(MetaFks(p.fileMetas), MetaFks(u.fileMetas), base, mid, hi);
      InRangeConcat(CaseIds(p.covidCases), CaseIds(u.covidCases), base, mid, hi);
      InRangeConcat(CaseFks(p.covidCases), CaseFks(u.covidCases), base, mid, hi);
      InRangeConcat(BatchIds(p.covidCasesByDay), BatchIds(u.covidCasesByDay), base, mid, hi);
    }
  }

  /** A run appends one file descriptor and one batch per selected file and one case row per parsed row. */
  lemma {:induction false} StageAllCounts(files: seq<FileMeta>, download: FileMeta -> seq<CovidCase>, base: Guid)
    ensures var s := StageAll(files, download, base);
      |s.fileMetas| == |files| && |s.covidCasesByDay| == |files| &&
      |s.covidCases| == |AllRows(files, download)|
    decreases |files|
  {
    if files != [] {
      StageAllCounts(files[..|files| - 1], download, base);
    }
  }

  /**
   * What a run appends is valid on its own, keeps its keys apart across
   * the tables, and uses exactly the GUIDs `[base, base + Consumed)`.
   */
  lemma {:induction false} StageAllValid(files: seq<FileMeta>, download: FileMeta -> seq<CovidCase>, base: Guid)
    ensures var s := StageAll(files, download, base);
      Valid(s) && KeysDisjoint(s) && IdsInRange(s, base, base + Consumed(files, download))
    decreases |files|
  {
    if files != [] {
      var init := files[..|files| - 1];
      var f := files[|files| - 1];
      var mid := base + Consumed(init, download);
      var hi := base + Consumed(files, download);
      var p := StageAll(init, download, base);
      var u := StageOne(f, download(f), mid);
      assert StageAll(files, download, base) == Append(p, u);
      assert AllRows(files, download) == AllRows(init, download) + download(f);
      assert hi == mid + 2 + |download(f)|;
      StageAllValid(init, download, base);
      StageOneProperties(f, download(f), mid);
      AppendPreserves(p, u, base, mid, hi);
    }
  }

  /**
   * A run changes nothing but the key columns: the descriptors appended
   * are the selected ones and the case rows appended are the parsed ones,
   * in order.
   */
  lemma {:induction false} StageAllContents(files: seq<FileMeta>, download: FileMeta -> seq<CovidCase>, base: Guid)
    ensures var s := StageAll(files, download, base);
      UnlinkedMetas(s.fileMetas) == UnlinkedMetas(files) &&
      UnlinkedCases(s.covidCases) == UnlinkedCases(AllRows(files, download))
    decreases |files|
  {
    if files != [] {
      var init := files[..|files| - 1];
      var f := files[|files| - 1];
      var mid := base + Consumed(init, download);
      StageAllContents(init, download, base);
      StageOneProperties(f, download(f), mid);
      ColumnsOfAppend(StageAll(init, download, base), StageOne(f, download(f), mid));
      assert files == init + [f];
      assert UnlinkedMetas(files) == UnlinkedMetas(init) + UnlinkedMetas([f]);
      assert UnlinkedCases(AllRows(files, download)) == UnlinkedCases(AllRows(init, download)) + UnlinkedCases(download(f));
    }
  }

  /** Appending rows that point above `mid` leaves the count for an earlier batch unchanged. */
  lemma CountOfEarlierBatch(p: Tables, u: Tables, id: Guid, mid: nat, hi: nat)
    requires id < mid && InRange(CaseFks(u.covidCases), mid, hi)
    ensures multiset(CaseFks(Append(p, u).covidCases))[id] == multiset(CaseFks(p.covidCases))[id]
  {
    ColumnsOfAppend(p, u);
    OutOfRange(CaseFks(u.covidCases), mid, hi, id);
  }

  /** The batch staged last is pointed at by exactly the rows staged last. */
  lemma CountOfLastBatch(p: Tables, f: FileMeta, rows: seq<CovidCase>, lo: nat, mid: nat)
    requires InRange(CaseFks(p.covidCases), lo, mid)
    ensures multiset(CaseFks(Append(p, StageOne(f, rows, mid)).covidCases))[mid] == |rows|
  {
    var u := StageOne(f, rows, mid);
    ColumnsOfAppend(p, u);
    OutOfRange(CaseFks(p.covidCases), lo, mid, mid);
    CountConstant(CaseFks(u.covidCases), mid);
  }

  /**
   * The `i`-th batch of a run belongs to the `i`-th selected file: that
   * file's descriptor points at it, and exactly as many case rows point at
   * it as the file had rows.
   */
  lemma {:induction false} StageAllPerFile(files: seq<FileMeta>, download: FileMeta -> seq<CovidCase>, base: Guid, i: nat)
    requires i < |files|
    ensures var s := StageAll(files, download, base);
      |s.fileMetas| == |files| && |s.covidCasesByDay| == |files| &&
      s.fileMetas[i].covidCasesByDayID == s.covidCasesByDay[i].covidCasesByDayID &&
      multiset(CaseFks(s.covidCases))[s.covidCasesByDay[i].covidCasesByDayID] == |download(files[i])|
    decreases |files|
  {
    var init := files[..|files| - 1];
    var f := files[|files| - 1];
    var mid := base + Consumed(init, download);
    var p := StageAll(init, download, base);
    var u := StageOne(f, download(f), mid);
    assert StageAll(files, download, base) == Append(p, u);
    StageAllCounts(files, download, base);
    StageAllCounts(init, download, base);
    StageAllInRange(init, download, base);
    if i < |init| {
      StageAllPerFile(init, download, base, i);
      var id := p.covidCasesByDay[i].covidCasesByDayID;
      assert id == BatchIds(p.covidCasesByDay)[i];
      assert files[i] == init[i];
      assert IdsInRange(StageOne(f, download(f), mid), mid, mid + 2 + |download(f)|) by {
        StageOneProperties(f, download(f), mid);
      }
      CountOfEarlierBatch(p, u, id, mid, mid + 2 + |download(f)|);
    } else {
      CountOfLastBatch(p, f, download(f), base, mid);
    }
  }

  /** Linking rows changes only their key columns and points all of them at `batch`. */
  lemma StageCasesLinks(rows: seq<CovidCase>, batch: Guid, first: Guid)
    ensures var cs := StageCases(rows, batch, first);
      UnlinkedCases(cs) == UnlinkedCases(rows) &&
      forall k :: 0 <= k < |cs| ==> cs[k].covidCasesByDayID == batch
  {
  }

  /**
   * The case rows whose foreign key is `id`, in table order: the rows the
   * database's one-to-many relation attaches to batch `id`.
   */
  function CasesOfBatch(cs: seq<CovidCase>, id: Guid): seq<CovidCase>
    decreases |cs|
  {
    if cs == [] then []
    else
      var c := cs[|cs| - 1];
      CasesOfBatch(cs[..|cs| - 1], id) + (if c.covidCasesByDayID == id then [c] else [])
  }

  lemma {:induction false} CasesOfBatchConcat(a: seq<CovidCase>, b: seq<CovidCase>, id: Guid)
    ensures CasesOfBatch(a + b, id) == CasesOfBatch(a, id) + CasesOfBatch(b, id)
    decreases |b|
  {
    if b == [] {
      assert a + b == a;
    } else {
      assert (a + b)[..|a + b| - 1] == a + b[..|b| - 1];
      CasesOfBatchConcat(a, b[..|b| - 1], id);
    }
  }

  lemma {:induction false} CasesOfBatchNone(cs: seq<CovidCase>, id: Guid)
    requires forall k :: 0 <= k < |cs| ==> cs[k].covidCasesByDayID != id
    ensures CasesOfBatch(cs, id) == []
    decreases |cs|
  {
    if cs != [] {
      CasesOfBatchNone(cs[..|cs| - 1], id);
    }
  }

  lemma {:induction false} CasesOfBatchAll(cs: seq<CovidCase>, id: Guid)
    requires forall k :: 0 <= k < |cs| ==> cs[k].covidCasesByDayID == id
    ensures CasesOfBatch(cs, id) == cs
    decreases |cs|
  {
    if cs != [] {
      CasesOfBatchAll(cs[..|cs| - 1], id);
    }
  }

  /** The rows of a batch that precedes `u`'s GUIDs are the same before and after appending `u`. */
  lemma CasesOfEarlierBatch(p: Tables, u: Tables, id: Guid, mid: nat, hi: nat)
    requires id < mid && InRange(CaseFks(u.covidCases), mid, hi)
    ensures CasesOfBatch(Append(p, u).covidCases, id) == CasesOfBatch(p.covidCases, id)
  {
    CasesOfBatchConcat(p.covidCases, u.covidCases, id);
    forall k | 0 <= k < |u.covidCases|
      ensures u.covidCases[k].covidCasesByDayID != id
    {
      assert u.covidCases[k].covidCasesByDayID == CaseFks(u.covidCases)[k];
    }
    CasesOfBatchNone(u.covidCases, id);
  }

  /** The rows of the batch staged last are the rows staged last. */
  lemma CasesOfLastBatch(p: Tables, f: FileMeta, rows: seq<CovidCase>, lo: nat, mid: nat)
    requires InRange(CaseFks(p.covidCases), lo, mid)
    ensures UnlinkedCases(CasesOfBatch(Append(p, StageOne(f, rows, mid)).covidCases, mid)) == UnlinkedCases(rows)
  {
    var u := StageOne(f, rows, mid);
    CasesOfBatchConcat(p.covidCases, u.covidCases, mid);
    forall k | 0 <= k < |p.covidCases|
      ensures p.covidCases[k].covidCasesByDayID != mid
    {
      assert p.covidCases[k].covidCasesByDayID == CaseFks(p.covidCases)[k];
    }
    CasesOfBatchNone(p.covidCases, mid);
    StageCasesLinks(rows, mid, mid + 2);
    CasesOfBatchAll(u.covidCases, mid);
  }

  /**
   * Reading batch `i` of a run back through the foreign key gives the
   * parsed rows of the `i`-th selected file, in order, and no other rows.
   */
  lemma {:induction false} StageAllBatchRows(files: seq<FileMeta>, download: FileMeta -> seq<CovidCase>, base: Guid, i: nat)
    requires i < |files|
    ensures var s := StageAll(files, download, base);
      |s.covidCasesByDay| == |files| &&
      UnlinkedCases(CasesOfBatch(s.covidCases, s.covidCasesByDay[i].covidCasesByDayID))
        == UnlinkedCases(download(files[i]))
    decreases |files|
  {
    var init := files[..|files| - 1];
    var f := files[|files| - 1];
    var mid := base + Consumed(init, download);
    var p := StageAll(init, download, base);
    var u := StageOne(f, download(f), mid);
    assert StageAll(files, download, base) == Append(p, u);
    StageAllCounts(files, download, base);
    StageAllCounts(init, download, base);
    StageAllInRange(init, download, base);
    if i < |init| {
      StageAllBatchRows(init, download, base, i);
      var id := p.covidCasesByDay[i].covidCasesByDayID;
      assert id == BatchIds(p.covidCasesByDay)[i];
      assert files[i] == init[i];
      assert IdsInRange(StageOne(f, download(f), mid), mid, mid + 2 + |download(f)|) by {
        StageOneProperties(f, download(f), mid);
      }
      CasesOfEarlierBatch(p, u, id, mid, mid + 2 + |download(f)|);
    } else {
      CasesOfLastBatch(p, f, download(f), base, mid);
    }
  }

  /** The empty database, with a GUID supply that has issued nothing, is consistent. */
  lemma FreshStoreConsistent()
    ensures Consistent(NoTables, 1)
  {
  }

  /**
   * Staging keeps the database consistent with the GUID supply: the
   * tables stay valid and every GUID in them stays below the supply's next.
   */
  lemma StagingPreservesConsistency(t: Tables, files: seq<FileMeta>, download: FileMeta -> seq<CovidCase>, next: nat)
    requires Consistent(t, next)
    ensures Consistent(Append(t, StageAll(files, download, next)), next + Consumed(files, download))
  {
    StageAllValid(files, download, next);
    AppendPreserves(t, StageAll(files, download, next), 1, next, next + Consumed(files, download));
  }

  /** Two runs drawing GUIDs one after the other create disjoint sets of batches. */
  lemma SuccessiveRunsDisjoint(files: seq<FileMeta>, download: FileMeta -> seq<CovidCase>, next: nat)
    ensures Disjoint(BatchIds(StageAll(files, download, next).covidCasesByDay),
                     BatchIds(StageAll(files, download, next + Consumed(files, download)).covidCasesByDay))
  {
    var n1 := next + Consumed(files, download);
    var b1 := BatchIds(StageAll(files, download, next).covidCasesByDay);
    var b2 := BatchIds(StageAll(files, download, n1).covidCasesByDay);
    StageAllInRange(files, download, next);
    StageAllInRange(files, download, n1);
    forall k | 0 <= k < |b1|
      ensures b1[k] !in b2
    {
      OutOfRange(b2, n1, n1 + Consumed(files, download), b1[k]);
    }
  }

  /** Two runs of the same request, one after the other, leave the database consistent. */
  lemma RerunKeepsConsistency(t: Tables, files: seq<FileMeta>, download: FileMeta -> seq<CovidCase>, next: nat)
    requires Consistent(t, next)
    ensures Consistent(Append(Append(t, StageAll(files, download, next)),
                              StageAll(files, download, next + Consumed(files, download))),
                       next + 2 * Consumed(files, download))
  {
    var n1 := next + Consumed(files, download);
    StagingPreservesConsistency(t, files, download, next);
    StagingPreservesConsistency(Append(t, StageAll(files, download, next)), files, download, n1);
  }

  /**
   * Ingesting the same files twice appends them twice: the second run's
   * descriptors carry the same payloads as the first's, under batches
   * with different GUIDs.
   */
  lemma RerunAppendsAgain(t: Tables, files: seq<FileMeta>, download: FileMeta -> seq<CovidCase>, next: nat)
    requires Consistent(t, next)
    ensures var first := StageAll(files, download, next);
      var second := StageAll(files, download, next + Consumed(files, download));
      var after := Append(Append(t, first), second);
      |after.covidCasesByDay| == |t.covidCasesByDay| + 2 * |files| &&
      UnlinkedMetas(second.fileMetas) == UnlinkedMetas(first.fileMetas) &&
      Disjoint(BatchIds(first.covidCasesByDay), BatchIds(second.covidCasesByDay)) &&
      Consistent(after, next + 2 * Consumed(files, download))
  {
    var n1 := next + Consumed(files, download);
    var first := StageAll(files, download, next);
    StageAllCounts(files, download, next);
    StageAllCounts(files, download, n1);
    StageAllContents(files, download, next);
    StageAllContents(files, download, n1);
    SuccessiveRunsDisjoint(files, download, next);
    RerunKeepsConsistency(t, files, download, next);
  }
}
