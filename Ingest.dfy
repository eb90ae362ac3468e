/**
 * The `/get_latest_covid_case_data/{region}/{year}/{month}` endpoint:
 * check the dates, list the remote reports, keep the requested month's,
 * stage each one's descriptor, rows and batch, and echo the listing.
 */
module Ingest {
  import opened Wrappers
  import opened Entities
  import opened Formatting
  import opened Selection
  import opened Store

  /** The GitHub directory that holds the daily reports. */
  const Repo := "CSSEGISandData/COVID-19"
  const ContentsUrl := "https://api.github.com/repos/" + Repo + "/contents/csse_covid_19_data/csse_covid_19_daily_reports"

  /** The exception thrown for a rejected request (`"invaild dates"`). */
  datatype Error = InvalidDates

  /** The dates the endpoint accepts: a year from 2020 to the current one and a month of the year. */
  predicate ValidDates(year: int, month: int, currentYear: int) {
    !(year < 2020 || year > currentYear || month < 1 || month > 12)
  }

  /** The download URLs of the selected files, in order. */
  function DownloadUrls(files: seq<FileMeta>): (urls: seq<string>)
    requires forall k :: 0 <= k < |files| ==> files[k].downloadUrl.Some?
    ensures |urls| == |files|
  {
    seq(|files|, k requires 0 <= k < |files| => files[k].downloadUrl.value)
  }

  /**
   * One pass of the staging loop: draw a batch GUID and a descriptor GUID,
   * link and add the descriptor, draw one GUID per parsed row, link and add
   * the row, then add the batch.
   */
  method StageFile(db: CovidCaseDb, guids: GuidSource, fileMeta: FileMeta, covidCases: seq<CovidCase>)
    modifies db, guids
    ensures db.Snapshot() == Append(old(db.Snapshot()), StageOne(fileMeta, covidCases, old(guids.next)))
    ensures guids.next == old(guids.next) + 2 + |covidCases|
  {
    ghost var before := db.Snapshot();
    var covidCasesByDayID := guids.NewGuid();
    var covidCasesByDay := CovidCasesByDay(covidCasesByDayID);

    var fileMetaID := guids.NewGuid();
    var linked := fileMeta.(fileMetaID := fileMetaID, covidCasesByDayID := covidCasesByDayID);
    db.AddFileMeta(linked);

    var j := 0;
    while j < |covidCases|
      invariant 0 <= j <= |covidCases|
      invariant db.Snapshot() == Append(before, Tables(
        [linked], StageCases(covidCases[..j], covidCasesByDayID, covidCasesByDayID + 2), []))
      invariant guids.next == covidCasesByDayID + 2 + j
    {
      var covidCaseID := guids.NewGuid();
      var covidCase := covidCases[j].(covidCaseID := covidCaseID, covidCasesByDayID := covidCasesByDayID);
      assert StageCases(covidCases[..j + 1], covidCasesByDayID, covidCasesByDayID + 2)
          == StageCases(covidCases[..j], covidCasesByDayID, covidCasesByDayID + 2) + [covidCase];
      db.AddCovidCase(covidCase);
      j := j + 1;
    }
    assert covidCases[..j] == covidCases;

    db.AddCovidCasesByDay(covidCasesByDay);
  }

  /**
   * The staging loop over the selected files. `download` stands for
   * fetching and parsing a file; `fetched` lists the URLs requested, in order.
   */
  method StageFiles(db: CovidCaseDb, guids: GuidSource, relatedMeta: seq<FileMeta>,
                    download: FileMeta -> seq<CovidCase>)
    returns (fetched: seq<string>)
    requires forall k :: 0 <= k < |relatedMeta| ==> relatedMeta[k].downloadUrl.Some?
    modifies db, guids
    ensures db.Snapshot() == Append(old(db.Snapshot()), StageAll(relatedMeta, download, old(guids.next)))
    ensures guids.next == old(guids.next) + Consumed(relatedMeta, download)
    ensures fetched == DownloadUrls(relatedMeta)
  {
    ghost var start := db.Snapshot();
    ghost var base := guids.next;
    fetched := [];
    var i := 0;
    while i < |relatedMeta|
      invariant 0 <= i <= |relatedMeta|
      invariant db.Snapshot() == Append(start, StageAll(relatedMeta[..i], download, base))
      invariant guids.next == base + Consumed(relatedMeta[..i], download)
      invariant fetched == DownloadUrls(relatedMeta[..i])
    {
      var fileMeta := relatedMeta[i];
      assert DownloadUrls(relatedMeta[..i + 1]) == DownloadUrls(relatedMeta[..i]) + [fileMeta.downloadUrl.value];
      fetched := fetched + [fileMeta.downloadUrl.value];
      var covidCases := download(fileMeta);
      StageFile(db, guids, fileMeta, covidCases);
      StageAllStep(relatedMeta, download, base, i);
      i := i + 1;
    }
    assert relatedMeta[..i] == relatedMeta;
  }

  /**
   * The endpoint. `currentYear` stands for `DateTime.Now.Year`;
   * `contentsText` and `contents` for the listing the GitHub API returns and
   * its deserialization; `download` for fetching and parsing one report.
   * `requested` lists the URLs fetched, in order. `region` is accepted and
   * has no effect. `rule` chooses how file names are compared: `SourceSlice`
   * is the endpoint as written, `MonthAndYear` the corrected comparison.
   */
  method GetLatestCovidCaseData(db: CovidCaseDb, guids: GuidSource, region: string,
                                year: int, month: int, currentYear: int,
                                contentsText: string, contents: seq<FileMeta>,
                                download: FileMeta -> seq<CovidCase>, rule: NameRule)
    returns (response: Result<seq<byte>, Error>, requested: seq<string>)
    requires Consistent(db.Snapshot(), guids.next)
    modifies db, guids
    ensures Consistent(db.Snapshot(), guids.next)
    ensures !ValidDates(year, month, currentYear) ==>
      response == Err(InvalidDates) && requested == [] &&
      db.Snapshot() == old(db.Snapshot()) && guids.next == old(guids.next)
    ensures ValidDates(year, month, currentYear) ==>
      var relatedMeta := Related(contents, DateToken(year, month), rule);
      response == Ok(AsciiBytes(contentsText)) &&
      requested == [ContentsUrl] + DownloadUrls(relatedMeta) &&
      db.Snapshot() == Append(old(db.Snapshot()), StageAll(relatedMeta, download, old(guids.next))) &&
      guids.next == old(guids.next) + Consumed(relatedMeta, download)
  {
    if year < 2020 || year > currentYear || month < 1 || month > 12 {
      return Err(InvalidDates), [];
    }
    requested := [ContentsUrl];

    var yearStr := IntToString(year);
    var monthStr := MonthString(month);
    var relatedMeta := SelectRelated(contents, monthStr + "-" + yearStr, rule);

    ghost var start := db.Snapshot();
    ghost var base := guids.next;
    var fetched := StageFiles(db, guids, relatedMeta, download);
    requested := requested + fetched;
    StagingPreservesConsistency(start, relatedMeta, download, base);

    response := Ok(AsciiBytes(contentsText));
  }
}
