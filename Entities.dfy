/**
 * The three persisted entities of the ingestion endpoint and the scalar
 * types they are built from.
 */
module Entities {
  import opened Wrappers

  /** A GUID. Only equality matters, so a natural number stands for one. */
  type Guid = nat

  /** `Guid.Empty`, the value of an id field nobody has set yet. */
  const EmptyGuid: Guid := 0

  /** An octet of the response body. */
  newtype byte = x: int | 0 <= x < 256

  /**
   * One entry of the remote directory listing, as the JSON deserializer
   * produces it, plus the two key fields the staging step fills in.
   * The JSON field `type` is named `kind` here (`type` is a Dafny keyword).
   */
  datatype FileMeta = FileMeta(
    sha: Option<string>,
    path: Option<string>,
    url: Option<string>,
    name: Option<string>,
    size: Option<int>,
    downloadUrl: Option<string>,
    gitUrl: Option<string>,
    htmlUrl: Option<string>,
    kind: Option<string>,
    fileMetaID: Guid,
    covidCasesByDayID: Guid)

  /**
   * One parsed row of a daily report. The floating-point and timestamp
   * columns are not part of this model; every other column is kept.
   */
  datatype CovidCase = CovidCase(
    fips: Option<int>,
    admin2: Option<string>,
    provinceState: Option<string>,
    countryRegion: Option<string>,
    confirmed: Option<int>,
    deaths: Option<int>,
    recovered: Option<int>,
    active: Option<int>,
    combinedKey: Option<string>,
    covidCaseID: Guid,
    covidCasesByDayID: Guid)

  /**
   * The batch that groups one file's descriptor and rows. Its navigation
   * properties are not stored: they are the join over the foreign keys.
   */
  datatype CovidCasesByDay = CovidCasesByDay(covidCasesByDayID: Guid)

  /** A file descriptor with both key fields reset, i.e. its payload alone. */
  function UnlinkedMeta(m: FileMeta): FileMeta {
    m.(fileMetaID := EmptyGuid, covidCasesByDayID := EmptyGuid)
  }

  /** A case row with both key fields reset, i.e. its payload alone. */
  function UnlinkedCase(c: CovidCase): CovidCase {
    c.(covidCaseID := EmptyGuid, covidCasesByDayID := EmptyGuid)
  }
}
