/**
 The data-loading hook: it fetches the GeoJSON, then downloads and parses the
 specialties CSV, and exposes `loading`, `error`, the GeoJSON (here only
 whether it is set) and the specialty lookup. The awaited fetch and the CSV
 parser's callbacks are the events that drive it; each event method below is
 a resumption of the asynchronous `fetchData` or one of the CSV parser's
 callbacks, which run after `fetchData` has returned.
 */
module FranceData {
  import opened Options
  import opened Specialties

  /** The message thrown when the GeoJSON response is not ok. */
  const GeoFetchFailed: string := "Failed to fetch GeoJSON"

  /** The error set by the CSV parser's `error` callback. */
  const CsvLoadFailed: string := "Failed to load specialties"

  /** The error set when something that is not an `Error` was thrown. */
  const UnknownError: string := "Unknown error"

  /** A value thrown inside the `try` block: an `Error` with its message, or
      anything else. */
  datatype Thrown = ErrorObject(message: string) | NonError

  /** What a consumer of the hook observes. */
  datatype LoadStatus = Loading | Failed(message: string) | Ready

  /** The message the `catch` block stores. */
  function CaughtMessage(thrown: Thrown): (msg: string)
    ensures thrown.ErrorObject? ==> msg == thrown.message
    ensures thrown.NonError? ==> msg == UnknownError
  {
    match thrown
    case ErrorObject(message) => message
    case NonError => UnknownError
  }

  class FranceDataLoader {
    /** `geoJsonData` is non-null. */
    var geoJsonLoaded: bool
    var specialties: map<string, string>
    var loading: bool
    var error: Option<string>

    ghost predicate Valid()
      reads this
    {
      && (error.Some? ==> !loading)
      && (loading || error.Some? || !geoJsonLoaded ==> specialties == map[])
      && (!loading && error.None? ==> geoJsonLoaded)
      && (forall c :: c in specialties ==> specialties[c] != "")
    }

    /** `fetchData` is suspended on the GeoJSON fetch or its body. */
    predicate AwaitingGeoJson()
      reads this
    {
      loading && !geoJsonLoaded
    }

    /** The GeoJSON is set and the CSV parser has not called back yet. */
    predicate AwaitingCsv()
      reads this
    {
      loading && geoJsonLoaded
    }

    /** The state as a consumer reads it: loading, failed or ready, never two
        at once; ready only once the GeoJSON is set. */
    function Status(): (s: LoadStatus)
      reads this
      requires Valid()
      ensures s == Loading <==> loading
      ensures s.Failed? <==> !loading && error.Some?
      ensures s.Failed? ==> error == Some(s.message)
      ensures s == Ready ==> geoJsonLoaded && error.None?
      ensures s != Ready ==> specialties == map[]
    {
      if loading then Loading
      else if error.Some? then Failed(error.value)
      else Ready
    }

    /** The hook's initial state; `fetchData` starts by setting `loading`,
        which is already true. */
    constructor ()
      ensures Valid() && AwaitingGeoJson()
      ensures loading && error == None && specialties == map[] && !geoJsonLoaded
    {
      geoJsonLoaded := false;
      specialties := map[];
      loading := true;
      error := None;
    }

    /** The `catch` block: anything thrown while fetching the GeoJSON, reading
        its body or starting the CSV download ends the load with an error. */
    method Caught(thrown: Thrown)
      requires Valid() && loading
      modifies this`loading, this`error
      ensures Valid()
      ensures error == Some(CaughtMessage(thrown)) && !loading
    {
      error := Some(CaughtMessage(thrown));
      loading := false;
    }

    /** The GeoJSON response is not ok: the thrown `Error` is caught. */
    method GeoNotOk()
      requires Valid() && AwaitingGeoJson()
      modifies this`loading, this`error
      ensures Valid()
      ensures error == Some(GeoFetchFailed) && !loading && !geoJsonLoaded && specialties == map[]
    {
      Caught(ErrorObject(GeoFetchFailed));
    }

    /** The GeoJSON response is ok and its body parsed: `geoJsonData` is set
        and the CSV download starts; the load is still in progress. */
    method GeoOk()
      requires Valid() && AwaitingGeoJson()
      modifies this`geoJsonLoaded
      ensures Valid() && AwaitingCsv()
      ensures geoJsonLoaded && loading && error == None && specialties == map[]
    {
      geoJsonLoaded := true;
    }

    /** The CSV parser's `complete` callback: the lookup is built from the rows
        and the load ends without error. */
    method CsvComplete(rows: seq<Row>)
      requires Valid() && AwaitingCsv()
      modifies this`specialties, this`loading
      ensures Valid() && Status() == Ready
      ensures specialties == Fold(rows) && !loading && error == None && geoJsonLoaded
    {
      var specialtyMap := BuildSpecialtyMap(rows);
      FoldValuesNonEmpty(rows);
      specialties := specialtyMap;
      loading := false;
    }

    /** The CSV parser's `error` callback: the load ends with an error and the
        GeoJSON already set is kept. */
    method CsvError()
      requires Valid() && AwaitingCsv()
      modifies this`error, this`loading
      ensures Valid() && Status() == Failed(CsvLoadFailed)
      ensures error == Some(CsvLoadFailed) && !loading && geoJsonLoaded && specialties == map[]
    {
      error := Some(CsvLoadFailed);
      loading := false;
    }
  }

  /** The two ways the load can go once the GeoJSON is set: the CSV completes
      (ready, with the fold of its rows) or fails (failed, lookup empty). */
  method LoadOutcomes(rows: seq<Row>) returns (onComplete: LoadStatus, lookup: map<string, string>,
                                               onError: LoadStatus, lookupOnError: map<string, string>)
    ensures onComplete == Ready && lookup == Fold(rows)
    ensures onError == Failed(CsvLoadFailed) && lookupOnError == map[]
  {
    var ok := new FranceDataLoader();
    ok.GeoOk();
    ok.CsvComplete(rows);
    onComplete := ok.Status();
    lookup := ok.specialties;
    var failing := new FranceDataLoader();
    failing.GeoOk();
    failing.CsvError();
    onError := failing.Status();
    lookupOnError := failing.specialties;
  }
}
