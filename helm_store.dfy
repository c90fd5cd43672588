/**
 * Helm store (service/helm_store.go): the release list entries, the chart upload check, and
 * the chart table with the chart files that go with it.
 *
 * The chart table is a sequence of rows in id order and the upload directory a set of file
 * names. Whether a database call or a file operation fails is passed in. The database's
 * lookup by name returns the first row with that name; its update writes only the request's
 * non-empty fields (GORM skips zero values when updating from a struct).
 */
module HelmStore {
  import opened Wrappers
  import Strs

  // ----- Release list -----

  /** The parts of a Helm release the list shows; `lastDeployed` is `None` for the zero time
      and otherwise its printed form. */
  datatype Release = Release(name: string, namespace: string, version: int, status: string,
                             chartName: string, chartVersion: string, appVersion: string,
                             notes: string, lastDeployed: Option<string>)

  /** `releaseElement`. */
  datatype ReleaseElement = ReleaseElement(name: string, namespace: string, revision: string, updated: string,
                                           status: string, chart: string, chartVersion: string,
                                           appVersion: string, notes: string)

  /** `constructReleaseElement`: the release's fields, the revision in decimal, the notes only
      when the status is shown, and "-" as the update time of a release never deployed. */
  function ConstructReleaseElement(r: Release, showStatus: bool): (e: ReleaseElement)
    ensures e.name == r.name && e.namespace == r.namespace && e.status == r.status
    ensures e.chart == r.chartName && e.chartVersion == r.chartVersion && e.appVersion == r.appVersion
    ensures showStatus ==> e.notes == r.notes
    ensures !showStatus ==> e.notes == ""
    ensures r.lastDeployed.None? ==> e.updated == "-"
    ensures r.lastDeployed.Some? ==> e.updated == r.lastDeployed.value
  {
    var element := ReleaseElement(r.name, r.namespace, Strs.Itoa(r.version), "", r.status, r.chartName,
                                  r.chartVersion, r.appVersion, "");
    var noted := if showStatus then element.(notes := r.notes) else element;
    var t := if r.lastDeployed.Some? then r.lastDeployed.value else "-";
    noted.(updated := t)
  }

  /** The revision reads back as the release's version. */
  lemma RevisionReadsBack(r: Release, showStatus: bool)
    ensures Strs.IsDecimal(ConstructReleaseElement(r, showStatus).revision)
    ensures Strs.Atoi(ConstructReleaseElement(r, showStatus).revision) == r.version
  {
    Strs.ItoaRoundTrip(r.version);
  }

  /** `releaseElements`. */
  datatype ReleaseElements = ReleaseElements(items: seq<ReleaseElement>, total: int)

  /** `ListRelease`: one entry per release the list action returned, in order, without notes;
      the total is their number. `results` is the outcome of the list action, which applies
      the name filter itself. */
  method ListRelease(results: Result<seq<Release>, string>) returns (r: Result<ReleaseElements, string>)
    ensures results.Err? ==> r == Err(results.error)
    ensures results.Ok? ==> r.Ok? && r.value.total == |results.value| == |r.value.items|
    ensures r.Ok? ==> forall i :: 0 <= i < |r.value.items| ==>
      r.value.items[i] == ConstructReleaseElement(results.value[i], false)
  {
    if results.Err? {
      return Err(results.error);
    }
    var total := |results.value|;
    var elements: seq<ReleaseElement> := [];
    for i := 0 to |results.value|
      invariant |elements| == i
      invariant forall k :: 0 <= k < i ==> elements[k] == ConstructReleaseElement(results.value[k], false)
    {
      elements := elements + [ConstructReleaseElement(results.value[i], false)];
    }
    return Ok(ReleaseElements(elements, total));
  }

  /** No entry of the release list carries notes. */
  lemma {:induction false} ListedWithoutNotes(results: seq<Release>, items: seq<ReleaseElement>)
    requires |items| == |results|
    requires forall i :: 0 <= i < |items| ==> items[i] == ConstructReleaseElement(results[i], false)
    ensures forall i :: 0 <= i < |items| ==> items[i].notes == "" && items[i].name == results[i].name
  {
    forall i | 0 <= i < |items|
      ensures items[i].notes == "" && items[i].name == results[i].name
    {
      assert items[i] == ConstructReleaseElement(results[i], false);
    }
  }

  // ----- Upload check -----

  /** A chart file name is accepted when the text after its last "." is "tgz"; a name without
      a dot is judged as a whole. */
  predicate IsChartFileName(filename: string) {
    Strs.LastField(filename, '.') == "tgz"
  }

  /** Names that end in ".tgz" are accepted, and so is the bare name "tgz". */
  lemma TgzNamesAccepted(stem: string)
    ensures IsChartFileName(stem + ".tgz")
    ensures IsChartFileName("tgz")
  {
    assert stem + ".tgz" == stem + ['.'] + "tgz";
    Strs.LastFieldAfter(stem, "tgz", '.');
    Strs.LastFieldWhole("tgz", '.');
  }

  /** A name whose last field is anything else is refused, whatever comes before it: the
      comparison is case-sensitive. */
  lemma OtherNamesRefused(stem: string, ext: string)
    requires '.' !in ext && ext != "tgz"
    ensures !IsChartFileName(stem + "." + ext)
    ensures !IsChartFileName(stem + ".tgz.bak") && !IsChartFileName(stem + ".TGZ")
  {
    assert stem + "." + ext == stem + ['.'] + ext;
    Strs.LastFieldAfter(stem, ext, '.');
    assert stem + ".tgz.bak" == (stem + ".tgz") + ['.'] + "bak";
    Strs.LastFieldAfter(stem + ".tgz", "bak", '.');
    assert stem + ".TGZ" == stem + ['.'] + "TGZ";
    Strs.LastFieldAfter(stem, "TGZ", '.');
  }

  // ----- Chart table and files -----

  /** A row of the chart table (`model.Chart`). */
  datatype Chart = Chart(id: nat, name: string, fileName: string, iconUrl: string, version: string,
                         describe: string)

  datatype HelmError =
    | NotChartFile
    | FileExists
    | CreateFailed(cause: string)
    | FileMissing
    | RemoveFailed(cause: string)
    | LookupFailed(cause: string)
    | ChartExists
    | InsertFailed(cause: string)
    | UpdateFailed(cause: string)
    | DeleteFailed(cause: string)
    | NilDereference

  /** The chart table and the upload directory. */
  datatype Store = Store(charts: seq<Chart>, files: set<string>)

  /** What an operation leaves behind and what it reports. */
  datatype Step = Step(store: Store, outcome: Result<(), HelmError>)

  /** `HasChart`: the first row with the name, if any. */
  function FindChart(charts: seq<Chart>, name: string): (r: Option<Chart>)
    ensures r.None? <==> forall i :: 0 <= i < |charts| ==> charts[i].name != name
    ensures r.Some? ==> r.value in charts && r.value.name == name
  {
    if charts == [] then None
    else if charts[0].name == name then Some(charts[0])
    else FindChart(charts[1..], name)
  }

  /** No two rows share a name. */
  predicate UniqueNames(charts: seq<Chart>) {
    forall i, j :: 0 <= i < j < |charts| ==> charts[i].name != charts[j].name
  }

  /** `UploadChartFile` as written: after the name check, the "already exists" test asks
      `os.IsExist` about the error of `os.Stat`, which is never an "exists" error, so an
      existing file is overwritten. */
  function UploadAsWritten(s: Store, filename: string, createError: Option<string>): Step {
    if !IsChartFileName(filename) then Step(s, Err(NotChartFile))
    else if createError.Some? then Step(s, Err(CreateFailed(createError.value)))
    else Step(s.(files := s.files + {filename}), Ok(()))
  }

  /** Uploading a file whose name is taken replaces it without an error. */
  lemma UploadAsWrittenOverwrites(s: Store, filename: string)
    requires filename in s.files && IsChartFileName(filename)
    ensures UploadAsWritten(s, filename, None) == Step(s, Ok(()))
  {
  }

  /** `UploadChartFile` with the intended check: refuse a name that is not a chart archive,
      then one that is already in the upload directory, then store the file. */
  function Upload(s: Store, filename: string, createError: Option<string>): (r: Step)
    ensures r.outcome.Ok? <==> IsChartFileName(filename) && filename !in s.files && createError.None?
    ensures r.outcome.Ok? ==> r.store == s.(files := s.files + {filename})
    ensures r.outcome.Err? ==> r.store == s
    ensures IsChartFileName(filename) && filename in s.files ==> r.outcome == Err(FileExists)
  {
    if !IsChartFileName(filename) then Step(s, Err(NotChartFile))
    else if filename in s.files then Step(s, Err(FileExists))
    else if createError.Some? then Step(s, Err(CreateFailed(createError.value)))
    else Step(s.(files := s.files + {filename}), Ok(()))
  }

  /** The intended check never replaces a stored file. */
  lemma UploadNeverOverwrites(s: Store, filename: string, createError: Option<string>)
    requires filename in s.files
    ensures Upload(s, filename, createError).store == s
    ensures Upload(s, filename, createError).outcome.Err?
  {
  }

  /** `DeleteChartFile`: a missing file is an error; otherwise it is removed. */
  function DeleteFile(s: Store, name: string, removeError: Option<string>): (r: Step)
    ensures r.outcome.Ok? <==> name in s.files && removeError.None?
    ensures r.outcome.Ok? ==> r.store == s.(files := s.files - {name})
    ensures r.outcome.Err? ==> r.store == s
    ensures r.store.charts == s.charts
  {
    if name !in s.files then Step(s, Err(FileMissing))
    else if removeError.Some? then Step(s, Err(RemoveFailed(removeError.value)))
    else Step(s.(files := s.files - {name}), Ok(()))
  }

  /** `AddChart`: a lookup error or a chart of that name already stored stops it; otherwise
      the row is inserted. */
  function Add(s: Store, chart: Chart, lookupError: Option<string>, insertError: Option<string>): Step {
    if lookupError.Some? then Step(s, Err(LookupFailed(lookupError.value)))
    else if FindChart(s.charts, chart.name).Some? then Step(s, Err(ChartExists))
    else if insertError.Some? then Step(s, Err(InsertFailed(insertError.value)))
    else Step(s.(charts := s.charts + [chart]), Ok(()))
  }

  /** A chart is added only when none of its name is stored, and then exactly that row is
      appended; otherwise the store is unchanged. Adding keeps names unique. */
  lemma AddFacts(s: Store, chart: Chart, lookupError: Option<string>, insertError: Option<string>)
    ensures var r := Add(s, chart, lookupError, insertError);
      && (r.outcome.Ok? <==> lookupError.None? && insertError.None? &&
                             forall i :: 0 <= i < |s.charts| ==> s.charts[i].name != chart.name)
      && (r.outcome.Ok? ==> r.store == s.(charts := s.charts + [chart]))
      && (r.outcome.Err? ==> r.store == s)
    ensures UniqueNames(s.charts) ==> UniqueNames(Add(s, chart, lookupError, insertError).store.charts)
  {
    var r := Add(s, chart, lookupError, insertError);
    if UniqueNames(s.charts) && r.outcome.Ok? {
      var c := r.store.charts;
      forall i, j | 0 <= i < j < |c|
        ensures c[i].name != c[j].name
      {
        if j == |s.charts| {
          assert c[i] == s.charts[i];
        }
      }
    }
  }

  /** The row after an update from `chart`: each non-empty field of the request replaces the
      stored one. */
  function Merge(row: Chart, chart: Chart): (r: Chart)
    ensures r.id == row.id
    ensures r.name == (if chart.name != "" then chart.name else row.name)
    ensures r.fileName == (if chart.fileName != "" then chart.fileName else row.fileName)
  {
    Chart(row.id,
          if chart.name != "" then chart.name else row.name,
          if chart.fileName != "" then chart.fileName else row.fileName,
          if chart.iconUrl != "" then chart.iconUrl else row.iconUrl,
          if chart.version != "" then chart.version else row.version,
          if chart.describe != "" then chart.describe else row.describe)
  }

  /** `Chart.Update`: the rows with the request's id are merged with it. */
  function UpdateRows(charts: seq<Chart>, chart: Chart): (r: seq<Chart>)
    ensures |r| == |charts|
    ensures forall i :: 0 <= i < |r| ==> r[i] == if charts[i].id == chart.id then Merge(charts[i], chart) else charts[i]
  {
    if charts == [] then []
    else [if charts[0].id == chart.id then Merge(charts[0], chart) else charts[0]] + UpdateRows(charts[1..], chart)
  }

  /** `UpdateChart`: looks up the stored chart of that name, dereferencing the result even when
      there is none; removes its file when the request names a different, non-empty one; then
      updates the row. */
  function Update(s: Store, chart: Chart, lookupError: Option<string>, removeError: Option<string>,
                  updateError: Option<string>): Step
  {
    if lookupError.Some? then Step(s, Err(LookupFailed(lookupError.value)))
    else match FindChart(s.charts, chart.name)
      case None => Step(s, Err(NilDereference))
      case Some(oldChart) =>
        var removed :=
          if chart.fileName != "" && chart.fileName != oldChart.fileName then DeleteFile(s, oldChart.fileName, removeError)
          else Step(s, Ok(()));
        if removed.outcome.Err? then removed
        else if updateError.Some? then Step(removed.store, Err(UpdateFailed(updateError.value)))
        else Step(removed.store.(charts := UpdateRows(removed.store.charts, chart)), Ok(()))
  }

  /** The old file goes exactly when the request names a different, non-empty file and removing
      it works; a failed removal leaves the table as it was; an update of a chart that is not
      stored fails with a nil dereference. */
  lemma UpdateFacts(s: Store, chart: Chart, lookupError: Option<string>, removeError: Option<string>,
                    updateError: Option<string>)
    requires lookupError.None?
    ensures FindChart(s.charts, chart.name).None? ==>
      Update(s, chart, lookupError, removeError, updateError) == Step(s, Err(NilDereference))
    ensures FindChart(s.charts, chart.name).Some? ==>
      var oldFile := FindChart(s.charts, chart.name).value.fileName;
      var r := Update(s, chart, lookupError, removeError, updateError);
      && (chart.fileName == "" || chart.fileName == oldFile ==> r.store.files == s.files)
      && (chart.fileName != "" && chart.fileName != oldFile && oldFile in s.files && removeError.None? ==>
            r.store.files == s.files - {oldFile})
      && (r.store.charts != s.charts ==> r.outcome.Ok?)
      && (r.outcome.Ok? ==> r.store.charts == UpdateRows(s.charts, chart))
  {
  }

  /** Removing the rows with an id (the database's soft delete hides them). */
  function DeleteRows(charts: seq<Chart>, id: nat): (r: seq<Chart>)
    ensures forall i :: 0 <= i < |r| ==> r[i].id != id && r[i] in charts
    ensures forall i :: 0 <= i < |charts| && charts[i].id != id ==> charts[i] in r
    ensures |r| <= |charts|
  {
    if charts == [] then []
    else if charts[0].id == id then DeleteRows(charts[1..], id)
    else [charts[0]] + DeleteRows(charts[1..], id)
  }

  /** `DeleteChart`: removes the chart's file, and only then its row. */
  function Delete(s: Store, chart: Chart, removeError: Option<string>, deleteError: Option<string>): Step {
    var removed := DeleteFile(s, chart.fileName, removeError);
    if removed.outcome.Err? then removed
    else if deleteError.Some? then Step(removed.store, Err(DeleteFailed(deleteError.value)))
    else Step(removed.store.(charts := DeleteRows(removed.store.charts, chart.id)), Ok(()))
  }

  /** The row goes only when the file went first: a missing or unremovable file keeps both. */
  lemma DeleteFacts(s: Store, chart: Chart, removeError: Option<string>, deleteError: Option<string>)
    ensures var r := Delete(s, chart, removeError, deleteError);
      && (r.store.charts != s.charts ==> chart.fileName !in r.store.files && chart.fileName in s.files)
      && (chart.fileName !in s.files ==> r == Step(s, Err(FileMissing)))
      && (r.outcome.Ok? <==> chart.fileName in s.files && removeError.None? && deleteError.None?)
      && (r.outcome.Ok? ==> r.store == Store(DeleteRows(s.charts, chart.id), s.files - {chart.fileName}))
  {
  }

  /** The chart table and upload directory, updated in place. */
  class ChartStore {
    var charts: seq<Chart>
    var files: set<string>

    constructor (charts: seq<Chart>, files: set<string>)
      ensures this.charts == charts && this.files == files
    {
      this.charts := charts;
      this.files := files;
    }

    function State(): Store
      reads this
    {
      Store(charts, files)
    }

    /** `UploadChartFile`, with the existing-file check doing what it means to. */
    method UploadChartFile(filename: string, createError: Option<string>) returns (r: Result<(), HelmError>)
      modifies this
      ensures Step(State(), r) == Upload(old(State()), filename, createError)
    {
      if Strs.LastField(filename, '.') != "tgz" {
        return Err(NotChartFile);
      }
      if filename in files {
        return Err(FileExists);
      }
      if createError.Some? {
        return Err(CreateFailed(createError.value));
      }
      files := files + {filename};
      return Ok(());
    }

    /** `DeleteChartFile`. */
    method DeleteChartFile(name: string, removeError: Option<string>) returns (r: Result<(), HelmError>)
      modifies this
      ensures Step(State(), r) == DeleteFile(old(State()), name, removeError)
    {
      if name !in files {
        return Err(FileMissing);
      }
      if removeError.Some? {
        return Err(RemoveFailed(removeError.value));
      }
      files := files - {name};
      return Ok(());
    }

    /** `AddChart`. */
    method AddChart(chart: Chart, lookupError: Option<string>, insertError: Option<string>)
      returns (r: Result<(), HelmError>)
      modifies this
      ensures Step(State(), r) == Add(old(State()), chart, lookupError, insertError)
    {
      if lookupError.Some? {
        return Err(LookupFailed(lookupError.value));
      }
      var has := FindChart(charts, chart.name).Some?;
      if has {
        return Err(ChartExists);
      }
      if insertError.Some? {
        return Err(InsertFailed(insertError.value));
      }
      charts := charts + [chart];
      return Ok(());
    }

    /** `UpdateChart`. */
    method UpdateChart(chart: Chart, lookupError: Option<string>, removeError: Option<string>,
                       updateError: Option<string>) returns (r: Result<(), HelmError>)
      modifies this
      ensures Step(State(), r) == Update(old(State()), chart, lookupError, removeError, updateError)
    {
      if lookupError.Some? {
        return Err(LookupFailed(lookupError.value));
      }
      var oldChart := FindChart(charts, chart.name);
      if oldChart.None? {
        return Err(NilDereference);
      }
      if chart.fileName != "" && chart.fileName != oldChart.value.fileName {
        r := DeleteChartFile(oldChart.value.fileName, removeError);
        if r.Err? {
          return;
        }
      }
      if updateError.Some? {
        return Err(UpdateFailed(updateError.value));
      }
      charts := UpdateRows(charts, chart);
      return Ok(());
    }

    /** `DeleteChart`. */
    method DeleteChart(chart: Chart, removeError: Option<string>, deleteError: Option<string>)
      returns (r: Result<(), HelmError>)
      modifies this
      ensures Step(State(), r) == Delete(old(State()), chart, removeError, deleteError)
    {
      r := DeleteChartFile(chart.fileName, removeError);
      if r.Err? {
        return;
      }
      if deleteError.Some? {
        return Err(DeleteFailed(deleteError.value));
      }
      charts := DeleteRows(charts, chart.id);
      return Ok(());
    }
  }
}
