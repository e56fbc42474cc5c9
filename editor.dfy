/** The form component's state: the draft being edited and the export busy
    flag, with one method per event handler. */
module Editor {
  import opened Draft
  import Filename

  /** What a successful export hands to the browser: the download name and the
      PNG data URL the link points to. */
  datatype Download = Download(name: string, href: string)

  /** An export between the click and the moment rasterisation settles. It
      carries the title of the draft the click saw: the handler reads the
      title after the `await`, but from the draft of the render it belongs to,
      so edits made meanwhile do not reach the file name. */
  datatype PendingExport = PendingExport(title: string)

  class App {
    var data: PropertyData
    var isExporting: bool

    /** A session starts from the default draft, not exporting. */
    constructor ()
      ensures data == DefaultData()
      ensures !isExporting
    {
      data := DefaultData();
      isExporting := false;
    }

    /** The export button is disabled while an export is running. */
    predicate ExportEnabled()
      reads this
    {
      !isExporting
    }

    /** A text, number or colour input changed. */
    method HandleInputChange(name: Field, value: string)
      modifies this
      ensures data == SetField(old(data), name, value)
      ensures isExporting == old(isExporting)
    {
      data := SetField(data, name, value);
    }

    /** A file input changed; `sel` says whether a file was chosen and, if so,
        what the reader's result was when its read ended. */
    method HandleImageUpload(slot: ImageSlot, sel: Selection)
      modifies this
      ensures data == Upload(old(data), slot, sel)
      ensures sel.NoFile? ==> data == old(data)
      ensures isExporting == old(isExporting)
    {
      if sel.Chosen? {
        data := SetSlot(data, slot, sel.result);
      }
    }

    /** The "Venda" button. */
    method SelectVenda()
      modifies this
      ensures data == SetType(old(data), Venda)
      ensures isExporting == old(isExporting)
    {
      data := SetType(data, Venda);
    }

    /** The "Locação" button. */
    method SelectLocacao()
      modifies this
      ensures data == SetType(old(data), Locacao)
      ensures isExporting == old(isExporting)
    {
      data := SetType(data, Locacao);
    }

    /** The part of the export handler before its `await`: nothing happens
        without a card element; otherwise the busy flag goes up and the
        rasterisation of the card starts. */
    method StartExport(cardMounted: bool) returns (pending: Option<PendingExport>)
      modifies this
      ensures data == old(data)
      ensures !cardMounted ==> pending == None && isExporting == old(isExporting)
      ensures cardMounted ==> pending == Some(PendingExport(old(data).title)) && isExporting
    {
      if !cardMounted {
        return None;
      }
      isExporting := true;
      pending := Some(PendingExport(data.title));
    }

    /** The part of the export handler after its `await`. `raster` is what the
        rasteriser produced: a PNG data URL, or None when it threw. On success
        the file is offered under the name derived from the title; on failure
        nothing is offered. Either way the busy flag comes down. */
    method FinishExport(pending: PendingExport, raster: Option<string>) returns (download: Option<Download>)
      modifies this
      ensures data == old(data)
      ensures !isExporting
      ensures raster.None? ==> download == None
      ensures raster.Some? ==> download == Some(Download(Filename.ExportFilename(pending.title), raster.value))
    {
      download := None;
      if raster.Some? {
        download := Some(Download(Filename.ExportFilename(pending.title), raster.value));
      }
      isExporting := false;
    }

    /** The whole export handler when no other event arrives during the
        `await`. `busyWhileRendering` records the busy flag at the moment the
        rasteriser runs. */
    method DownloadImage(cardMounted: bool, raster: Option<string>)
      returns (download: Option<Download>, ghost busyWhileRendering: bool)
      modifies this
      ensures data == old(data)
      ensures !cardMounted ==> download == None && isExporting == old(isExporting)
      ensures cardMounted ==> busyWhileRendering && !isExporting
      ensures cardMounted && raster.None? ==> download == None
      ensures cardMounted && raster.Some? ==>
                download == Some(Download(Filename.ExportFilename(old(data).title), raster.value))
    {
      busyWhileRendering := false;
      var pending := StartExport(cardMounted);
      if pending.None? {
        return None, busyWhileRendering;
      }
      busyWhileRendering := isExporting;
      download := FinishExport(pending.value, raster);
    }

    /** A click on the export button: a disabled button starts nothing, so at
        most one export started from the button is in flight at a time. */
    method PressExportButton(cardMounted: bool) returns (pending: Option<PendingExport>)
      modifies this
      ensures data == old(data)
      ensures old(isExporting) ==> pending == None && isExporting
      ensures !old(isExporting) && !cardMounted ==> pending == None && !isExporting
      ensures !old(isExporting) && cardMounted ==> pending == Some(PendingExport(old(data).title)) && isExporting
    {
      if !ExportEnabled() {
        return None;
      }
      pending := StartExport(cardMounted);
    }
  }
}
