/** The observable state of the uploader window (google_drive_up_file.py,
    class DriveUploaderApp) together with its two queues. */
module UiState {
  import opened Options

  /** `filePath`, `driveName` and `visibility` are the three input fields;
      `browseEnabled`, `uploadEnabled` and `copyEnabled` the button states;
      `linkField` the read-only link entry; `shareable` the link the copy
      button would copy; `log` the lines of the status text box, oldest first;
      the queues hold what the upload thread has pushed and the polling loop
      has not yet drained. */
  datatype Ui = Ui(
    filePath: string,
    driveName: string,
    visibility: string,
    browseEnabled: bool,
    uploadEnabled: bool,
    progress: int,
    log: seq<string>,
    linkField: string,
    copyEnabled: bool,
    shareable: Option<string>,
    statusQueue: seq<string>,
    progressQueue: seq<int>)

  /** The copy button is enabled exactly when the link field is non-empty,
      and then it copies exactly the displayed link. */
  predicate Consistent(ui: Ui) {
    && (ui.copyEnabled <==> ui.linkField != "")
    && (ui.copyEnabled ==> ui.shareable == Some(ui.linkField))
  }

  /** The window as the constructor leaves it: empty fields, visibility
      'private', buttons enabled except copy, no link, empty queues. */
  function Initial(): (ui: Ui)
    ensures Consistent(ui)
    ensures ui.statusQueue == [] && ui.progressQueue == []
    ensures ui.browseEnabled && ui.uploadEnabled && !ui.copyEnabled
  {
    Ui("", "", "private", true, true, 0, [], "", false, None, [], [])
  }
}
