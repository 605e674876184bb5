/** The submission guard (`start_upload_thread`, google_drive_up_file.py:318-343):
    it validates the two text fields, then resets the window and hands the
    three field values to the upload thread. */
module Controller {
  import opened Options
  import opened UiState
  import opened Worker

  /** The line logged directly when an upload is launched. */
  const AuthenticatingLine: string := "جاري المصادقة مع Google Drive..."

  /** The warning dialog shown instead of launching. */
  datatype Warning = NoFile | NoName

  datatype Verdict = Warned(warning: Warning) | Launched(request: Request)

  datatype Submission = Submission(ui: Ui, verdict: Verdict)

  /** A click on the upload button. An empty path is reported before an
      empty Drive name; a rejected click leaves the window as it was. A
      launched upload disables browse and upload, zeroes the bar, logs the
      authentication line, clears the link and the copy button, and drops
      whatever was still queued. */
  function Submit(ui: Ui): (s: Submission)
    ensures s.verdict == Warned(NoFile) <==> ui.filePath == ""
    ensures s.verdict == Warned(NoName) <==> ui.filePath != "" && ui.driveName == ""
    ensures s.verdict.Warned? ==> s.ui == ui
    ensures s.verdict.Launched? ==>
              && s.verdict.request == Request(ui.filePath, ui.driveName, ui.visibility)
              && !s.ui.browseEnabled && !s.ui.uploadEnabled
              && s.ui.progress == 0
              && s.ui.log == ui.log + [AuthenticatingLine]
              && s.ui.linkField == "" && !s.ui.copyEnabled && s.ui.shareable == None
              && s.ui.statusQueue == [] && s.ui.progressQueue == []
              && s.ui.filePath == ui.filePath && s.ui.driveName == ui.driveName
              && s.ui.visibility == ui.visibility
    ensures Consistent(ui) ==> Consistent(s.ui)
    ensures s.verdict.Launched? ==> Consistent(s.ui)
  {
    if ui.filePath == "" then Submission(ui, Warned(NoFile))
    else if ui.driveName == "" then Submission(ui, Warned(NoName))
    else
      var reset := ui.(browseEnabled := false, uploadEnabled := false, progress := 0,
                       log := ui.log + [AuthenticatingLine],
                       linkField := "", copyEnabled := false, shareable := None,
                       statusQueue := [], progressQueue := []);
      Submission(reset, Launched(Request(ui.filePath, ui.driveName, ui.visibility)))
  }
}
