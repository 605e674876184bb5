/** What the upload thread writes on the status queue (google_drive_up_file.py:35-150
    and 352-381), as tagged values, with the exact strings they become. */
module Emissions {
  import opened Strings
  import opened Messages

  /** An informational line, one constructor per message of the source. */
  datatype Note =
    | RefreshFailedNote(reason: string)   // line 48
    | SecretsMissingNote                  // line 54
    | BrowserNote                         // line 58
    | ConsentedNote                       // line 60
    | ConsentFailedNote(reason: string)   // line 62
    | BuildFailedNote(reason: string)     // line 72
    | MissingFileNote(path: string)       // line 84
    | StartedNote(name: string)           // line 89
    | ProgressNote(percent: int)          // line 104
    | UploadedNote(fileId: string)        // line 114
    | VerifiedNote                        // line 122
    | NotFoundNote(reason: string)        // line 124
    | SharingNote                         // line 130
    | SharedNote                          // line 139
    | PublicLinkNote(link: string)        // line 141
    | ShareErrorNote(reason: string)      // line 143
    | StillPrivateNote                    // line 144
    | PrivateNote                         // line 146
    | AuthenticatedNote                   // line 362
    | AuthFailedNote                      // line 372
    | UnexpectedNote(reason: string)      // line 376

  /** A line whose wording the polling loop recognises as a failed upload. */
  datatype Failure =
    | ChunkError(reason: string)          // line 106
    | NotUploaded                         // line 125
    | UploadError(reason: string)         // line 149

  /** One status emission of the upload thread, tagged by what it is for. */
  datatype Emission =
    | Plain(note: Note)
    | Link(url: string)
    | PublicLink(url: string)
    | FailureText(failure: Failure)
    | Sentinel

  const ClientSecretsFile: string := "client_secrets.json"

  /** A text opening with the given Arabic words. */
  function Lead(head: string, rest: string): (r: string)
    requires ArabicLead(head)
    ensures ArabicLead(r)
  {
    head + rest
  }

  /** The text of an informational line; its first word is kept apart so
      that its first letter stays cheap to inspect. */
  function NoteText(n: Note): (r: string)
    ensures ArabicLead(r)
  {
    match n
    case RefreshFailedNote(e) =>
      Lead("خطأ", " في المصادقة: فشل تحديث التوكن: " + e + "\nيرجى حذف ملف 'token.pickle' والمحاولة مرة أخرى.")
    case SecretsMissingNote =>
      Lead("خطأ", " في الإعداد: لم يتم العثور على ملف '" + ClientSecretsFile + "'.")
    case BrowserNote => Lead("سيتم", " فتح المتصفح للمصادقة...")
    case ConsentedNote => Lead("اكتملت", " المصادقة الأولية.")
    case ConsentFailedNote(e) => Lead("خطأ", " في المصادقة: فشل تدفق المصادقة: " + e)
    case BuildFailedNote(e) => Lead("خطأ", " في بناء الخدمة: فشل في بناء خدمة Drive: " + e)
    case MissingFileNote(path) => Lead("خطأ:", " الملف '" + path + "' غير موجود.")
    case StartedNote(name) => Lead("بدء", " رفع الملف: " + name + "...")
    case ProgressNote(p) => Lead("جاري", " الرفع... " + DecimalText(p) + "%")
    case UploadedNote(id) => Lead("اكتمل", " الرفع بنجاح! معرف الملف: " + id)
    // written in two pieces: the solver indexes two short literals cheaply, one long one not
    case VerifiedNote => Lead("تم", " التحقق من وجود الملف" + " على Google Drive.")
    case NotFoundNote(e) => Lead("خطأ:", " لم يتم العثور على الملف بعد الرفع. " + e)
    case SharingNote => Lead("جاري", " محاولة جعل الملف قابلاً للمشاركة...")
    case SharedNote => Lead("تم", " جعل الملف قابلاً للمشاركة بنجاح (أي شخص لديه الرابط يمكنه العرض).")
    case PublicLinkNote(l) => Lead("رابط", " المشاركة العام: " + l)
    case ShareErrorNote(e) => Lead("خطأ", " أثناء محاولة جعل الملف قابلاً للمشاركة: " + e)
    case StillPrivateNote => Lead("بقي", " الملف خاصًا. يمكنك تغيير الأذونات يدويًا في Google Drive.")
    case PrivateNote => Lead("تم", " رفع الملف كملف خاص.")
    case AuthenticatedNote => Lead("تمت", " المصادقة بنجاح.")
    case AuthFailedNote => Lead("فشلت", " عملية المصادقة أو تم إلغاؤها.")
    case UnexpectedNote(e) => Lead("حدث", " خطأ غير متوقع في thread الرفع: " + e)
  }

  /** The text of a failure line: each is built around one of the patterns. */
  function FailureMessage(f: Failure): (r: string)
    ensures ArabicLead(r)
    ensures HasFailurePattern(r)
  {
    match f
    case ChunkError(e) =>
      ContainsInside("", UploadErrorPattern, " (next_chunk): " + e);
      assert "" + UploadErrorPattern + (" (next_chunk): " + e) == UploadErrorPattern + " (next_chunk): " + e;
      UploadErrorPattern + " (next_chunk): " + e
    case NotUploaded =>
      ContainsInside("", NotUploadedPattern, ". يرجى المحاولة مرة أخرى.");
      assert "" + NotUploadedPattern + ". يرجى المحاولة مرة أخرى." == NotUploadedPattern + ". يرجى المحاولة مرة أخرى.";
      NotUploadedPattern + ". يرجى المحاولة مرة أخرى."
    case UploadError(e) =>
      ContainsInside("حدث ", UploadErrorPattern, ": " + e);
      assert "حدث " + UploadErrorPattern + (": " + e) == "حدث " + UploadErrorPattern + ": " + e;
      "حدث " + UploadErrorPattern + ": " + e
  }

  /** The string the upload thread puts on the status queue. */
  function Wire(e: Emission): string {
    match e
    case Plain(n) => NoteText(n)
    case Link(u) => LinkPrefix + u
    case PublicLink(u) => PublicLinkPrefix + u
    case FailureText(f) => FailureMessage(f)
    case Sentinel => EnableButtonsSignal
  }

  /** What the polling loop should make of an emission, by its tag. */
  function Sees(e: Emission): Kind {
    match e
    case Plain(n) => TextMsg(NoteText(n), false, false)
    case Link(u) => LinkMsg(u)
    case PublicLink(u) => PublicLinkMsg(u)
    case FailureText(f) => TextMsg(FailureMessage(f), true, false)
    case Sentinel => TextMsg(EnableButtonsSignal, false, true)
  }

  /** An informational line that happens to contain no failure pattern. Its
      fixed wording never does; a file name, exception text or link inserted
      into it could. */
  predicate Quiet(e: Emission) {
    e.Plain? ==> !HasFailurePattern(NoteText(e.note))
  }

  /** The tag of a quiet emission is exactly what the polling loop reads back
      from its string: links by their prefixes, failure lines by their
      patterns, the sentinel by equality, and nothing else as any of these. */
  lemma ClassifyWire(e: Emission)
    requires Quiet(e)
    ensures Classify(Wire(e)) == Sees(e)
  {
    match e
    case Plain(n) =>
      ArabicLeadIsInert(NoteText(n));
    case FailureText(f) =>
      ArabicLeadIsInert(FailureMessage(f));
    case Link(u) =>
      StartsWithConcat(LinkPrefix, u);
      FirstCharRulesOut(LinkPrefix + u, PublicLinkPrefix);
    case PublicLink(u) =>
      StartsWithConcat(PublicLinkPrefix, u);
    case Sentinel =>
      ClassifySignal();
  }

  /** Wherever it comes from, no emission other than `Link` and `PublicLink`
      is read back as a link, and only the sentinel as the sentinel. */
  lemma WireIsNeverMisread(e: Emission)
    ensures Classify(Wire(e)).PublicLinkMsg? <==> e.PublicLink?
    ensures Classify(Wire(e)).LinkMsg? <==> e.Link?
    ensures Wire(e) == EnableButtonsSignal <==> e.Sentinel?
    ensures e.FailureText? ==> Classify(Wire(e)) == Sees(e)
  {
    match e
    case Plain(n) =>
      ArabicLeadIsInert(NoteText(n));
    case FailureText(f) =>
      ArabicLeadIsInert(FailureMessage(f));
    case Link(u) =>
      StartsWithConcat(LinkPrefix, u);
      FirstCharRulesOut(LinkPrefix + u, PublicLinkPrefix);
      FirstCharRulesOut(LinkPrefix + u, EnableButtonsSignal);
    case PublicLink(u) =>
      StartsWithConcat(PublicLinkPrefix, u);
      FirstCharRulesOut(PublicLinkPrefix + u, EnableButtonsSignal);
    case Sentinel =>
      ClassifySignal();
  }
}
