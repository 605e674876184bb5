/** The vocabulary of the status queue and how the polling loop reads each
    dequeued string (google_drive_up_file.py:260-303). */
module Messages {
  import opened Strings

  /** Control prefixes carrying a link; the link is the rest of the string. */
  const PublicLinkPrefix: string := "PUBLIC_LINK:"
  const LinkPrefix: string := "LINK:"

  /** The sentinel asking the interface to re-enable its buttons. */
  const EnableButtonsSignal: string := "UPLOAD_COMPLETE_ENABLE_BUTTONS"

  /** The two substrings by which the polling loop recognises a failed upload. */
  const NotUploadedPattern: string := "لم يتم رفع الملف بنجاح"
  const UploadErrorPattern: string := "خطأ أثناء الرفع"

  predicate HasFailurePattern(m: string) {
    Contains(m, NotUploadedPattern) || Contains(m, UploadErrorPattern)
  }

  /** What one dequeued string means to the polling loop: a public link, a
      verified link, or text to log (or the sentinel), which may also carry a
      failure pattern. */
  datatype Kind =
    | PublicLinkMsg(url: string)
    | LinkMsg(url: string)
    | TextMsg(text: string, failure: bool, signal: bool)

  /** The branch structure of the polling loop's per-message test: the public
      prefix is tried first, then the plain link prefix; anything else is text. */
  function Classify(m: string): (k: Kind)
    ensures k.PublicLinkMsg? <==> StartsWith(m, PublicLinkPrefix)
    ensures k.PublicLinkMsg? ==> m == PublicLinkPrefix + k.url
    ensures k.LinkMsg? <==> !StartsWith(m, PublicLinkPrefix) && StartsWith(m, LinkPrefix)
    ensures k.LinkMsg? ==> m == LinkPrefix + k.url
    ensures k.TextMsg? ==> k.text == m
    ensures k.TextMsg? ==> (k.failure <==> HasFailurePattern(m))
    ensures k.TextMsg? ==> (k.signal <==> m == EnableButtonsSignal)
  {
    if StartsWith(m, PublicLinkPrefix) then
      assert m == m[..|PublicLinkPrefix|] + m[|PublicLinkPrefix|..];
      PublicLinkMsg(m[|PublicLinkPrefix|..])
    else if StartsWith(m, LinkPrefix) then
      assert m == m[..|LinkPrefix|] + m[|LinkPrefix|..];
      LinkMsg(m[|LinkPrefix|..])
    else
      TextMsg(m, HasFailurePattern(m), m == EnableButtonsSignal)
  }

  /** A text the polling loop cannot mistake for a control message: exactly
      the messages it writes to the log. */
  predicate Inert(t: string) {
    !StartsWith(t, PublicLinkPrefix) && !StartsWith(t, LinkPrefix) && t != EnableButtonsSignal
  }

  /** Every message text the upload thread writes opens with an Arabic letter. */
  predicate ArabicLead(t: string) {
    |t| > 0 && '\U{0600}' <= t[0] <= '\U{06FF}'
  }

  lemma ArabicLeadIsInert(t: string)
    requires ArabicLead(t)
    ensures Inert(t)
  {
    FirstCharRulesOut(t, PublicLinkPrefix);
    FirstCharRulesOut(t, LinkPrefix);
    assert t[0] != EnableButtonsSignal[0];
  }

  /** The sentinel is written in ASCII, so it carries neither failure pattern. */
  lemma SignalHasNoFailurePattern()
    ensures !HasFailurePattern(EnableButtonsSignal)
  {
    var s := EnableButtonsSignal;
    assert forall k | 0 <= k < |s| :: s[k] < '\U{0600}';
    AbsentCharRulesOut(s, NotUploadedPattern, 0);
    AbsentCharRulesOut(s, UploadErrorPattern, 0);
  }

  /** The sentinel is read back as the sentinel, not as a link or a failure. */
  lemma ClassifySignal()
    ensures Classify(EnableButtonsSignal) == TextMsg(EnableButtonsSignal, false, true)
  {
    SignalHasNoFailurePattern();
    FirstCharRulesOut(EnableButtonsSignal, PublicLinkPrefix);
    FirstCharRulesOut(EnableButtonsSignal, LinkPrefix);
  }
}
