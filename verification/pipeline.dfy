/** The two kernels composed: the upload thread's trace (Worker) is put on
    the queues as the strings the thread writes, and one tick of the polling
    loop (Reconciler) drains it as a single batch. */
module Pipeline {
  import opened Options
  import opened Strings
  import opened Messages
  import opened Emissions
  import opened UiState
  import opened Reconciler
  import opened Worker
  import opened Controller

  /** The strings of a list of emissions, in order. */
  function Wires(es: seq<Emission>): seq<string>
    decreases |es|
  {
    if es == [] then [] else [Wire(es[0])] + Wires(es[1..])
  }

  /** The thread's pushes arrive on the two queues, behind whatever was there. */
  function Deliver(ui: Ui, t: seq<Event>): Ui {
    ui.(statusQueue := ui.statusQueue + Wires(Statuses(t)),
        progressQueue := ui.progressQueue + Pushes(t))
  }

  predicate AllQuiet(es: seq<Emission>) {
    forall i | 0 <= i < |es| :: Quiet(es[i])
  }

  /** The batch fold driven by the tags instead of the strings. */
  function ApplyAll(b: Batch, es: seq<Emission>): Batch
    decreases |es|
  {
    if es == [] then b else ApplyAll(Apply(b, Sees(es[0])), es[1..])
  }

  /** The decisive emissions of a list, in order. */
  function Decisives(es: seq<Emission>): seq<Emission>
    decreases |es|
  {
    if es == [] then [] else (if Decisive(es[0]) then [es[0]] else []) + Decisives(es[1..])
  }

  /** The lines a list of emissions puts in the log: the text of every
      informational and failure line, in order. */
  function Texts(es: seq<Emission>): seq<string>
    decreases |es|
  {
    if es == [] then []
    else
      (match es[0]
       case Plain(n) => [NoteText(n)]
       case FailureText(f) => [FailureMessage(f)]
       case _ => []) + Texts(es[1..])
  }

  /** The link locals of a batch. */
  function LinkPart(b: Batch): (Option<string>, Option<string>) {
    (b.linkToShow, b.shareable)
  }

  /** What the link field should show once a whole run has been drained. */
  datatype View = Untouched | Cleared | Shows(link: string)

  /** The link a run leaves behind, read off the outcomes: nothing changes
      when authentication fails or the file is missing; a failed or
      unverifiable upload clears the field; otherwise the public link when the
      file was made public, else the verified link. */
  function ExpectedView(req: Request, o: Outcomes): (v: View)
    ensures v.Untouched? <==> !o.auth.Granted? || !o.fileExists
    ensures v.Cleared? <==> TerminalFailure(o)
    ensures v.Shows? ==> Reached(o) && o.check.Found?
  {
    if !o.auth.Granted? || !o.fileExists then Untouched
    else if o.prepared.PrepareFailed? || !Completes(o.chunks) || o.check.NotFound? then Cleared
    else if req.visibility == "public" && o.share.Shared? then Shows(o.share.link)
    else Shows(o.check.link)
  }

  // ----- From strings to tags -----

  /** Reading back the strings of quiet emissions is folding over their tags. */
  lemma {:induction false} DrainWires(b: Batch, es: seq<Emission>)
    requires AllQuiet(es)
    ensures Drain(b, Wires(es)) == ApplyAll(b, es)
    decreases |es|
  {
    if es != [] {
      ClassifyWire(es[0]);
      assert AllQuiet(es[1..]) by {
        assert forall i | 0 <= i < |es[1..]| :: es[1..][i] == es[i + 1];
      }
      DrainWires(Apply(b, Sees(es[0])), es[1..]);
    }
  }

  /** The log receives exactly the informational and failure lines: links
      and the sentinel never reach it, whatever the payloads. */
  lemma {:induction false} LogOfWires(es: seq<Emission>)
    ensures LogLines(Wires(es)) == Texts(es)
    decreases |es|
  {
    if es != [] {
      LogOfWires(es[1..]);
      WireIsNeverMisread(es[0]);
      match es[0]
      case Plain(n) => ArabicLeadIsInert(NoteText(n));
      case FailureText(f) => ArabicLeadIsInert(FailureMessage(f));
      case _ =>
    }
  }

  lemma {:induction false} StatusesDecided(t: seq<Event>)
    ensures Decisives(Statuses(t)) == Decided(t)
    decreases |t|
  {
    if t != [] {
      StatusesDecided(t[1..]);
      DecisivesAppend(if t[0].Status? then [t[0].emission] else [], Statuses(t[1..]));
    }
  }

  lemma {:induction false} DecisivesAppend(a: seq<Emission>, b: seq<Emission>)
    ensures Decisives(a + b) == Decisives(a) + Decisives(b)
    decreases |a|
  {
    if a == [] {
      assert a + b == b;
    } else {
      var head := if Decisive(a[0]) then [a[0]] else [];
      assert (a + b)[0] == a[0];
      assert (a + b)[1..] == a[1..] + b;
      assert Decisives(a + b) == head + Decisives(a[1..] + b);
      DecisivesAppend(a[1..], b);
      assert head + (Decisives(a[1..]) + Decisives(b)) == (head + Decisives(a[1..])) + Decisives(b);
    }
  }

  /** Only the decisive emissions move the link locals. */
  lemma {:induction false} OnlyDecisiveMatter(b1: Batch, b2: Batch, es: seq<Emission>)
    requires LinkPart(b1) == LinkPart(b2)
    ensures LinkPart(ApplyAll(b1, es)) == LinkPart(ApplyAll(b2, Decisives(es)))
    decreases |es|
  {
    if es != [] {
      var e := es[0];
      if Decisive(e) {
        assert Decisives(es) == [e] + Decisives(es[1..]);
        assert ([e] + Decisives(es[1..]))[1..] == Decisives(es[1..]);
        OnlyDecisiveMatter(Apply(b1, Sees(e)), Apply(b2, Sees(e)), es[1..]);
      } else {
        assert Decisives(es) == Decisives(es[1..]);
        assert LinkPart(Apply(b1, Sees(e))) == LinkPart(b1);
        OnlyDecisiveMatter(Apply(b1, Sees(e)), b2, es[1..]);
      }
    }
  }

  // ----- A whole run in one batch -----

  /** The decisive emissions of a run leave the link locals as the expected
      view says. */
  lemma ViewOfDecisions(req: Request, o: Outcomes, s: Option<string>)
    ensures var b := ApplyAll(Start(s), Decisions(req, o));
      match ExpectedView(req, o)
      case Untouched => b.linkToShow == None && b.shareable == s
      case Cleared => b.linkToShow == Some("") && b.shareable == None
      case Shows(l) => b.linkToShow == Some(l) && b.shareable == Some(l)
  {
    var ds := Decisions(req, o);
    if |ds| == 1 {
      assert ds[1..] == [];
    } else if |ds| == 2 {
      var b1 := Apply(Start(s), Sees(ds[0]));
      assert ApplyAll(Start(s), ds) == ApplyAll(b1, ds[1..]);
      assert ds[1..][1..] == [];
      assert ApplyAll(b1, ds[1..]) == Apply(b1, Sees(ds[1]));
    }
  }

  /** The link locals after draining a whole quiet run as one batch. */
  lemma RunLinkPart(req: Request, o: Outcomes, s: Option<string>)
    requires AllQuiet(Statuses(Run(req, o)))
    ensures var b := Drain(Start(s), Wires(Statuses(Run(req, o))));
      match ExpectedView(req, o)
      case Untouched => b.linkToShow == None && b.shareable == s
      case Cleared => b.linkToShow == Some("") && b.shareable == None
      case Shows(l) => b.linkToShow == Some(l) && b.shareable == Some(l)
  {
    var es := Statuses(Run(req, o));
    DrainWires(Start(s), es);
    OnlyDecisiveMatter(Start(s), Start(s), es);
    StatusesDecided(Run(req, o));
    RunSummary(req, o);
    ViewOfDecisions(req, o, s);
  }

  /** Delivering a run onto empty queues puts exactly its strings and its
      progress values there. */
  lemma DeliverOntoEmpty(ui: Ui, t: seq<Event>)
    requires ui.statusQueue == [] && ui.progressQueue == []
    ensures Deliver(ui, t).statusQueue == Wires(Statuses(t))
    ensures Deliver(ui, t).progressQueue == Pushes(t)
    ensures Deliver(ui, t).shareable == ui.shareable
    ensures Deliver(ui, t).linkField == ui.linkField && Deliver(ui, t).copyEnabled == ui.copyEnabled
  {
    assert [] + Wires(Statuses(t)) == Wires(Statuses(t));
    assert [] + Pushes(t) == Pushes(t);
  }

  /** The link field, copy button and shareable link after the tick. */
  lemma RunShowsView(ui: Ui, req: Request, o: Outcomes)
    requires ui.statusQueue == [] && ui.progressQueue == []
    requires AllQuiet(Statuses(Run(req, o)))
    ensures var r := Tick(Deliver(ui, Run(req, o)));
      match ExpectedView(req, o)
      case Untouched =>
        r.linkField == ui.linkField && r.copyEnabled == ui.copyEnabled && r.shareable == ui.shareable
      case Cleared => r.linkField == "" && !r.copyEnabled && r.shareable == None
      case Shows(l) => r.linkField == l && r.copyEnabled == (l != "") && r.shareable == Some(l)
  {
    DeliverOntoEmpty(ui, Run(req, o));
    RunLinkPart(req, o, ui.shareable);
    TickShowsDecidedLink(Deliver(ui, Run(req, o)));
  }

  /** The last string of a run on the queue is the sentinel. */
  lemma {:induction false} LastWire(es: seq<Emission>)
    requires |es| > 0 && es[|es| - 1] == Sentinel
    ensures EnableButtonsSignal in Wires(es)
    decreases |es|
  {
    if |es| > 1 {
      LastWire(es[1..]);
    }
  }

  /** The buttons are enabled again after the tick. */
  lemma RunReenables(ui: Ui, req: Request, o: Outcomes)
    requires ui.statusQueue == [] && ui.progressQueue == []
    ensures Tick(Deliver(ui, Run(req, o))).browseEnabled
    ensures Tick(Deliver(ui, Run(req, o))).uploadEnabled
  {
    DeliverOntoEmpty(ui, Run(req, o));
    SentinelOnceAtEnd(req, o);
    LastWire(Statuses(Run(req, o)));
    TickButtons(Deliver(ui, Run(req, o)));
  }

  /** The log gains exactly the run's informational and failure lines. */
  lemma RunLogs(ui: Ui, req: Request, o: Outcomes)
    requires ui.statusQueue == [] && ui.progressQueue == []
    ensures Tick(Deliver(ui, Run(req, o))).log == ui.log + Texts(Statuses(Run(req, o)))
  {
    DeliverOntoEmpty(ui, Run(req, o));
    LogOfWires(Statuses(Run(req, o)));
    TickLogs(Deliver(ui, Run(req, o)));
  }

  /** The bar ends on the run's last progress value. */
  lemma RunProgress(ui: Ui, req: Request, o: Outcomes)
    requires ui.statusQueue == [] && ui.progressQueue == []
    ensures Tick(Deliver(ui, Run(req, o))).progress ==
              if Progress(o) == [] then ui.progress else Progress(o)[|Progress(o)| - 1]
  {
    DeliverOntoEmpty(ui, Run(req, o));
    RunSummary(req, o);
    TickProgress(Deliver(ui, Run(req, o)));
  }

  /** A run delivered onto empty queues and drained by one tick: the buttons
      are enabled again, the log gains exactly the run's informational and
      failure lines, the bar ends on the run's last progress value, and the
      link field, copy button and shareable link end as the expected view
      says. */
  lemma RunInOneTick(ui: Ui, req: Request, o: Outcomes)
    requires ui.statusQueue == [] && ui.progressQueue == []
    requires AllQuiet(Statuses(Run(req, o)))
    ensures var r := Tick(Deliver(ui, Run(req, o)));
      && r.browseEnabled && r.uploadEnabled
      && r.log == ui.log + Texts(Statuses(Run(req, o)))
      && r.progress == (if Progress(o) == [] then ui.progress else Progress(o)[|Progress(o)| - 1])
      && match ExpectedView(req, o)
         case Untouched =>
           r.linkField == ui.linkField && r.copyEnabled == ui.copyEnabled && r.shareable == ui.shareable
         case Cleared => r.linkField == "" && !r.copyEnabled && r.shareable == None
         case Shows(l) => r.linkField == l && r.copyEnabled == (l != "") && r.shareable == Some(l)
  {
    RunShowsView(ui, req, o);
    RunReenables(ui, req, o);
    RunLogs(ui, req, o);
    RunProgress(ui, req, o);
  }

  /** From a click on the upload button to the first tick that drains the
      whole run: a launched upload ends with browse and upload enabled, the
      copy button enabled exactly when a non-empty link is shown, that link
      the one to copy, and nothing shown at all when the upload never
      started. */
  lemma SubmitThenRun(ui: Ui, o: Outcomes)
    requires Submit(ui).verdict.Launched?
    requires AllQuiet(Statuses(Run(Submit(ui).verdict.request, o)))
    ensures var s := Submit(ui);
      var r := Tick(Deliver(s.ui, Run(s.verdict.request, o)));
      && r.browseEnabled && r.uploadEnabled
      && Consistent(r)
      && (ExpectedView(s.verdict.request, o).Shows? ==>
            r.linkField == ExpectedView(s.verdict.request, o).link)
      && (!ExpectedView(s.verdict.request, o).Shows? ==>
            r.linkField == "" && !r.copyEnabled && r.shareable == None)
  {
    var s := Submit(ui);
    RunInOneTick(s.ui, s.verdict.request, o);
  }

  // ----- The quiet hypothesis can be met -----

  /** An informational line that lacks a character of each failure pattern
      carries neither. */
  lemma QuietNote(n: Note, j1: nat, j2: nat)
    requires j1 < |NotUploadedPattern| && j2 < |UploadErrorPattern|
    requires forall k | 0 <= k < |NoteText(n)| ::
               NoteText(n)[k] != NotUploadedPattern[j1] && NoteText(n)[k] != UploadErrorPattern[j2]
    ensures Quiet(Plain(n))
  {
    AbsentCharRulesOut(NoteText(n), NotUploadedPattern, j1);
    AbsentCharRulesOut(NoteText(n), UploadErrorPattern, j2);
  }

  /** A private upload with plain ASCII names that succeeds and is found
      again. */
  const SampleRequest := Request("report.pdf", "report.pdf", "private")
  const SampleOutcomes :=
    Outcomes(Granted(false), true, Prepared, [], "f1", Found("https://d/f1"), ShareFailed(""))

  /** Its statuses: start, upload and verification lines, the verified link,
      the private-file line and the sentinel. */
  lemma SampleStatuses()
    ensures Statuses(Run(SampleRequest, SampleOutcomes)) ==
              [Plain(AuthenticatedNote), Plain(StartedNote("report.pdf")), Plain(UploadedNote("f1")),
               Link("https://d/f1"), Plain(VerifiedNote), Plain(PrivateNote), Sentinel]
  {
    var t := [Say(AuthenticatedNote), Say(StartedNote("report.pdf")), Push(100), Say(UploadedNote("f1")),
              Status(Link("https://d/f1")), Say(VerifiedNote), Say(PrivateNote), Status(Sentinel)];
    assert Run(SampleRequest, SampleOutcomes) == t;
    assert Statuses(t[8..]) == [];
    assert Statuses(t[7..]) == [Sentinel];
    assert Statuses(t[6..]) == [Plain(PrivateNote), Sentinel];
    assert Statuses(t[5..]) == [Plain(VerifiedNote), Plain(PrivateNote), Sentinel];
    assert Statuses(t[4..]) == [Link("https://d/f1")] + Statuses(t[5..]);
    assert Statuses(t[3..]) == [Plain(UploadedNote("f1"))] + Statuses(t[4..]);
    assert Statuses(t[2..]) == Statuses(t[3..]);
    assert Statuses(t[1..]) == [Plain(StartedNote("report.pdf"))] + Statuses(t[2..]);
  }

  /** That run is quiet: the quiet hypothesis of the whole-run lemmas can
      be met. */
  lemma SampleIsQuiet()
    ensures AllQuiet(Statuses(Run(SampleRequest, SampleOutcomes)))
  {
    SampleStatuses();
    SampleUploadLinesQuiet();
    SampleCheckLinesQuiet();
  }

  lemma SampleUploadLinesQuiet()
    ensures Quiet(Plain(AuthenticatedNote))
    ensures Quiet(Plain(StartedNote("report.pdf")))
    ensures Quiet(Plain(UploadedNote("f1")))
  {
    QuietNote(AuthenticatedNote, 3, 0);
    QuietNote(StartedNote("report.pdf"), 3, 0);
    QuietNote(UploadedNote("f1"), 3, 0);
  }

  lemma SampleCheckLinesQuiet()
    ensures Quiet(Plain(VerifiedNote)) && Quiet(Plain(PrivateNote))
  {
    QuietNote(VerifiedNote, 3, 0);
    QuietNote(PrivateNote, 3, 1);
  }

  /** One tick from the initial window over that run shows the verified
      link. */
  lemma SampleShowsLink()
    ensures ExpectedView(SampleRequest, SampleOutcomes) == Shows("https://d/f1")
    ensures Tick(Deliver(Initial(), Run(SampleRequest, SampleOutcomes))).linkField == "https://d/f1"
  {
    SampleIsQuiet();
    RunShowsView(Initial(), SampleRequest, SampleOutcomes);
  }
}
