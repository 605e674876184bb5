/** The upload thread (`authenticate_and_upload`, google_drive_up_file.py:352-381,
    with `upload_file_to_drive`, 76-150, and the failure returns of
    `get_drive_service`, 35-73) as a pure function from the outcomes of the
    external calls to the ordered list of what it pushes on the two queues. */
module Worker {
  import opened Emissions

  /** The arguments the thread is started with. */
  datatype Request = Request(path: string, name: string, visibility: string)

  /** How `get_drive_service` ends. `consented` says whether the interactive
      browser consent ran to completion; `announced` whether the consent flow
      got as far as announcing the browser. `TokenFileFailed` is an exception
      escaping from reading or writing the token file, which only the
      thread's own `except` catches. */
  datatype Auth =
    | Granted(consented: bool)
    | RefreshFailed(reason: string)
    | SecretsMissing
    | ConsentFailed(announced: bool, reason: string)
    | BuildFailed(consented: bool, reason: string)
    | TokenFileFailed(consented: bool, reason: string)

  /** Creating the upload request (`MediaFileUpload` and `files().create`). */
  datatype Prepare = Prepared | PrepareFailed(reason: string)

  /** One `next_chunk` call that did not yet finish the upload: it reports a
      progress percentage, or raises. The final call, which returns the
      created file, is implicit at the end of the list. */
  datatype Chunk = Acked(progress: int) | ChunkFailed(reason: string)

  /** The read-back `files().get` after the upload. */
  datatype Check = Found(link: string) | NotFound(reason: string)

  /** `permissions().create` followed by the `files().get` of the link. */
  datatype Share = Shared(link: string) | ShareFailed(reason: string)

  /** Every outcome of the external world the thread depends on. */
  datatype Outcomes = Outcomes(
    auth: Auth,
    fileExists: bool,
    prepared: Prepare,
    chunks: seq<Chunk>,
    fileId: string,
    check: Check,
    share: Share)

  /** One push, onto the status queue or onto the progress queue. */
  datatype Event = Status(emission: Emission) | Push(progress: int)

  function Say(n: Note): Event {
    Status(Plain(n))
  }

  function ConsentEvents(consented: bool): seq<Event> {
    if consented then [Say(BrowserNote), Say(ConsentedNote)] else []
  }

  /** What `get_drive_service` puts on the status queue. */
  function AuthEvents(a: Auth): seq<Event> {
    match a
    case Granted(c) => ConsentEvents(c)
    case RefreshFailed(e) => [Say(RefreshFailedNote(e))]
    case SecretsMissing => [Say(SecretsMissingNote)]
    case ConsentFailed(announced, e) =>
      (if announced then [Say(BrowserNote)] else []) + [Say(ConsentFailedNote(e))]
    case BuildFailed(c, e) => ConsentEvents(c) + [Say(BuildFailedNote(e))]
    case TokenFileFailed(c, _) => ConsentEvents(c)
  }

  /** No chunk raised. */
  predicate Completes(cs: seq<Chunk>) {
    forall i | 0 <= i < |cs| :: cs[i].Acked?
  }

  /** The `next_chunk` loop: a progress value and a progress line per
      acknowledged chunk; on the first error a failure line and a reset to 0. */
  function Transfer(cs: seq<Chunk>): seq<Event>
    decreases |cs|
  {
    if cs == [] then []
    else match cs[0]
      case Acked(p) => [Push(p), Say(ProgressNote(p))] + Transfer(cs[1..])
      case ChunkFailed(e) => [Status(FailureText(ChunkError(e))), Push(0)]
  }

  /** The visibility step once the upload is verified. */
  function Publish(req: Request, o: Outcomes): seq<Event> {
    if req.visibility == "public" then
      match o.share
      case Shared(l) =>
        [Say(SharingNote), Say(SharedNote), Status(PublicLink(l)), Say(PublicLinkNote(l))]
      case ShareFailed(e) =>
        [Say(SharingNote), Say(ShareErrorNote(e)), Say(StillPrivateNote)]
    else
      [Say(PrivateNote)]
  }

  /** The read-back check and what follows it. */
  function Verify(req: Request, o: Outcomes): seq<Event> {
    match o.check
    case NotFound(e) => [Say(NotFoundNote(e)), Status(FailureText(NotUploaded))]
    case Found(l) => [Status(Link(l))] + [Say(VerifiedNote)] + Publish(req, o)
  }

  /** Once the chunk loop returned the created file: the bar goes to 100,
      the file id is reported, then the read-back check. */
  function Finish(req: Request, o: Outcomes): seq<Event> {
    [Push(100), Say(UploadedNote(o.fileId))] + Verify(req, o)
  }

  /** Everything after the start line: creating the request (whose failure
      the outer `except` reports), the chunk loop, and the rest when no chunk
      raised. */
  function Send(req: Request, o: Outcomes): seq<Event> {
    match o.prepared
    case PrepareFailed(e) => [Status(FailureText(UploadError(e))), Push(0)]
    case Prepared => Transfer(o.chunks) + (if Completes(o.chunks) then Finish(req, o) else [])
  }

  /** `upload_file_to_drive` with a built service. */
  function Upload(req: Request, o: Outcomes): seq<Event> {
    if !o.fileExists then [Say(MissingFileNote(req.path))]
    else [Say(StartedNote(req.name))] + Send(req, o)
  }

  /** What the thread does with the result of `get_drive_service`, or with an
      exception escaping from it. */
  function Conclude(req: Request, o: Outcomes): seq<Event> {
    match o.auth
    case Granted(_) => [Say(AuthenticatedNote)] + Upload(req, o)
    case TokenFileFailed(_, e) => [Say(UnexpectedNote(e)), Push(0)]
    case _ => [Say(AuthFailedNote), Push(0)]
  }

  /** The `try` part of `authenticate_and_upload`, with its `except`. */
  function Body(req: Request, o: Outcomes): seq<Event> {
    AuthEvents(o.auth) + Conclude(req, o)
  }

  /** The status emissions of a trace, in order. */
  function Statuses(t: seq<Event>): seq<Emission>
    decreases |t|
  {
    if t == [] then []
    else (if t[0].Status? then [t[0].emission] else []) + Statuses(t[1..])
  }

  /** The progress pushes of a trace, in order. */
  function Pushes(t: seq<Event>): seq<int>
    decreases |t|
  {
    if t == [] then []
    else (if t[0].Push? then [t[0].progress] else []) + Pushes(t[1..])
  }

  /** The whole thread: whatever happens, the `finally` clause pushes the
      sentinel last. */
  function Run(req: Request, o: Outcomes): seq<Event> {
    Body(req, o) + [Status(Sentinel)]
  }

  /** For every outcome, exceptions included, the statuses of a run end with
      the sentinel, and it is the only one. */
  lemma SentinelOnceAtEnd(req: Request, o: Outcomes)
    ensures var es := Statuses(Run(req, o));
      |es| > 0 && es[|es| - 1] == Sentinel && multiset(es)[Sentinel] == 1
  {
    assert Run(req, o) == Body(req, o) + [Status(Sentinel)];
    BodyHasNoSentinel(req, o);
    CloseTrace(Body(req, o));
  }

  /** The thread got as far as the read-back check. */
  predicate Reached(o: Outcomes) {
    o.auth.Granted? && o.fileExists && o.prepared.Prepared? && Completes(o.chunks)
  }

  /** The upload failed in a way the thread reports with a failure line. */
  predicate TerminalFailure(o: Outcomes) {
    && o.auth.Granted? && o.fileExists
    && (o.prepared.PrepareFailed? || !Completes(o.chunks) || o.check.NotFound?)
  }

  // ----- Projections -----

  lemma {:induction false} StatusesAppend(a: seq<Event>, b: seq<Event>)
    ensures Statuses(a + b) == Statuses(a) + Statuses(b)
    decreases |a|
  {
    if a == [] {
      assert a + b == b;
    } else {
      assert (a + b)[0] == a[0];
      assert (a + b)[1..] == a[1..] + b;
      StatusesAppend(a[1..], b);
    }
  }

  lemma {:induction false} PushesAppend(a: seq<Event>, b: seq<Event>)
    ensures Pushes(a + b) == Pushes(a) + Pushes(b)
    decreases |a|
  {
    if a == [] {
      assert a + b == b;
    } else {
      assert (a + b)[0] == a[0];
      assert (a + b)[1..] == a[1..] + b;
      PushesAppend(a[1..], b);
    }
  }

  /** An emission is among the statuses exactly when it was pushed. */
  lemma {:induction false} StatusesMember(t: seq<Event>)
    ensures forall e :: e in Statuses(t) <==> Status(e) in t
    decreases |t|
  {
    if t != [] {
      StatusesMember(t[1..]);
      assert t == [t[0]] + t[1..];
    }
  }

  /** Appending the sentinel to a body that never pushed it. */
  lemma CloseTrace(body: seq<Event>)
    requires Status(Sentinel) !in body
    ensures var t := body + [Status(Sentinel)];
      && |Statuses(t)| > 0 && Statuses(t)[|Statuses(t)| - 1] == Sentinel
      && multiset(Statuses(t))[Sentinel] == 1
  {
    StatusesAppend(body, [Status(Sentinel)]);
    StatusesMember(body);
    assert Statuses([Status(Sentinel)]) == [Sentinel];
    assert Sentinel !in Statuses(body);
    assert multiset(Statuses(body))[Sentinel] == 0;
  }

  // ----- Reference summaries of a run -----

  /** An emission the polling loop acts on beyond logging it. */
  predicate Decisive(e: Emission) {
    e.Link? || e.PublicLink? || e.FailureText?
  }

  /** The decisive status emissions of a trace, in order. */
  function Decided(t: seq<Event>): seq<Emission>
    decreases |t|
  {
    if t == [] then []
    else (if t[0].Status? && Decisive(t[0].emission) then [t[0].emission] else []) + Decided(t[1..])
  }

  /** The progress values of the chunks acknowledged before the first error. */
  function Acks(cs: seq<Chunk>): seq<int>
    decreases |cs|
  {
    if cs == [] || cs[0].ChunkFailed? then [] else [cs[0].progress] + Acks(cs[1..])
  }

  /** The reason of the first chunk that raised. */
  function FirstError(cs: seq<Chunk>): string
    requires !Completes(cs)
    decreases |cs|
  {
    if cs[0].ChunkFailed? then cs[0].reason
    else
      assert !Completes(cs[1..]) by {
        var k :| 0 <= k < |cs| && !cs[k].Acked?;
        assert cs[1..][k - 1] == cs[k];
      }
      FirstError(cs[1..])
  }

  /** What a run decides, read off the outcomes: nothing when authentication
      fails or the file is missing; one failure line when the upload fails or
      cannot be found afterwards; otherwise the verified link, followed by the
      public link when the file was made public. */
  function Decisions(req: Request, o: Outcomes): seq<Emission> {
    if !o.auth.Granted? || !o.fileExists then []
    else if o.prepared.PrepareFailed? then [FailureText(UploadError(o.prepared.reason))]
    else if !Completes(o.chunks) then [FailureText(ChunkError(FirstError(o.chunks)))]
    else match o.check
      case NotFound(_) => [FailureText(NotUploaded)]
      case Found(l) =>
        [Link(l)] + (if req.visibility == "public" && o.share.Shared? then [PublicLink(o.share.link)] else [])
  }

  /** What a run pushes on the progress queue, read off the outcomes: 0 after
      a failed authentication or upload, nothing for a missing file, the
      acknowledged percentages and then 100 for a finished upload. */
  function Progress(o: Outcomes): seq<int> {
    if !o.auth.Granted? then [0]
    else if !o.fileExists then []
    else if o.prepared.PrepareFailed? then [0]
    else Acks(o.chunks) + (if Completes(o.chunks) then [100] else [0])
  }

  // ----- Facts about the pieces -----

  lemma {:induction false} DecidedAppend(a: seq<Event>, b: seq<Event>)
    ensures Decided(a + b) == Decided(a) + Decided(b)
    decreases |a|
  {
    if a == [] {
      assert a + b == b;
    } else {
      assert (a + b)[0] == a[0];
      assert (a + b)[1..] == a[1..] + b;
      DecidedAppend(a[1..], b);
    }
  }

  /** A decisive emission was pushed exactly when it is among the decided ones. */
  lemma {:induction false} DecidedMember(t: seq<Event>, e: Emission)
    requires Decisive(e)
    ensures e in Decided(t) <==> Status(e) in t
    decreases |t|
  {
    if t != [] {
      DecidedMember(t[1..], e);
      assert t == [t[0]] + t[1..];
    }
  }

  /** Informational lines only. */
  predicate Chatter(t: seq<Event>) {
    forall i | 0 <= i < |t| :: t[i].Status? && t[i].emission.Plain?
  }

  lemma {:induction false} ChatterIsSilent(t: seq<Event>)
    requires Chatter(t)
    ensures Decided(t) == [] && Pushes(t) == []
    decreases |t|
  {
    if t != [] {
      ChatterIsSilent(t[1..]);
    }
  }

  lemma AuthEventsAreChatter(a: Auth)
    ensures Chatter(AuthEvents(a))
    ensures Decided(AuthEvents(a)) == [] && Pushes(AuthEvents(a)) == []
  {
    ChatterIsSilent(AuthEvents(a));
  }

  lemma {:induction false} SingleEvent(ev: Event)
    ensures Decided([ev]) == if ev.Status? && Decisive(ev.emission) then [ev.emission] else []
    ensures Pushes([ev]) == if ev.Push? then [ev.progress] else []
    ensures Statuses([ev]) == if ev.Status? then [ev.emission] else []
  {
    assert [ev][1..] == [];
  }

  lemma CompletesCons(cs: seq<Chunk>)
    requires cs != []
    ensures Completes(cs) <==> cs[0].Acked? && Completes(cs[1..])
  {
    assert forall i | 0 <= i < |cs[1..]| :: cs[1..][i] == cs[i + 1];
  }

  /** The chunk loop decides nothing unless a chunk raises, and then exactly
      that chunk's error. */
  lemma {:induction false} TransferDecides(cs: seq<Chunk>)
    ensures Decided(Transfer(cs)) ==
              if Completes(cs) then [] else [FailureText(ChunkError(FirstError(cs)))]
    decreases |cs|
  {
    if cs != [] {
      CompletesCons(cs);
      match cs[0]
      case Acked(p) =>
        TransferDecides(cs[1..]);
        var head := [Push(p), Say(ProgressNote(p))];
        assert Transfer(cs) == head + Transfer(cs[1..]);
        DecidedAppend(head, Transfer(cs[1..]));
        ChatterOrPushesDecideNothing(head);
      case ChunkFailed(e) =>
        var f := Status(FailureText(ChunkError(e)));
        assert Transfer(cs) == [f] + [Push(0)];
        DecidedAppend([f], [Push(0)]);
        SingleEvent(f);
        SingleEvent(Push(0));
    }
  }

  /** The chunk loop pushes the acknowledged percentages, then 0 on an error. */
  lemma {:induction false} TransferPushes(cs: seq<Chunk>)
    ensures Pushes(Transfer(cs)) == Acks(cs) + (if Completes(cs) then [] else [0])
    decreases |cs|
  {
    if cs != [] {
      CompletesCons(cs);
      if cs[0].Acked? {
        var p := cs[0].progress;
        TransferPushes(cs[1..]);
        var head := [Push(p), Say(ProgressNote(p))];
        assert Transfer(cs) == head + Transfer(cs[1..]);
        PushesAppend(head, Transfer(cs[1..]));
        PairPushes(Push(p), Say(ProgressNote(p)));
        assert Acks(cs) == [p] + Acks(cs[1..]);
      } else {
        var f := Status(FailureText(ChunkError(cs[0].reason)));
        assert Transfer(cs) == [f, Push(0)];
        PairPushes(f, Push(0));
      }
    }
  }

  lemma PairPushes(x: Event, y: Event)
    ensures Pushes([x, y]) == Pushes([x]) + Pushes([y])
    ensures Pushes([x]) == if x.Push? then [x.progress] else []
    ensures Pushes([y]) == if y.Push? then [y.progress] else []
  {
    assert [x, y] == [x] + [y];
    PushesAppend([x], [y]);
    SingleEvent(x);
    SingleEvent(y);
  }

  /** Events that are progress values or informational lines decide nothing. */
  lemma {:induction false} ChatterOrPushesDecideNothing(t: seq<Event>)
    requires forall i | 0 <= i < |t| :: t[i].Push? || t[i].emission.Plain?
    ensures Decided(t) == []
    decreases |t|
  {
    if t != [] {
      ChatterOrPushesDecideNothing(t[1..]);
    }
  }

  lemma {:induction false} TransferHasNoSentinel(cs: seq<Chunk>)
    ensures Status(Sentinel) !in Transfer(cs)
    decreases |cs|
  {
    if cs != [] && cs[0].Acked? {
      TransferHasNoSentinel(cs[1..]);
    }
  }

  lemma VerifyHasNoSentinel(req: Request, o: Outcomes)
    ensures Status(Sentinel) !in Verify(req, o)
  {
    assert Status(Sentinel) !in Publish(req, o);
  }

  lemma SendHasNoSentinel(req: Request, o: Outcomes)
    ensures Status(Sentinel) !in Send(req, o)
  {
    TransferHasNoSentinel(o.chunks);
    VerifyHasNoSentinel(req, o);
    assert Status(Sentinel) !in Finish(req, o);
  }

  lemma BodyHasNoSentinel(req: Request, o: Outcomes)
    ensures Status(Sentinel) !in Body(req, o)
  {
    SendHasNoSentinel(req, o);
    assert Status(Sentinel) !in Upload(req, o);
    assert Status(Sentinel) !in Conclude(req, o);
    assert Status(Sentinel) !in AuthEvents(o.auth);
  }

  /** A trace made only of status events pushes no progress. */
  lemma {:induction false} NoPushes(t: seq<Event>)
    requires forall i | 0 <= i < |t| :: t[i].Status?
    ensures Pushes(t) == []
    decreases |t|
  {
    if t != [] {
      NoPushes(t[1..]);
    }
  }

  /** Informational lines in front of a trace change neither projection. */
  lemma ChatterFirst(c: seq<Event>, t: seq<Event>)
    requires Chatter(c)
    ensures Decided(c + t) == Decided(t) && Pushes(c + t) == Pushes(t)
  {
    ChatterIsSilent(c);
    DecidedAppend(c, t);
    PushesAppend(c, t);
  }

  /** The visibility step pushes no progress and decides only the public link. */
  lemma PublishSummary(req: Request, o: Outcomes)
    ensures Decided(Publish(req, o)) ==
              if req.visibility == "public" && o.share.Shared? then [PublicLink(o.share.link)] else []
    ensures Pushes(Publish(req, o)) == []
  {
    var t := Publish(req, o);
    assert forall i | 0 <= i < |t| :: t[i].Status?;
    NoPushes(t);
    if req.visibility == "public" && o.share.Shared? {
      var l := o.share.link;
      var z := [Say(PublicLinkNote(l))];
      assert t == [Say(SharingNote), Say(SharedNote)] + ([Status(PublicLink(l))] + z);
      ChatterFirst([Say(SharingNote), Say(SharedNote)], [Status(PublicLink(l))] + z);
      DecidedAppend([Status(PublicLink(l))], z);
      ChatterIsSilent(z);
      SingleEvent(Status(PublicLink(l)));
    } else {
      ChatterIsSilent(t);
    }
  }

  lemma NotFoundSummary(req: Request, o: Outcomes)
    requires o.check.NotFound?
    ensures Decided(Verify(req, o)) == [FailureText(NotUploaded)]
  {
    var f := Status(FailureText(NotUploaded));
    assert Verify(req, o) == [Say(NotFoundNote(o.check.reason))] + [f];
    ChatterFirst([Say(NotFoundNote(o.check.reason))], [f]);
    SingleEvent(f);
  }

  /** A decisive event followed by an informational line and a tail. */
  lemma DecisiveThenChatter(ev: Event, n: Note, p: seq<Event>)
    requires ev.Status? && Decisive(ev.emission)
    ensures Decided([ev] + [Say(n)] + p) == [ev.emission] + Decided(p)
  {
    DecidedAppend([ev] + [Say(n)], p);
    DecidedAppend([ev], [Say(n)]);
    SingleEvent(ev);
    SingleEvent(Say(n));
  }

  lemma FoundSummary(req: Request, o: Outcomes)
    requires o.check.Found?
    ensures Decided(Verify(req, o)) == [Link(o.check.link)] + Decided(Publish(req, o))
  {
    DecisiveThenChatter(Status(Link(o.check.link)), VerifiedNote, Publish(req, o));
  }

  lemma VerifySummary(req: Request, o: Outcomes)
    ensures Decided(Verify(req, o)) ==
              match o.check
              case NotFound(_) => [FailureText(NotUploaded)]
              case Found(l) => [Link(l)] + Decided(Publish(req, o))
    ensures Pushes(Verify(req, o)) == []
  {
    var t := Verify(req, o);
    assert forall i | 0 <= i < |t| :: t[i].Status?;
    NoPushes(t);
    if o.check.NotFound? {
      NotFoundSummary(req, o);
    } else {
      FoundSummary(req, o);
    }
  }

  lemma FinishSummary(req: Request, o: Outcomes)
    ensures Decided(Finish(req, o)) == Decided(Verify(req, o))
    ensures Pushes(Finish(req, o)) == [100]
  {
    var head := [Push(100), Say(UploadedNote(o.fileId))];
    DecidedAppend(head, Verify(req, o));
    PushesAppend(head, Verify(req, o));
    ChatterOrPushesDecideNothing(head);
    PairPushes(Push(100), Say(UploadedNote(o.fileId)));
    VerifySummary(req, o);
  }

  lemma SendSummary(req: Request, o: Outcomes)
    requires o.prepared.Prepared?
    ensures Decided(Send(req, o)) ==
              if Completes(o.chunks) then Decided(Verify(req, o))
              else [FailureText(ChunkError(FirstError(o.chunks)))]
    ensures Pushes(Send(req, o)) == Acks(o.chunks) + (if Completes(o.chunks) then [100] else [0])
  {
    TransferDecides(o.chunks);
    TransferPushes(o.chunks);
    if Completes(o.chunks) {
      assert Send(req, o) == Transfer(o.chunks) + Finish(req, o);
      DecidedAppend(Transfer(o.chunks), Finish(req, o));
      PushesAppend(Transfer(o.chunks), Finish(req, o));
      FinishSummary(req, o);
    } else {
      assert Send(req, o) == Transfer(o.chunks);
    }
  }

  lemma UploadSummary(req: Request, o: Outcomes)
    requires o.auth.Granted?
    ensures Decided(Upload(req, o)) == Decisions(req, o)
    ensures Pushes(Upload(req, o)) == Progress(o)
  {
    if !o.fileExists {
      SingleEvent(Say(MissingFileNote(req.path)));
    } else {
      ChatterFirst([Say(StartedNote(req.name))], Send(req, o));
      if o.prepared.PrepareFailed? {
        var f := Status(FailureText(UploadError(o.prepared.reason)));
        assert Send(req, o) == [f] + [Push(0)];
        DecidedAppend([f], [Push(0)]);
        PairPushes(f, Push(0));
        SingleEvent(f);
        SingleEvent(Push(0));
      } else {
        SendSummary(req, o);
        VerifySummary(req, o);
        PublishSummary(req, o);
      }
    }
  }

  lemma ConcludeSummary(req: Request, o: Outcomes)
    ensures Decided(Conclude(req, o)) == Decisions(req, o)
    ensures Pushes(Conclude(req, o)) == Progress(o)
  {
    match o.auth
    case Granted(_) =>
      GrantedSummary(req, o);
    case TokenFileFailed(_, e) =>
      ChatterOrPushesDecideNothing([Say(UnexpectedNote(e)), Push(0)]);
      PairPushes(Say(UnexpectedNote(e)), Push(0));
    case _ =>
      ChatterOrPushesDecideNothing([Say(AuthFailedNote), Push(0)]);
      PairPushes(Say(AuthFailedNote), Push(0));
  }

  lemma GrantedSummary(req: Request, o: Outcomes)
    requires o.auth.Granted?
    ensures Decided(Conclude(req, o)) == Decisions(req, o)
    ensures Pushes(Conclude(req, o)) == Progress(o)
  {
    assert Conclude(req, o) == [Say(AuthenticatedNote)] + Upload(req, o);
    ChatterFirst([Say(AuthenticatedNote)], Upload(req, o));
    UploadSummary(req, o);
  }

  lemma BodySummary(req: Request, o: Outcomes)
    ensures Decided(Body(req, o)) == Decisions(req, o)
    ensures Pushes(Body(req, o)) == Progress(o)
  {
    AuthEventsAreChatter(o.auth);
    ChatterFirst(AuthEvents(o.auth), Conclude(req, o));
    ConcludeSummary(req, o);
  }

  /** The decisive emissions of a run, and its progress values, are exactly
      the ones read off the outcomes. */
  lemma RunSummary(req: Request, o: Outcomes)
    ensures Decided(Run(req, o)) == Decisions(req, o)
    ensures Pushes(Run(req, o)) == Progress(o)
  {
    var body := Body(req, o);
    assert Run(req, o) == body + [Status(Sentinel)];
    DecidedAppend(body, [Status(Sentinel)]);
    PushesAppend(body, [Status(Sentinel)]);
    SingleEvent(Status(Sentinel));
    BodySummary(req, o);
  }

  // ----- Properties of a run -----

  /** The verified link is pushed exactly when the upload finished and the
      read-back check found the file, and it is that check's link
      (`DecidedMember` carries this over to the trace itself). */
  lemma LinkIff(req: Request, o: Outcomes, u: string)
    ensures Link(u) in Decided(Run(req, o)) <==> Reached(o) && o.check == Found(u)
  {
    RunSummary(req, o);
  }

  /** The public link is pushed exactly when, on top of that, the file was
      asked to be public and the permission grant succeeded. */
  lemma PublicLinkIff(req: Request, o: Outcomes, u: string)
    ensures PublicLink(u) in Decided(Run(req, o)) <==>
              Reached(o) && o.check.Found? && req.visibility == "public" && o.share == Shared(u)
  {
    RunSummary(req, o);
    PublicLinkDecided(req, o, u);
  }

  lemma PublicLinkDecided(req: Request, o: Outcomes, u: string)
    ensures PublicLink(u) in Decisions(req, o) <==>
              Reached(o) && o.check.Found? && req.visibility == "public" && o.share == Shared(u)
  {
    if Reached(o) && o.check.Found? {
      if req.visibility == "public" && o.share.Shared? {
        assert Decisions(req, o) == [Link(o.check.link), PublicLink(o.share.link)];
      } else {
        assert Decisions(req, o) == [Link(o.check.link)];
      }
    }
  }

  /** A public link always comes after the verified link, and nothing else
      the polling loop acts on is pushed in that run. */
  lemma LinkBeforePublic(req: Request, o: Outcomes, u: string)
    requires PublicLink(u) in Decided(Run(req, o))
    ensures o.check.Found?
    ensures Decided(Run(req, o)) == [Link(o.check.link), PublicLink(u)]
  {
    RunSummary(req, o);
  }

  lemma DecisionsOfFailure(req: Request, o: Outcomes)
    ensures TerminalFailure(o) ==>
              |Decisions(req, o)| == 1 && Decisions(req, o)[0].FailureText?
    ensures !TerminalFailure(o) ==>
              forall i | 0 <= i < |Decisions(req, o)| :: !Decisions(req, o)[i].FailureText?
  {
  }

  /** A failure line is pushed exactly when a started upload failed or could
      not be found afterwards; it is then the only decisive emission, so no
      link of either kind is pushed. */
  lemma FailureLineIff(req: Request, o: Outcomes)
    ensures (exists f :: Status(FailureText(f)) in Run(req, o)) <==> TerminalFailure(o)
    ensures TerminalFailure(o) ==>
              |Decided(Run(req, o))| == 1 && Decided(Run(req, o))[0].FailureText?
  {
    var t := Run(req, o);
    RunSummary(req, o);
    DecisionsOfFailure(req, o);
    if TerminalFailure(o) {
      var f := Decided(t)[0].failure;
      DecidedMember(t, FailureText(f));
      assert Status(FailureText(f)) in t;
    } else {
      forall f | Status(FailureText(f)) in t
        ensures false
      {
        DecidedMember(t, FailureText(f));
      }
    }
  }

  /** The failures after which the thread resets the bar. */
  predicate ResetsBar(o: Outcomes) {
    || !o.auth.Granted?
    || (o.fileExists && o.prepared.PrepareFailed?)
    || (o.fileExists && o.prepared.Prepared? && !Completes(o.chunks))
  }

  /** When authentication fails, the upload request cannot be created or a
      chunk raises, the last progress value is 0. */
  lemma FailureResetsProgress(req: Request, o: Outcomes)
    requires ResetsBar(o)
    ensures |Pushes(Run(req, o))| > 0 && Pushes(Run(req, o))[|Pushes(Run(req, o))| - 1] == 0
  {
    RunSummary(req, o);
  }

  /** After those failures the only messages the polling loop acts on are
      failure lines: no link of either kind is pushed. */
  lemma FailureShowsNoLink(req: Request, o: Outcomes)
    requires ResetsBar(o)
    ensures forall e | e in Decided(Run(req, o)) :: e.FailureText?
  {
    RunSummary(req, o);
  }

  /** A missing file is reported without touching the progress bar or the link. */
  lemma MissingFileIsOnlyReported(req: Request, o: Outcomes)
    requires o.auth.Granted? && !o.fileExists
    ensures Pushes(Run(req, o)) == []
    ensures Decided(Run(req, o)) == []
  {
    RunSummary(req, o);
  }

  /** A finished upload leaves the bar at 100, whatever the read-back check
      and the permission grant then do. */
  lemma FinishedUploadEndsAt100(req: Request, o: Outcomes)
    requires Reached(o)
    ensures |Pushes(Run(req, o))| > 0 && Pushes(Run(req, o))[|Pushes(Run(req, o))| - 1] == 100
  {
    RunSummary(req, o);
  }
}
