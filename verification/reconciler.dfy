/** One tick of the polling loop (`check_queues`, google_drive_up_file.py:260-303)
    and the button re-enabling it may trigger (`enable_buttons`, 383-387). */
module Reconciler {
  import opened Options
  import opened Strings
  import opened Messages
  import opened UiState

  /** What draining the status queue accumulates: the local `link_to_show`,
      the app's `current_shareable_link`, the lines appended to the log and
      whether `enable_buttons` was called. */
  datatype Batch = Batch(
    linkToShow: Option<string>,
    shareable: Option<string>,
    logged: seq<string>,
    fired: bool)

  function Start(shareable: Option<string>): Batch {
    Batch(None, shareable, [], false)
  }

  /** Python truthiness of `link_to_show`: `None` and `""` are both unset. */
  predicate Truthy(o: Option<string>) {
    o.Some? && o.value != ""
  }

  /** The effect of one classified message on the batch. */
  function Apply(b: Batch, k: Kind): Batch {
    match k
    case PublicLinkMsg(url) =>
      b.(linkToShow := Some(url), shareable := Some(url))
    case LinkMsg(url) =>
      if Truthy(b.linkToShow) then b
      else b.(linkToShow := Some(url), shareable := Some(url))
    case TextMsg(text, failure, signal) =>
      var cleared := if failure then b.(linkToShow := Some(""), shareable := None) else b;
      if signal then cleared.(fired := true) else cleared.(logged := cleared.logged + [text])
  }

  /** Handling of one dequeued string. */
  function Step(b: Batch, m: string): Batch {
    Apply(b, Classify(m))
  }

  /** Draining the status queue: the messages are handled in FIFO order. */
  function Drain(b: Batch, ms: seq<string>): Batch
    decreases |ms|
  {
    if ms == [] then b else Drain(Step(b, ms[0]), ms[1..])
  }

  /** Draining the progress queue: each value in turn is written to the bar. */
  function DrainProgress(v: int, ps: seq<int>): int
    decreases |ps|
  {
    if ps == [] then v else DrainProgress(ps[0], ps[1..])
  }

  /** `enable_buttons`: browse and upload are re-enabled; the copy button
      and everything else stay as they are. */
  function EnableButtons(ui: Ui): (r: Ui)
    ensures r.browseEnabled && r.uploadEnabled
    ensures r.copyEnabled == ui.copyEnabled && r.linkField == ui.linkField
    ensures r.(browseEnabled := ui.browseEnabled, uploadEnabled := ui.uploadEnabled) == ui
  {
    ui.(browseEnabled := true, uploadEnabled := true)
  }

  // ----- Reference definitions the fold is compared with -----

  /** The messages of a batch that reach the log, in order. */
  function LogLines(ms: seq<string>): seq<string>
    decreases |ms|
  {
    if ms == [] then []
    else (if Inert(ms[0]) then [ms[0]] else []) + LogLines(ms[1..])
  }

  predicate IsLinkMsg(m: string) {
    StartsWith(m, PublicLinkPrefix) || StartsWith(m, LinkPrefix)
  }

  /** A non-link message that carries a failure pattern. */
  predicate IsFailureMsg(m: string) {
    !IsLinkMsg(m) && HasFailurePattern(m)
  }

  /** The link locals agree: when a link was decided, the shareable link is
      that link, or it was cleared along with an empty link; while no link was
      decided, the shareable link is still the one the batch started from. */
  predicate Agrees(b: Batch, initial: Option<string>) {
    && (b.linkToShow.None? ==> b.shareable == initial)
    && (b.linkToShow.Some? ==>
          b.shareable == b.linkToShow || (b.linkToShow == Some("") && b.shareable.None?))
  }

  // ----- One tick -----

  /** One run of `check_queues`: drain the status queue, update the link
      field if a link was decided, then drain the progress queue. */
  function Tick(ui: Ui): (r: Ui)
    ensures r.statusQueue == [] && r.progressQueue == []
    ensures r.filePath == ui.filePath && r.driveName == ui.driveName
            && r.visibility == ui.visibility
  {
    var b := Drain(Start(ui.shareable), ui.statusQueue);
    var logged := ui.(log := ui.log + b.logged, shareable := b.shareable, statusQueue := []);
    var enabled := if b.fired then EnableButtons(logged) else logged;
    var shown :=
      match b.linkToShow
      case None => enabled
      case Some(l) => enabled.(linkField := l, copyEnabled := l != "");
    shown.(progress := DrainProgress(ui.progress, ui.progressQueue), progressQueue := [])
  }

  /** The log gains exactly the batch's messages, in order, minus the link
      messages and the sentinel. */
  lemma TickLogs(ui: Ui)
    ensures Tick(ui).log == ui.log + LogLines(ui.statusQueue)
  {
    DrainLogs(Start(ui.shareable), ui.statusQueue);
  }

  /** Browse and upload end enabled exactly when they were, or the sentinel
      was in the batch. */
  lemma TickButtons(ui: Ui)
    ensures Tick(ui).browseEnabled == (ui.browseEnabled || EnableButtonsSignal in ui.statusQueue)
    ensures Tick(ui).uploadEnabled == (ui.uploadEnabled || EnableButtonsSignal in ui.statusQueue)
  {
    DrainFires(Start(ui.shareable), ui.statusQueue);
  }

  /** The bar ends on the last queued value, or keeps its value. */
  lemma TickProgress(ui: Ui)
    ensures Tick(ui).progress ==
              if ui.progressQueue == [] then ui.progress
              else ui.progressQueue[|ui.progressQueue| - 1]
  {
    DrainProgressIsLast(ui.progress, ui.progressQueue);
  }

  /** The link field shows the link the batch decided, if any, with the copy
      button enabled exactly when that link is non-empty; the shareable link
      is the one the batch ends with. */
  lemma TickShowsDecidedLink(ui: Ui)
    ensures var b := Drain(Start(ui.shareable), ui.statusQueue);
            && Tick(ui).shareable == b.shareable
            && (b.linkToShow.None? ==>
                  Tick(ui).linkField == ui.linkField && Tick(ui).copyEnabled == ui.copyEnabled)
            && (b.linkToShow.Some? ==>
                  Tick(ui).linkField == b.linkToShow.value
                  && Tick(ui).copyEnabled == (b.linkToShow.value != ""))
  {
    var b := Drain(Start(ui.shareable), ui.statusQueue);
    if b.fired {
      var logged := ui.(log := ui.log + b.logged, shareable := b.shareable, statusQueue := []);
      assert EnableButtons(logged).linkField == ui.linkField;
    }
  }

  /** A batch without link messages and without failure patterns leaves the
      link field, the copy button and the shareable link as they were. */
  lemma TickLeavesLinkAlone(ui: Ui)
    requires forall j | 0 <= j < |ui.statusQueue| ::
               !IsLinkMsg(ui.statusQueue[j]) && !IsFailureMsg(ui.statusQueue[j])
    ensures Tick(ui).linkField == ui.linkField && Tick(ui).copyEnabled == ui.copyEnabled
    ensures Tick(ui).shareable == ui.shareable
  {
    LinkUntouched(Start(ui.shareable), ui.statusQueue);
    TickShowsDecidedLink(ui);
  }

  /** A tick keeps the copy button in step with the link field. */
  lemma TickKeepsConsistent(ui: Ui)
    requires Consistent(ui)
    ensures Consistent(Tick(ui))
  {
    DrainAgrees(Start(ui.shareable), ui.shareable, ui.statusQueue);
    TickShowsDecidedLink(ui);
  }

  /** A tick over two empty queues changes nothing. */
  lemma IdleTick(ui: Ui)
    requires ui.statusQueue == [] && ui.progressQueue == []
    ensures Tick(ui) == ui
  {
  }

  // ----- Lemmas about the fold -----

  /** Draining two pieces one after the other is draining them together. */
  lemma {:induction false} DrainAppend(b: Batch, xs: seq<string>, ys: seq<string>)
    ensures Drain(b, xs + ys) == Drain(Drain(b, xs), ys)
    decreases |xs|
  {
    if xs == [] {
      assert xs + ys == ys;
    } else {
      assert (xs + ys)[1..] == xs[1..] + ys;
      DrainAppend(Step(b, xs[0]), xs[1..], ys);
    }
  }

  /** The last message of a batch is handled last. */
  lemma DrainSnoc(b: Batch, xs: seq<string>, m: string)
    ensures Drain(b, xs + [m]) == Step(Drain(b, xs), m)
  {
    DrainAppend(b, xs, [m]);
  }

  /** The log receives exactly the batch's messages, in order, minus the
      link messages and the sentinel. */
  lemma {:induction false} DrainLogs(b: Batch, ms: seq<string>)
    ensures Drain(b, ms).logged == b.logged + LogLines(ms)
    decreases |ms|
  {
    if ms != [] {
      DrainLogs(Step(b, ms[0]), ms[1..]);
    }
  }

  /** `enable_buttons` fires exactly when the sentinel is in the batch. */
  lemma {:induction false} DrainFires(b: Batch, ms: seq<string>)
    ensures Drain(b, ms).fired == (b.fired || EnableButtonsSignal in ms)
    decreases |ms|
  {
    if ms != [] {
      DrainFires(Step(b, ms[0]), ms[1..]);
      assert ms == [ms[0]] + ms[1..];
      ClassifySignal();
    }
  }

  /** The progress bar ends on the last queued value, or keeps its value
      when nothing was queued. */
  lemma {:induction false} DrainProgressIsLast(v: int, ps: seq<int>)
    ensures DrainProgress(v, ps) == if ps == [] then v else ps[|ps| - 1]
    decreases |ps|
  {
    if ps != [] {
      DrainProgressIsLast(ps[0], ps[1..]);
    }
  }

  /** Every step keeps the link locals in agreement. */
  lemma {:induction false} DrainAgrees(b: Batch, initial: Option<string>, ms: seq<string>)
    requires Agrees(b, initial)
    ensures Agrees(Drain(b, ms), initial)
    decreases |ms|
  {
    if ms != [] {
      assert Agrees(Step(b, ms[0]), initial);
      DrainAgrees(Step(b, ms[0]), initial, ms[1..]);
    }
  }

  /** A batch without link messages and without failure patterns leaves the
      link locals as they were. */
  lemma {:induction false} LinkUntouched(b: Batch, ms: seq<string>)
    ensures (forall j | 0 <= j < |ms| :: !IsLinkMsg(ms[j]) && !IsFailureMsg(ms[j])) ==>
              Drain(b, ms).linkToShow == b.linkToShow && Drain(b, ms).shareable == b.shareable
    decreases |ms|
  {
    if ms != [] {
      LinkUntouched(Step(b, ms[0]), ms[1..]);
      if forall j | 0 <= j < |ms| :: !IsLinkMsg(ms[j]) && !IsFailureMsg(ms[j]) {
        assert forall j | 0 <= j < |ms[1..]| :: ms[1..][j] == ms[j + 1];
      }
    }
  }

  /** A shown non-empty link survives any later messages other than a public
      link or a failure: plain `LINK:` messages are ignored once a link is set. */
  lemma {:induction false} ShownLinkStays(b: Batch, ms: seq<string>)
    requires Truthy(b.linkToShow)
    requires forall j | 0 <= j < |ms| ::
               !StartsWith(ms[j], PublicLinkPrefix) && !IsFailureMsg(ms[j])
    ensures Drain(b, ms).linkToShow == b.linkToShow
    ensures Drain(b, ms).shareable == b.shareable
    decreases |ms|
  {
    if ms != [] {
      ShownLinkStays(Step(b, ms[0]), ms[1..]);
    }
  }

  /** A cleared link stays cleared while no link message follows. */
  lemma {:induction false} ClearedLinkStays(b: Batch, ms: seq<string>)
    requires b.linkToShow == Some("") && b.shareable == None
    requires forall j | 0 <= j < |ms| :: !IsLinkMsg(ms[j])
    ensures Drain(b, ms).linkToShow == Some("")
    ensures Drain(b, ms).shareable == None
    decreases |ms|
  {
    if ms != [] {
      ClearedLinkStays(Step(b, ms[0]), ms[1..]);
    }
  }

  /** A public link beats a verified link in the same batch, whichever comes
      first: after the last `PUBLIC_LINK:` message, if its link is non-empty
      and no failure message follows it, that link is shown and shared. */
  lemma PublicLinkWins(b: Batch, ms: seq<string>, i: nat, url: string)
    requires i < |ms| && ms[i] == PublicLinkPrefix + url && url != ""
    requires forall j | i < j < |ms| ::
               !StartsWith(ms[j], PublicLinkPrefix) && !IsFailureMsg(ms[j])
    ensures Drain(b, ms).linkToShow == Some(url)
    ensures Drain(b, ms).shareable == Some(url)
  {
    assert ms == ms[..i] + [ms[i]] + ms[i + 1..];
    DrainAppend(b, ms[..i] + [ms[i]], ms[i + 1..]);
    DrainSnoc(b, ms[..i], ms[i]);
    var mid := Drain(b, ms[..i] + [ms[i]]);
    assert mid.linkToShow == Some(url) && mid.shareable == Some(url);
    ShownLinkStays(mid, ms[i + 1..]);
  }

  /** A failure message clears the link (shown empty, nothing to share)
      unless a link message comes after it in the same batch. */
  lemma FailureClearsLink(b: Batch, ms: seq<string>, i: nat)
    requires i < |ms| && IsFailureMsg(ms[i])
    requires forall j | i < j < |ms| :: !IsLinkMsg(ms[j])
    ensures Drain(b, ms).linkToShow == Some("")
    ensures Drain(b, ms).shareable == None
  {
    assert ms == ms[..i] + [ms[i]] + ms[i + 1..];
    DrainAppend(b, ms[..i] + [ms[i]], ms[i + 1..]);
    DrainSnoc(b, ms[..i], ms[i]);
    ClearedLinkStays(Drain(b, ms[..i] + [ms[i]]), ms[i + 1..]);
  }

  /** A `LINK:` message takes effect exactly while `link_to_show` is `None`
      or empty, so it can re-set a link cleared earlier in the batch. */
  lemma LinkOnlyWhenUnset(b: Batch, url: string)
    ensures Step(b, LinkPrefix + url) ==
              if Truthy(b.linkToShow) then b
              else b.(linkToShow := Some(url), shareable := Some(url))
  {
    StartsWithConcat(LinkPrefix, url);
    FirstCharRulesOut(LinkPrefix + url, PublicLinkPrefix);
  }

  /** With an empty public link the precedence is lost: a later `LINK:`
      message replaces it. */
  lemma EmptyPublicLinkIsOverridden(b: Batch, url: string)
    ensures Drain(b, [PublicLinkPrefix, LinkPrefix + url]).linkToShow == Some(url)
  {
    assert PublicLinkPrefix == PublicLinkPrefix + "";
    StartsWithConcat(PublicLinkPrefix, "");
    var mid := Step(b, PublicLinkPrefix);
    assert mid.linkToShow == Some("");
    LinkOnlyWhenUnset(mid, url);
    var ms := [PublicLinkPrefix, LinkPrefix + url];
    assert ms[1..] == [LinkPrefix + url];
    assert Drain(b, ms) == Drain(mid, [LinkPrefix + url]);
    assert [LinkPrefix + url][1..] == [];
    assert Drain(mid, [LinkPrefix + url]) == Step(mid, LinkPrefix + url);
  }
}
