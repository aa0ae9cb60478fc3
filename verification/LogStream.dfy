// Live log streaming: `Stream` of agent/internal/logs/logs.go as a state
// machine over the atomic steps of its two goroutines. They share a bounded
// channel, a drop counter and a one-slot error channel, and nothing else.

module LogStream {
  const BATCH_LINES: nat := 200
  const MAX_BUFFERED: nat := 2000

  type Line = string

  /** Why `Stream` returns. */
  datatype Reason = Cancelled | ReadEnded | Closed

  /** Where the goroutine that scans is. */
  datatype Reader =
    | Scanning
    | Offering(line: Line)      // scanned a line, not yet at the select
    | Dropping                  // took the default branch, not yet counted
    | Checking                  // about to look at the context
    | Ended                     // the scanner has no more
    | Leaving                   // about to close the channel
    | Gone

  /** What follows a flush. */
  datatype After = Wait | Append(line: Line) | Return(reason: Reason)

  /** Where the goroutine that batches is. */
  datatype Batcher =
    | Selecting
    | Flushing(next: After)                       // about to take the drop count
    | Emitting(taken: nat, after: After)          // has taken it
    | Returned(why: Reason)

  datatype Frame = Frame(lines: seq<Line>, dropped: nat)

  datatype State = State(
    reader: Reader, batcher: Batcher,
    channel: seq<Line>, closed: bool, readErr: bool, droppedCount: nat, cancelled: bool,
    batch: seq<Line>, emitted: seq<Frame>,
    scanned: seq<Line>,    // every line the scanner has brought to the channel
    kept: seq<bool>)       // whether each went in

  function Start(): State {
    State(Scanning, Selecting, [], false, false, 0, false, [], [], [], [])
  }

  // --- Steps ---------------------------------------------------------------------------

  datatype Step =
    | Scan(line: Line) | Finish           // scanner.Scan()
    | Offer | Drop | Check | Report | Close
    | Receive | SeeClosed | SeeReadErr | SeeDone | Tick
    | Swap | Emit
    | Cancel

  predicate Enabled(s: State, step: Step) {
    match step
    case Scan(_) => s.reader.Scanning?
    case Finish => s.reader.Scanning?
    case Offer => s.reader.Offering?
    case Drop => s.reader.Dropping?
    case Check => s.reader.Checking?
    case Report => s.reader.Ended?
    case Close => s.reader.Leaving?
    case Receive => s.batcher.Selecting? && s.channel != []
    case SeeClosed => s.batcher.Selecting? && s.channel == [] && s.closed
    case SeeReadErr => s.batcher.Selecting? && s.readErr
    case SeeDone => s.batcher.Selecting? && s.cancelled
    case Tick => s.batcher.Selecting?
    case Swap => s.batcher.Flushing?
    case Emit => s.batcher.Emitting?
    case Cancel => true
  }

  /** The select on the full channel: either the line goes in, or the default is taken. */
  function Offered(s: State): State
    requires s.reader.Offering?
  {
    var fits := |s.channel| < MAX_BUFFERED;
    s.(reader := if fits then Checking else Dropping,
       channel := if fits then s.channel + [s.reader.line] else s.channel,
       scanned := s.scanned + [s.reader.line], kept := s.kept + [fits])
  }

  function Received(s: State): State
    requires s.channel != []
  {
    var line := s.channel[0];
    var taken := s.(channel := s.channel[1..]);
    if |s.batch| >= BATCH_LINES then taken.(batcher := Flushing(Append(line)))
    else taken.(batch := s.batch + [line])
  }

  /** A flush sends a frame unless there is nothing to say. */
  function Sent(s: State): State
    requires s.batcher.Emitting?
  {
    var Emitting(taken, after) := s.batcher;
    if s.batch == [] && taken == 0 then s
    else s.(emitted := s.emitted + [Frame(s.batch, taken)], batch := [], batcher := Emitting(0, after))
  }

  /** And then what it was for. */
  function Resumed(s: State): State
    requires s.batcher.Emitting?
  {
    match s.batcher.after
    case Wait => s.(batcher := Selecting)
    case Append(line) => s.(batcher := Selecting, batch := s.batch + [line])
    case Return(reason) => s.(batcher := Returned(reason))
  }

  function Apply(s: State, step: Step): State
    requires Enabled(s, step)
  {
    match step
    case Scan(line) => s.(reader := Offering(line))
    case Finish => s.(reader := Ended)
    case Offer => Offered(s)
    case Drop => s.(droppedCount := s.droppedCount + 1, reader := Checking)
    case Check => s.(reader := if s.cancelled then Leaving else Scanning)
    case Report => s.(readErr := true, reader := Leaving)
    case Close => s.(closed := true, reader := Gone)
    case Receive => Received(s)
    case SeeClosed => s.(batcher := Flushing(Return(Closed)))
    case SeeReadErr => s.(readErr := false, batcher := Flushing(Return(ReadEnded)))
    case SeeDone => s.(batcher := Flushing(Return(Cancelled)))
    case Tick => s.(batcher := Flushing(Wait))
    case Swap => s.(droppedCount := 0, batcher := Emitting(s.droppedCount, s.batcher.next))
    case Emit => Resumed(Sent(s))
    case Cancel => s.(cancelled := true)
  }

  /** The steps, taken one after another from `s`, end at `end`. */
  ghost predicate Leads(s: State, steps: seq<Step>, end: State)
    decreases |steps|
  {
    if steps == [] then end == s
    else
      var last := |steps| - 1;
      exists before: State ::
        Leads(s, steps[..last], before) && Enabled(before, steps[last]) && end == Apply(before, steps[last])
  }

  /** Any interleaving of the two goroutines and whoever cancels. */
  ghost predicate IsRun(steps: seq<Step>, end: State) {
    Leads(Start(), steps, end)
  }

  // --- The two goroutines' code, on the variables it changes ---------------------------------

  class Stream {
    var reader: Reader
    var batcher: Batcher
    var channel: seq<Line>
    var closed: bool
    var readErr: bool
    var droppedCount: nat
    var cancelled: bool
    var batch: seq<Line>
    var emitted: seq<Frame>
    ghost var scanned: seq<Line>
    ghost var kept: seq<bool>

    ghost function View(): State
      reads this
    {
      State(reader, batcher, channel, closed, readErr, droppedCount, cancelled, batch, emitted, scanned, kept)
    }

    constructor ()
      ensures View() == Start()
    {
      reader, batcher, channel, closed, readErr := Scanning, Selecting, [], false, false;
      droppedCount, cancelled, batch, emitted, scanned, kept := 0, false, [], [], [], [];
    }

    /** The select with a default: queue the line if there is room, or go on to count it. */
    method QueueOrDrop()
      requires reader.Offering?
      modifies this
      ensures View() == Apply(old(View()), Offer)
    {
      scanned := scanned + [reader.line];
      if |channel| < MAX_BUFFERED {
        channel, kept := channel + [reader.line], kept + [true];
        reader := Checking;
      } else {
        kept := kept + [false];
        reader := Dropping;
      }
    }

    method CountDrop()
      requires reader.Dropping?
      modifies this
      ensures View() == Apply(old(View()), Drop)
    {
      droppedCount := droppedCount + 1;
      reader := Checking;
    }

    /** A line off the channel: into the batch, after a flush when the batch is full. */
    method TakeLine()
      requires batcher.Selecting? && channel != []
      modifies this
      ensures View() == Apply(old(View()), Receive)
    {
      var line := channel[0];
      channel := channel[1..];
      if |batch| >= BATCH_LINES {
        batcher := Flushing(Append(line));
      } else {
        batch := batch + [line];
      }
    }

    /** `flush`, up to the swap. */
    method TakeDrops()
      requires batcher.Flushing?
      modifies this
      ensures View() == Apply(old(View()), Swap)
    {
      batcher := Emitting(droppedCount, batcher.next);
      droppedCount := 0;
    }

    /** `flush`, from there on, and what its caller does next. */
    method EmitBatch()
      requires batcher.Emitting?
      modifies this
      ensures View() == Apply(old(View()), Emit)
    {
      var Emitting(dropped, after) := batcher;
      if |batch| != 0 || dropped != 0 {
        emitted := emitted + [Frame(batch, dropped)];
        batch := [];
      }
      match after
      case Wait => batcher := Selecting;
      case Append(line) => batcher, batch := Selecting, batch + [line];
      case Return(reason) => batcher := Returned(reason);
    }
  }

  // --- What is conserved -----------------------------------------------------------------

  /** The lines that went into the channel, in order. */
  function Kept(lines: seq<Line>, kept: seq<bool>): seq<Line>
    requires |lines| == |kept|
  {
    if lines == [] then []
    else
      var n := |lines| - 1;
      if kept[n] then Kept(lines[..n], kept[..n]) + [lines[n]] else Kept(lines[..n], kept[..n])
  }

  function Lost(kept: seq<bool>): nat {
    if kept == [] then 0 else Lost(kept[..|kept| - 1]) + (if kept[|kept| - 1] then 0 else 1)
  }

  function Lines(frames: seq<Frame>): seq<Line> {
    if frames == [] then [] else Lines(frames[..|frames| - 1]) + frames[|frames| - 1].lines
  }

  function Reported(frames: seq<Frame>): nat {
    if frames == [] then 0 else Reported(frames[..|frames| - 1]) + frames[|frames| - 1].dropped
  }

  /** The line a full batch makes wait for a flush. */
  function InHand(b: Batcher): seq<Line> {
    match b
    case Flushing(Append(line)) => [line]
    case Emitting(_, Append(line)) => [line]
    case _ => []
  }

  /** Drops that have happened and that no frame has reported: counted, taken, or on the way. */
  function Pending(s: State): nat {
    s.droppedCount + (if s.batcher.Emitting? then s.batcher.taken else 0) + (if s.reader.Dropping? then 1 else 0)
  }

  /** What the batcher has yet to deliver, oldest first. */
  function Undelivered(s: State): seq<Line> {
    s.batch + InHand(s.batcher) + s.channel
  }

  ghost predicate Conserved(s: State) {
    && |s.scanned| == |s.kept|
    && Lines(s.emitted) + Undelivered(s) == Kept(s.scanned, s.kept)
    && Reported(s.emitted) + Pending(s) == Lost(s.kept)
  }

  ghost predicate Bounded(s: State) {
    && |s.channel| <= MAX_BUFFERED
    && |s.batch| <= BATCH_LINES
    && forall f | f in s.emitted :: |f.lines| <= BATCH_LINES && (f.lines != [] || f.dropped > 0)
  }

  /** What the ways of stopping imply about the reader. */
  ghost predicate Orderly(s: State) {
    && (s.closed <==> s.reader.Gone?)
    && (s.readErr ==> s.reader.Leaving? || s.reader.Gone?)
    && (Stopping(s, ReadEnded) ==> s.reader.Leaving? || s.reader.Gone?)
    && (Stopping(s, Closed) ==> s.reader.Gone? && s.channel == [])
    && (s.batcher.Returned? ==> s.batch == [])
    && (HasSwapped(s.batcher) ==> s.droppedCount == 0)
  }

  /** The last flush, of a stream whose reader had stopped, has taken the drop count. */
  predicate HasSwapped(b: Batcher) {
    b in {Returned(ReadEnded), Returned(Closed)}
    || (b.Emitting? && b.after in {Return(ReadEnded), Return(Closed)})
  }

  predicate Stopping(s: State, reason: Reason) {
    s.batcher == Flushing(Return(reason)) || s.batcher == Returned(reason)
    || (s.batcher.Emitting? && s.batcher.after == Return(reason))
  }

  // --- Every step keeps it ---------------------------------------------------------------

  lemma OneMoreLine(lines: seq<Line>, kept: seq<bool>, line: Line, fits: bool)
    requires |lines| == |kept|
    ensures Kept(lines + [line], kept + [fits]) == Kept(lines, kept) + (if fits then [line] else [])
    ensures Lost(kept + [fits]) == Lost(kept) + (if fits then 0 else 1)
  {
    assert (lines + [line])[..|lines|] == lines && (kept + [fits])[..|kept|] == kept;
  }

  lemma OneMoreFrame(frames: seq<Frame>, frame: Frame)
    ensures Lines(frames + [frame]) == Lines(frames) + frame.lines
    ensures Reported(frames + [frame]) == Reported(frames) + frame.dropped
  {
    assert (frames + [frame])[..|frames|] == frames;
  }

  lemma OfferConserves(s: State)
    requires Conserved(s) && s.reader.Offering?
    ensures Conserved(Offered(s))
  {
    var next, fits := Offered(s), |s.channel| < MAX_BUFFERED;
    OneMoreLine(s.scanned, s.kept, s.reader.line, fits);
    if fits { assert Undelivered(next) == Undelivered(s) + [s.reader.line]; }
  }

  lemma ReceiveConserves(s: State)
    requires Conserved(s) && s.batcher.Selecting? && s.channel != []
    ensures Conserved(Received(s))
  {
    hide Kept, Lines, Reported, Lost;
    assert s.channel == [s.channel[0]] + s.channel[1..];
    assert Undelivered(Received(s)) == Undelivered(s);
  }

  lemma SendConserves(s: State)
    requires Conserved(s) && s.batcher.Emitting?
    ensures Conserved(Sent(s))
  {
    if s.batch != [] || s.batcher.taken != 0 {
      var frame, hand := Frame(s.batch, s.batcher.taken), InHand(s.batcher);
      OneMoreFrame(s.emitted, frame);
      Regroup(Lines(s.emitted), s.batch, hand, s.channel);
      assert Undelivered(Sent(s)) == [] + hand + s.channel;
    }
  }

  lemma Regroup(a: seq<Line>, b: seq<Line>, h: seq<Line>, c: seq<Line>)
    ensures (a + b) + ([] + h + c) == a + (b + h + c)
  {
  }

  lemma ResumeConserves(s: State)
    requires Conserved(s) && s.batcher.Emitting? && s.batch == [] && s.batcher.taken == 0
    ensures Conserved(Resumed(s))
  {
    hide Kept, Lines, Reported, Lost;
    assert Undelivered(Resumed(s)) == Undelivered(s);
  }

  lemma StepConserves(s: State, step: Step)
    requires Conserved(s) && Enabled(s, step)
    ensures Conserved(Apply(s, step))
  {
    match step
    case Offer => OfferConserves(s);
    case Receive => ReceiveConserves(s);
    case Emit =>
      SendConserves(s);
      ResumeConserves(Sent(s));
    case _ => QuietConserves(s, step);
  }

  /** The other steps move no line. */
  lemma QuietConserves(s: State, step: Step)
    requires Conserved(s) && Enabled(s, step) && !step.Offer? && !step.Receive? && !step.Emit?
    ensures Conserved(Apply(s, step))
  {
    hide Kept, Lines, Reported, Lost;
    assert Undelivered(Apply(s, step)) == Undelivered(s);
  }

  lemma StepBounded(s: State, step: Step)
    requires Bounded(s) && Enabled(s, step)
    ensures Bounded(Apply(s, step))
  {
    match step
    case Emit => EmitBounded(s);
    case Receive =>
    case _ =>
  }

  lemma EmitBounded(s: State)
    requires Bounded(s) && s.batcher.Emitting?
    ensures Bounded(Resumed(Sent(s)))
  {
  }

  lemma StepOrderly(s: State, step: Step)
    requires Orderly(s) && Enabled(s, step)
    ensures Orderly(Apply(s, step))
  {
    match step
    case Emit => EmitOrderly(s);
    case Receive =>
    case Swap =>
    case _ =>
  }

  lemma EmitOrderly(s: State)
    requires Orderly(s) && s.batcher.Emitting?
    ensures Orderly(Resumed(Sent(s)))
  {
  }

  lemma LastStep(s: State, steps: seq<Step>, end: State) returns (before: State)
    requires Leads(s, steps, end) && steps != []
    ensures Leads(s, steps[..|steps| - 1], before)
    ensures Enabled(before, steps[|steps| - 1]) && end == Apply(before, steps[|steps| - 1])
  {
    var last := |steps| - 1;
    before :| Leads(s, steps[..last], before) && Enabled(before, steps[last]) && end == Apply(before, steps[last]);
  }

  lemma {:induction false} RunKeeps(steps: seq<Step>, s: State)
    requires IsRun(steps, s)
    ensures Conserved(s) && Bounded(s) && Orderly(s)
    decreases |steps|
  {
    if steps != [] {
      var last := |steps| - 1;
      var before := LastStep(Start(), steps, s);
      RunKeeps(steps[..last], before);
      StepConserves(before, steps[last]);
      StepBounded(before, steps[last]);
      StepOrderly(before, steps[last]);
    }
  }

  // --- What the dashboard can rely on ------------------------------------------------------

  lemma {:induction false} KeptOrLost(lines: seq<Line>, kept: seq<bool>)
    requires |lines| == |kept|
    ensures |Kept(lines, kept)| + Lost(kept) == |lines|
  {
    if lines != [] {
      var n := |lines| - 1;
      KeptOrLost(lines[..n], kept[..n]);
    }
  }

  /**
   * At every moment of every interleaving: what was emitted, then the batch,
   * then the channel are the scanned lines in order with exactly the dropped
   * ones missing, and every drop is reported or pending. Nothing grows past
   * its bound.
   */
  lemma NothingIsLostUnseen(steps: seq<Step>, s: State)
    requires IsRun(steps, s)
    ensures |s.scanned| == |s.kept|
    ensures Lines(s.emitted) + s.batch + InHand(s.batcher) + s.channel == Kept(s.scanned, s.kept)
    ensures |s.scanned| == |Lines(s.emitted)| + |s.batch| + |InHand(s.batcher)| + |s.channel|
                           + Reported(s.emitted) + Pending(s)
    ensures |s.channel| <= 2000 && |s.batch| <= 200
    ensures forall f | f in s.emitted :: |f.lines| <= 200 && (f.lines != [] || f.dropped > 0)
  {
    RunKeeps(steps, s);
    KeptOrLost(s.scanned, s.kept);
    assert Lines(s.emitted) + Undelivered(s) == Lines(s.emitted) + s.batch + InHand(s.batcher) + s.channel;
  }

  /** In every run a scanned line is dropped exactly when the channel holds 2000, and else queued behind them. */
  lemma DroppedIffFull(steps: seq<Step>, s: State)
    requires IsRun(steps, s) && s.reader.Offering?
    ensures var next := Apply(s, Offer); var full := |s.channel| == 2000;
      && next.scanned == s.scanned + [s.reader.line] && next.kept == s.kept + [!full]
      && next.channel == (if full then s.channel else s.channel + [s.reader.line])
      && next.reader == (if full then Dropping else Checking)
  {
    RunKeeps(steps, s);
  }

  lemma HeldWhenFull(s: State, step: Step)
    requires Enabled(s, step) && |s.batch| <= 200 && (InHand(s.batcher) != [] ==> |s.batch| == 200)
    ensures InHand(Apply(s, step).batcher) != [] ==> |Apply(s, step).batch| == 200
  {
  }

  lemma BatchIsBounded(steps: seq<Step>, s: State)
    requires IsRun(steps, s)
    ensures |s.batch| <= 200
  {
    RunKeeps(steps, s);
  }

  lemma {:induction false} HeldInRuns(steps: seq<Step>, s: State)
    requires IsRun(steps, s)
    ensures InHand(s.batcher) != [] ==> |s.batch| == 200
    decreases |steps|
  {
    hide Apply, Enabled, InHand;
    if steps == [] {
      NoneHeldAtFirst();
    } else {
      var before := LastStep(Start(), steps, s);
      HeldInRuns(steps[..|steps| - 1], before);
      BatchIsBounded(steps[..|steps| - 1], before);
      HeldWhenFull(before, steps[|steps| - 1]);
    }
  }

  lemma NoneHeldAtFirst()
    ensures InHand(Start().batcher) == []
  {
  }

  /**
   * And a line waits for a flush exactly when the batch holds 200: a frame
   * with fewer comes of the ticker or of the end.
   */
  lemma FlushedIffFull(steps: seq<Step>, s: State)
    requires IsRun(steps, s)
    ensures InHand(s.batcher) != [] ==> |s.batch| == 200
    ensures Enabled(s, Receive) ==> (InHand(Apply(s, Receive).batcher) != [] <==> |s.batch| == 200)
  {
    HeldInRuns(steps, s);
    BatchIsBounded(steps, s);
  }

  /** A stream that returns on the closed channel delivered every kept line and reported every drop. */
  lemma ClosedDeliversAll(steps: seq<Step>, s: State)
    requires IsRun(steps, s) && s.batcher == Returned(Closed)
    ensures |s.scanned| == |s.kept|
    ensures Lines(s.emitted) == Kept(s.scanned, s.kept) && Reported(s.emitted) == Lost(s.kept)
  {
    RunKeeps(steps, s);
    assert Undelivered(s) == [];
  }

  lemma OneMoreStep(s: State, steps: seq<Step>, end: State, step: Step)
    requires Leads(s, steps, end) && Enabled(end, step)
    ensures Leads(s, steps + [step], Apply(end, step))
  {
    assert (steps + [step])[..|steps|] == steps;
  }

  lemma {:induction false} LeadsOn(s: State, steps: seq<Step>, middle: State, more: seq<Step>, end: State)
    requires Leads(s, steps, middle) && Leads(middle, more, end)
    ensures Leads(s, steps + more, end)
    decreases |more|
  {
    if more == [] {
      assert steps + more == steps;
    } else {
      var before := LastStep(middle, more, end);
      LeadsOn(s, steps, middle, more[..|more| - 1], before);
      OneMoreStep(s, steps + more[..|more| - 1], before, more[|more| - 1]);
      assert steps + more[..|more| - 1] + [more[|more| - 1]] == steps + more;
    }
  }

  lemma LeftAlone(s: State, step: Step)
    requires Enabled(s, step) && Stopping(s, ReadEnded) && (s.reader.Leaving? || s.reader.Gone?)
    ensures Apply(s, step).channel == s.channel && Stopping(Apply(s, step), ReadEnded)
    ensures Apply(s, step).reader.Leaving? || Apply(s, step).reader.Gone?
  {
  }

  /** Once the error is taken nothing more enters or leaves the channel. */
  lemma {:induction false} QueueIsLeft(s: State, more: seq<Step>, end: State)
    requires Leads(s, more, end) && Stopping(s, ReadEnded) && (s.reader.Leaving? || s.reader.Gone?)
    ensures end.channel == s.channel && Stopping(end, ReadEnded) && (end.reader.Leaving? || end.reader.Gone?)
    decreases |more|
  {
    if more != [] {
      var before := LastStep(s, more, end);
      QueueIsLeft(s, more[..|more| - 1], before);
      LeftAlone(before, more[|more| - 1]);
    }
  }

  /**
   * A stream that takes the reader's error and returns has reported every
   * drop, and it loses what was queued when it took the error: it delivers
   * all exactly when nothing was.
   */
  lemma ReadEndedDelivers(steps: seq<Step>, taking: State, more: seq<Step>, end: State)
    requires IsRun(steps, taking) && Enabled(taking, SeeReadErr)
    requires Leads(Apply(taking, SeeReadErr), more, end) && end.batcher == Returned(ReadEnded)
    ensures |end.scanned| == |end.kept|
    ensures Reported(end.emitted) == Lost(end.kept)
    ensures Lines(end.emitted) + taking.channel == Kept(end.scanned, end.kept)
    ensures Lines(end.emitted) == Kept(end.scanned, end.kept) <==> taking.channel == []
  {
    RunKeeps(steps, taking);
    QueueIsLeft(Apply(taking, SeeReadErr), more, end);
    OneMoreStep(Start(), steps, taking, SeeReadErr);
    LeadsOn(Start(), steps + [SeeReadErr], Apply(taking, SeeReadErr), more, end);
    RunKeeps(steps + [SeeReadErr] + more, end);
    assert Undelivered(end) == end.channel;
  }

  lemma OnlyTheErrorStopsSo(before: State, step: Step)
    requires Enabled(before, step) && !Stopping(before, ReadEnded) && Stopping(Apply(before, step), ReadEnded)
    ensures step == SeeReadErr
  {
  }

  lemma StopsLater(steps: seq<Step>, s: State)
    requires IsRun(steps, s) && Stopping(s, ReadEnded)
    ensures steps != []
  {
  }

  lemma NoStep(s: State)
    ensures Leads(s, [], s)
  {
  }

  /** And every stream that returns so took the error at some step of its run. */
  lemma {:induction false} ErrorWasTaken(steps: seq<Step>, s: State) returns (k: nat, taking: State)
    requires IsRun(steps, s) && Stopping(s, ReadEnded)
    ensures k < |steps| && steps[k] == SeeReadErr && IsRun(steps[..k], taking) && Enabled(taking, SeeReadErr)
    ensures Leads(Apply(taking, SeeReadErr), steps[k + 1..], s)
    decreases |steps|
  {
    hide Leads, Apply, Enabled;
    StopsLater(steps, s);
    var last := |steps| - 1;
    var before := LastStep(Start(), steps, s);
    if Stopping(before, ReadEnded) {
      k, taking := ErrorWasTaken(steps[..last], before);
      OneMoreStep(Apply(taking, SeeReadErr), steps[..last][k + 1..], before, steps[last]);
      assert steps[..last][..k] == steps[..k];
      assert steps[k + 1..] == steps[..last][k + 1..] + [steps[last]];
    } else {
      OnlyTheErrorStopsSo(before, steps[last]);
      assert steps[last + 1..] == [];
      NoStep(s);
      k, taking := last, before;
    }
  }

  // --- Once it is cancelled ---------------------------------------------------------------

  /** Lines the reader can still bring to the channel of a cancelled stream. */
  function StillToCome(r: Reader): nat {
    if r.Scanning? || r.Offering? then 1 else 0
  }

  lemma CancelledStep(s: State, step: Step)
    requires Enabled(s, step) && s.cancelled
    ensures Apply(s, step).cancelled
    ensures |Apply(s, step).scanned| + StillToCome(Apply(s, step).reader) <= |s.scanned| + StillToCome(s.reader)
  {
  }

  lemma {:induction false} CancelledRun(s: State, more: seq<Step>, end: State)
    requires s.cancelled && Leads(s, more, end)
    ensures end.cancelled && |end.scanned| + StillToCome(end.reader) <= |s.scanned| + StillToCome(s.reader)
    decreases |more|
  {
    hide Apply, Enabled;
    if more != [] {
      var before := LastStep(s, more, end);
      CancelledRun(s, more[..|more| - 1], before);
      CancelledStep(before, more[|more| - 1]);
    }
  }

  /** Once the stream is cancelled its reader brings at most one more line, however long it goes on. */
  lemma CancelledReaderStops(s: State, more: seq<Step>, end: State)
    requires s.cancelled && Leads(s, more, end)
    ensures |end.scanned| <= |s.scanned| + 1
  {
    CancelledRun(s, more, end);
  }

  // --- What can be lost ------------------------------------------------------------------

  /** A run that drops no line, delivers `seen` and returns on the reader's error without `rest`. */
  ghost predicate Loses(seen: seq<Line>, rest: seq<Line>, steps: seq<Step>, s: State) {
    && IsRun(steps, s)
    && s.batcher == Returned(ReadEnded)
    && s.scanned == seen + rest
    && Lost(s.kept) == 0
    && Lines(s.emitted) == seen
  }

  lemma {:induction false} NoneLost(lines: seq<Line>, kept: seq<bool>)
    requires |lines| == |kept| && Lost(kept) == 0
    ensures Kept(lines, kept) == lines
  {
    if lines != [] { NoneLost(lines[..|lines| - 1], kept[..|kept| - 1]); }
  }

  lemma AtMostTheQueue(seen: seq<Line>, rest: seq<Line>, steps: seq<Step>, s: State)
    requires Loses(seen, rest, steps, s)
    ensures |rest| <= MAX_BUFFERED
  {
    RunKeeps(steps, s);
    NoneLost(s.scanned, s.kept);
    assert Undelivered(s) == s.channel;
    assert |seen| + |s.channel| == |seen + rest|;
  }

  /** Between two lines, with nothing dropped so far, `seen` delivered and `queued` in the channel. */
  ghost predicate Midway(s: State, seen: seq<Line>, queued: seq<Line>) {
    && s.reader == Scanning && s.batcher == Selecting
    && s.channel == queued && s.batch == [] && s.droppedCount == 0 && !s.cancelled
    && s.scanned == seen + queued
    && Lost(s.kept) == 0 && Lines(s.emitted) == seen
  }

  /** Every run to the one state can be continued to the other. */
  ghost predicate Reaches(s: State, end: State) {
    forall steps :: IsRun(steps, s) ==> exists more :: IsRun(steps + more, end)
  }

  lemma ReachesNext(s: State, step: Step)
    requires Enabled(s, step)
    ensures Reaches(s, Apply(s, step))
  {
    forall steps | IsRun(steps, s) ensures exists more :: IsRun(steps + more, Apply(s, step)) {
      OneMoreStep(Start(), steps, s, step);
    }
  }

  lemma ReachesOn(a: State, b: State, c: State)
    requires Reaches(a, b) && Reaches(b, c)
    ensures Reaches(a, c)
  {
    forall steps | IsRun(steps, a) ensures exists more :: IsRun(steps + more, c) {
      var more :| IsRun(steps + more, b);
      var rest :| IsRun(steps + more + rest, c);
      assert steps + more + rest == steps + (more + rest);
    }
  }

  lemma Then(start: State, s: State, step: Step) returns (next: State)
    requires Reaches(start, s) && Enabled(s, step)
    ensures Reaches(start, next) && next == Apply(s, step)
  {
    next := Apply(s, step);
    ReachesNext(s, step);
    ReachesOn(start, s, next);
  }

  /** One more line into the channel. */
  lemma QueueLine(start: State, s: State, seen: seq<Line>, queued: seq<Line>, line: Line) returns (next: State)
    requires Reaches(start, s) && Midway(s, seen, queued) && |queued| < MAX_BUFFERED
    ensures Reaches(start, next) && Midway(next, seen, queued + [line])
  {
    next := Then(start, s, Scan(line));
    next := Then(start, next, Offer);
    next := Then(start, next, Check);
    assert (s.kept + [true])[..|s.kept|] == s.kept;
    assert seen + (queued + [line]) == seen + queued + [line];
  }

  lemma TakeOnly(start: State, s: State, line: Line) returns (next: State)
    requires Reaches(start, s) && s.batcher == Selecting && s.channel == [line] && s.batch == []
    ensures Reaches(start, next) && next == s.(channel := [], batch := [line], batcher := Flushing(Wait))
  {
    next := Then(start, s, Receive);
    assert s.channel[1..] == [] && [] + [line] == [line];
    next := Then(start, next, Tick);
  }

  lemma FlushOnly(start: State, s: State) returns (next: State)
    requires Reaches(start, s) && s.batcher == Flushing(Wait) && s.batch != [] && s.droppedCount == 0
    ensures Reaches(start, next)
    ensures next == s.(batcher := Selecting, batch := [], emitted := s.emitted + [Frame(s.batch, 0)])
  {
    next := Then(start, s, Swap);
    next := Then(start, next, Emit);
  }

  /** The only line of the channel out of it, and into a frame of its own. */
  lemma DeliverLine(start: State, s: State, seen: seq<Line>, line: Line) returns (next: State)
    requires Reaches(start, s) && Midway(s, seen, [line])
    ensures Reaches(start, next) && Midway(next, seen + [line], [])
  {
    hide Reaches;
    next := TakeOnly(start, s, line);
    next := FlushOnly(start, next);
    OneMoreFrame(s.emitted, Frame([line], 0));
    assert seen + [line] + [] == seen + [line];
  }

  lemma {:induction false} DeliverAll(seen: seq<Line>) returns (s: State)
    ensures Reaches(Start(), s) && Midway(s, seen, [])
  {
    if seen == [] {
      s := Start();
      assert forall steps | IsRun(steps, s) :: steps + [] == steps;
    } else {
      var n := |seen| - 1;
      s := DeliverAll(seen[..n]);
      s := QueueLine(Start(), s, seen[..n], [], seen[n]);
      s := DeliverLine(Start(), s, seen[..n], seen[n]);
    }
  }

  lemma {:induction false} QueueAll(start: State, s: State, seen: seq<Line>, queued: seq<Line>) returns (next: State)
    requires Reaches(start, s) && Midway(s, seen, []) && |queued| <= MAX_BUFFERED
    ensures Reaches(start, next) && Midway(next, seen, queued)
    decreases |queued|
  {
    if queued == [] {
      next := s;
    } else {
      var n := |queued| - 1;
      next := QueueAll(start, s, seen, queued[..n]);
      next := QueueLine(start, next, seen, queued[..n], queued[n]);
    }
  }

  /** The reader ends, and the batcher takes its error though the channel is not empty. */
  lemma EndMidway(start: State, s: State, seen: seq<Line>, queued: seq<Line>) returns (next: State)
    requires Reaches(start, s) && Midway(s, seen, queued)
    ensures Reaches(start, next) && next.batcher == Returned(ReadEnded)
    ensures next.scanned == s.scanned && next.kept == s.kept && next.emitted == s.emitted
  {
    next := Then(start, s, Finish);
    next := Then(start, next, Report);
    next := Then(start, next, SeeReadErr);
    next := Then(start, next, Swap);
    next := Then(start, next, Emit);
  }

  /** The queue and the error are both ready, and the error may be taken first. */
  lemma LastLinesMayBeLost(seen: seq<Line>, rest: seq<Line>) returns (steps: seq<Step>, s: State)
    requires |rest| <= MAX_BUFFERED
    ensures Loses(seen, rest, steps, s)
  {
    s := DeliverAll(seen);
    s := QueueAll(Start(), s, seen, rest);
    s := EndMidway(Start(), s, seen, rest);
    assert IsRun([], Start());
    var more :| IsRun([] + more, s);
    steps := [] + more;
  }

  /** So the end of any file can be lost, as much of it as the channel holds and no more. */
  lemma LostAtMostTheQueueIff(seen: seq<Line>, rest: seq<Line>)
    ensures (exists steps, s :: Loses(seen, rest, steps, s)) <==> |rest| <= 2000
  {
    if |rest| <= MAX_BUFFERED {
      var steps, s := LastLinesMayBeLost(seen, rest);
    } else {
      forall steps, s ensures !Loses(seen, rest, steps, s) {
        if Loses(seen, rest, steps, s) { AtMostTheQueue(seen, rest, steps, s); }
      }
    }
  }
}
