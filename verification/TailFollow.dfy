// Following a log file: `tailOffset`, `followFile` and `headPrint` of
// agent/internal/sys/sys.go. The disk is what each system call sees of it at
// the moment it is made; between two calls anything may happen to it.

module TailFollow {
  import opened Options
  import opened Bytes

  const NEWLINE: Byte := 10
  const CHUNK: nat := 8 * 1024
  const READ_SIZE: nat := 32 * 1024
  const HEAD_PRINT_BYTES: nat := 64
  const HEAD_CHECK_MILLIS: nat := 200

  // --- Where the last lines start --------------------------------------------------------

  function Newlines(b: Bytes): nat {
    if b == [] then 0 else (if b[0] == NEWLINE then 1 else 0) + Newlines(b[1..])
  }

  /** The last `lines` lines, whole, or all there are. */
  predicate StartsLastLines(content: Bytes, lines: nat, at: nat) {
    && at <= |content|
    && if Newlines(content) <= lines then at == 0
       else at > 0 && content[at - 1] == NEWLINE && Newlines(content[at..]) == lines
  }

  lemma NewlinesFrom(content: Bytes, at: nat)
    requires at < |content|
    ensures Newlines(content[at..]) == (if content[at] == NEWLINE then 1 else 0) + Newlines(content[at + 1..])
  {
    assert content[at..][1..] == content[at + 1..];
  }

  lemma {:induction false} FewerFurtherOn(content: Bytes, a: nat, b: nat)
    requires a <= b <= |content|
    ensures Newlines(content[a..]) >= Newlines(content[b..])
    decreases b - a
  {
    if a < b {
      NewlinesFrom(content, a);
      FewerFurtherOn(content, a + 1, b);
    }
  }

  /** There is only one such place. */
  lemma StartIsUnique(content: Bytes, lines: nat, a: nat, b: nat)
    requires StartsLastLines(content, lines, a) && StartsLastLines(content, lines, b)
    ensures a == b
  {
    NotEarlier(content, lines, a, b);
    NotEarlier(content, lines, b, a);
  }

  lemma NotEarlier(content: Bytes, lines: nat, a: nat, b: nat)
    requires StartsLastLines(content, lines, a) && StartsLastLines(content, lines, b)
    ensures a >= b
  {
    if a < b {
      NewlinesFrom(content, b - 1);
      FewerFurtherOn(content, a, b - 1);
    }
  }

  /** `file.ReadAt(buf[:size], pos)` */
  method ReadAt(content: Bytes, buf: array<Byte>, size: nat, pos: nat)
    requires size <= buf.Length && pos + size <= |content|
    modifies buf
    ensures buf[..size] == content[pos..pos + size]
  {
    for i := 0 to size
      invariant buf[..i] == content[pos..pos + i]
    {
      buf[i] := content[pos + i];
    }
  }

  /** One chunk, from its last byte to its first: where the lines start, or how many newlines there are from it on. */
  method ScanChunk(content: Bytes, buf: array<Byte>, size: nat, pos: nat, lines: nat, seen: nat)
    returns (newlines: nat, at: Option<nat>)
    requires size <= buf.Length && pos + size <= |content| && buf[..size] == content[pos..pos + size]
    requires seen == Newlines(content[pos + size..]) <= lines
    ensures at.Some? ==> at.value > 0 && StartsLastLines(content, lines, at.value)
    ensures at.None? ==> newlines == Newlines(content[pos..]) <= lines
  {
    newlines := seen;
    for i := size downto 0
      invariant newlines == Newlines(content[pos + i..]) <= lines
      invariant buf[..size] == content[pos..pos + size]
    {
      assert buf[i] == buf[..size][i] == content[pos + i];
      NewlinesFrom(content, pos + i);
      if buf[i] == NEWLINE {
        newlines := newlines + 1;
        if newlines > lines {
          FewerFurtherOn(content, 0, pos + i);
          assert content[0..] == content;
          return newlines, Some(pos + i + 1);
        }
      }
    }
    return newlines, None;
  }

  /** The backward scan, a chunk at a time into one buffer. */
  method TailOffset(content: Bytes, lines: nat) returns (at: nat)
    ensures StartsLastLines(content, lines, at)
  {
    var buf := new Byte[CHUNK](_ => 0);
    var newlines: nat, pos: nat := 0, |content|;
    while pos > 0
      invariant pos <= |content|
      invariant newlines == Newlines(content[pos..]) <= lines
    {
      var size := if pos < CHUNK then pos else CHUNK;
      pos := pos - size;
      ReadAt(content, buf, size, pos);
      var found: Option<nat>;
      newlines, found := ScanChunk(content, buf, size, pos, lines, newlines);
      if found.Some? { return found.value; }
    }
    assert content[0..] == content;
    return 0;
  }

  // --- The follower -------------------------------------------------------------------------

  type Inode = nat

  /** A path leads to a file, or for the moment to nothing. */
  datatype Seen = Seen(inode: Inode, content: Bytes) | Missing

  function Head(content: Bytes, size: nat): Bytes {
    if |content| <= size then content else content[..size]
  }

  /** `headPrintAt`: an unreadable file has an empty opening. */
  function HeadAt(seen: Seen, size: nat): Bytes {
    match seen
    case Missing => []
    case Seen(_, content) => Head(content, size)
  }

  datatype Follow = Follow(
    inode: Inode,            // what the open handle is on
    offset: nat, head: Bytes, checkedAt: Option<int>, drained: bool,
    written: Bytes)          // everything handed on since the start

  /** What the path is seen to lead to at each call a check makes. */
  datatype Glance = Glance(now: int, stat: Seen, look: Seen, again: Seen, open: Seen)

  /** A check is due when forced, and otherwise once the interval is over. */
  predicate CheckDue(f: Follow, force: bool, now: int) {
    force || f.checkedAt.None? || now - f.checkedAt.value >= HEAD_CHECK_MILLIS
  }

  predicate Stale(f: Follow, g: Glance)
    requires g.stat.Seen?
  {
    || |g.stat.content| < f.offset
    || g.stat.inode != f.inode
    || (f.head != [] && HeadAt(g.look, |f.head|) != f.head)
  }

  /** `reopenIfStale` */
  function Checked(f: Follow, force: bool, g: Glance): Follow {
    if !CheckDue(f, force, g.now) then f
    else
      var seen := f.(checkedAt := Some(g.now));
      if g.stat.Missing? then seen
      else if !Stale(f, g) then
        (if |f.head| < HEAD_PRINT_BYTES then seen.(head := HeadAt(g.again, HEAD_PRINT_BYTES)) else seen)
      else if g.open.Missing? then seen
      else seen.(inode := g.open.inode, offset := 0, head := Head(g.open.content, HEAD_PRINT_BYTES))
  }

  /** `file.Read(buf)` on the open handle returned `bytes`, and the pipe took them. */
  function Consumed(f: Follow, bytes: Bytes): Follow {
    if bytes == [] then f.(drained := true)
    else f.(written := f.written + bytes, offset := f.offset + |bytes|, drained := |bytes| < READ_SIZE)
  }

  /** What a read at `offset` can return of a file that holds `content`: what is there, up to the buffer. */
  predicate CanRead(content: Bytes, offset: nat, bytes: Bytes) {
    && |bytes| <= READ_SIZE
    && if offset >= |content| then bytes == []
       else bytes != [] && offset + |bytes| <= |content| && content[offset..offset + |bytes|] == bytes
  }

  class Follower {
    var inode: Inode
    var offset: nat
    var head: Bytes
    var checkedAt: Option<int>
    var drained: bool
    ghost var written: Bytes

    ghost function View(): Follow
      reads this
    {
      Follow(inode, offset, head, checkedAt, drained, written)
    }

    /** From the offset the tail scan found, on the file it was opened on. */
    constructor (inode: Inode, offset: nat, content: Bytes)
      ensures View() == Follow(inode, offset, Head(content, HEAD_PRINT_BYTES), None, true, [])
    {
      this.inode, this.offset, this.head := inode, offset, Head(content, HEAD_PRINT_BYTES);
      this.checkedAt, this.drained, this.written := None, true, [];
    }

    method ReopenIfStale(force: bool, g: Glance)
      modifies this
      ensures View() == Checked(old(View()), force, g)
    {
      if !force && checkedAt.Some? && g.now - checkedAt.value < HEAD_CHECK_MILLIS { return; }
      checkedAt := Some(g.now);
      if g.stat.Missing? { return; }
      var stale := |g.stat.content| < offset || g.stat.inode != inode
        || (|head| > 0 && HeadAt(g.look, |head|) != head);
      if !stale {
        if |head| < HEAD_PRINT_BYTES { head := HeadAt(g.again, HEAD_PRINT_BYTES); }
        return;
      }
      if g.open.Missing? { return; }
      inode, offset, head := g.open.inode, 0, Head(g.open.content, HEAD_PRINT_BYTES);
    }

    /** One turn of the loop: check, then read. */
    method Turn(g: Glance, bytes: Bytes)
      modifies this
      ensures View() == Consumed(Checked(old(View()), old(drained), g), bytes)
    {
      ReopenIfStale(drained, g);
      if |bytes| > 0 {
        written := written + bytes;
        offset := offset + |bytes|;
        drained := |bytes| < READ_SIZE;
      } else {
        drained := true;
      }
    }
  }

  // --- A file that only grows ------------------------------------------------------------------

  /** A call sees the file, holding at least `from` and at most `to`. */
  predicate SeesGrowing(seen: Seen, inode: Inode, from: Bytes, to: Bytes) {
    seen.Seen? && seen.inode == inode && from <= seen.content <= to
  }

  /** Or fails, for the moment. */
  predicate GrowsOrFails(seen: Seen, inode: Inode, from: Bytes, to: Bytes) {
    seen.Missing? || SeesGrowing(seen, inode, from, to)
  }

  /** One turn over a file that grows from `from` to `to` meanwhile, whichever of its calls fail. */
  ghost predicate Growing(f: Follow, g: Glance, bytes: Bytes, from: Bytes, to: Bytes) {
    && from <= to
    && GrowsOrFails(g.stat, f.inode, from, to)
    && GrowsOrFails(g.look, f.inode, from, to)
    && GrowsOrFails(g.again, f.inode, from, to)
    && exists read: Bytes | from <= read <= to :: CanRead(read, f.offset, bytes)
  }

  /** What has been handed on is the file from where the follow began, with no gap and no repeat. */
  predicate InStep(f: Follow, start: nat, content: Bytes) {
    && start <= f.offset <= |content|
    && f.written == content[start..f.offset]
    && f.head <= content && |f.head| <= HEAD_PRINT_BYTES
  }

  function Turned(f: Follow, g: Glance, bytes: Bytes): Follow {
    Consumed(Checked(f, f.drained, g), bytes)
  }

  lemma GrowthKeepsHead(head: Bytes, from: Bytes, content: Bytes)
    requires head <= from <= content
    ensures Head(content, |head|) == head
  {
  }

  /** A growing file is never stale: its size, its identity and its opening all hold. */
  lemma GrowingIsNotStale(f: Follow, g: Glance, start: nat, from: Bytes, to: Bytes)
    requires InStep(f, start, from)
    requires SeesGrowing(g.stat, f.inode, from, to) && SeesGrowing(g.look, f.inode, from, to)
    ensures !Stale(f, g)
  {
    GrowthKeepsHead(f.head, from, g.look.content);
  }

  // --- When it does start over -------------------------------------------------------------------

  predicate Restarts(f: Follow, force: bool, g: Glance) {
    CheckDue(f, force, g.now) && g.stat.Seen? && Stale(f, g) && g.open.Seen?
  }

  /** A check in which the path is there, cannot be opened to compare its opening, and can be opened right after. */
  predicate LosesSight(f: Follow, force: bool, g: Glance) {
    && (force || f.checkedAt.None? || g.now - f.checkedAt.value >= 200)
    && f.head != [] && g.stat.Seen? && g.look.Missing? && g.open.Seen?
  }

  /** A file that only grows starts over in that case, and in that case alone, whichever calls fail. */
  lemma GrowingRestartsIff(f: Follow, force: bool, g: Glance, start: nat, from: Bytes, to: Bytes)
    requires InStep(f, start, from)
    requires GrowsOrFails(g.stat, f.inode, from, to) && GrowsOrFails(g.look, f.inode, from, to)
    ensures Restarts(f, force, g) <==> LosesSight(f, force, g)
    ensures Restarts(f, force, g) ==> Checked(f, force, g).offset == 0
    ensures !Restarts(f, force, g) ==> Checked(f, force, g).offset == f.offset
  {
    if g.look.Seen? && g.stat.Seen? { GrowingIsNotStale(f, g, start, from, to); }
  }

  lemma CheckKeepsStep(f: Follow, g: Glance, bytes: Bytes, start: nat, from: Bytes, to: Bytes)
    requires InStep(f, start, from) && Growing(f, g, bytes, from, to) && !LosesSight(f, f.drained, g)
    ensures var c := Checked(f, f.drained, g);
      c.inode == f.inode && c.offset == f.offset && InStep(c, start, to)
  {
    GrowingRestartsIff(f, f.drained, g, start, from, to);
    assert f.written == to[start..f.offset];
    assert HeadAt(g.again, HEAD_PRINT_BYTES) <= to;
  }

  lemma TurnKeepsStep(f: Follow, g: Glance, bytes: Bytes, start: nat, from: Bytes, to: Bytes)
    requires InStep(f, start, from) && Growing(f, g, bytes, from, to) && !LosesSight(f, f.drained, g)
    ensures Turned(f, g, bytes).inode == f.inode && InStep(Turned(f, g, bytes), start, to)
  {
    CheckKeepsStep(f, g, bytes, start, from, to);
    var c := Checked(f, f.drained, g);
    var read: Bytes :| from <= read <= to && CanRead(read, f.offset, bytes);
    if bytes != [] {
      assert read[f.offset..f.offset + |bytes|] == to[f.offset..f.offset + |bytes|];
      assert c.written + bytes == to[start..f.offset + |bytes|];
    }
  }

  // --- Whole runs --------------------------------------------------------------------------------

  datatype Look = Look(glance: Glance, bytes: Bytes, content: Bytes)

  function Followed(f: Follow, run: seq<Look>): Follow {
    if run == [] then f
    else Turned(Followed(f, run[..|run| - 1]), run[|run| - 1].glance, run[|run| - 1].bytes)
  }

  function ContentAfter(content: Bytes, run: seq<Look>): Bytes {
    if run == [] then content else run[|run| - 1].content
  }

  /** Any number of turns over a file that only grows. */
  ghost predicate GrowingRun(f: Follow, content: Bytes, run: seq<Look>)
    decreases |run|
  {
    run == [] ||
    (var before, last := run[..|run| - 1], run[|run| - 1];
     GrowingRun(f, content, before)
     && Growing(Followed(f, before), last.glance, last.bytes, ContentAfter(content, before), last.content))
  }

  predicate LosesSightIn(f: Follow, run: seq<Look>, i: nat)
    requires i < |run|
  {
    var before := Followed(f, run[..i]);
    LosesSight(before, before.drained, run[i].glance)
  }

  lemma {:induction false} GrowingSoFar(f: Follow, content: Bytes, run: seq<Look>, k: nat)
    requires GrowingRun(f, content, run) && k <= |run|
    ensures GrowingRun(f, content, run[..k])
    decreases |run|
  {
    if k == |run| {
      assert run[..k] == run;
    } else {
      GrowingSoFar(f, content, run[..|run| - 1], k);
      assert run[..|run| - 1][..k] == run[..k];
    }
  }

  lemma GrowingAt(f: Follow, content: Bytes, run: seq<Look>, k: nat)
    requires GrowingRun(f, content, run) && k < |run|
    ensures GrowingRun(f, content, run[..k])
    ensures Growing(Followed(f, run[..k]), run[k].glance, run[k].bytes, ContentAfter(content, run[..k]), run[k].content)
  {
    GrowingSoFar(f, content, run, k);
    GrowingSoFar(f, content, run, k + 1);
    assert run[..k + 1][..k] == run[..k];
  }

  /**
   * Tail, then follow: however the file grows, however its growth falls
   * between the calls and whichever of them fail, what is handed on is
   * exactly the file's bytes from the start of its last lines, as they were
   * when the tail was taken, up to the offset; until a turn loses sight.
   */
  lemma {:induction false} GrowingFileIsFollowed(
      tail: Bytes, lines: nat, start: nat, content: Bytes, f: Follow, run: seq<Look>)
    requires StartsLastLines(tail, lines, start) && tail <= content
    requires f.offset == start && f.written == [] && f.head == Head(content, 64)
    requires GrowingRun(f, content, run) && forall i | 0 <= i < |run| :: !LosesSightIn(f, run, i)
    ensures InStep(Followed(f, run), start, ContentAfter(content, run))
    decreases |run|
  {
    if run != [] {
      var before, last := run[..|run| - 1], run[|run| - 1];
      forall i | 0 <= i < |before| ensures !LosesSightIn(f, before, i) {
        assert before[..i] == run[..i] && !LosesSightIn(f, run, i);
      }
      GrowingFileIsFollowed(tail, lines, start, content, f, before);
      assert !LosesSightIn(f, run, |before|);
      TurnKeepsStep(Followed(f, before), last.glance, last.bytes, start, ContentAfter(content, before), last.content);
    }
  }

  lemma InStepSoFar(tail: Bytes, lines: nat, start: nat, content: Bytes, f: Follow, run: seq<Look>, k: nat)
    requires StartsLastLines(tail, lines, start) && tail <= content
    requires f.offset == start && f.written == [] && f.head == Head(content, 64)
    requires k <= |run| && GrowingRun(f, content, run[..k]) && forall i | 0 <= i < k :: !LosesSightIn(f, run, i)
    ensures InStep(Followed(f, run[..k]), start, ContentAfter(content, run[..k]))
  {
    forall i | 0 <= i < k ensures !LosesSightIn(f, run[..k], i) {
      assert run[..k][..i] == run[..i] && !LosesSightIn(f, run, i);
    }
    GrowingFileIsFollowed(tail, lines, start, content, f, run[..k]);
  }

  /** The first turn that loses sight, and no turn before it, starts over from the first byte. */
  lemma StartsOverAtFirstLoss(
      tail: Bytes, lines: nat, start: nat, content: Bytes, f: Follow, run: seq<Look>, k: nat)
    requires StartsLastLines(tail, lines, start) && tail <= content
    requires f.offset == start && f.written == [] && f.head == Head(content, 64)
    requires GrowingRun(f, content, run) && k < |run| && forall i | 0 <= i < k :: !LosesSightIn(f, run, i)
    ensures var before := Followed(f, run[..k]);
      var checked := Checked(before, before.drained, run[k].glance);
      && InStep(before, start, ContentAfter(content, run[..k]))
      && checked.written == before.written
      && checked.offset == if LosesSightIn(f, run, k) then 0 else before.offset
  {
    hide StartsLastLines, LosesSight, Restarts, CheckDue, Stale, GrowingRun;
    GrowingAt(f, content, run, k);
    InStepSoFar(tail, lines, start, content, f, run, k);
    var before := Followed(f, run[..k]);
    GrowingRestartsIff(before, before.drained, run[k].glance, start, ContentAfter(content, run[..k]), run[k].content);
  }

  /**
   * A file that was truncated, replaced or rewritten is started over from its
   * first byte, unless its new content passes for the old: no shorter than
   * the offset, and with the same opening.
   */
  lemma RewriteIsNoticed(f: Follow, g: Glance)
    requires f.drained && g.stat.Seen? && g.look == g.stat && g.open == g.stat
    ensures Restarts(f, f.drained, g) <==>
      !(|g.stat.content| >= f.offset && g.stat.inode == f.inode && f.head <= g.stat.content)
    ensures Restarts(f, f.drained, g) ==>
      var c := Checked(f, f.drained, g);
      c.offset == 0 && c.inode == g.stat.inode && c.head <= g.stat.content && c.written == f.written
  {
    var content := g.stat.content;
    if f.head <= content { assert Head(content, |f.head|) == f.head; }
    if Head(content, |f.head|) == f.head { assert f.head <= content; }
  }

  /** The opening that is remembered: the first 64 bytes, or all there are. */
  predicate IsOpening(head: Bytes, content: Bytes) {
    head <= content && |head| == (if |content| < 64 then |content| else 64)
  }

  /**
   * And it is noticed by the very next check when the last read came back with
   * less than a full buffer, however soon: the new content is then followed
   * from its first byte, and otherwise the follow stays where it was.
   */
  lemma RewriteIsNoticedAfterShortRead(f: Follow, g: Glance, bytes: Bytes, next: Glance)
    requires |bytes| < 32 * 1024
    requires next.stat.Seen? && next.look == next.stat && next.open == next.stat
    ensures var t := Turned(f, g, bytes);
      var c, content := Checked(t, t.drained, next), next.stat.content;
      && c.written == t.written
      && if |content| >= t.offset && next.stat.inode == t.inode && t.head <= content
         then c.offset == t.offset && c.inode == t.inode
         else c.offset == 0 && c.inode == next.stat.inode && IsOpening(c.head, content)
  {
    var t := Turned(f, g, bytes);
    assert t.drained;
    RewriteIsNoticed(t, next);
  }

  /** While full buffers keep coming the file is looked at no more than every 200 milliseconds, and then it is. */
  lemma BacklogIsCheckedAtIntervals(f: Follow, g: Glance, bytes: Bytes, next: Glance)
    requires |bytes| == 32 * 1024
    ensures var t := Turned(f, g, bytes);
      && t.checkedAt.Some?
      && Checked(t, t.drained, next).checkedAt
           == (if next.now - t.checkedAt.value >= 200 then Some(next.now) else t.checkedAt)
      && (next.now - t.checkedAt.value < 200 ==> Checked(t, t.drained, next) == t)
  {
  }

  /** A log too short for a whole opening when it was opened has it taken by the next check that finds it the same. */
  lemma OpeningIsTaken(f: Follow, g: Glance, start: nat, from: Bytes, to: Bytes)
    requires InStep(f, start, from) && f.drained && |f.head| < 64
    requires SeesGrowing(g.stat, f.inode, from, to) && SeesGrowing(g.look, f.inode, from, to)
    requires SeesGrowing(g.again, f.inode, from, to)
    ensures IsOpening(Checked(f, f.drained, g).head, g.again.content)
  {
    GrowingIsNotStale(f, g, start, from, to);
  }
}
