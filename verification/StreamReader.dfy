/** The selective line reader of execution/worker_process.py. */
module StreamReader {
  import opened Prelude

  /** A line, tagged with its place in the order in which the stream delivered it. */
  datatype Line = Line(tag: nat, text: string)

  /** `queue` is filled by the reading thread, which ends it with the sentinel None. */
  datatype Buffer = Buffer(pending: seq<Line>, queue: seq<Option<Line>>)

  /** The lines waiting in a queue, sentinels left out. */
  function LinesOf(queue: seq<Option<Line>>): seq<Line> {
    if queue == [] then []
    else (if queue[0].Some? then [queue[0].value] else []) + LinesOf(queue[1..])
  }

  function Lines(b: Buffer): seq<Line> {
    b.pending + LinesOf(b.queue)
  }

  /** `readline`: the oldest line, or None when nothing came in time or the stream ended. */
  function NextLine(b: Buffer): (Option<Line>, Buffer) {
    if b.pending != [] then (Some(b.pending[0]), b.(pending := b.pending[1..]))
    else if b.queue != [] then (b.queue[0], b.(queue := b.queue[1..]))
    else (None, b)
  }

  /**
   `readline_matching`: `gets` is how many lines can be taken from the queue before the deadline
   passes. Pending lines are looked at whatever the clock says.
   */
  function NextMatching(b: Buffer, wanted: string -> bool, gets: nat): (Option<Line>, Buffer)
    decreases |b.pending| + |b.queue|
  {
    if b.pending != [] then
      var first, rest := b.pending[0], b.(pending := b.pending[1..]);
      if wanted(first.text) then (Some(first), rest)
      else
        var (r, b') := NextMatching(rest, wanted, gets);
        (r, b'.(pending := [first] + b'.pending))
    else if gets == 0 || b.queue == [] then (None, b)
    else
      var rest := b.(queue := b.queue[1..]);
      match b.queue[0]
      case None => (None, rest)
      case Some(line) =>
        if wanted(line.text) then (Some(line), rest)
        else
          var (r, b') := NextMatching(rest, wanted, gets - 1);
          (r, b'.(pending := [line] + b'.pending))
  }

  /**
   The lines a selective read can get to look at: everything pending, and the queue up to the deadline or the end of
   the stream.
   */
  function Visible(b: Buffer, gets: nat): nat
    decreases |b.queue|
  {
    |b.pending| +
    if gets == 0 || b.queue == [] || b.queue[0].None? then 0
    else 1 + Visible(Buffer([], b.queue[1..]), gets - 1)
  }

  function Without<T>(lines: seq<T>, i: nat): seq<T>
    requires i < |lines|
  {
    lines[..i] + lines[i + 1..]
  }

  /** What a selective read must do: take out the first visible match, or leave every line where it was. */
  ghost predicate Selects(before: seq<Line>, after: seq<Line>, r: Option<Line>, wanted: string -> bool, visible: nat)
    requires visible <= |before|
  {
    match r
    case Some(line) =>
      exists i :: && 0 <= i < visible && before[i] == line && wanted(line.text)
                  && (forall j | 0 <= j < i :: !wanted(before[j].text))
                  && after == Without(before, i)
    case None => after == before && forall j | 0 <= j < visible :: !wanted(before[j].text)
  }

  lemma {:induction false} VisibleBound(b: Buffer, gets: nat)
    ensures |b.pending| <= Visible(b, gets) <= |Lines(b)|
    decreases |b.queue|
  {
    if gets != 0 && b.queue != [] && b.queue[0].Some? {
      VisibleBound(Buffer([], b.queue[1..]), gets - 1);
    }
  }

  lemma WithoutShifts(line: Line, before: seq<Line>, i: nat)
    requires i < |before|
    ensures Without([line] + before, i + 1) == [line] + Without(before, i)
  {}

  lemma SkippedLineKept(line: Line, before: seq<Line>, after: seq<Line>, r: Option<Line>, wanted: string -> bool,
                        visible: nat)
    requires visible <= |before| && Selects(before, after, r, wanted, visible) && !wanted(line.text)
    ensures Selects([line] + before, [line] + after, r, wanted, visible + 1)
  {
    var longer := [line] + before;
    assert forall j | 0 < j < |longer| :: longer[j] == before[j - 1];
    if r.Some? {
      var i :| && 0 <= i < visible && before[i] == r.value && wanted(r.value.text)
               && (forall j | 0 <= j < i :: !wanted(before[j].text)) && after == Without(before, i);
      WithoutShifts(line, before, i);
      assert longer[i + 1] == r.value;
    }
  }

  lemma FirstLineTaken(line: Line, rest: seq<Line>, wanted: string -> bool, visible: nat)
    requires wanted(line.text) && 0 < visible <= 1 + |rest|
    ensures Selects([line] + rest, rest, Some(line), wanted, visible)
  {
    assert Without([line] + rest, 0) == rest;
    assert ([line] + rest)[0] == line;
  }

  ghost predicate Selected(b: Buffer, wanted: string -> bool, gets: nat) {
    var (r, b') := NextMatching(b, wanted, gets);
    Visible(b, gets) <= |Lines(b)| && Selects(Lines(b), Lines(b'), r, wanted, Visible(b, gets))
  }

  lemma PutBack(b: Buffer, line: Line)
    ensures Lines(b.(pending := [line] + b.pending)) == [line] + Lines(b)
  {}

  /** Skipping a line, whether pending or just taken from the queue, puts it back in front. */
  lemma SkipSelects(b: Buffer, line: Line, rest: Buffer, wanted: string -> bool, gets: nat, left: nat)
    requires Lines(b) == [line] + Lines(rest) && Visible(b, gets) == 1 + Visible(rest, left) && !wanted(line.text)
    requires Selected(rest, wanted, left)
    requires var (r, b') := NextMatching(rest, wanted, left);
             NextMatching(b, wanted, gets) == (r, b'.(pending := [line] + b'.pending))
    ensures Selected(b, wanted, gets)
  {
    var (r, b') := NextMatching(rest, wanted, left);
    SkippedLineKept(line, Lines(rest), Lines(b'), r, wanted, Visible(rest, left));
    PutBack(b', line);
  }

  lemma TakeSelects(b: Buffer, line: Line, rest: Buffer, wanted: string -> bool, gets: nat)
    requires Lines(b) == [line] + Lines(rest) && wanted(line.text) && 0 < Visible(b, gets) <= |Lines(b)|
    requires NextMatching(b, wanted, gets) == (Some(line), rest)
    ensures Selected(b, wanted, gets)
  {
    FirstLineTaken(line, Lines(rest), wanted, Visible(b, gets));
  }

  lemma SplitPending(b: Buffer)
    requires b.pending != []
    ensures Lines(b) == [b.pending[0]] + Lines(b.(pending := b.pending[1..]))
  {}

  /** Selective read: the first visible match is delivered and only it is removed; otherwise no line moves. */
  lemma {:induction false} ReadMatchingSelects(b: Buffer, wanted: string -> bool, gets: nat)
    ensures Selected(b, wanted, gets)
    decreases |b.pending| + |b.queue|
  {
    VisibleBound(b, gets);
    if b.pending != [] {
      var first, rest := b.pending[0], b.(pending := b.pending[1..]);
      SplitPending(b);
      if wanted(first.text) {
        TakeSelects(b, first, rest, wanted, gets);
      } else {
        ReadMatchingSelects(rest, wanted, gets);
        SkipSelects(b, first, rest, wanted, gets, gets);
      }
    } else if gets != 0 && b.queue != [] && b.queue[0].Some? {
      var line, rest := b.queue[0].value, b.(queue := b.queue[1..]);
      assert Lines(b) == [line] + Lines(rest);
      if wanted(line.text) {
        TakeSelects(b, line, rest, wanted, gets);
      } else {
        ReadMatchingSelects(rest, wanted, gets - 1);
        assert rest == Buffer([], b.queue[1..]);
        SkipSelects(b, line, rest, wanted, gets, gets - 1);
      }
    }
  }

  lemma ReadLineSelects(b: Buffer)
    ensures var (r, b') := NextLine(b);
            if r.Some? then Lines(b) == [r.value] + Lines(b') else Lines(b') == Lines(b)
  {}

  // ---------------------------------------------------------------- any mix of reads

  datatype Op = Arrive(text: string) | EndOfStream | Read | Match(wanted: string -> bool, gets: nat)

  /** `next` tags the next line to arrive; `delivered` is what readers were given so far. */
  datatype Session = Session(buffer: Buffer, next: nat, delivered: seq<Line>)

  function Deliver(s: Session, answer: (Option<Line>, Buffer)): Session {
    s.(buffer := answer.1, delivered := s.delivered + match answer.0 case Some(line) => [line] case None => [])
  }

  function Step(s: Session, op: Op): Session {
    match op
    case Arrive(text) =>
      s.(buffer := s.buffer.(queue := s.buffer.queue + [Some(Line(s.next, text))]), next := s.next + 1)
    case EndOfStream => s.(buffer := s.buffer.(queue := s.buffer.queue + [None]))
    case Read => Deliver(s, NextLine(s.buffer))
    case Match(wanted, gets) => Deliver(s, NextMatching(s.buffer, wanted, gets))
  }

  function Run(s: Session, ops: seq<Op>): Session
    decreases |ops|
  {
    if ops == [] then s else Run(Step(s, ops[0]), ops[1..])
  }

  const OPENED := Session(Buffer([], []), 0, [])

  ghost predicate InOrder(lines: seq<Line>) {
    forall i, j | 0 <= i < j < |lines| :: lines[i].tag < lines[j].tag
  }

  ghost predicate Tagged(lines: seq<Line>, tag: nat) {
    exists i :: 0 <= i < |lines| && lines[i].tag == tag
  }

  ghost predicate NoTagTwice(lines: seq<Line>) {
    forall i, j | 0 <= i < j < |lines| :: lines[i].tag != lines[j].tag
  }

  /** Every line that arrived is waiting or delivered, never both and never twice, and the waiting ones are in order. */
  ghost predicate Inv(s: Session) {
    var waiting := Lines(s.buffer);
    && InOrder(waiting) && NoTagTwice(s.delivered)
    && (forall tag: nat :: tag < s.next <==> Tagged(waiting, tag) || Tagged(s.delivered, tag))
    && (forall tag: nat :: !(Tagged(waiting, tag) && Tagged(s.delivered, tag)))
  }

  lemma {:induction false} LinesOfLonger(queue: seq<Option<Line>>, last: Option<Line>)
    ensures LinesOf(queue + [last]) == LinesOf(queue) + if last.Some? then [last.value] else []
  {
    if queue != [] {
      assert (queue + [last])[1..] == queue[1..] + [last];
      LinesOfLonger(queue[1..], last);
    }
  }

  lemma TaggedLonger(lines: seq<Line>, line: Line, tag: nat)
    ensures Tagged(lines + [line], tag) <==> Tagged(lines, tag) || line.tag == tag
  {
    var longer := lines + [line];
    if i :| 0 <= i < |lines| && lines[i].tag == tag { assert longer[i].tag == tag; }
    assert longer[|lines|] == line;
  }

  lemma TaggedWithout(lines: seq<Line>, i: nat, tag: nat)
    requires i < |lines| && InOrder(lines)
    ensures Tagged(Without(lines, i), tag) <==> Tagged(lines, tag) && tag != lines[i].tag
    ensures InOrder(Without(lines, i))
  {
    var fewer := Without(lines, i);
    forall j | 0 <= j < |fewer| ensures fewer[j] == if j < i then lines[j] else lines[j + 1] {}
    if j :| 0 <= j < |lines| && lines[j].tag == tag && tag != lines[i].tag {
      assert fewer[if j < i then j else j - 1].tag == tag;
    }
  }

  lemma DeliveryKeepsInv(s: Session, s': Session, i: nat)
    requires Inv(s) && i < |Lines(s.buffer)| && s'.next == s.next
    requires Lines(s'.buffer) == Without(Lines(s.buffer), i) && s'.delivered == s.delivered + [Lines(s.buffer)[i]]
    ensures Inv(s')
  {
    var waiting := Lines(s.buffer);
    var line := waiting[i];
    assert Tagged(waiting, line.tag);
    assert !Tagged(s.delivered, line.tag);
    TaggedWithout(waiting, i, 0);
    forall tag: nat
      ensures Tagged(Lines(s'.buffer), tag) <==> Tagged(waiting, tag) && tag != line.tag
      ensures Tagged(s'.delivered, tag) <==> Tagged(s.delivered, tag) || line.tag == tag
    {
      TaggedWithout(waiting, i, tag);
      TaggedLonger(s.delivered, line, tag);
    }
  }

  lemma ArrivalKeepsInv(s: Session, text: string)
    requires Inv(s)
    ensures Inv(Step(s, Arrive(text)))
  {
    var waiting, line := Lines(s.buffer), Line(s.next, text);
    var s' := Step(s, Arrive(text));
    LinesOfLonger(s.buffer.queue, Some(line));
    assert Lines(s'.buffer) == waiting + [line];
    forall i | 0 <= i < |waiting| ensures waiting[i].tag < s.next { assert Tagged(waiting, waiting[i].tag); }
    forall tag: nat ensures Tagged(Lines(s'.buffer), tag) <==> Tagged(waiting, tag) || tag == s.next {
      TaggedLonger(waiting, line, tag);
    }
  }

  lemma SameLinesKeepInv(s: Session, s': Session)
    requires Inv(s) && Lines(s'.buffer) == Lines(s.buffer) && s'.next == s.next && s'.delivered == s.delivered
    ensures Inv(s')
  {}

  lemma ReadKeepsInv(s: Session)
    requires Inv(s)
    ensures Inv(Deliver(s, NextLine(s.buffer)))
  {
    var (r, b') := NextLine(s.buffer);
    var s' := Deliver(s, (r, b'));
    ReadLineSelects(s.buffer);
    if r.Some? {
      assert Without(Lines(s.buffer), 0) == Lines(b');
      DeliveryKeepsInv(s, s', 0);
    } else {
      assert s'.delivered == s.delivered;
      SameLinesKeepInv(s, s');
    }
  }

  lemma MatchKeepsInv(s: Session, wanted: string -> bool, gets: nat)
    requires Inv(s)
    ensures Inv(Deliver(s, NextMatching(s.buffer, wanted, gets)))
  {
    var (r, b') := NextMatching(s.buffer, wanted, gets);
    var s' := Deliver(s, (r, b'));
    ReadMatchingSelects(s.buffer, wanted, gets);
    if r.Some? {
      var i :| 0 <= i < |Lines(s.buffer)| && Lines(s.buffer)[i] == r.value && Lines(b') == Without(Lines(s.buffer), i);
      DeliveryKeepsInv(s, s', i);
    } else {
      assert s'.delivered == s.delivered;
      SameLinesKeepInv(s, s');
    }
  }

  lemma StepKeepsInv(s: Session, op: Op)
    requires Inv(s)
    ensures Inv(Step(s, op))
  {
    match op
    case Arrive(text) => ArrivalKeepsInv(s, text);
    case EndOfStream =>
      LinesOfLonger(s.buffer.queue, None);
      assert Lines(Step(s, op).buffer) == Lines(s.buffer);
      SameLinesKeepInv(s, Step(s, op));
    case Read => ReadKeepsInv(s);
    case Match(wanted, gets) => MatchKeepsInv(s, wanted, gets);
  }

  lemma {:induction false} RunKeepsInv(s: Session, ops: seq<Op>)
    requires Inv(s)
    ensures Inv(Run(s, ops))
    decreases |ops|
  {
    if ops != [] {
      StepKeepsInv(s, ops[0]);
      RunKeepsInv(Step(s, ops[0]), ops[1..]);
    }
  }

  /** The lines a run brings in, in order. */
  function Arrivals(next: nat, ops: seq<Op>): seq<Line>
    decreases |ops|
  {
    if ops == [] then []
    else if ops[0].Arrive? then [Line(next, ops[0].text)] + Arrivals(next + 1, ops[1..])
    else Arrivals(next, ops[1..])
  }

  ghost function Held(s: Session): multiset<Line> {
    multiset(s.delivered) + multiset(Lines(s.buffer))
  }

  /** What one call brings in. */
  function FirstLine(next: nat, op: Op): multiset<Line> {
    if op.Arrive? then multiset{Line(next, op.text)} else multiset{}
  }

  lemma WithoutOne(lines: seq<Line>, i: nat)
    requires i < |lines|
    ensures multiset(lines) == multiset(Without(lines, i)) + multiset{lines[i]}
  {
    assert lines == lines[..i] + [lines[i]] + lines[i + 1..];
  }

  lemma DeliveryConserves(s: Session, s': Session, i: nat)
    requires i < |Lines(s.buffer)| && Lines(s'.buffer) == Without(Lines(s.buffer), i)
    requires s'.delivered == s.delivered + [Lines(s.buffer)[i]]
    ensures Held(s') == Held(s)
  {
    WithoutOne(Lines(s.buffer), i);
  }

  lemma ArrivalConserves(s: Session, text: string)
    ensures Held(Step(s, Arrive(text))) == Held(s) + multiset{Line(s.next, text)}
  {
    var line := Line(s.next, text);
    LinesOfLonger(s.buffer.queue, Some(line));
    assert Lines(Step(s, Arrive(text)).buffer) == Lines(s.buffer) + [line];
  }

  lemma EndConserves(s: Session)
    ensures Held(Step(s, EndOfStream)) == Held(s)
  {
    LinesOfLonger(s.buffer.queue, None);
    assert Lines(Step(s, EndOfStream).buffer) == Lines(s.buffer);
  }

  lemma ReadConserves(s: Session)
    ensures Held(Deliver(s, NextLine(s.buffer))) == Held(s)
  {
    var (r, b') := NextLine(s.buffer);
    ReadLineSelects(s.buffer);
    if r.Some? {
      assert Without(Lines(s.buffer), 0) == Lines(b');
      DeliveryConserves(s, Deliver(s, (r, b')), 0);
    }
  }

  lemma MatchConserves(s: Session, wanted: string -> bool, gets: nat)
    ensures Held(Deliver(s, NextMatching(s.buffer, wanted, gets))) == Held(s)
  {
    var (r, b') := NextMatching(s.buffer, wanted, gets);
    ReadMatchingSelects(s.buffer, wanted, gets);
    if r.Some? {
      var i :| 0 <= i < |Lines(s.buffer)| && Lines(s.buffer)[i] == r.value && Lines(b') == Without(Lines(s.buffer), i);
      DeliveryConserves(s, Deliver(s, (r, b')), i);
    }
  }

  lemma StepConserves(s: Session, op: Op)
    ensures Held(Step(s, op)) == Held(s) + FirstLine(s.next, op)
  {
    match op
    case Arrive(text) => ArrivalConserves(s, text);
    case EndOfStream => EndConserves(s);
    case Read => ReadConserves(s);
    case Match(wanted, gets) => MatchConserves(s, wanted, gets);
  }

  lemma FirstArrival(next: nat, ops: seq<Op>)
    requires ops != []
    ensures multiset(Arrivals(next, ops))
            == FirstLine(next, ops[0]) + multiset(Arrivals(if ops[0].Arrive? then next + 1 else next, ops[1..]))
  {}

  /** What is held now and what is still to come. */
  ghost function Total(s: Session, ops: seq<Op>): multiset<Line> {
    Held(s) + multiset(Arrivals(s.next, ops))
  }

  lemma TotalKept(s: Session, ops: seq<Op>)
    requires ops != []
    ensures Total(s, ops) == Total(Step(s, ops[0]), ops[1..])
  {
    var s' := Step(s, ops[0]);
    assert s'.next == if ops[0].Arrive? then s.next + 1 else s.next;
    StepConserves(s, ops[0]);
    FirstArrival(s.next, ops);
  }

  lemma {:induction false} RunConserves(s: Session, ops: seq<Op>)
    ensures Held(Run(s, ops)) == Total(s, ops)
    decreases |ops|
  {
    if ops != [] {
      TotalKept(s, ops);
      RunConserves(Step(s, ops[0]), ops[1..]);
    }
  }

  /**
   Over any mix of plain and selective reads the lines delivered and the lines waiting are together
   exactly the lines that arrived, text by text; none is delivered twice, and what waits keeps its order.
   */
  lemma EachLineOnce(ops: seq<Op>)
    ensures var s := Run(OPENED, ops);
            && multiset(s.delivered) + multiset(Lines(s.buffer)) == multiset(Arrivals(0, ops))
            && NoTagTwice(s.delivered) && InOrder(Lines(s.buffer))
            && (forall tag: nat :: tag < s.next <==> (Tagged(Lines(s.buffer), tag) <==> !Tagged(s.delivered, tag)))
  {
    RunKeepsInv(OPENED, ops);
    RunConserves(OPENED, ops);
  }

  // ---------------------------------------------------------------- the end-of-stream marker

  function Wrapped(lines: seq<Line>): seq<Option<Line>> {
    if lines == [] then [] else [Some(lines[0])] + Wrapped(lines[1..])
  }

  /** Everything a reader still holds, the marker included. */
  function Whole(b: Buffer): seq<Option<Line>> {
    Wrapped(b.pending) + b.queue
  }

  /** The first marker that can be reached before the deadline. */
  function FirstMarker(queue: seq<Option<Line>>, gets: nat): (i: Option<nat>)
    ensures i.Some? ==> i.value < |queue| && i.value < gets && queue[i.value].None?
    ensures i.None? <==> forall j | 0 <= j < |queue| && j < gets :: queue[j].Some?
  {
    if gets == 0 || queue == [] then None
    else if queue[0].None? then Some(0)
    else
      match FirstMarker(queue[1..], gets - 1)
      case None => None
      case Some(i) => Some(i + 1)
  }

  /** Where the marker is, counted in everything held. */
  function MarkerPlace(b: Buffer, gets: nat): Option<nat> {
    match FirstMarker(b.queue, gets)
    case None => None
    case Some(i) => Some(|Wrapped(b.pending)| + i)
  }

  /** What is gone afterwards: the delivered line, or the marker the read ran into, or nothing. */
  ghost predicate TakesOut(b: Buffer, b': Buffer, r: Option<Line>, gets: nat) {
    match r
    case Some(line) => exists i :: 0 <= i < |Whole(b)| && Whole(b)[i] == r && Whole(b') == Without(Whole(b), i)
    case None =>
      match MarkerPlace(b, gets)
      case None => Whole(b') == Whole(b)
      case Some(i) => i < |Whole(b)| && Whole(b') == Without(Whole(b), i)
  }

  lemma TakenHead(head: Option<Line>, rest: seq<Option<Line>>)
    ensures Without([head] + rest, 0) == rest
  {}

  lemma PutBackWhole(b: Buffer, line: Line)
    ensures Whole(b.(pending := [line] + b.pending)) == [Some(line)] + Whole(b)
  {
    assert ([line] + b.pending)[1..] == b.pending;
  }

  /** Removing from the rest, seen from the whole with the skipped line in front. */
  lemma SkippedRemoval(whole: seq<Option<Line>>, head: Option<Line>, rest: seq<Option<Line>>, rest': seq<Option<Line>>,
                       i: nat)
    requires whole == [head] + rest && i < |rest| && rest' == Without(rest, i)
    ensures i + 1 < |whole| && whole[i + 1] == rest[i] && [head] + rest' == Without(whole, i + 1)
  {}

  /** A line that is skipped and put back stands in front of whatever the rest of the read does. */
  lemma SkipTakesOut(b: Buffer, rest: Buffer, line: Line, gets: nat, left: nat, r: Option<Line>, rest': Buffer)
    requires Whole(b) == [Some(line)] + Whole(rest) && TakesOut(rest, rest', r, left)
    requires MarkerPlace(b, gets) == match MarkerPlace(rest, left) case None => None case Some(i) => Some(i + 1)
    ensures TakesOut(b, rest'.(pending := [line] + rest'.pending), r, gets)
  {
    PutBackWhole(rest', line);
    if r.Some? {
      var i :| 0 <= i < |Whole(rest)| && Whole(rest)[i] == r && Whole(rest') == Without(Whole(rest), i);
      SkippedRemoval(Whole(b), Some(line), Whole(rest), Whole(rest'), i);
    } else if MarkerPlace(rest, left).Some? {
      SkippedRemoval(Whole(b), Some(line), Whole(rest), Whole(rest'), MarkerPlace(rest, left).value);
    }
  }

  lemma HeadTakenOut(b: Buffer, rest: Buffer, line: Line, gets: nat)
    requires Whole(b) == [Some(line)] + Whole(rest)
    ensures TakesOut(b, rest, Some(line), gets)
  {
    TakenHead(Some(line), Whole(rest));
    assert Whole(b)[0] == Some(line);
  }

  lemma PendingSplits(b: Buffer, gets: nat)
    requires b.pending != []
    ensures var rest := b.(pending := b.pending[1..]);
            && Whole(b) == [Some(b.pending[0])] + Whole(rest)
            && MarkerPlace(b, gets) == match MarkerPlace(rest, gets) case None => None case Some(i) => Some(i + 1)
  {}

  lemma QueueSplits(b: Buffer, gets: nat)
    requires b.pending == [] && b.queue != [] && gets != 0
    ensures var rest := b.(queue := b.queue[1..]);
            && Whole(b) == [b.queue[0]] + Whole(rest)
            && (b.queue[0].Some? ==>
                  MarkerPlace(b, gets) == match MarkerPlace(rest, gets - 1) case None => None case Some(i) =>
                    Some(i + 1))
            && (b.queue[0].None? ==> MarkerPlace(b, gets) == Some(0))
  {}

  lemma MarkerTakenOut(b: Buffer, rest: Buffer, gets: nat)
    requires Whole(b) == [None] + Whole(rest) && MarkerPlace(b, gets) == Some(0)
    ensures TakesOut(b, rest, None, gets)
  {
    TakenHead(None, Whole(rest));
  }

  /** What any selective read does to everything held. */
  lemma {:induction false} ReadMatchingTakesOut(b: Buffer, wanted: string -> bool, gets: nat)
    ensures var (r, b') := NextMatching(b, wanted, gets); TakesOut(b, b', r, gets)
    decreases |b.pending| + |b.queue|
  {
    if b.pending != [] {
      var line, rest := b.pending[0], b.(pending := b.pending[1..]);
      PendingSplits(b, gets);
      if wanted(line.text) {
        HeadTakenOut(b, rest, line, gets);
      } else {
        ReadMatchingTakesOut(rest, wanted, gets);
        var (r, rest') := NextMatching(rest, wanted, gets);
        SkipTakesOut(b, rest, line, gets, gets, r, rest');
      }
    } else if gets != 0 && b.queue != [] {
      if b.queue[0].Some? && !wanted(b.queue[0].value.text) {
        ReadMatchingTakesOut(b.(queue := b.queue[1..]), wanted, gets - 1);
        QueueSkipTakesOut(b, wanted, gets);
      } else {
        QueueHeadTakesOut(b, wanted, gets);
      }
    }
  }

  lemma QueueHeadTakesOut(b: Buffer, wanted: string -> bool, gets: nat)
    requires b.pending == [] && b.queue != [] && gets != 0 && (b.queue[0].Some? ==> wanted(b.queue[0].value.text))
    ensures var (r, b') := NextMatching(b, wanted, gets); TakesOut(b, b', r, gets)
  {
    var rest := b.(queue := b.queue[1..]);
    QueueSplits(b, gets);
    if b.queue[0].None? { MarkerTakenOut(b, rest, gets); } else { HeadTakenOut(b, rest, b.queue[0].value, gets); }
  }

  lemma QueueSkipTakesOut(b: Buffer, wanted: string -> bool, gets: nat)
    requires b.pending == [] && gets != 0 && b.queue != [] && b.queue[0].Some? && !wanted(b.queue[0].value.text)
    requires var rest := b.(queue := b.queue[1..]);
             var (r, rest') := NextMatching(rest, wanted, gets - 1);
             TakesOut(rest, rest', r, gets - 1)
    ensures var (r, b') := NextMatching(b, wanted, gets); TakesOut(b, b', r, gets)
  {
    var rest := b.(queue := b.queue[1..]);
    var (r, rest') := NextMatching(rest, wanted, gets - 1);
    QueueSplits(b, gets);
    QueueLineSkipped(b, wanted, gets);
    SkipTakesOut(b, rest, b.queue[0].value, gets, gets - 1, r, rest');
  }

  lemma QueueLineSkipped(b: Buffer, wanted: string -> bool, gets: nat)
    requires b.pending == [] && gets != 0 && b.queue != [] && b.queue[0].Some? && !wanted(b.queue[0].value.text)
    ensures var (r, rest') := NextMatching(b.(queue := b.queue[1..]), wanted, gets - 1);
            NextMatching(b, wanted, gets) == (r, rest'.(pending := [b.queue[0].value] + rest'.pending))
  {}

  /** A read that finds nothing leaves everything as it was, marker included, if and only if it reaches no marker. */
  lemma NothingFoundNothingChangedIff(b: Buffer, wanted: string -> bool, gets: nat)
    requires NextMatching(b, wanted, gets).0.None?
    ensures Whole(NextMatching(b, wanted, gets).1) == Whole(b)
            <==> forall i | 0 <= i < |b.queue| && i < gets :: b.queue[i].Some?
  {
    ReadMatchingTakesOut(b, wanted, gets);
  }

  /**
   So the marker is seen once: the same read again waits for the deadline instead of learning that the stream is
   over.
   */
  lemma MarkerIsUsedUp(wanted: string -> bool)
    ensures NextMatching(Buffer([], [None]), wanted, 1) == (None, Buffer([], []))
    ensures Whole(Buffer([], [])) != Whole(Buffer([], [None]))
  {
    var ended: seq<Option<Line>> := [None];
    assert ended[1..] == [];
    assert |Whole(Buffer([], []))| == 0 && |Whole(Buffer([], [None]))| == 1;
  }

  class TimedStreamReader {
    var pending: seq<Line>
    var queue: seq<Option<Line>>

    function View(): Buffer
      reads this
    {
      Buffer(pending, queue)
    }

    constructor ()
      ensures View() == Buffer([], [])
    {
      pending, queue := [], [];
    }

    method ReadLine() returns (r: Option<Line>)
      modifies this
      ensures (r, View()) == NextLine(old(View()))
    {
      if pending != [] {
        r, pending := Some(pending[0]), pending[1..];
      } else if queue != [] {
        r, queue := queue[0], queue[1..];
      } else {
        r := None;
      }
    }

    method ReadLineMatching(wanted: string -> bool, gets: nat) returns (r: Option<Line>)
      modifies this
      ensures (r, View()) == NextMatching(old(View()), wanted, gets)
    {
      var unmatched: seq<Line> := [];
      var left := gets;
      r := None;
      assert [] + NextMatching(View(), wanted, gets).1.pending == NextMatching(View(), wanted, gets).1.pending;
      while true
        invariant r == None
        invariant var (answer, rest) := NextMatching(View(), wanted, left);
                  NextMatching(old(View()), wanted, gets) == (answer, rest.(pending := unmatched + rest.pending))
        decreases |pending| + |queue|
      {
        var line: Option<Line>;
        if pending != [] {
          line, pending := Some(pending[0]), pending[1..];
        } else {
          if left == 0 || queue == [] {
            break;
          }
          left := left - 1;
          line, queue := queue[0], queue[1..];
        }
        if line.None? {
          break;
        }
        if wanted(line.value.text) {
          r := line;
          break;
        }
        ghost var rest := NextMatching(View(), wanted, left).1;
        assert unmatched + ([line.value] + rest.pending) == (unmatched + [line.value]) + rest.pending;
        unmatched := unmatched + [line.value];
      }
      pending := unmatched + pending;
    }
  }
}
