/** Concurrent top-level autoPost calls: the first transaction, the read after a
    unique violation and the second posting are separate steps, and any other
    accounting transaction may run in between. */
module AutoPost {
  import opened Common
  import opened Filters
  import opened Books
  import opened BooksInvariant

  datatype Phase = Started | Conflicted | PostingDraft(id: nat) | Returned(id: nat) | Failed

  datatype Call = Call(dto: JournalDto, phase: Phase)

  datatype State = State(books: Books, calls: map<nat, Call>)

  datatype Step =
    | Other(op: Op)
    | Start(call: nat, dto: JournalDto)
    | Attempt(call: nat, number: JournalNumber)
    | ReadExisting(call: nat)
    | PostExisting(call: nat)

  /** executeTakeFirst on (reference_type, reference_id). */
  function Find(journals: seq<Journal>, r: Option<Reference>): (i: Option<nat>)
    ensures i.Some? ==> i.value < |journals| && journals[i.value].reference == r
    ensures i.None? ==> forall j | j in journals :: j.reference != r
  {
    if journals == [] then None
    else if journals[|journals| - 1].reference == r then Some(|journals| - 1)
    else
      var front := Find(journals[..|journals| - 1], r);
      assert journals == journals[..|journals| - 1] + [journals[|journals| - 1]];
      front
  }

  function SetPhase(s: State, c: nat, p: Phase): State
    requires c in s.calls
  {
    s.(calls := s.calls[c := s.calls[c].(phase := p)])
  }

  ghost predicate Next(s: State, step: Step, s': State, column: ReversalColumn) {
    match step
    case Other(op) => s' == s.(books := Apply(s.books, op, column))
    case Start(c, dto) => c !in s.calls && s' == s.(calls := s.calls[c := Call(dto, Started)])
    case Attempt(c, number) =>
      && c in s.calls && s.calls[c].phase == Started
      && s' == (match CreateAndPost(s.books, s.calls[c].dto, number)
                case Ok(b) => SetPhase(s, c, Returned(|s.books.journals|)).(books := b)
                case Err(e) =>
                  SetPhase(s, c,
                           if e == DuplicateReference && s.calls[c].dto.reference.Some? then Conflicted else Failed))
    case ReadExisting(c) =>
      && c in s.calls && s.calls[c].phase == Conflicted
      && s' == (match Find(s.books.journals, s.calls[c].dto.reference)
                case None => SetPhase(s, c, Failed)
                case Some(i) =>
                  SetPhase(s, c, match s.books.journals[i].status
                                 case Draft => PostingDraft(i)
                                 case Reversed => Failed
                                 case Posted => Returned(i)))
    case PostExisting(c) =>
      && c in s.calls && s.calls[c].phase.PostingDraft?
      && s' == (match Post(s.books, s.calls[c].phase.id)
                case Ok(b) => SetPhase(s, c, Returned(s.calls[c].phase.id)).(books := b)
                case Err(e) => SetPhase(s, c, Failed))
  }

  ghost predicate HasReference(b: Books, r: Option<Reference>) {
    exists i :: 0 <= i < |b.journals| && b.journals[i].reference == r
  }

  ghost predicate CallOk(b: Books, c: Call) {
    match c.phase
    case PostingDraft(i) => i < |b.journals| && b.journals[i].reference == c.dto.reference
    case Returned(i) => i < |b.journals| && b.journals[i].reference == c.dto.reference && b.journals[i].status != Draft
    case Conflicted => c.dto.reference.Some? && HasReference(b, c.dto.reference)
    case _ => true
  }

  ghost predicate StateInv(s: State) {
    Inv(s.books) && forall c | c in s.calls :: CallOk(s.books, s.calls[c])
  }

  /** Journals keep their reference, and never become drafts again. */
  ghost predicate Later(b: Books, b': Books) {
    && |b.journals| <= |b'.journals|
    && forall i | 0 <= i < |b.journals| ::
         && b'.journals[i].reference == b.journals[i].reference
         && (b.journals[i].status != Draft ==> b'.journals[i].status != Draft)
  }

  lemma EvolvedIsLater(b: Books, b': Books)
    requires forall i | 0 <= i < |b.journals| :: Evolves(b, b', i)
    requires |b.journals| <= |b'.journals|
    ensures Later(b, b')
  {
    forall i | 0 <= i < |b.journals|
      ensures b'.journals[i].reference == b.journals[i].reference
      ensures b.journals[i].status != Draft ==> b'.journals[i].status != Draft
    {
      assert Evolves(b, b', i);
    }
  }

  lemma ApplyIsLater(b: Books, op: Op, column: ReversalColumn)
    ensures Later(b, Apply(b, op, column))
  {
    forall i | 0 <= i < |b.journals| ensures Evolves(b, Apply(b, op, column), i) {
      ApplyEvolves(b, op, column, i);
    }
    if b.journals != [] {
      ApplyEvolves(b, op, column, |b.journals| - 1);
    }
    EvolvedIsLater(b, Apply(b, op, column));
  }

  lemma CallsStayOk(b: Books, b': Books, c: Call)
    requires Later(b, b') && CallOk(b, c)
    ensures CallOk(b', c)
  {
    if c.phase.Conflicted? {
      var i :| 0 <= i < |b.journals| && b.journals[i].reference == c.dto.reference;
      assert b'.journals[i].reference == c.dto.reference;
    }
  }

  /** The accounting transaction that a step runs, if any. */
  function OpOf(s: State, step: Step): Option<Op> {
    match step
    case Other(o) => Some(o)
    case Attempt(c, number) => if c in s.calls then Some(OpAutoPost(s.calls[c].dto, number)) else None
    case PostExisting(c) =>
      if c in s.calls && s.calls[c].phase.PostingDraft? then Some(OpPost(s.calls[c].phase.id)) else None
    case _ => None
  }

  lemma StepAppliesOp(s: State, step: Step, s': State, column: ReversalColumn)
    requires Next(s, step, s', column)
    ensures s'.books == match OpOf(s, step) case Some(op) => Apply(s.books, op, column) case None => s.books
  {
  }

  lemma BooksMoveOn(s: State, step: Step, s': State, column: ReversalColumn)
    requires Inv(s.books) && Next(s, step, s', column)
    ensures Inv(s'.books) && Later(s.books, s'.books)
  {
    StepAppliesOp(s, step, s', column);
    if OpOf(s, step).Some? {
      ApplyKeepsInv(s.books, OpOf(s, step).value, column);
      ApplyIsLater(s.books, OpOf(s, step).value, column);
    }
  }

  lemma StepKeepsInv(s: State, step: Step, s': State, column: ReversalColumn)
    requires StateInv(s) && Next(s, step, s', column)
    ensures StateInv(s')
  {
    BooksMoveOn(s, step, s', column);
    forall c | c in s'.calls ensures CallOk(s'.books, s'.calls[c]) {
      if c in s.calls && s'.calls[c] == s.calls[c] {
        CallsStayOk(s.books, s'.books, s.calls[c]);
      } else if step.Attempt? {
        AttemptIsOk(s, c, step.number, s', column);
      } else if step.PostExisting? {
        assert CallOk(s.books, s.calls[c]);
      }
    }
  }

  lemma AttemptIsOk(s: State, c: nat, number: JournalNumber, s': State, column: ReversalColumn)
    requires StateInv(s) && Next(s, Attempt(c, number), s', column)
    ensures CallOk(s'.books, s'.calls[c])
  {
    var dto := s.calls[c].dto;
    match CreateAndPost(s.books, dto, number)
    case Ok(b) =>
    case Err(e) =>
      if e == DuplicateReference {
        assert Create(s.books, dto, number) == Err(DuplicateReference);
        var j :| j in s.books.journals && j.reference == dto.reference;
        var i :| 0 <= i < |s.books.journals| && s.books.journals[i] == j;
      }
  }

  ghost predicate Run(states: seq<State>, steps: seq<Step>, column: ReversalColumn) {
    && |states| == |steps| + 1
    && Inv(states[0].books) && states[0].calls == map[]
    && forall i | 0 <= i < |steps| :: Next(states[i], steps[i], states[i + 1], column)
  }

  lemma {:induction false} RunKeepsStateInv(states: seq<State>, steps: seq<Step>, column: ReversalColumn)
    requires Run(states, steps, column)
    ensures StateInv(states[|steps|])
    decreases steps
  {
    if steps != [] {
      var n := |steps| - 1;
      RunKeepsStateInv(states[..n + 1], steps[..n], column);
      StepKeepsInv(states[n], steps[n], states[n + 1], column);
    }
  }

  /** In every interleaving, calls that return for one business reference return
      the same journal; it is the only one with that reference, and its lines are
      in the ledger exactly once. */
  lemma AutoPostIsIdempotent(states: seq<State>, steps: seq<Step>, column: ReversalColumn, c: nat, d: nat)
    requires Run(states, steps, column)
    requires var s := states[|steps|];
             && c in s.calls && d in s.calls && s.calls[c].phase.Returned? && s.calls[d].phase.Returned?
             && s.calls[c].dto.reference == s.calls[d].dto.reference && s.calls[c].dto.reference.Some?
    ensures var s := states[|steps|];
            var id := s.calls[c].phase.id;
            && s.calls[d].phase.id == id && id < |s.books.journals|
            && (forall i | 0 <= i < |s.books.journals| ::
                s.books.journals[i].reference == s.calls[c].dto.reference ==> i == id)
            && Filter(OfJournal(id), s.books.gl) == PostingsOf(s.books.journals[id], id)
  {
    RunKeepsStateInv(states, steps, column);
    var s := states[|steps|];
    assert CallOk(s.books, s.calls[c]) && CallOk(s.books, s.calls[d]);
    assert JournalOk(s.books, s.calls[c].phase.id);
  }

  /** The read after a unique violation always finds the journal. */
  lemma ConflictFindsJournal(states: seq<State>, steps: seq<Step>, column: ReversalColumn, c: nat)
    requires Run(states, steps, column)
    requires c in states[|steps|].calls && states[|steps|].calls[c].phase == Conflicted
    ensures Find(states[|steps|].books.journals, states[|steps|].calls[c].dto.reference).Some?
  {
    RunKeepsStateInv(states, steps, column);
    var s := states[|steps|];
    assert CallOk(s.books, s.calls[c]);
    var i :| 0 <= i < |s.books.journals| && s.books.journals[i].reference == s.calls[c].dto.reference;
    assert s.books.journals[i] in s.books.journals;
  }

  // ------------------------------------------------------------------
  // What each call is answered
  // ------------------------------------------------------------------

  /** The first transaction returns the new journal exactly when its lines can be
      posted, the period takes it and the reference is new; it goes on to the lookup
      exactly when `create` gets as far as a journal with that reference. */
  lemma AttemptEnds(s: State, c: nat, number: JournalNumber, s': State, column: ReversalColumn)
    requires Next(s, Attempt(c, number), s', column)
    ensures var dto, phase, n := s.calls[c].dto, s'.calls[c].phase, |s.books.journals|;
            var posts := PostableLines(dto.lines) && Takes(s.books, dto.period, dto.at);
            var checked := LineError(dto.lines).None? && Takes(s.books, dto.period, dto.at);
            var taken := dto.reference.Some? && HasReference(s.books, dto.reference);
            && (phase == Returned(n) <==> posts && !taken)
            && (phase == Conflicted <==> checked && taken)
            && (phase == Failed <==> !(posts && !taken) && !(checked && taken))
            && (phase == Returned(n) ==> |s'.books.journals| == n + 1 && s'.books.journals[n].status == Posted
                                         && s'.books.journals[n].reference == dto.reference)
            && (phase != Returned(n) ==> s'.books == s.books)
  {
    var dto := s.calls[c].dto;
    CreateAndPostIff(s.books, dto, number);
    ReferenceFreeIff(s.books, dto.reference);
    CreateFailsEarly(s.books, dto, number);
    if CreateAndPost(s.books, dto, number).Ok? {
      CreateAndPostShape(s.books, dto, number);
    }
  }

  lemma ReferenceFreeIff(b: Books, r: Option<Reference>)
    ensures ReferenceFree(b, r) <==> !(r.Some? && HasReference(b, r))
  {
    if !ReferenceFree(b, r) {
      var j :| j in b.journals && j.reference == r;
      var i :| 0 <= i < |b.journals| && b.journals[i] == j;
    }
  }

  /** The reference is looked at after the lines' own checks and the period, and a
      journal that `create` inserts meets no other reference later. */
  lemma CreateFailsEarly(b: Books, dto: JournalDto, number: JournalNumber)
    ensures CreateAndPost(b, dto, number) == Err(DuplicateReference)
            <==> LineError(dto.lines).None? && Takes(b, dto.period, dto.at) && !ReferenceFree(b, dto.reference)
  {
  }

  /** After a unique violation, the call is answered by the one journal with its
      reference: posted, that is its id; reversed, an error; a draft is posted next. */
  lemma ReadEnds(s: State, c: nat, s': State, column: ReversalColumn, i: nat)
    requires StateInv(s) && Next(s, ReadExisting(c), s', column)
    requires i < |s.books.journals| && s.books.journals[i].reference == s.calls[c].dto.reference
    ensures s'.books == s.books
    ensures match s.books.journals[i].status
            case Posted => s'.calls[c].phase == Returned(i)
            case Reversed => s'.calls[c].phase == Failed
            case Draft => s'.calls[c].phase == PostingDraft(i)
  {
    assert CallOk(s.books, s.calls[c]);
    assert s.books.journals[i] in s.books.journals;
  }

  /** A draft that is found is posted and returned exactly when it still is a draft and
      its stored totals agree; its period cannot have been closed. */
  lemma PostEnds(s: State, c: nat, s': State, column: ReversalColumn, i: nat)
    requires StateInv(s) && Next(s, PostExisting(c), s', column) && s.calls[c].phase == PostingDraft(i)
    ensures i < |s.books.journals|
    ensures var j := s.books.journals[i];
            if j.status == Draft && j.totalDebit == j.totalCredit
            then s'.calls[c].phase == Returned(i) && i < |s'.books.journals| && s'.books.journals[i].status == Posted
            else s'.calls[c].phase == Failed && s'.books == s.books
  {
    assert CallOk(s.books, s.calls[c]);
    assert JournalOk(s.books, i);
  }

  /** A call that has been answered keeps its answer. */
  lemma {:induction false} AnswerStays(states: seq<State>, steps: seq<Step>, column: ReversalColumn, k: nat, c: nat)
    requires Run(states, steps, column) && k <= |steps|
    requires c in states[k].calls && (states[k].calls[c].phase.Returned? || states[k].calls[c].phase == Failed)
    ensures c in states[|steps|].calls && states[|steps|].calls[c] == states[k].calls[c]
    decreases |steps|
  {
    if k < |steps| {
      var n := |steps| - 1;
      AnswerStays(states[..n + 1], steps[..n], column, k, c);
      assert Next(states[n], steps[n], states[n + 1], column);
    }
  }

  /** A call that finds its reference posted returns that journal's id, and no later
      step takes it back. */
  lemma RepeatReturns(states: seq<State>, steps: seq<Step>, column: ReversalColumn, k: nat, c: nat, i: nat)
    requires Run(states, steps, column) && k < |steps| && steps[k] == ReadExisting(c)
    requires i < |states[k].books.journals| && states[k].books.journals[i].status == Posted
    requires c in states[k].calls && states[k].books.journals[i].reference == states[k].calls[c].dto.reference
    ensures c in states[|steps|].calls && states[|steps|].calls[c].phase == Returned(i)
  {
    RunKeepsStateInv(states[..k + 1], steps[..k], column);
    assert Next(states[k], steps[k], states[k + 1], column);
    ReadEnds(states[k], c, states[k + 1], column, i);
    AnswerStays(states, steps, column, k + 1, c);
  }

  /** A journal that is posted stays so or is reversed; its reference stays. */
  lemma {:induction false} PostedStays(states: seq<State>, steps: seq<Step>, column: ReversalColumn, k: nat, i: nat)
    requires Run(states, steps, column) && k <= |steps|
    requires i < |states[k].books.journals| && states[k].books.journals[i].status != Draft
    ensures var b := states[|steps|].books;
            i < |b.journals| && b.journals[i].status != Draft
            && b.journals[i].reference == states[k].books.journals[i].reference
    decreases |steps|
  {
    if k < |steps| {
      var n := |steps| - 1;
      PostedStays(states[..n + 1], steps[..n], column, k, i);
      RunKeepsStateInv(states[..n + 1], steps[..n], column);
      assert Next(states[n], steps[n], states[n + 1], column);
      BooksMoveOn(states[n], steps[n], states[n + 1], column);
    }
  }

  /** The call waits for the lookup or has been answered by journal `i`. */
  ghost predicate AnsweredBy(s: State, c: nat, i: nat) {
    && c in s.calls && i < |s.books.journals|
    && match s.calls[c].phase
       case Conflicted => true
       case Returned(j) => j == i
       case Failed => s.books.journals[i].status == Reversed
       case _ => false
  }

  /** Whatever runs in between: a call that conflicts with a posted journal is on its
      way to the lookup, has returned that journal, or has failed because the journal
      has been reversed meanwhile. */
  lemma {:induction false} RepeatIsAnswered(states: seq<State>, steps: seq<Step>, column: ReversalColumn, k: nat,
                                            c: nat, i: nat)
    requires Run(states, steps, column) && k <= |steps|
    requires c in states[k].calls && states[k].calls[c].phase == Conflicted
    requires i < |states[k].books.journals| && states[k].books.journals[i].status == Posted
    requires states[k].books.journals[i].reference == states[k].calls[c].dto.reference
    ensures AnsweredBy(states[|steps|], c, i) && states[|steps|].calls[c].dto == states[k].calls[c].dto
    decreases |steps|
  {
    if k < |steps| {
      var n := |steps| - 1;
      var front, last := states[..n + 1], steps[..n];
      RepeatIsAnswered(front, last, column, k, c, i);
      PostedStays(front, last, column, k, i);
      RunKeepsStateInv(front, last, column);
      RepeatStep(states[n], steps[n], states[n + 1], column, c, i);
    }
  }

  lemma RepeatStep(s: State, step: Step, s': State, column: ReversalColumn, c: nat, i: nat)
    requires StateInv(s) && Next(s, step, s', column) && AnsweredBy(s, c, i)
    requires s.books.journals[i].status != Draft && s.books.journals[i].reference == s.calls[c].dto.reference
    ensures AnsweredBy(s', c, i) && s'.calls[c].dto == s.calls[c].dto
  {
    if step == ReadExisting(c) {
      ReadEnds(s, c, s', column, i);
    } else {
      assert s'.calls[c] == s.calls[c];
      ReversedStays(s, step, s', column, i);
    }
  }

  lemma ReversedStays(s: State, step: Step, s': State, column: ReversalColumn, i: nat)
    requires StateInv(s) && Next(s, step, s', column) && i < |s.books.journals|
    ensures i < |s'.books.journals|
    ensures s.books.journals[i].status == Reversed ==> s'.books.journals[i].status == Reversed
  {
    StepAppliesOp(s, step, s', column);
    if OpOf(s, step).Some? {
      ApplyEvolves(s.books, OpOf(s, step).value, column, i);
    }
  }
}
