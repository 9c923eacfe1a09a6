/**
 Overlap and speculation together: in a run of the asynchronous runner whose answers come from what the
 device really reads, every request's text is the target's own. The device reads tokens and positions from
 its residents, its context from the pages the resident block tables name, and its recurrent state from
 the candidate the sent count selects.
 */
module AsyncLossless {
  import opened Runtime
  import opened SpecAccept
  import opened SpecDecode
  import opened DecodeReload
  import opened LateResults
  import opened AsyncRuns
  import opened AsyncResidency
  import opened AsyncTheorems
  import opened AsyncHistory
  import opened AsyncCommits
  import opened PagedMemory
  import SpecRuns
  import SpecLossless

  /** The target's next token for a request: from its context in every KV cache group and, if it is recurrent,
      from its state. */
  datatype Model = Model(next: (ReqId, seq<seq<Token>>, seq<Token>) -> Token, recurrent: bool)

  datatype Setting = Setting(engine: Engine, model: Model, size: PageSize, groups: nat)

  /** What the device holds for a request: `length` positions of its text in the pages of `table`, and the
      recurrent state after each column of its last forward. */
  datatype Context = Context(table: BlockTable, length: nat, states: seq<seq<Token>>)

  type Contexts = map<ReqId, Context>

  /** The positions a prefill computes of a request. */
  datatype Span = Span(start: nat, end: nat)

  /** One event; the requests whose pages were freed before it; and for a prefill the span of each row. */
  datatype Step = Step(e: Event, freed: set<ReqId>, spans: map<ReqId, Span>)

  function Events(steps: seq<Step>): seq<Event> {
    seq(|steps|, i requires 0 <= i < |steps| => steps[i].e)
  }

  function Folded(model: Model, state: seq<Token>): seq<Token> {
    if model.recurrent then state else []
  }

  /** The target as ordinary decoding asks it: the same text in every group and in the state. */
  ghost function Attending(m: Setting): SpecRuns.Target {
    (r, context, state) => m.model.next(r, Everywhere(m.groups, context), Folded(m.model, state))
  }

  // ----- what a step reads and writes -----

  /** The columns of row `i`: column 0 from the device, the drafts behind it from the block. */
  datatype Columns = Columns(tokens: seq<Token>, positions: seq<int>, drafts: seq<Token>)

  function ColumnsOf(consumed: Device, input: Input, i: nat): Columns {
    var block := input.rows;
    if i < |consumed.tokens| && i < |consumed.positions| then
      if block.verify && i < |block.numValid| && i < |block.tokens| && i < |block.positions| && i < |block.drafts|
         && block.numValid[i] < |block.tokens[i]| == |block.positions[i]| then
        var n := block.numValid[i] + 1;
        Columns([consumed.tokens[i]] + block.tokens[i][1..n], [consumed.positions[i]] + block.positions[i][1..n], block.drafts[i])
      else Columns([consumed.tokens[i]], [consumed.positions[i]], [])
    else Columns([], [], [])
  }

  /** What a decode row runs on: its columns, the block table the device holds for it, the count it is sent. */
  datatype RowIn = RowIn(c: Columns, table: BlockTable, count: nat, verify: bool) {
    /** It writes its columns through that table. */
    function Stores(): Write {
      Write(table, c.tokens, c.positions)
    }
  }

  function RowInput(consumed: Device, input: Input, i: nat): RowIn {
    RowIn(ColumnsOf(consumed, input, i), if i < |consumed.tables| then consumed.tables[i] else [],
          SpecRuns.RowCountSent(input.rows, i), input.rows.verify)
  }

  function RowOfDecode(engine: Engine, ready: State, e: Event, i: nat): RowIn
    requires Built(engine, ready, e).Ok?
  {
    RowInput(Consumed(engine, ready, e), Built(engine, ready, e).value.1, i)
  }

  /** A prefill writes a span of the history through the step's own block table. */
  function PrefillWrite(ready: State, step: Step, r: ReqId): Write {
    var h, span := GetOr(ready.host.history, r, []), GetOr(step.spans, r, Span(0, 0));
    if span.start <= span.end <= |h| then
      Write(GetOr(step.e.tables, r, []), h[span.start..span.end],
            seq(span.end - span.start, j requires 0 <= j < span.end - span.start => span.start + j))
    else Write([], [], [])
  }

  ghost function StepWrites(m: Setting, ready: State, step: Step): seq<Write> {
    var e := step.e;
    match e.action
    case Idle => []
    case Prefill(_, _) => seq(|e.rows|, i requires 0 <= i < |e.rows| => PrefillWrite(ready, step, e.rows[i]))
    case Decode(_, _) =>
      if Built(m.engine, ready, e).Ok? then
        seq(|e.rows|, i requires 0 <= i < |e.rows| => RowOfDecode(m.engine, ready, e, i).Stores())
      else []
  }

  /** The candidate state a count selects. */
  function StateOf(states: seq<seq<Token>>, count: nat): seq<Token> {
    if 1 <= count <= |states| then states[count - 1] else []
  }

  function StatesAfter(state: seq<Token>, c: Columns): seq<seq<Token>> {
    seq(|c.tokens|, j requires 0 <= j < |c.tokens| => state + c.tokens[..j + 1])
  }

  /** The target's choice after column `j`: it attends to everything up to that column's position. */
  ghost function Choice(m: Setting, r: ReqId, memory: Memory, table: BlockTable, state: seq<Token>, c: Columns, j: nat): Token
    requires j < |c.tokens| && j < |c.positions|
  {
    m.model.next(r, Attended(m.size, memory, table, Max(0, c.positions[j] + 1)), Folded(m.model, state + c.tokens[..j + 1]))
  }

  ghost function Choices(m: Setting, r: ReqId, memory: Memory, table: BlockTable, state: seq<Token>, c: Columns): seq<Token>
    requires |c.tokens| == |c.positions|
  {
    seq(|c.tokens|, j requires 0 <= j < |c.tokens| => Choice(m, r, memory, table, state, c, j))
  }

  /** What a row with these choices may answer: a plain row its one choice, a verified row the accepted prefix
      of its choices that still fits. */
  ghost predicate Answers(launch: Launch, c: Columns, choices: seq<Token>, verify: bool, tokens: seq<Token>) {
    && |choices| == |c.tokens| == |c.positions| > 0
    && if !verify then tokens == [choices[0]]
       else exists ids: seq<Token>, count: nat :: WalkedRow(launch, c, choices, ids, count, tokens)
  }

  ghost predicate WalkedRow(launch: Launch, c: Columns, choices: seq<Token>, ids: seq<Token>, count: nat, tokens: seq<Token>)
    requires |c.tokens| == |c.positions| > 0
  {
    && choices <= ids && AcceptsExactly(ids, c.drafts, |c.tokens| - 1, count)
    && tokens == PublishedPrefix(launch.maxModelLen, c.positions[0], ids, count)
  }

  /** A row answers from what it reads after its own columns are stored. */
  ghost predicate HonestRow(m: Setting, r: ReqId, context: Context, after: Memory, row: RowIn, tokens: seq<Token>) {
    && |row.c.tokens| == |row.c.positions|
    && Answers(m.engine.launch, row.c, Choices(m, r, after, row.table, StateOf(context.states, row.count), row.c), row.verify, tokens)
  }

  /** A decode runs only rows whose text is computed up to the last token, and answers honestly. */
  ghost predicate HonestDecodeRow(m: Setting, ready: State, kv: Contexts, after: Memory, e: Event, i: nat)
    requires ready.queue.resolved <= |ready.queue.pending| && e.action.Decode? && Built(m.engine, ready, e).Ok? && i < |e.rows|
    requires |e.action.tokens| == |e.rows|
  {
    && e.rows[i] in kv && kv[e.rows[i]].length + 1 == |Current(ready, e.rows[i])|
    && (!e.action.answer.Unread? ==>
          HonestRow(m, e.rows[i], kv[e.rows[i]], after, RowOfDecode(m.engine, ready, e, i), e.action.tokens[i]))
  }

  /** A prefill continues where the request's text is computed, by an earlier chunk or by a prefix-cache hit,
      and samples once it reaches the end. */
  ghost predicate HonestPrefillRow(m: Setting, ready: State, kv: Contexts, before: Memory, after: Memory, step: Step, i: nat)
    requires step.e.action.Prefill? && i < |step.e.rows| && |step.e.action.tokens| == |step.e.rows|
  {
    var r, tokens := step.e.rows[i], step.e.action.tokens[i];
    && r in ready.host.history && r in step.spans
    && var h, span, table := ready.host.history[r], step.spans[r], GetOr(step.e.tables, r, []);
       && span.start < span.end <= |h|
       && ((r in kv && span.start <= kv[r].length) || Holds(m.size, before, table, h[..span.start]))
       && tokens == if span.end < |h| then []
                    else [m.model.next(r, Attended(m.size, after, table, |h|), Folded(m.model, h))]
  }

  ghost predicate Honest(m: Setting, ready: State, kv: Contexts, before: Memory, after: Memory, step: Step)
    requires ready.queue.resolved <= |ready.queue.pending|
  {
    var e := step.e;
    match e.action
    case Idle => true
    case Prefill(tokens, _) =>
      |tokens| == |e.rows| && forall i :: 0 <= i < |e.rows| ==> HonestPrefillRow(m, ready, kv, before, after, step, i)
    case Decode(tokens, _) =>
      |tokens| == |e.rows| && Built(m.engine, ready, e).Ok?
      && forall i :: 0 <= i < |e.rows| ==> HonestDecodeRow(m, ready, kv, after, e, i)
  }

  /** A row's context after its answer. A verify that commits nothing is at the length cap: nothing follows. */
  function Advanced(context: Context, row: RowIn, tokens: seq<Token>): Option<Context> {
    if tokens == [] then None
    else Some(Context(row.table, context.length + |tokens|, StatesAfter(StateOf(context.states, row.count), row.c)))
  }

  /** After a read that failed: a recurrent state has advanced without its token and is lost, pages stay. */
  function Retained(model: Model, context: Context, row: RowIn): Option<Context> {
    if model.recurrent then None else Some(Context(row.table, context.length, []))
  }

  /** What a step leaves of a request's context. */
  ghost function ContextAfter(m: Setting, ready: State, kv: Contexts, step: Step, r: ReqId): Option<Context> {
    var e, i := step.e, RowOf(step.e.rows, r);
    if i >= |e.rows| || e.action.Idle? then ContextOf(kv, r)
    else
      match e.action
      case Prefill(_, _) =>
        var h, span := GetOr(ready.host.history, r, []), GetOr(step.spans, r, Span(0, 0));
        if span.end <= |h| then Some(Context(GetOr(e.tables, r, []), span.end, [h[..span.end]])) else None
      case Decode(tokens, answer) =>
        if r in kv && Built(m.engine, ready, e).Ok? && i < |tokens| then
          var row := RowOfDecode(m.engine, ready, e, i);
          if answer.Unread? then Retained(m.model, kv[r], row) else Advanced(kv[r], row, tokens[i])
        else None
  }

  function ContextOf(kv: Contexts, r: ReqId): Option<Context> {
    if r in kv then Some(kv[r]) else None
  }

  // ----- one row -----

  /** Columns that start at a history's last token and run over consecutive positions. */
  ghost predicate Follows(c: Columns, history: seq<Token>) {
    && history != [] && |c.tokens| == |c.positions| > 0 && c.tokens[0] == history[|history| - 1]
    && (forall j :: 0 <= j < |c.positions| ==> c.positions[j] == |history| - 1 + j)
    && |c.tokens| - 1 <= |c.drafts| && forall j :: 1 <= j < |c.tokens| ==> c.tokens[j] == c.drafts[j - 1]
  }

  lemma ColumnText(history: seq<Token>, c: Columns, j: nat)
    requires Follows(c, history) && j < |c.tokens|
    ensures var whole := history[..|history| - 1] + c.tokens;
            whole[..|history| + j] == history + c.tokens[1..j + 1] == history[..|history| - 1] + c.tokens[..j + 1]
  {
    assert history == history[..|history| - 1] + [c.tokens[0]];
    assert c.tokens[..j + 1] == [c.tokens[0]] + c.tokens[1..j + 1];
  }

  /** Over pages that hold the text and its columns, and from the state that holds all but the last token, the
      choices are the target's own. */
  lemma {:induction false} OwnChoice(m: Setting, r: ReqId, history: seq<Token>, memory: Memory, table: BlockTable, state: seq<Token>, c: Columns, j: nat)
    requires Follows(c, history) && |table| == m.groups && j < |c.tokens|
    requires Holds(m.size, memory, table, history[..|history| - 1] + c.tokens)
    requires m.model.recurrent ==> state == history[..|history| - 1]
    ensures var context := history + c.tokens[1..j + 1];
            Choice(m, r, memory, table, state, c, j) == Attending(m)(r, context, context)
  {
    var whole, context := history[..|history| - 1] + c.tokens, history + c.tokens[1..j + 1];
    ColumnText(history, c, j);
    HoldsPrefix(m.size, memory, table, whole, |history| + j);
    assert Attended(m.size, memory, table, |history| + j) == Everywhere(m.groups, context);
    assert Folded(m.model, state + c.tokens[..j + 1]) == Folded(m.model, context);
  }

  /** The pages and states a row needs to go on. */
  ghost predicate Ready(m: Setting, memory: Memory, c: Context, text: seq<Token>, count: nat) {
    && c.length < |text| && Paged(m.size, m.groups, c.table, c.length) && Holds(m.size, memory, c.table, text[..c.length])
    && (m.model.recurrent && c.length + 1 == |text| ==> StateOf(c.states, count) == text[..c.length])
  }

  /** The first `n` of an accepted prefix leave the row ready to go on at count `n`. */
  lemma {:induction false} AcceptedReady(m: Setting, history: seq<Token>, memory: Memory, table: BlockTable, state: seq<Token>, c: Columns,
                      ids: seq<Token>, n: nat)
    requires Follows(c, history) && 1 <= n <= |c.tokens| && n <= |ids| && forall j :: 0 <= j < n - 1 ==> ids[j] == c.tokens[j + 1]
    requires Paged(m.size, m.groups, table, |history| - 1 + |c.tokens|)
    requires Holds(m.size, memory, table, history[..|history| - 1] + c.tokens)
    requires m.model.recurrent ==> state == history[..|history| - 1]
    ensures Ready(m, memory, Context(table, |history| - 1 + n, StatesAfter(state, c)), history + ids[..n], n)
  {
    var whole, longer := history[..|history| - 1] + c.tokens, history + ids[..n];
    ColumnText(history, c, n - 1);
    assert ids[..n - 1] == c.tokens[1..n];
    assert longer[..|history| - 1 + n] == history + ids[..n - 1] == whole[..|history| - 1 + n];
    HoldsPrefix(m.size, memory, table, whole, |history| - 1 + n);
  }

  /** One row of an honest decode. */
  lemma {:induction false} HonestRowKeeps(m: Setting, r: ReqId, prompt: seq<Token>, history: seq<Token>, memory: Memory, table: BlockTable,
                       state: seq<Token>, c: Columns, verify: bool, tokens: seq<Token>)
    requires SpecLossless.Continues(Attending(m), r, prompt, history) && Follows(c, history)
    requires Paged(m.size, m.groups, table, |history| - 1 + |c.tokens|)
    requires Holds(m.size, memory, table, history[..|history| - 1] + c.tokens)
    requires m.model.recurrent ==> state == history[..|history| - 1]
    requires Answers(m.engine.launch, c, Choices(m, r, memory, table, state, c), verify, tokens)
    ensures SpecLossless.Continues(Attending(m), r, prompt, history + tokens)
    ensures tokens != [] ==>
              Ready(m, memory, Context(table, |history| - 1 + |tokens|, StatesAfter(state, c)), history + tokens, |tokens|)
    ensures !verify ==> |tokens| == 1
  {
    var choices := Choices(m, r, memory, table, state, c);
    forall j | 0 <= j < |c.tokens|
      ensures choices[j] == Attending(m)(r, history + c.tokens[1..j + 1], history + c.tokens[1..j + 1])
    {
      OwnChoice(m, r, history, memory, table, state, c, j);
    }
    if verify {
      var ids: seq<Token>, count: nat :| WalkedRow(m.engine.launch, c, choices, ids, count, tokens);
      PrefixKeeps(m, r, prompt, history, memory, table, state, c, choices, ids, count, tokens);
    } else {
      assert choices[..1] == tokens;
      PrefixKeeps(m, r, prompt, history, memory, table, state, c, choices, choices, 1, tokens);
    }
  }

  lemma {:induction false} PrefixKeeps(m: Setting, r: ReqId, prompt: seq<Token>, history: seq<Token>, memory: Memory, table: BlockTable,
                    state: seq<Token>, c: Columns, choices: seq<Token>, ids: seq<Token>, count: nat, tokens: seq<Token>)
    requires SpecLossless.Continues(Attending(m), r, prompt, history) && Follows(c, history)
    requires Paged(m.size, m.groups, table, |history| - 1 + |c.tokens|)
    requires Holds(m.size, memory, table, history[..|history| - 1] + c.tokens)
    requires m.model.recurrent ==> state == history[..|history| - 1]
    requires |choices| == |c.tokens| && choices <= ids && 1 <= count <= |c.tokens| && tokens <= ids[..count]
    requires forall j :: 0 <= j < |c.tokens| ==> choices[j] == Attending(m)(r, history + c.tokens[1..j + 1], history + c.tokens[1..j + 1])
    requires forall j :: 0 <= j < count - 1 ==> ids[j] == c.tokens[j + 1]
    ensures SpecLossless.Continues(Attending(m), r, prompt, history + tokens)
    ensures tokens != [] ==>
              Ready(m, memory, Context(table, |history| - 1 + |tokens|, StatesAfter(state, c)), history + tokens, |tokens|)
  {
    assert forall j :: 0 <= j < count ==> ids[j] == choices[j];
    SpecLossless.AcceptedContinues(Attending(m), r, prompt, history, c.tokens, ids, count);
    assert tokens == ids[..|tokens|];
    if tokens != [] { AcceptedReady(m, history, memory, table, state, c, ids, |tokens|); }
  }

  // ----- the columns and the count of a built row -----

  /** What a decode's columns are, given that it reads the current history. */
  lemma {:induction false} BuiltFollows(engine: Engine, ready: State, e: Event, i: nat)
    requires QueueOk(ready.queue) && Built(engine, ready, e).Ok? && Agrees(ready, Consumed(engine, ready, e)) && i < |ready.rows|
    requires Current(ready, ready.rows[i]) != []
    ensures var c := ColumnsOf(Consumed(engine, ready, e), Built(engine, ready, e).value.1, i);
            Follows(c, Current(ready, ready.rows[i]))
  {
    var input := Built(engine, ready, e).value.1;
    if input.rows.verify {
      VerifyBuiltFollows(engine, ready, e, i, Consumed(engine, ready, e), input, Current(ready, ready.rows[i]));
    } else {
      PlainFollows(Consumed(engine, ready, e), input, i, Current(ready, ready.rows[i]));
    }
  }

  lemma {:induction false} PlainFollows(consumed: Device, input: Input, i: nat, history: seq<Token>)
    requires history != [] && !input.rows.verify && i < |consumed.tokens| && i < |consumed.positions|
    requires consumed.tokens[i] == history[|history| - 1] && consumed.positions[i] == |history| - 1
    ensures Follows(ColumnsOf(consumed, input, i), history)
  {
  }

  lemma {:induction false} VerifyBuiltFollows(engine: Engine, ready: State, e: Event, i: nat, consumed: Device, input: Input, history: seq<Token>)
    requires Built(engine, ready, e).Ok? && input == Built(engine, ready, e).value.1 && input.rows.verify && i < |ready.rows|
    requires consumed == Loaded(ready.device, input, Plan(engine, ready.chain, input)) && history != []
    requires i < |consumed.tokens| && i < |consumed.positions|
    requires consumed.tokens[i] == history[|history| - 1] && consumed.positions[i] == |history| - 1
    ensures Follows(ColumnsOf(consumed, input, i), history)
  {
    BuiltVerifyRow(engine, ready.host, e.out, ready.rows, ready.tables, ready.layoutChanged, i);
    assert consumed.positions[i] == input.rows.positions[i][0];
    VerifyFollows(engine.launch, consumed, input, i, HostTokens(ready.host, ready.rows)[i], HostPositions(ready.host, ready.rows)[i],
                  history);
  }

  lemma {:induction false} VerifyFollows(launch: Launch, consumed: Device, input: Input, i: nat, token: Token, position: int, history: seq<Token>)
    requires history != [] && input.rows.verify && i < |consumed.tokens| && i < |consumed.positions|
    requires var b := input.rows; i < |b.tokens| && i < |b.positions| && i < |b.drafts| && i < |b.numValid|
    requires Carrying(launch, input.rows, i, token, position)
    requires consumed.tokens[i] == history[|history| - 1] && consumed.positions[i] == |history| - 1 == position
    ensures Follows(ColumnsOf(consumed, input, i), history)
  {
    var n, c := input.rows.numValid[i] + 1, ColumnsOf(consumed, input, i);
    forall j | 1 <= j < n
      ensures c.tokens[j] == input.rows.tokens[i][j] == c.drafts[j - 1] && c.positions[j] == input.rows.positions[i][j] == position + j {}
  }

  /** The count a built decode sends for its row `i`. */
  lemma SentCount(engine: Engine, ready: State, e: Event, i: nat)
    requires Built(engine, ready, e).Ok? && SpecLossless.CountsSet(engine.launch, ready.host.counts)
    requires i < |ready.rows| && ready.rows[i] in ready.host.history
    ensures SpecRuns.RowCountSent(Built(engine, ready, e).value.1.rows, i) == GetOr(ready.host.counts, ready.rows[i], 1)
  {
    SpecLossless.BuiltRow(engine.launch, ready.host, DecodeStep(engine, e.out, ready.rows), HostTokens(ready.host, ready.rows),
                          HostPositions(ready.host, ready.rows), i);
  }

  // ----- whose pages are whose -----

  function WriteEnd(w: Write): nat {
    if w.positions == [] || w.positions[|w.positions| - 1] < 0 then 0 else w.positions[|w.positions| - 1] + 1
  }

  /** In one step nobody else writes to the pages of `r`, its own table is there for everything it writes, and
      extends the one its text is in. */
  ghost predicate Sheltered(m: Setting, writes: seq<Write>, rows: seq<ReqId>, kv: Contexts, r: ReqId) {
    var i := RowOf(rows, r);
    if i < |writes| then
      && (forall k :: 0 <= k < |writes| && k != i ==> KeepsOut(m.size, writes[k], writes[i].table))
      && Paged(m.size, m.groups, writes[i].table, WriteEnd(writes[i]))
      && (r in kv ==> Extends(kv[r].table, writes[i].table))
    else r in kv ==> forall k :: 0 <= k < |writes| ==> KeepsOut(m.size, writes[k], kv[r].table)
  }

  // ----- one step -----

  /** One request: its text is the target's, and its context, where it has one, is ready to go on. */
  ghost predicate Faithful(m: Setting, memory: Memory, r: ReqId, l: Option<Ledger>, context: Option<Context>, count: nat) {
    && (context.Some? ==> l.Some?)
    && (l.Some? ==>
          && l.value.settled != [] && SpecLossless.Continues(Attending(m), r, l.value.settled, l.value.History())
          && (context.Some? ==> Ready(m, memory, context.value, l.value.History(), count)))
  }

  lemma ContinuesShorter(m: Setting, r: ReqId, prompt: seq<Token>, history: seq<Token>, k: nat)
    requires SpecLossless.Continues(Attending(m), r, prompt, history) && |prompt| <= k <= |history|
    ensures SpecLossless.Continues(Attending(m), r, prompt, history[..k])
  {
    var shorter := history[..k];
    assert shorter[..|prompt|] == history[..|prompt|];
    assert forall i :: 0 <= i < k ==> shorter[i] == history[i] && shorter[..i] == history[..i];
  }

  /** Taking results back leaves a shorter text of the same target. */
  lemma WithoutContinues(m: Setting, r: ReqId, l: Ledger, d: nat)
    requires SpecLossless.Continues(Attending(m), r, l.settled, l.History())
    ensures SpecLossless.Continues(Attending(m), r, l.settled, l.Without(d).History())
  {
    var n := Max(0, |l.results| - d);
    assert l.results == l.results[..n] + l.results[n..];
    FlattenAppend(l.results[..n], l.results[n..]);
    Regroup(l.settled, Flatten(l.results[..n]), Flatten(l.results[n..]));
    var shorter := l.Without(d).History();
    assert l.History()[..|shorter|] == shorter;
    ContinuesShorter(m, r, l.settled, l.History(), |shorter|);
  }

  lemma WithHistory(l: Ledger, tokens: seq<Token>)
    ensures l.With(tokens).History() == l.History() + tokens && l.With(tokens).settled == l.settled
  {
    if tokens == [] {
      assert l.History() + [] == l.History();
    } else {
      FlattenAppend(l.results, [tokens]);
      FlattenOne(tokens);
      Regroup(l.settled, Flatten(l.results), tokens);
    }
  }

  /** What the environment does to contexts before a step: preemption frees pages, and a request with a result
      taken back was preempted. */
  function Remaining(kv: Contexts, step: Step): Contexts {
    map r | r in kv && r !in step.freed && r !in step.e.out.finished && r !in step.e.arrivals :: kv[r]
  }

  lemma AnnouncedFaithful(m: Setting, memory: Memory, r: ReqId, l: Option<Ledger>, kv: Contexts, step: Step, count: nat)
    requires Faithful(m, memory, r, l, ContextOf(kv, r), count) && step.e.out.discards.Keys <= step.freed
    requires r in step.e.arrivals ==> step.e.arrivals[r] != []
    ensures Faithful(m, memory, r, Announced(l, step.e, r), ContextOf(Remaining(kv, step), r), count)
  {
    var was := Listed(l, step.e, r);
    if was.Some? {
      var d := GetOr(step.e.out.discards, r, 0);
      if r in step.e.arrivals {
        var first := Ledger(step.e.arrivals[r], []);
        assert first.History() == first.settled;
        assert first.settled[..|first.settled|] == first.settled;
      }
      WithoutContinues(m, r, was.value, d);
      if r in Remaining(kv, step) { WithoutNone(was.value); }
    }
  }

  /** Pages nobody writes to keep a request ready. */
  lemma {:induction false} UntouchedReady(m: Setting, before: Memory, after: Memory, writes: seq<Write>, c: Context, text: seq<Token>, count: nat)
    requires Stored(m.size, before, after, writes) && Ready(m, before, c, text, count)
    requires forall k :: 0 <= k < |writes| ==> KeepsOut(m.size, writes[k], c.table)
    ensures Ready(m, after, c, text, count)
  {
    UntouchedHolds(m.size, before, after, writes, m.groups, c.table, text[..c.length]);
  }

  /** A sheltered row whose text is computed up to its last token writes its columns behind it. */
  lemma {:induction false} ColumnsStored(m: Setting, before: Memory, after: Memory, writes: seq<Write>, rows: seq<ReqId>, kv: Contexts, i: nat,
                      history: seq<Token>, c: Columns, count: nat)
    requires Stored(m.size, before, after, writes) && i < |writes| == |rows| && RowOf(rows, rows[i]) == i
    requires Sheltered(m, writes, rows, kv, rows[i]) && Follows(c, history)
    requires writes[i].tokens == c.tokens && writes[i].positions == c.positions
    requires rows[i] in kv && kv[rows[i]].length + 1 == |history| && Ready(m, before, kv[rows[i]], history, count)
    ensures Paged(m.size, m.groups, writes[i].table, |history| - 1 + |c.tokens|)
    ensures Holds(m.size, after, writes[i].table, history[..|history| - 1] + c.tokens)
  {
    var text := history[..|history| - 1];
    assert WriteEnd(writes[i]) == |history| - 1 + |c.tokens|;
    ExtendedHolds(m.size, before, m.groups, kv[rows[i]].table, writes[i].table, text);
    ContinuedHolds(m.size, before, after, writes, m.groups, i, text);
  }

  /** Row `i` of a step that writes `writes`, decoding behind the text `history`. */
  ghost predicate Decodable(m: Setting, before: Memory, after: Memory, writes: seq<Write>, rows: seq<ReqId>, kv: Contexts, i: nat,
                            history: seq<Token>, row: RowIn)
  {
    && Stored(m.size, before, after, writes) && i < |writes| == |rows| && RowOf(rows, rows[i]) == i
    && Sheltered(m, writes, rows, kv, rows[i]) && writes[i] == row.Stores()
    && Follows(row.c, history)
    && rows[i] in kv && kv[rows[i]].length + 1 == |history| && Ready(m, before, kv[rows[i]], history, row.count)
  }

  lemma {:induction false} AnsweredRow(m: Setting, before: Memory, after: Memory, writes: seq<Write>, rows: seq<ReqId>, kv: Contexts,
                                       i: nat, prompt: seq<Token>, history: seq<Token>, row: RowIn, tokens: seq<Token>)
    requires Decodable(m, before, after, writes, rows, kv, i, history, row)
    requires HonestRow(m, rows[i], kv[rows[i]], after, row, tokens)
    requires SpecLossless.Continues(Attending(m), rows[i], prompt, history)
    ensures Going(m, after, rows[i], prompt, history + tokens, Advanced(kv[rows[i]], row, tokens), |tokens|)
    ensures !row.verify ==> |tokens| == 1
  {
    ColumnsStored(m, before, after, writes, rows, kv, i, history, row.c, row.count);
    StoredRow(m, after, rows[i], kv[rows[i]], prompt, history, row, tokens);
  }

  /** A text of the target's and, where it has one, a context that is ready to go on. */
  ghost predicate Going(m: Setting, memory: Memory, r: ReqId, prompt: seq<Token>, text: seq<Token>, context: Option<Context>, count: nat) {
    && SpecLossless.Continues(Attending(m), r, prompt, text)
    && (context.Some? ==> Ready(m, memory, context.value, text, count))
  }

  lemma {:induction false} StoredRow(m: Setting, memory: Memory, r: ReqId, context: Context, prompt: seq<Token>, history: seq<Token>,
                                     row: RowIn, tokens: seq<Token>)
    requires context.length + 1 == |history| && Follows(row.c, history) && HonestRow(m, r, context, memory, row, tokens)
    requires m.model.recurrent ==> StateOf(context.states, row.count) == history[..|history| - 1]
    requires Paged(m.size, m.groups, row.table, |history| - 1 + |row.c.tokens|)
    requires Holds(m.size, memory, row.table, history[..|history| - 1] + row.c.tokens)
    requires SpecLossless.Continues(Attending(m), r, prompt, history)
    ensures Going(m, memory, r, prompt, history + tokens, Advanced(context, row, tokens), |tokens|)
    ensures !row.verify ==> |tokens| == 1
  {
    HonestRowKeeps(m, r, prompt, history, memory, row.table, StateOf(context.states, row.count), row.c, row.verify, tokens);
    assert context.length == |history| - 1;
  }

  lemma {:induction false} UnreadRow(m: Setting, before: Memory, after: Memory, writes: seq<Write>, rows: seq<ReqId>, kv: Contexts,
                                     i: nat, history: seq<Token>, row: RowIn, count: nat)
    requires Decodable(m, before, after, writes, rows, kv, i, history, row)
    ensures var context := Retained(m.model, kv[rows[i]], row);
            context.Some? ==> Ready(m, after, context.value, history, count)
  {
    ColumnsStored(m, before, after, writes, rows, kv, i, history, row.c, row.count);
    var whole := history[..|history| - 1] + row.c.tokens;
    HoldsPrefix(m.size, after, row.table, whole, |history| - 1);
    assert whole[..|history| - 1] == history[..|history| - 1];
  }

  lemma {:induction false} PrefilledRow(m: Setting, ready: State, kv: Contexts, before: Memory, after: Memory, step: Step, i: nat, prompt: seq<Token>,
                     count: nat)
    requires step.e.action.Prefill? && i < |step.e.rows| && |step.e.action.tokens| == |step.e.rows|
    requires HonestPrefillRow(m, ready, kv, before, after, step, i) && RowOf(step.e.rows, step.e.rows[i]) == i
    requires Stored(m.size, before, after, StepWrites(m, ready, step))
    requires Sheltered(m, StepWrites(m, ready, step), step.e.rows, kv, step.e.rows[i])
    requires step.e.rows[i] in kv ==> Ready(m, before, kv[step.e.rows[i]], ready.host.history[step.e.rows[i]], count)
    requires SpecLossless.Continues(Attending(m), step.e.rows[i], prompt, ready.host.history[step.e.rows[i]])
    ensures var r, context, tokens := step.e.rows[i], ContextAfter(m, ready, kv, step, step.e.rows[i]), step.e.action.tokens[i];
            && SpecLossless.Continues(Attending(m), r, prompt, ready.host.history[r] + tokens)
            && context.Some? && Ready(m, after, context.value, ready.host.history[r] + tokens, 1)
  {
    var r, e := step.e.rows[i], step.e;
    var h, span, table, writes := ready.host.history[r], step.spans[r], GetOr(e.tables, r, []), StepWrites(m, ready, step);
    var w := PrefillWrite(ready, step, r);
    assert writes[i] == w && WriteEnd(w) == span.end;
    ComputedHolds(m, kv, before, r, h, span.start, table, count);
    ContinuedHolds(m.size, before, after, writes, m.groups, i, h[..span.start]);
    assert h[..span.start] + h[span.start..span.end] == h[..span.end];
    if span.end < |h| {
      assert h + [] == h;
    } else {
      assert h[..span.end] == h;
      HoldsPrefix(m.size, after, table, h, |h|);
      SpecLossless.ContinuesByOne(Attending(m), r, prompt, h, Attending(m)(r, h, h));
      assert (h + e.action.tokens[i])[..|h|] == h;
    }
  }

  lemma ComputedHolds(m: Setting, kv: Contexts, memory: Memory, r: ReqId, h: seq<Token>, start: nat, table: BlockTable, count: nat)
    requires start <= |h| && (r in kv ==> Ready(m, memory, kv[r], h, count) && Extends(kv[r].table, table))
    requires (r in kv && start <= kv[r].length) || Holds(m.size, memory, table, h[..start])
    ensures Holds(m.size, memory, table, h[..start])
  {
    if r in kv && start <= kv[r].length {
      ExtendedHolds(m.size, memory, m.groups, kv[r].table, table, h[..kv[r].length]);
      HoldsPrefix(m.size, memory, table, h[..kv[r].length], start);
      assert h[..kv[r].length][..start] == h[..start];
    }
  }

  lemma FaithfulText(m: Setting, memory: Memory, r: ReqId, l: Ledger, tokens: seq<Token>, context: Option<Context>, count: nat)
    requires l.settled != [] && Going(m, memory, r, l.settled, l.History() + tokens, context, count)
    ensures Faithful(m, memory, r, Some(l.With(tokens)), context, count)
  {
    WithHistory(l, tokens);
  }

  /** A request the step does not run. */
  lemma {:induction false} OtherFaithful(m: Setting, before: Memory, after: Memory, writes: seq<Write>, rows: seq<ReqId>, kv: Contexts,
                                         r: ReqId, l: Option<Ledger>, count: nat)
    requires Faithful(m, before, r, l, ContextOf(kv, r), count) && Stored(m.size, before, after, writes)
    requires RowOf(rows, r) >= |writes| && Sheltered(m, writes, rows, kv, r)
    ensures Faithful(m, after, r, l, ContextOf(kv, r), count)
  {
    if r in kv { UntouchedReady(m, before, after, writes, kv[r], l.value.History(), count); }
  }

  lemma {:induction false} DecodeRowFaithful(m: Setting, ready: State, kv: Contexts, before: Memory, after: Memory, step: Step, i: nat,
                                             l: Ledger, count: nat, next: nat)
    requires Inv(m.engine, ready) && ready.rows == step.e.rows && SpecLossless.CountsSet(m.engine.launch, ready.host.counts)
    requires step.e.action.Decode? && Honest(m, ready, kv, before, after, step) && Agrees(ready, Consumed(m.engine, ready, step.e))
    requires Stored(m.size, before, after, StepWrites(m, ready, step)) && i < |step.e.rows| && RowOf(step.e.rows, step.e.rows[i]) == i
    requires Sheltered(m, StepWrites(m, ready, step), step.e.rows, kv, step.e.rows[i])
    requires step.e.rows[i] in ready.host.history && Current(ready, step.e.rows[i]) == l.History()
    requires Faithful(m, before, step.e.rows[i], Some(l), ContextOf(kv, step.e.rows[i]), count)
    requires count == GetOr(ready.host.counts, step.e.rows[i], 1)
    requires !step.e.action.answer.Unread? && step.e.action.tokens[i] != [] ==> next == |step.e.action.tokens[i]|
    ensures Faithful(m, after, step.e.rows[i], Some(l.With(AnsweredFor(step.e, step.e.rows[i]))),
                     ContextAfter(m, ready, kv, step, step.e.rows[i]), next)
  {
    var e, r, writes, row := step.e, step.e.rows[i], StepWrites(m, ready, step), RowOfDecode(m.engine, ready, step.e, i);
    assert HonestDecodeRow(m, ready, kv, after, e, i);
    SentCount(m.engine, ready, e, i);
    BuiltFollows(m.engine, ready, e, i);
    assert writes[i] == row.Stores();
    assert Decodable(m, before, after, writes, e.rows, kv, i, l.History(), row);
    if e.action.answer.Unread? {
      UnreadRow(m, before, after, writes, e.rows, kv, i, l.History(), row, next);
      assert l.History() + [] == l.History();
    } else {
      AnsweredRow(m, before, after, writes, e.rows, kv, i, l.settled, l.History(), row, e.action.tokens[i]);
    }
    FaithfulText(m, after, r, l, AnsweredFor(e, r), ContextAfter(m, ready, kv, step, r), next);
  }

  lemma {:induction false} PrefillRowFaithful(m: Setting, ready: State, kv: Contexts, before: Memory, after: Memory, step: Step, i: nat,
                                              l: Ledger, count: nat)
    requires ready.queue.resolved <= |ready.queue.pending|
    requires step.e.action.Prefill? && Honest(m, ready, kv, before, after, step)
    requires Stored(m.size, before, after, StepWrites(m, ready, step)) && i < |step.e.rows| && RowOf(step.e.rows, step.e.rows[i]) == i
    requires Sheltered(m, StepWrites(m, ready, step), step.e.rows, kv, step.e.rows[i])
    requires step.e.rows[i] in ready.host.history && ready.host.history[step.e.rows[i]] == l.History()
    requires Faithful(m, before, step.e.rows[i], Some(l), ContextOf(kv, step.e.rows[i]), count)
    ensures Faithful(m, after, step.e.rows[i], Some(l.With(AnsweredFor(step.e, step.e.rows[i]))),
                     ContextAfter(m, ready, kv, step, step.e.rows[i]), 1)
  {
    var e, r := step.e, step.e.rows[i];
    assert HonestPrefillRow(m, ready, kv, before, after, step, i);
    PrefilledRow(m, ready, kv, before, after, step, i, l.settled, count);
    FaithfulText(m, after, r, l, AnsweredFor(e, r), ContextAfter(m, ready, kv, step, r), 1);
  }

  // ----- one step of a run -----

  /** What the environment promises for a step: who loses results was preempted, who keeps its context keeps its
      row or its state slot, and the device answers and stores honestly. */
  ghost predicate HonestStep(m: Setting, s: State, kv: Contexts, before: Memory, after: Memory, step: Step) {
    && s.queue.resolved <= |s.queue.pending| == |s.queue.overlapOk|
    && step.e.out.discards.Keys <= step.freed && Remaining(kv, step).Keys <= Members(step.e.rows) + step.e.slots
    && var ready := Prepared(m.engine, s, step.e);
       && ready.queue.resolved <= |ready.queue.pending|
       && Honest(m, ready, Remaining(kv, step), before, after, step)
       && Stored(m.size, before, after, StepWrites(m, ready, step))
  }

  ghost function ContextsAfter(m: Setting, s: State, kv: Contexts, step: Step): Contexts
    requires s.queue.resolved <= |s.queue.pending| == |s.queue.overlapOk|
  {
    var ready, left := Prepared(m.engine, s, step.e), Remaining(kv, step);
    map r | r in left.Keys + Members(step.e.rows) && ContextAfter(m, ready, left, step, r).Some? ::
      ContextAfter(m, ready, left, step, r).value
  }

  ghost predicate ShelteredIn(m: Setting, s: State, kv: Contexts, step: Step, r: ReqId)
    requires s.queue.resolved <= |s.queue.pending| == |s.queue.overlapOk|
  {
    Sheltered(m, StepWrites(m, Prepared(m.engine, s, step.e), step), step.e.rows, Remaining(kv, step), r)
  }

  lemma AfterContext(m: Setting, s: State, kv: Contexts, step: Step, r: ReqId)
    requires s.queue.resolved <= |s.queue.pending| == |s.queue.overlapOk|
    ensures ContextOf(ContextsAfter(m, s, kv, step), r) == ContextAfter(m, Prepared(m.engine, s, step.e), Remaining(kv, step), step, r)
  {
  }

  /** Text, pages, state and count before a step. */
  ghost predicate Sound(m: Setting, s: State, kv: Contexts, memory: Memory, r: ReqId, l: Option<Ledger>) {
    && Inv(m.engine, s) && Marked(s.queue) && CountsOk(m.engine, s) && Known(s, r, l)
    && Faithful(m, memory, r, l, ContextOf(kv, r), NextCount(s, r))
  }

  /** The same once the step is prepared, and what its build can rely on. */
  ghost predicate Poised(m: Setting, ready: State, e: Event, kv: Contexts, memory: Memory, r: ReqId, l: Option<Ledger>) {
    && Base(m.engine, ready) && CountsOk(m.engine, ready) && ready.rows == e.rows && Known(ready, r, l)
    && (forall f :: f in ready.queue.Unapplied() ==> !f.verified)
    && Faithful(m, memory, r, l, ContextOf(kv, r), NextCount(ready, r))
    && (r in kv ==> NextCount(ready, r) == GetOr(ready.host.counts, r, 1))
  }

  lemma NoContext(m: Setting, memory: Memory, r: ReqId, l: Option<Ledger>, count: nat, other: nat)
    requires Faithful(m, memory, r, l, None, count)
    ensures Faithful(m, memory, r, l, None, other)
  {
  }

  lemma {:induction false} SoundIsPoised(m: Setting, s: State, kv: Contexts, memory: Memory, step: Step, r: ReqId, l: Option<Ledger>)
    requires Sound(m, s, kv, memory, r, l) && Legal(m.engine, s, step.e) && Fits(m.engine, s, step.e)
    requires step.e.out.discards.Keys <= step.freed && Remaining(kv, step).Keys <= Members(step.e.rows) + step.e.slots
    ensures Poised(m, Prepared(m.engine, s, step.e), step.e, Remaining(kv, step), memory, r, Announced(l, step.e, r))
  {
    var e, left, ready := step.e, Remaining(kv, step), Prepared(m.engine, s, step.e);
    AnnouncedFaithful(m, memory, r, l, kv, step, NextCount(s, r));
    ReadyBase(m.engine, s, e);
    PreparedKnown(m.engine, s, e, r, l);
    PreparedSet(m.engine, s, e);
    ReadyIsPlain(m.engine, s, e);
    if r in left {
      assert r !in e.out.discards;
      PreparedCount(m.engine, s, e, r);
    } else {
      NoContext(m, memory, r, Announced(l, e, r), NextCount(s, r), NextCount(ready, r));
    }
  }

  lemma {:induction false} IdleFaithful(m: Setting, ready: State, kv: Contexts, before: Memory, after: Memory, step: Step, r: ReqId,
                                        l: Option<Ledger>)
    requires Poised(m, ready, step.e, kv, before, r, l) && step.e.action.Idle? && Stored(m.size, before, after, StepWrites(m, ready, step))
    ensures Faithful(m, after, r, Answered(l, step.e, r), ContextAfter(m, ready, kv, step, r), NextCount(ready, r))
  {
    OtherFaithful(m, before, after, StepWrites(m, ready, step), step.e.rows, kv, r, l, NextCount(ready, r));
  }

  function Answered(l: Option<Ledger>, e: Event, r: ReqId): Option<Ledger> {
    match l case None => None case Some(was) => Some(was.With(AnsweredFor(e, r)))
  }

  lemma {:induction false} DecodeFaithful(m: Setting, ready: State, kv: Contexts, before: Memory, after: Memory, step: Step, r: ReqId,
                                          l: Option<Ledger>)
    requires Poised(m, ready, step.e, kv, before, r, l) && Inv(m.engine, ready) && Distinct(step.e.rows)
    requires step.e.action.Decode? && Honest(m, ready, kv, before, after, step) && Agrees(ready, Consumed(m.engine, ready, step.e))
    requires Stored(m.size, before, after, StepWrites(m, ready, step)) && Sheltered(m, StepWrites(m, ready, step), step.e.rows, kv, r)
    requires !Built(m.engine, ready, step.e).value.1.rows.verify ==> forall i :: 0 <= i < |step.e.rows| ==> |step.e.action.tokens[i]| == 1
    ensures var next := Acted(m.engine, ready, step.e);
            && next.queue.resolved <= |next.queue.pending|
            && Faithful(m, after, r, Answered(l, step.e, r), ContextAfter(m, ready, kv, step, r), NextCount(next, r))
  {
    var e, next := step.e, Acted(m.engine, ready, step.e);
    DecodedQueue(m.engine, ready, e);
    if r in e.rows {
      DecodeRowsFaithful(m, ready, kv, before, after, step, r, l, NextCount(next, r));
    } else if l.Some? {
      DecodedCount(m.engine, ready, e, r);
      OtherFaithful(m, before, after, StepWrites(m, ready, step), e.rows, kv, r, l, NextCount(ready, r));
    }
  }

  lemma {:induction false} DecodeRowsFaithful(m: Setting, ready: State, kv: Contexts, before: Memory, after: Memory, step: Step, r: ReqId,
                                              l: Option<Ledger>, count: nat)
    requires Poised(m, ready, step.e, kv, before, r, l) && Inv(m.engine, ready) && Distinct(step.e.rows) && r in step.e.rows
    requires step.e.action.Decode? && Honest(m, ready, kv, before, after, step) && Agrees(ready, Consumed(m.engine, ready, step.e))
    requires Stored(m.size, before, after, StepWrites(m, ready, step)) && Sheltered(m, StepWrites(m, ready, step), step.e.rows, kv, r)
    requires !Built(m.engine, ready, step.e).value.1.rows.verify ==> forall i :: 0 <= i < |step.e.rows| ==> |step.e.action.tokens[i]| == 1
    requires var next := Acted(m.engine, ready, step.e); next.queue.resolved <= |next.queue.pending| && count == NextCount(next, r)
    ensures Faithful(m, after, r, Answered(l, step.e, r), ContextAfter(m, ready, kv, step, r), count)
  {
    var i := RowOf(step.e.rows, r);
    assert r in Members(step.e.rows);
    TracksCurrent(ready, r, l.value);
    DecodedCountIs(m.engine, ready, step.e, i, count);
    DecodeRowFaithful(m, ready, kv, before, after, step, i, l.value, GetOr(ready.host.counts, r, 1), count);
  }

  /** The count after an answered decode is the length of the row's answer. */
  lemma {:induction false} DecodedCountIs(engine: Engine, ready: State, e: Event, i: nat, count: nat)
    requires Base(engine, ready) && CountsOk(engine, ready) && ready.rows == e.rows && e.action.Decode? && Built(engine, ready, e).Ok?
    requires (forall f :: f in ready.queue.Unapplied() ==> !f.verified) && i < |e.rows| && |e.action.tokens| == |e.rows|
    requires RowOf(e.rows, e.rows[i]) == i
    requires !Built(engine, ready, e).value.1.rows.verify ==> forall k :: 0 <= k < |e.rows| ==> |e.action.tokens[k]| == 1
    requires var next := Acted(engine, ready, e); next.queue.resolved <= |next.queue.pending| && count == NextCount(next, e.rows[i])
    ensures !e.action.answer.Unread? && e.action.tokens[i] != [] ==> count == |e.action.tokens[i]|
  {
    assert e.rows[i] in Members(e.rows);
    DecodedCount(engine, ready, e, e.rows[i]);
  }

  lemma DecodedQueue(engine: Engine, ready: State, e: Event)
    requires QueueOk(ready.queue) && e.action.Decode?
    ensures var next := Acted(engine, ready, e); next.queue.resolved <= |next.queue.pending|
  {
  }

  lemma {:induction false} PrefillFaithful(m: Setting, ready: State, kv: Contexts, before: Memory, after: Memory, step: Step, r: ReqId,
                                           l: Option<Ledger>)
    requires Poised(m, ready, step.e, kv, before, r, l) && Distinct(step.e.rows) && ready.queue.Unapplied() == []
    requires step.e.action.Prefill? && Honest(m, ready, kv, before, after, step)
    requires Stored(m.size, before, after, StepWrites(m, ready, step)) && Sheltered(m, StepWrites(m, ready, step), step.e.rows, kv, r)
    ensures var next := Acted(m.engine, ready, step.e);
            && next.queue.resolved <= |next.queue.pending|
            && Faithful(m, after, r, Answered(l, step.e, r), ContextAfter(m, ready, kv, step, r), NextCount(next, r))
  {
    var e, i, next := step.e, RowOf(step.e.rows, r), Acted(m.engine, ready, step.e);
    if l.None? {
      assert r !in e.rows by { assert Members(e.rows) <= ready.host.history.Keys; }
    } else {
      PrefilledCount(m.engine, ready, e.action.tokens, e.action.left, r);
      if i < |e.rows| {
        TracksCurrent(ready, r, l.value);
        assert Current(ready, r) == ready.host.history[r];
        PrefillRowFaithful(m, ready, kv, before, after, step, i, l.value, NextCount(ready, r));
      } else {
        OtherFaithful(m, before, after, StepWrites(m, ready, step), e.rows, kv, r, l, NextCount(ready, r));
      }
    }
  }

  lemma {:induction false} StepFaithful(m: Setting, s: State, kv: Contexts, before: Memory, after: Memory, step: Step, r: ReqId,
                                        l: Option<Ledger>)
    requires Sound(m, s, kv, before, r, l) && Legal(m.engine, s, step.e) && Fits(m.engine, s, step.e)
    requires HonestStep(m, s, kv, before, after, step) && ShelteredIn(m, s, kv, step, r)
    ensures Sound(m, AsyncRuns.Next(m.engine, s, step.e), ContextsAfter(m, s, kv, step), after, r, Waited(l, step.e, r))
  {
    var e, left, ready := step.e, Remaining(kv, step), Prepared(m.engine, s, step.e);
    SoundIsPoised(m, s, kv, before, step, r, l);
    StepKeeps(m.engine, s, e);
    NextCountsOk(m.engine, s, e);
    NextKnown(m.engine, s, e, r, l);
    AfterContext(m, s, kv, step, r);
    match e.action
    case Idle => IdleFaithful(m, ready, left, before, after, step, r, Announced(l, e, r));
    case Prefill(_, _) =>
      PrefillSeesEverything(m.engine, s, e);
      PrefillFaithful(m, ready, left, before, after, step, r, Announced(l, e, r));
    case Decode(_, _) =>
      DecodeConsumesCurrent(m.engine, s, e);
      DecodeFaithful(m, ready, left, before, after, step, r, Announced(l, e, r));
  }

  // ----- runs -----

  /** The device between two steps. */
  datatype World = World(memory: Memory, contexts: Contexts)

  /** Step `n` of a run answers and stores honestly, from world `n` to the next. */
  ghost predicate HonestAt(m: Setting, device: Device, steps: seq<Step>, worlds: seq<World>, n: nat) {
    && n < |steps| && n + 1 < |worlds| && Run(m.engine, device, Events(steps[..n])).Some?
    && var s, w, next := Run(m.engine, device, Events(steps[..n])).value, worlds[n], worlds[n + 1];
       HonestStep(m, s, w.contexts, w.memory, next.memory, steps[n]) && next.contexts == ContextsAfter(m, s, w.contexts, steps[n])
  }

  /** A run whose device is honest in every step, with the device before and after each. */
  ghost predicate HonestRun(m: Setting, device: Device, steps: seq<Step>, worlds: seq<World>) {
    && Run(m.engine, device, Events(steps)).Some? && |worlds| == |steps| + 1 && worlds[0].contexts == map[]
    && forall n :: 0 <= n < |steps| ==> HonestAt(m, device, steps, worlds, n)
  }

  /** Nobody else writes to the pages of `r` while it holds them. */
  ghost predicate ShelteredAt(m: Setting, device: Device, steps: seq<Step>, worlds: seq<World>, r: ReqId, n: nat)
    requires HonestRun(m, device, steps, worlds) && n < |steps|
  {
    assert HonestAt(m, device, steps, worlds, n);
    ShelteredIn(m, Run(m.engine, device, Events(steps[..n])).value, worlds[n].contexts, steps[n], r)
  }

  ghost predicate ShelteredRun(m: Setting, device: Device, steps: seq<Step>, worlds: seq<World>, r: ReqId)
    requires HonestRun(m, device, steps, worlds)
  {
    forall n :: 0 <= n < |steps| ==> ShelteredAt(m, device, steps, worlds, r, n)
  }

  lemma EventsBut(steps: seq<Step>, n: nat)
    requires n <= |steps|
    ensures n == 0 ==> Events(steps[..n]) == []
    ensures n > 0 ==> Events(steps[..n]) == Events(steps[..n - 1]) + [steps[n - 1].e]
  {
  }

  /** The run ends in a sound state. */
  ghost predicate EndsSound(m: Setting, device: Device, events: seq<Event>, w: World, r: ReqId) {
    exists s :: Run(m.engine, device, events) == Some(s) && Sound(m, s, w.contexts, w.memory, r, WaitingRun(events, r))
  }

  lemma {:induction false} StepOfRun(m: Setting, device: Device, before: seq<Event>, events: seq<Event>, w: World, next: World,
                                     step: Step, r: ReqId)
    requires events == before + [step.e] && Run(m.engine, device, events).Some? && EndsSound(m, device, before, w, r)
    requires HonestStep(m, Run(m.engine, device, before).value, w.contexts, w.memory, next.memory, step)
    requires ShelteredIn(m, Run(m.engine, device, before).value, w.contexts, step, r)
    requires next.contexts == ContextsAfter(m, Run(m.engine, device, before).value, w.contexts, step)
    ensures EndsSound(m, device, events, next, r)
  {
    var s :| Run(m.engine, device, before) == Some(s) && Sound(m, s, w.contexts, w.memory, r, WaitingRun(before, r));
    LastStep(m.engine, device, before, step.e);
    assert events[..|before|] == before;
    StepFaithful(m, s, w.contexts, w.memory, next.memory, step, r, WaitingRun(before, r));
  }

  lemma ColdSound(m: Setting, device: Device, events: seq<Event>, w: World, r: ReqId)
    requires events == [] && w.contexts == map[]
    ensures EndsSound(m, device, events, w, r)
  {
    ColdInv(m.engine, device);
    assert Run(m.engine, device, events) == Some(Cold(device));
  }

  lemma PrefixRuns(m: Setting, device: Device, steps: seq<Step>, worlds: seq<World>, n: nat, events: seq<Event>)
    requires HonestRun(m, device, steps, worlds) && n <= |steps| && events == Events(steps[..n])
    ensures Run(m.engine, device, events).Some?
  {
    if n == |steps| {
      assert steps[..n] == steps;
    } else {
      assert HonestAt(m, device, steps, worlds, n);
    }
  }

  lemma {:induction false} NextSound(m: Setting, device: Device, steps: seq<Step>, worlds: seq<World>, n: nat, r: ReqId,
                                     before: seq<Event>, events: seq<Event>)
    requires HonestRun(m, device, steps, worlds) && ShelteredRun(m, device, steps, worlds, r) && n < |steps|
    requires before == Events(steps[..n]) && events == before + [steps[n].e] == Events(steps[..n + 1])
    requires EndsSound(m, device, before, worlds[n], r)
    ensures EndsSound(m, device, events, worlds[n + 1], r)
  {
    PrefixRuns(m, device, steps, worlds, n + 1, events);
    assert HonestAt(m, device, steps, worlds, n) && ShelteredAt(m, device, steps, worlds, r, n);
    StepOfRun(m, device, before, events, worlds[n], worlds[n + 1], steps[n], r);
  }

  lemma {:induction false} SoundAt(m: Setting, device: Device, steps: seq<Step>, worlds: seq<World>, n: nat, r: ReqId, events: seq<Event>)
    requires HonestRun(m, device, steps, worlds) && ShelteredRun(m, device, steps, worlds, r) && n <= |steps|
    requires events == Events(steps[..n])
    ensures EndsSound(m, device, events, worlds[n], r)
  {
    EventsBut(steps, n);
    if n == 0 {
      ColdSound(m, device, events, worlds[0], r);
    } else {
      SoundAt(m, device, steps, worlds, n - 1, r, Events(steps[..n - 1]));
      NextSound(m, device, steps, worlds, n - 1, r, Events(steps[..n - 1]), events);
    }
  }

  // ----- main results -----

  /** Losslessness under overlap: in every run, with plain decodes overlapped to any depth, verifies, host
      answers, failed reads and forced resets, the current history of a request whose pages nobody else
      writes is what the target generates from its prompt one token at a time. */
  lemma {:induction false} OverlappedTextIsGenerated(m: Setting, device: Device, steps: seq<Step>, worlds: seq<World>, r: ReqId)
    requires HonestRun(m, device, steps, worlds) && ShelteredRun(m, device, steps, worlds, r)
    requires r in Run(m.engine, device, Events(steps)).value.host.history
    ensures var s, l := Run(m.engine, device, Events(steps)).value, WaitingRun(Events(steps), r);
            && s.queue.resolved <= |s.queue.pending| && l.Some?
            && Current(s, r) == SpecLossless.Generate(Attending(m), r, l.value.settled, |Current(s, r)|)
            && s.host.history[r] <= Current(s, r)
  {
    assert steps[..|steps|] == steps;
    SoundAt(m, device, steps, worlds, |steps|, r, Events(steps));
    var s :| Run(m.engine, device, Events(steps)) == Some(s)
             && Sound(m, s, worlds[|steps|].contexts, worlds[|steps|].memory, r, WaitingRun(Events(steps), r));
    var l := WaitingRun(Events(steps), r).value;
    TracksCurrent(s, r, l);
    SpecLossless.ContinuesIsGenerate(Attending(m), r, l.settled, Current(s, r));
  }

  /** Row `i` of the decode `step` in state `s`: its count selects the state of all but its last token. */
  ghost predicate SelectsItsState(m: Setting, s: State, kv: Contexts, step: Step, i: nat)
    requires i < |step.e.rows|
  {
    && s.queue.resolved <= |s.queue.pending| == |s.queue.overlapOk|
    && var ready, r := Prepared(m.engine, s, step.e), step.e.rows[i];
       && ready.queue.resolved <= |ready.queue.pending| && Built(m.engine, ready, step.e).Ok? && r in kv && Current(ready, r) != []
       && StateOf(kv[r].states, RowOfDecode(m.engine, ready, step.e, i).count) == Current(ready, r)[..|Current(ready, r)| - 1]
  }

  /** The accepted counts of overlapped runs select the right candidate: whenever a decode runs a row, of a
      recurrent target, the state its sent count selects holds everything but the last token. */
  lemma {:induction false} SentCountsSelectTheirState(m: Setting, device: Device, steps: seq<Step>, worlds: seq<World>, n: nat, i: nat)
    requires HonestRun(m, device, steps, worlds) && n < |steps| && i < |steps[n].e.rows| && m.model.recurrent
    requires ShelteredRun(m, device, steps, worlds, steps[n].e.rows[i]) && steps[n].e.action.Decode?
    ensures Run(m.engine, device, Events(steps[..n])).Some?
    ensures SelectsItsState(m, Run(m.engine, device, Events(steps[..n])).value, worlds[n].contexts, steps[n], i)
  {
    assert HonestAt(m, device, steps, worlds, n);
    EventsBut(steps, n + 1);
    PrefixRuns(m, device, steps, worlds, n + 1, Events(steps[..n + 1]));
    var before, step, r := Events(steps[..n]), steps[n], steps[n].e.rows[i];
    SoundAt(m, device, steps, worlds, n, r, before);
    var s :| Run(m.engine, device, before) == Some(s) && Sound(m, s, worlds[n].contexts, worlds[n].memory, r, WaitingRun(before, r));
    LastStep(m.engine, device, before, step.e);
    SelectedAtBuild(m, s, worlds[n].contexts, worlds[n].memory, worlds[n + 1].memory, step, i, WaitingRun(before, r));
  }

  /** Why a failed read loses a recurrent state: the retried decode would be built at the default count, and
      the state that selects already holds the token it decodes again. */
  lemma UnreadAdvancesState(context: Context, row: RowIn, history: seq<Token>)
    requires Follows(row.c, history) && StateOf(context.states, row.count) == history[..|history| - 1]
    ensures StateOf(StatesAfter(StateOf(context.states, row.count), row.c), 1) == history != history[..|history| - 1]
  {
    assert row.c.tokens[..1] == [history[|history| - 1]];
  }

  lemma {:induction false} SelectedAtBuild(m: Setting, s: State, kv: Contexts, before: Memory, after: Memory, step: Step, i: nat,
                                           l: Option<Ledger>)
    requires i < |step.e.rows| && step.e.action.Decode? && m.model.recurrent
    requires Sound(m, s, kv, before, step.e.rows[i], l) && Legal(m.engine, s, step.e) && Fits(m.engine, s, step.e)
    requires HonestStep(m, s, kv, before, after, step)
    ensures SelectsItsState(m, s, kv, step, i)
  {
    SoundIsPoised(m, s, kv, before, step, step.e.rows[i], l);
    assert HonestDecodeRow(m, Prepared(m.engine, s, step.e), Remaining(kv, step), after, step.e, i);
    SelectedWhenPoised(m, Prepared(m.engine, s, step.e), Remaining(kv, step), before, after, step, i, Announced(l, step.e, step.e.rows[i]));
  }

  lemma {:induction false} SelectedWhenPoised(m: Setting, ready: State, kv: Contexts, before: Memory, after: Memory, step: Step, i: nat,
                                              l: Option<Ledger>)
    requires i < |step.e.rows| && step.e.action.Decode? && m.model.recurrent && |step.e.action.tokens| == |step.e.rows|
    requires Poised(m, ready, step.e, kv, before, step.e.rows[i], l) && Built(m.engine, ready, step.e).Ok?
    requires HonestDecodeRow(m, ready, kv, after, step.e, i)
    ensures step.e.rows[i] in kv && Current(ready, step.e.rows[i]) != []
    ensures StateOf(kv[step.e.rows[i]].states, RowOfDecode(m.engine, ready, step.e, i).count)
            == Current(ready, step.e.rows[i])[..|Current(ready, step.e.rows[i])| - 1]
  {
    assert step.e.rows[i] in Members(step.e.rows);
    SentCount(m.engine, ready, step.e, i);
    TracksCurrent(ready, step.e.rows[i], l.value);
  }

  /** The settled part of a request's ledger is the prompt it arrived with. */
  lemma {:induction false} SettledIsPrompt(events: seq<Event>, r: ReqId)
    requires WaitingRun(events, r).Some?
    ensures exists i :: 0 <= i < |events| && r in events[i].arrivals && events[i].arrivals[r] == WaitingRun(events, r).value.settled
  {
    var n := |events| - 1;
    if r in events[n].arrivals {
      assert events[n].arrivals[r] == WaitingRun(events, r).value.settled;
    } else {
      SettledIsPrompt(events[..n], r);
      var i :| 0 <= i < n && r in events[..n][i].arrivals && events[..n][i].arrivals[r] == WaitingRun(events[..n], r).value.settled;
      assert r in events[i].arrivals && events[i].arrivals[r] == WaitingRun(events, r).value.settled;
    }
  }
}
