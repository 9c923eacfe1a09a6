/**
 Whole runs of a speculating launch against a deterministic target.

 The device keeps two kinds of context per request: a KV cache written by position, and one
 recurrent state per candidate column, of which `accepted_counts` selects the one to continue
 from. The target may read both, so a wrong position, a wrong draft column or a wrong count
 shows up as a wrong token.
 */
module SpecRuns {
  import opened Runtime
  import opened SpecAccept
  import opened SpecDecode

  /** The target's next token for a request, from its attention context and its recurrent state. */
  type Target = (ReqId, seq<Token>, seq<Token>) -> Token

  datatype DeviceRow = DeviceRow(kv: seq<Token>, states: seq<seq<Token>>)

  /** A submitted step whose answer is not committed yet. */
  datatype Flight = Flight(rows: seq<ReqId>, liveRows: seq<nat>, built: SpecRows, answers: seq<seq<Token>>)

  datatype State = State(
    prompts: map<ReqId, seq<Token>>,
    host: Host,
    device: map<ReqId, DeviceRow>,
    batch: set<ReqId>,
    flight: Option<Flight>)

  /** What can happen between two engine steps. Proposals are arbitrary: no drafter is trusted. */
  datatype Event =
    | Admit(r: ReqId, prompt: seq<Token>)
    | Prefill(rows: seq<ReqId>)
    | Submit(step: StepIn, idleTokens: seq<Token>, idlePositions: seq<int>, idleAnswers: seq<seq<Token>>)
    | Commit(skip: set<ReqId>)
    | Rebatch(members: set<ReqId>)
    | Propose(proposals: map<ReqId, seq<Token>>)
    | Preempt(r: ReqId)
    | Finish(r: ReqId)

  // ----- the device -----

  /** KV after writing the first `n` columns, each at its own position. */
  function WriteKv(kv: seq<Token>, tokens: seq<Token>, positions: seq<int>, n: nat): seq<Token>
    requires n <= |tokens| && n <= |positions|
  {
    if n == 0 then kv
    else
      var written, p := WriteKv(kv, tokens, positions, n - 1), positions[n - 1];
      if 0 <= p < |written| then written[p := tokens[n - 1]]
      else if p == |written| then written + [tokens[n - 1]]
      else written
  }

  function Attended(kv: seq<Token>, position: int): seq<Token> {
    if 0 <= position < |kv| then kv[..position + 1] else kv
  }

  /** The candidate state a count selects: state `count - 1`. */
  function Selected(row: DeviceRow, count: nat): seq<Token> {
    if 1 <= count <= |row.states| then row.states[count - 1] else []
  }

  function Choice(target: Target, r: ReqId, kv: seq<Token>, state: seq<Token>, tokens: seq<Token>, positions: seq<int>, j: nat): Token
    requires j < |tokens| && j < |positions|
  {
    target(r, Attended(kv, positions[j]), state + tokens[..j + 1])
  }

  function RowValid(built: SpecRows, i: nat): nat {
    if built.verify && i < |built.numValid| then built.numValid[i] else 0
  }

  function RowCountSent(built: SpecRows, i: nat): nat {
    if built.accepted.Some? && i < |built.accepted.value| then built.accepted.value[i] else 1
  }

  /** Every block row is as wide as the call shape and has a position per token. */
  predicate Wellshaped(built: SpecRows, i: nat) {
    && i < |built.tokens| && i < |built.positions|
    && |built.tokens[i]| == |built.positions[i]|
    && RowValid(built, i) < |built.tokens[i]|
  }

  function RowAfter(device: DeviceRow, built: SpecRows, i: nat): DeviceRow
    requires Wellshaped(built, i)
  {
    var tokens, state := built.tokens[i], Selected(device, RowCountSent(built, i));
    DeviceRow(WriteKv(device.kv, tokens, built.positions[i], RowValid(built, i) + 1),
              seq(RowValid(built, i) + 1, j requires 0 <= j <= RowValid(built, i) => state + tokens[..j + 1]))
  }

  /** The answer of one live row: the target's choice per real column, anything on padded columns. */
  function RowAnswer(target: Target, r: ReqId, device: DeviceRow, built: SpecRows, i: nat, padding: seq<Token>): seq<Token>
    requires Wellshaped(built, i) && |padding| == |built.tokens[i]|
  {
    var tokens, positions, valid := built.tokens[i], built.positions[i], RowValid(built, i);
    var kv := WriteKv(device.kv, tokens, positions, valid + 1);
    var state := Selected(device, RowCountSent(built, i));
    seq(|tokens|, j requires 0 <= j < |tokens| =>
      if j <= valid then Choice(target, r, kv, state, tokens, positions, j) else padding[j])
  }

  // ----- events -----

  function InputToken(host: Host, step: StepIn, idle: seq<Token>, i: nat): Token
    requires |idle| == step.numRows && i < step.numRows
    requires |step.rows| == |step.liveRows| && forall r :: r in step.rows ==> r in host.history && host.history[r] != []
  {
    var k := LiveAt(step.liveRows, i);
    if k < |step.rows| then assert step.rows[k] in step.rows; host.history[step.rows[k]][|host.history[step.rows[k]]| - 1]
    else idle[i]
  }

  function InputPosition(host: Host, step: StepIn, idle: seq<int>, i: nat): int
    requires |idle| == step.numRows && i < step.numRows
    requires |step.rows| == |step.liveRows| && forall r :: r in step.rows ==> r in host.history
  {
    var k := LiveAt(step.liveRows, i);
    if k < |step.rows| then assert step.rows[k] in step.rows; |host.history[step.rows[k]]| - 1 else idle[i]
  }

  /** The scheduler decodes distinct requests that hold a row and a device state. */
  ghost predicate CanSubmit(s: State, e: Event)
    requires e.Submit?
  {
    && s.flight.None?
    && Placed(e.step) && Distinct(e.step.rows) && Distinct(e.step.liveRows)
    && |e.idleTokens| == |e.idlePositions| == |e.idleAnswers| == e.step.numRows
    && forall r :: r in e.step.rows ==> r in s.device && r in s.batch && r in s.host.history && s.host.history[r] != []
  }

  /** The rows a plain decode would send: each live row's last token at its own position. */
  ghost function InputTokens(s: State, e: Event): seq<Token>
    requires e.Submit? && CanSubmit(s, e)
  {
    seq(e.step.numRows, i requires 0 <= i < e.step.numRows => InputToken(s.host, e.step, e.idleTokens, i))
  }

  ghost function InputPositions(s: State, e: Event): seq<int>
    requires e.Submit? && CanSubmit(s, e)
  {
    seq(e.step.numRows, i requires 0 <= i < e.step.numRows => InputPosition(s.host, e.step, e.idlePositions, i))
  }

  ghost predicate AllWellshaped(e: Event, built: SpecRows)
    requires e.Submit?
  {
    |e.idleAnswers| == e.step.numRows
    && forall i :: 0 <= i < e.step.numRows ==> Wellshaped(built, i) && |e.idleAnswers[i]| == |built.tokens[i]|
  }

  ghost function AnswerAt(target: Target, s: State, e: Event, built: SpecRows, i: nat): seq<Token>
    requires e.Submit? && AllWellshaped(e, built) && i < e.step.numRows
  {
    var k := LiveAt(e.step.liveRows, i);
    if k < |e.step.rows| && e.step.rows[k] in s.device
    then RowAnswer(target, e.step.rows[k], s.device[e.step.rows[k]], built, i, e.idleAnswers[i])
    else e.idleAnswers[i]
  }

  /** The forward over a built step. */
  ghost function Forward(target: Target, s: State, e: Event, host: Host, built: SpecRows): State
    requires e.Submit? && Placed(e.step) && AllWellshaped(e, built)
  {
    var answers := seq(e.step.numRows, i requires 0 <= i < e.step.numRows => AnswerAt(target, s, e, built, i));
    var device := map r | r in s.device ::
      if r in e.step.rows then RowAfter(s.device[r], built, RowOf(e.step, r)) else s.device[r];
    s.(host := host, device := device, flight := Some(Flight(e.step.rows, e.step.liveRows, built, answers)))
  }

  ghost function SubmitStep(launch: Launch, target: Target, s: State, e: Event): Option<State>
    requires e.Submit? && CanSubmit(s, e)
  {
    match BuildRows(launch, s.host, e.step, InputTokens(s, e), InputPositions(s, e))
    case Err(_) => None
    case Ok((host, built)) => if AllWellshaped(e, built) then Some(Forward(target, s, e, host, built)) else None
  }

  /** The block row of a scheduled request. */
  function IndexOf(rows: seq<ReqId>, r: ReqId): (k: nat)
    requires r in rows
    ensures k < |rows| && rows[k] == r
  {
    if rows[0] == r then 0 else 1 + IndexOf(rows[1..], r)
  }

  function RowOf(step: StepIn, r: ReqId): (i: nat)
    requires r in step.rows && Placed(step)
    ensures i < step.numRows
  {
    step.liveRows[IndexOf(step.rows, r)]
  }

  /** One row's plain token. None is the length error or a request the runner has lost. */
  function CommitPlainOne(maxModelLen: nat, host: Host, r: ReqId, token: Token, batch: set<ReqId>): Option<Host> {
    if r !in host.history || (r in batch && |host.history[r]| + 1 > maxModelLen) then None
    else Some(host.(history := host.history[r := host.history[r] + [token]]))
  }

  function CommitPlain(maxModelLen: nat, host: Host, rows: seq<ReqId>, tokens: seq<Token>, skip: set<ReqId>, batch: set<ReqId>)
    : Option<Host>
    requires |rows| == |tokens|
  {
    if rows == [] then Some(host)
    else
      var n := |rows| - 1;
      match CommitPlain(maxModelLen, host, rows[..n], tokens[..n], skip, batch)
      case None => None
      case Some(before) => if rows[n] in skip then Some(before) else CommitPlainOne(maxModelLen, before, rows[n], tokens[n], batch)
  }

  ghost predicate FlightShape(f: Flight) {
    && |f.rows| == |f.liveRows| && Distinct(f.rows)
    && (forall k :: 0 <= k < |f.liveRows| ==> f.liveRows[k] < |f.answers|)
    && |f.built.tokens| == |f.answers|
    && (forall i :: 0 <= i < |f.answers| ==> Wellshaped(f.built, i) && |f.answers[i]| == |f.built.tokens[i]|)
  }

  /** A commit skips only requests whose device state is gone, and a request that lost its row
      between submission and commit has to be below the length cap: that branch checks nothing. */
  ghost predicate CanCommit(launch: Launch, s: State, skip: set<ReqId>) {
    && s.flight.Some? && FlightShape(s.flight.value)
    && skip !! s.device.Keys
    && forall r :: r in s.flight.value.rows && r in s.host.history && r !in s.batch && r !in skip ==>
         |s.host.history[r]| < launch.maxModelLen
  }

  /** A verify the accept walk can read: one answer, one draft row and one count per block row. */
  ghost predicate Walkable(launch: Launch, f: Flight) {
    && |f.built.drafts| == |f.built.numValid| == |f.answers|
    && forall i :: 0 <= i < |f.answers| ==>
         |f.answers[i]| == launch.k + 1 && |f.built.drafts[i]| == launch.k && f.built.numValid[i] <= launch.k
  }

  ghost function WalkOf(launch: Launch, f: Flight): Result<Walk, AcceptError>
    requires Walkable(launch, f)
  {
    AcceptGreedyDrafts(Block(launch.k + 1, f.answers), Block(launch.k, f.built.drafts), f.built.numValid)
  }

  ghost predicate WalkFits(f: Flight, walk: Walk) {
    && |walk.committed.rows| == |walk.counts| == |f.answers|
    && (forall k :: 0 <= k < |f.liveRows| ==> f.liveRows[k] < |f.answers|)
    && forall i :: 0 <= i < |f.answers| ==> walk.counts[i] <= |walk.committed.rows[i]|
  }

  ghost function LiveCommitted(f: Flight, walk: Walk): seq<seq<Token>>
    requires WalkFits(f, walk)
  {
    seq(|f.liveRows|, k requires 0 <= k < |f.liveRows| => walk.committed.rows[f.liveRows[k]])
  }

  ghost function LiveAccepted(f: Flight, walk: Walk): seq<nat>
    requires WalkFits(f, walk)
  {
    seq(|f.liveRows|, k requires 0 <= k < |f.liveRows| => walk.counts[f.liveRows[k]])
  }

  ghost function LiveSampled(f: Flight): seq<Token>
    requires FlightShape(f)
  {
    seq(|f.liveRows|, k requires 0 <= k < |f.liveRows| => f.answers[f.liveRows[k]][0])
  }

  ghost function CommitStep(launch: Launch, s: State, skip: set<ReqId>): Option<State>
    requires CanCommit(launch, s, skip)
  {
    var f := s.flight.value;
    if f.built.verify then
      if !Walkable(launch, f) || WalkOf(launch, f).Err? || !WalkFits(f, WalkOf(launch, f).value) then None
      else
        var walk := WalkOf(launch, f).value;
        match CommitRows(launch.maxModelLen, s.host, f.rows, LiveCommitted(f, walk), LiveAccepted(f, walk),
                         skip, s.batch, s.device.Keys)
        case None => None
        case Some(host) => Some(s.(host := host, flight := None))
    else
      match CommitPlain(launch.maxModelLen, s.host, f.rows, LiveSampled(f), skip, s.batch)
      case None => None
      case Some(host) => Some(s.(host := host, flight := None))
  }

  /** A prefill writes the whole history, commits one token and drops the accepted count. */
  ghost predicate CanPrefill(launch: Launch, s: State, rows: seq<ReqId>) {
    && s.flight.None? && Distinct(rows)
    && forall r :: r in rows ==> r in s.host.history && |s.host.history[r]| < launch.maxModelLen
  }

  function PrefillStep(target: Target, s: State, rows: seq<ReqId>): State
    requires forall r :: r in rows ==> r in s.host.history
  {
    var h := s.host.history;
    s.(host := s.host.(history := map r | r in h :: if r in rows then h[r] + [target(r, h[r], h[r])] else h[r],
                       counts := map r | r in s.host.counts && r in h && r !in rows :: s.host.counts[r]),
       device := map r | r in s.device.Keys + (set q | q in rows) :: if r in rows then DeviceRow(h[r], [h[r]]) else s.device[r],
       batch := set q | q in rows)
  }

  /** None: the event is not one the engine can produce here, or the runner raised. */
  ghost function Next(launch: Launch, target: Target, s: State, e: Event): Option<State> {
    match e
    case Admit(r, prompt) =>
      if r in s.host.history || prompt == [] || (s.flight.Some? && r in s.flight.value.rows) then None
      else Some(s.(prompts := s.prompts[r := prompt], host := s.host.(history := s.host.history[r := prompt])))
    case Prefill(rows) => if CanPrefill(launch, s, rows) then Some(PrefillStep(target, s, rows)) else None
    case Submit(_, _, _, _) => if CanSubmit(s, e) then SubmitStep(launch, target, s, e) else None
    case Commit(skip) => if CanCommit(launch, s, skip) then CommitStep(launch, s, skip) else None
    case Rebatch(members) => if members <= s.host.history.Keys then Some(s.(batch := members)) else None
    case Propose(proposals) => Some(s.(host := s.host.(proposed := proposals)))
    case Preempt(r) => Some(s.(device := s.device - {r}, batch := s.batch - {r}))
    case Finish(r) =>
      Some(s.(prompts := s.prompts - {r}, host := s.host.(history := s.host.history - {r}),
              device := s.device - {r}, batch := s.batch - {r}))
  }

  const INITIAL := State(map[], Host(map[], map[], map[]), map[], {}, None)

  ghost function Run(launch: Launch, target: Target, events: seq<Event>): Option<State> {
    if events == [] then Some(INITIAL)
    else
      match Run(launch, target, events[..|events| - 1])
      case None => None
      case Some(s) => Next(launch, target, s, events[|events| - 1])
  }
}
