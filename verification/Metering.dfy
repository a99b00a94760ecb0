/** One organization's paid AI exchanges (`service.py`, `billing/holds.py`, `billing/wallet.py`) as a step system:
    calls of `invoke` interleave at every commit boundary, the provider answers between two transactions, and an
    agent round may hold several settlements in one transaction that it commits or rolls back. An event that is
    not enabled leaves the world as it is. */
module Metering {
  import opened Basics
  import Usage = UsageLedger

  const MAX_OUTPUT_CHARS := 256_000

  datatype Route = Route(publicName: string, mock: bool, cost: nat)

  /** `tool` is empty when the caller names none; `inRound` calls run inside the open agent round. */
  datatype Request = Request(
    key: string, user: nat, capability: string, tool: string, inputHash: string, inRound: bool)

  /** A provider's result; its tokens are measured only when `known`. */
  datatype Answer = Answer(output: string, prompt: nat, completion: nat, latency: nat, known: bool)

  datatype Reply =
    | Delivered(answer: Answer)
    | Failed(code: Usage.ErrorCode, tokens: Option<(nat, nat)>)

  /** What the audit seals, and what the caller reads. */
  datatype Envelope = Envelope(
    capability: string, model: string, output: string, prompt: nat, completion: nat, latency: nat,
    credits: nat, testMode: bool, usage: nat)

  datatype Response = Response(
    audit: nat, capability: string, model: string, output: string, prompt: nat, completion: nat, latency: nat,
    credits: nat, testMode: bool, usage: nat)

  datatype Refusal =
    | Conflict | NoEntitlement | UnknownCapability | NoCredits | Uncertain | InvalidCredits
    | InProgress | OverBudget | ProviderFailed(code: Usage.ErrorCode) | TooLarge

  datatype Outcome = Answered(response: Response) | Refused(why: Refusal)

  /** Where a call stands between two commits. */
  datatype Pc =
    | Arrived
    | Admitting(route: Route)
    | Beginning(route: Route)
    | Asking(route: Route, attempt: nat)
    | Reporting(route: Route, attempt: nat, reply: Reply)
    | Settling(route: Route, attempt: nat, answer: Answer)
    | Releasing(uncertain: bool, result: Outcome)
    | Done(outcome: Outcome)

  datatype Call = Call(request: Request, pc: Pc)

  datatype Audit = Audit(
    id: nat, key: string, user: nat, tool: string, inputHash: string, points: nat, envelope: Envelope, month: int)

  datatype Entry = Grant(amount: nat) | Expiry(amount: nat) | Debit(amount: nat, audit: nat)

  /** What the wallet transaction writes. */
  datatype Books = Books(balance: int, ledger: seq<Entry>, audits: seq<Audit>)

  datatype HoldStatus = Active | Doubtful | Settled | Released

  datatype Hold = Hold(key: string, status: HoldStatus, credits: nat)

  /** `saved` is what the open agent round found and would roll back to; `inFlight` the holds it has settled. */
  datatype World = World(
    books: Books,
    saved: Option<Books>,
    inFlight: set<string>,
    attempts: seq<Usage.Attempt>,
    holds: seq<Hold>,
    budget: Option<nat>,
    calls: seq<Call>,
    nextAudit: nat)

  datatype Event =
    | Arrive(request: Request)
    | Open(c: nat, entitled: bool, found: Option<Route>)
    | Admit(c: nat)
    | Begin(c: nat, month: int)
    | Hear(c: nat, reply: Reply)
    | Report(c: nat)
    | Release(c: nat)
    | Settle(c: nat, entitled: bool, month: int)
    | Credit(amount: nat)
    | Expire(amount: nat)
    | Sweep(key: string)
    | Conciliate(key: string, paid: bool)
    | ReleaseHeld(key: string)
    | RoundStart | RoundCommit | RoundRollback

  // ---------------------------------------------------------------- reading

  function Amount(e: Entry): int {
    if e.Grant? then 0 + e.amount else 0 - e.amount
  }

  function Total(ledger: seq<Entry>): int {
    if ledger == [] then 0 else Total(ledger[..|ledger| - 1]) + Amount(ledger[|ledger| - 1])
  }

  /** What other connections see: the books before the open round, if there is one. */
  function Visible(w: World): Books {
    if w.saved.Some? then w.saved.value else w.books
  }

  function FindAudit(audits: seq<Audit>, key: string): (found: Option<Audit>)
    ensures found.Some? ==> found.value in audits && found.value.key == key
    ensures found.None? ==> forall i | 0 <= i < |audits| :: audits[i].key != key
  {
    if audits == [] then None
    else if audits[|audits| - 1].key == key then Some(audits[|audits| - 1])
    else FindAudit(audits[..|audits| - 1], key)
  }

  /** The index of the hold of a key, or the length. */
  function HoldAt(holds: seq<Hold>, key: string): (i: nat)
    ensures i <= |holds|
    ensures i < |holds| ==> holds[i].key == key
    ensures forall k | 0 <= k < i :: holds[k].key != key
  {
    if holds == [] || holds[0].key == key then 0 else 1 + HoldAt(holds[1..], key)
  }

  /** The credits active or doubtful holds retain, without those of one key. */
  function HeldBeside(holds: seq<Hold>, key: string): nat {
    if holds == [] then 0
    else
      var h := holds[|holds| - 1];
      HeldBeside(holds[..|holds| - 1], key) + if h.key != key && h.status in {Active, Doubtful} then h.credits else 0
  }

  function Paid(audits: seq<Audit>): seq<Usage.PaidAudit> {
    seq(|audits|, i requires 0 <= i < |audits| =>
      Usage.PaidAudit(audits[i].user, audits[i].key, audits[i].points, audits[i].month))
  }

  function ToolName(r: Request): string {
    if r.tool == "" then r.capability else r.tool
  }

  // ---------------------------------------------------------------- replay and response

  function Seal(r: Request, route: Route, a: Answer, usage: nat): Envelope {
    Envelope(r.capability, route.publicName, a.output, a.prompt, a.completion, a.latency, route.cost, route.mock, usage)
  }

  function Respond(audit: nat, r: Request, route: Route, a: Answer, usage: nat): Response {
    Response(audit, r.capability, route.publicName, a.output, a.prompt, a.completion, a.latency, route.cost,
             route.mock, usage)
  }

  function Unseal(audit: nat, e: Envelope): Response {
    Response(audit, e.capability, e.model, e.output, e.prompt, e.completion, e.latency, e.credits, e.testMode, e.usage)
  }

  predicate SameRequest(a: Audit, r: Request) {
    a.envelope.capability == r.capability && a.inputHash == r.inputHash && a.tool == ToolName(r)
  }

  /** What a completed key answers: its stored response, or a conflict for another request. */
  function Replay(a: Audit, r: Request): Outcome {
    if SameRequest(a, r) then Answered(Unseal(a.id, a.envelope)) else Refused(Conflict)
  }

  // ---------------------------------------------------------------- the steps of a call

  function Move(w: World, c: nat, pc: Pc): World
    requires c < |w.calls|
  {
    w.(calls := w.calls[c := w.calls[c].(pc := pc)])
  }

  /** A call inside the round runs while the round is open, any other while none is: the organization's row lock. */
  predicate HasTheLock(w: World, c: nat)
    requires c < |w.calls|
  {
    w.calls[c].request.inRound == w.saved.Some?
  }

  function OpenStep(w: World, c: nat, entitled: bool, found: Option<Route>): World {
    if c >= |w.calls| || w.calls[c].pc != Arrived || !HasTheLock(w, c) then w
    else
      var r := w.calls[c].request;
      var audit := FindAudit(w.books.audits, r.key);
      Move(w, c,
        if audit.Some? then Done(Replay(audit.value, r))
        else if !entitled then Done(Refused(NoEntitlement))
        else if found.None? then Done(Refused(UnknownCapability))
        else if w.books.balance < found.value.cost then Done(Refused(NoCredits))
        else Admitting(found.value))
  }

  function PutHold(holds: seq<Hold>, h: Hold): seq<Hold> {
    var i := HoldAt(holds, h.key);
    if i < |holds| then holds[i := h] else holds + [h]
  }

  /** An active or settled hold is reused, a doubtful one refuses, a released one is taken again. */
  function AdmitStep(w: World, c: nat): World {
    if c >= |w.calls| || !w.calls[c].pc.Admitting? || w.calls[c].request.key in w.inFlight then w
    else
      var key, route := w.calls[c].request.key, w.calls[c].pc.route;
      var i := HoldAt(w.holds, key);
      if route.cost == 0 then Move(w, c, Done(Refused(InvalidCredits)))
      else if i < |w.holds| && w.holds[i].status in {Active, Settled} then Move(w, c, Beginning(route))
      else if i < |w.holds| && w.holds[i].status == Doubtful then Move(w, c, Done(Refused(Uncertain)))
      else if Visible(w).balance - HeldBeside(w.holds, key) < route.cost then Move(w, c, Done(Refused(NoCredits)))
      else Move(w, c, Beginning(route)).(holds := PutHold(w.holds, Hold(key, Active, route.cost)))
  }

  function ExchangeOf(r: Request, route: Route): Usage.Exchange {
    Usage.Exchange(r.key, r.user, r.inputHash, r.capability, route.cost)
  }

  function BeginReply(w: World, c: nat, month: int): (seq<Usage.Attempt>, Usage.BeginReply)
    requires c < |w.calls| && w.calls[c].pc.Beginning?
  {
    Usage.Begin(w.attempts, Paid(Visible(w).audits), w.budget,
                ExchangeOf(w.calls[c].request, w.calls[c].pc.route), month, |w.attempts|)
  }

  function BeginStep(w: World, c: nat, month: int): World {
    if c >= |w.calls| || !w.calls[c].pc.Beginning? then w
    else
      var (attempts, reply) := BeginReply(w, c, month);
      match reply
      case Begun(a) => Move(w, c, Asking(w.calls[c].pc.route, a.id)).(attempts := attempts)
      case Conflict => Move(w, c, Releasing(false, Refused(Conflict)))
      case InProgress => Move(w, c, Releasing(false, Refused(InProgress)))
      case Blocked => Move(w, c, Releasing(false, Refused(OverBudget)))
  }

  function HearStep(w: World, c: nat, reply: Reply): World {
    if c >= |w.calls| || !w.calls[c].pc.Asking? then w
    else Move(w, c, Reporting(w.calls[c].pc.route, w.calls[c].pc.attempt, reply))
  }

  function ReportOf(reply: Reply): Usage.Report {
    match reply
    case Delivered(a) => Usage.Report(None, if a.known then Some((a.prompt, a.completion)) else None)
    case Failed(code, tokens) => Usage.Report(Some(code), tokens)
  }

  /** The exchange is written down before anything else; only a result of acceptable size goes on to be paid. */
  function ReportStep(w: World, c: nat): World {
    if c >= |w.calls| || !w.calls[c].pc.Reporting? then w
    else
      var pc := w.calls[c].pc;
      var after := match pc.reply
        case Failed(code, _) => Releasing(code.ProviderTimeout?, Refused(ProviderFailed(code)))
        case Delivered(a) =>
          if |a.output| > MAX_OUTPUT_CHARS then Releasing(false, Refused(TooLarge))
          else Settling(pc.route, pc.attempt, a);
      Move(w, c, after).(attempts := Usage.Finish(w.attempts, pc.attempt, ReportOf(pc.reply)))
  }

  /** Only an active hold changes. */
  function SetActive(holds: seq<Hold>, key: string, status: HoldStatus): (after: seq<Hold>)
    ensures |after| == |holds|
    ensures forall k | 0 <= k < |holds| :: after[k].key == holds[k].key && after[k].credits == holds[k].credits
  {
    var i := HoldAt(holds, key);
    if i < |holds| && holds[i].status == Active then holds[i := holds[i].(status := status)] else holds
  }

  function ReleaseStep(w: World, c: nat): World {
    if c >= |w.calls| || !w.calls[c].pc.Releasing? || w.calls[c].request.key in w.inFlight then w
    else
      var status := if w.calls[c].pc.uncertain then Doubtful else Released;
      Move(w, c, Done(w.calls[c].pc.result)).(holds := SetActive(w.holds, w.calls[c].request.key, status))
  }

  /** Audit and debit in one transaction; a refused debit takes the audit back and leaves the hold as it is. */
  function SettleStep(w: World, c: nat, entitled: bool, month: int): World {
    if c >= |w.calls| || !w.calls[c].pc.Settling? || !HasTheLock(w, c) then w
    else
      var r, pc := w.calls[c].request, w.calls[c].pc;
      var known := FindAudit(w.books.audits, r.key);
      if known.Some? then
        var replay := Replay(known.value, r);
        Move(w, c, if replay.Answered? then Releasing(false, replay) else Done(replay))
      else if !entitled then Move(w, c, Done(Refused(NoEntitlement)))
      else if w.books.balance < pc.route.cost then Move(w, c, Done(Refused(NoCredits)))
      else
        var id := w.nextAudit;
        var audit := Audit(id, r.key, r.user, ToolName(r), r.inputHash, pc.route.cost,
                           Seal(r, pc.route, pc.answer, pc.attempt), month);
        var books := Books(w.books.balance - pc.route.cost,
                           w.books.ledger + [Debit(pc.route.cost, id)], w.books.audits + [audit]);
        Move(w, c, Done(Answered(Respond(id, r, pc.route, pc.answer, pc.attempt)))).(
          books := books,
          nextAudit := id + 1,
          inFlight := if w.saved.Some? then w.inFlight + {r.key} else w.inFlight,
          holds := if w.saved.Some? then w.holds else SetActive(w.holds, r.key, Settled))
  }

  // ---------------------------------------------------------------- the wallet, the holds and the round

  function CreditStep(w: World, amount: nat): World {
    w.(books := w.books.(balance := w.books.balance + amount, ledger := w.books.ledger + [Grant(amount)]))
  }

  function ExpireStep(w: World, amount: nat): World {
    if amount > w.books.balance then w
    else w.(books := w.books.(balance := w.books.balance - amount, ledger := w.books.ledger + [Expiry(amount)]))
  }

  predicate IsRunning(attempts: seq<Usage.Attempt>, key: string) {
    exists i | 0 <= i < |attempts| :: attempts[i].key == key && attempts[i].status.Running?
  }

  /** An old active hold whose exchange is over: settled when its debit stands, released otherwise. */
  function SweepStep(w: World, key: string): World {
    if key in w.inFlight || IsRunning(w.attempts, key) then w
    else
      var debited := FindAudit(Visible(w).audits, key).Some?;
      w.(holds := SetActive(w.holds, key, if debited then Settled else Released))
  }

  function ConciliateStep(w: World, key: string, paid: bool): World {
    var i := HoldAt(w.holds, key);
    if i < |w.holds| && w.holds[i].status == Doubtful then
      w.(holds := w.holds[i := w.holds[i].(status := if paid then Settled else Released)])
    else w
  }

  /** The holds the round settled become settled with it. */
  function SettleAll(holds: seq<Hold>, keys: set<string>): (after: seq<Hold>)
    ensures |after| == |holds|
    ensures forall k | 0 <= k < |holds| :: after[k].key == holds[k].key && after[k].credits == holds[k].credits
  {
    seq(|holds|, i requires 0 <= i < |holds| =>
      if holds[i].key in keys && holds[i].status == Active then holds[i].(status := Settled) else holds[i])
  }

  function Next(w: World, e: Event): World {
    match e
    case Arrive(request) => w.(calls := w.calls + [Call(request, Arrived)])
    case Open(c, entitled, found) => OpenStep(w, c, entitled, found)
    case Admit(c) => AdmitStep(w, c)
    case Begin(c, month) => BeginStep(w, c, month)
    case Hear(c, reply) => HearStep(w, c, reply)
    case Report(c) => ReportStep(w, c)
    case Release(c) => ReleaseStep(w, c)
    case Settle(c, entitled, month) => SettleStep(w, c, entitled, month)
    case Credit(amount) => CreditStep(w, amount)
    case Expire(amount) => ExpireStep(w, amount)
    case Sweep(key) => SweepStep(w, key)
    case Conciliate(key, paid) => ConciliateStep(w, key, paid)
    case ReleaseHeld(key) =>
      if key in w.inFlight then w else w.(holds := SetActive(w.holds, key, Released))
    case RoundStart => if w.saved.Some? then w else w.(saved := Some(w.books))
    case RoundCommit =>
      if w.saved.None? then w
      else w.(saved := None, inFlight := {}, holds := SettleAll(w.holds, w.inFlight))
    case RoundRollback =>
      if w.saved.None? then w else w.(books := w.saved.value, saved := None, inFlight := {})
  }

  function Run(w: World, events: seq<Event>): World
    decreases |events|
  {
    if events == [] then w else Run(Next(w, events[0]), events[1..])
  }
}
